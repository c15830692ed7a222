/** Option and Result, the two failure-carrying datatypes the model shares. */
module Wrappers {

  /** A value that may be absent; `None` stands for a Java `null`. */
  datatype Option<+T> = None | Some(value: T)

  /** The outcome of an operation that either completes or raises `error`. */
  datatype Result<+R, +E> = Success(value: R) | Failure(error: E)
}
