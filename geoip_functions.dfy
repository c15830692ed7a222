/** The Drill functions around the GeoIP lookups: setup assigns the
    reader workspace field, and eval writes the chosen value into the
    output holder, copying text and points into the injected buffer. */
module GeoIPFunctions {
  import opened Wrappers
  import opened GeoIP

  /** The exceptions an eval lets escape. */
  datatype JavaException = NullPointerException | IndexOutOfBoundsException

  /** The output holder of VARCHAR and VARBINARY values: the value is
      buffer[start..end]. */
  class VarLenHolder {
    var buffer: array?<uint8>
    var start: int
    var end: int

    constructor ()
      ensures buffer == null && start == 0 && end == 0
    {
      buffer := null;
      start := 0;
      end := 0;
    }

    /** The holder designates a range of its buffer. */
    predicate Readable()
      reads this
    {
      buffer != null && 0 <= start <= end <= buffer.Length
    }

    /** The bytes the holder designates. */
    function Contents(): Bytes
      reads this, buffer
      requires Readable()
    {
      buffer[start..end]
    }
  }

  /** The output holder of INT values. */
  class IntHolder {
    var value: int32

    constructor ()
      ensures value == 0
    {
      value := 0;
    }
  }

  /** The output holder of FLOAT8 values. */
  class Float8Holder {
    var value: Float64

    constructor ()
      ensures value == PositiveZero
    {
      value := PositiveZero;
    }
  }

  /** The output holder of BIT values: 1 for true, 0 for false. */
  class BitHolder {
    var value: int32

    constructor ()
      ensures value == 0
    {
      value := 0;
    }
  }

  /** The output holder of BIGINT values. */
  class BigIntHolder {
    var value: int64

    constructor ()
      ensures value == 0
    {
      value := 0;
    }
  }

  /** `buffer.setBytes(0, bytes)`: the bytes are copied to the start of the
      buffer and the rest is left alone; bytes beyond the buffer's capacity
      raise an IndexOutOfBoundsException before anything is copied. */
  method SetBytes(buffer: array<uint8>, bytes: Bytes) returns (thrown: Option<JavaException>)
    modifies buffer
    ensures |bytes| <= buffer.Length ==>
              thrown == None && buffer[..] == bytes + old(buffer[..])[|bytes|..]
    ensures buffer.Length < |bytes| ==>
              thrown == Some(IndexOutOfBoundsException) && buffer[..] == old(buffer[..])
  {
    if buffer.Length < |bytes| {
      return Some(IndexOutOfBoundsException);
    }
    forall i | 0 <= i < |bytes| {
      buffer[i] := bytes[i];
    }
    assert buffer[..] == bytes + old(buffer[..])[|bytes|..];
    return None;
  }

  /** The readers the three loaders return; None when a loader raises
      because its database cannot be read. */
  datatype Databases = Databases(country: Option<Reader>, city: Option<Reader>, asn: Option<Reader>) {
    function Loaded(database: Database): Option<Reader> {
      match database
      case CountryDatabase => country
      case CityDatabase => city
      case AsnDatabase => asn
    }
  }

  /** One lookup function: its reader workspace field, its setup and its
      eval, whose output holder depends on the function's family. */
  class GeoIPFunction {
    const kind: Function
    var reader: Reader

    /** Before setup the reader field is null. */
    constructor (kind: Function)
      ensures this.kind == kind && reader == Absent
    {
      this.kind := kind;
      reader := Absent;
    }

    /** setup: loads the function's database into the reader field; when
        the loader raises, setup raises and the field keeps its value. */
    method Setup(databases: Databases) returns (loaded: bool)
      modifies this
      ensures loaded == databases.Loaded(DatabaseOf(kind)).Some?
      ensures loaded ==> reader == databases.Loaded(DatabaseOf(kind)).value
      ensures !loaded ==> reader == old(reader)
    {
      var db := databases.Loaded(DatabaseOf(kind));
      if db.None? {
        return false;
      }
      reader := db.value;
      return true;
    }

    /** eval of a text function: sets out.buffer to the buffer and
        out.start to 0, then out.end to the byte length of the chosen
        string, then copies its bytes to offset 0. A null that escaped the
        try raises when its length is taken, so out.end and the buffer
        stay as they were; a string longer than the buffer raises in the
        copy. When eval completes, the holder reads as the chosen string. */
    method EvalText(ip: string, out: VarLenHolder, buffer: array<uint8>) returns (thrown: Option<JavaException>)
      requires FamilyOf(kind) == TextFamily
      modifies out, buffer
      ensures out.buffer == buffer && out.start == 0
      ensures Evaluate(kind, reader, ip).RaisesNullPointer? ==>
                && thrown == Some(NullPointerException)
                && out.end == old(out.end)
                && buffer[..] == old(buffer[..])
      ensures Evaluate(kind, reader, ip).Writes? ==>
                var text := Evaluate(kind, reader, ip).value.bytes;
                && out.end == |text|
                && (|text| <= buffer.Length ==>
                      thrown == None && buffer[..] == text + old(buffer[..])[|text|..])
                && (buffer.Length < |text| ==>
                      thrown == Some(IndexOutOfBoundsException) && buffer[..] == old(buffer[..]))
      ensures thrown == None ==> out.Readable() && out.Contents() == Evaluate(kind, reader, ip).value.bytes
    {
      var chosen := Evaluate(kind, reader, ip);
      out.buffer := buffer;
      out.start := 0;
      if chosen.RaisesNullPointer? {
        return Some(NullPointerException);
      }
      var text := chosen.value.bytes;
      out.end := |text|;
      thrown := SetBytes(buffer, text);
      if thrown == None {
        assert buffer[..|text|] == text;
      }
    }

    /** eval of an INT function: out.value is the chosen number. */
    method EvalInt(ip: string, out: IntHolder)
      requires FamilyOf(kind) == IntFamily
      modifies out
      ensures Evaluate(kind, reader, ip) == Writes(Int(out.value))
    {
      out.value := Evaluate(kind, reader, ip).value.integer;
    }

    /** eval of a FLOAT8 function: out.value is the chosen coordinate. */
    method EvalFloat(ip: string, out: Float8Holder)
      requires FamilyOf(kind) == FloatFamily
      modifies out
      ensures Evaluate(kind, reader, ip) == Writes(Float(out.value))
    {
      out.value := Evaluate(kind, reader, ip).value.double;
    }

    /** eval of a flag function: out.value is 1 when the chosen flag is
        true and 0 when it is false. */
    method EvalBit(ip: string, out: BitHolder)
      requires FamilyOf(kind) == BitFamily
      modifies out
      ensures out.value == 0 || out.value == 1
      ensures out.value == 1 <==> Evaluate(kind, reader, ip) == Writes(Flag(true))
    {
      var flag := Evaluate(kind, reader, ip).value.flag;
      if flag {
        out.value := 1;
      } else {
        out.value := 0;
      }
    }

    /** eval of getASN: out.value is the chosen number; a null number
        raises when it is unboxed, leaving out.value as it was. */
    method EvalBigInt(ip: string, out: BigIntHolder) returns (thrown: Option<JavaException>)
      requires FamilyOf(kind) == LongFamily
      modifies out
      ensures Evaluate(kind, reader, ip).RaisesNullPointer? ==>
                thrown == Some(NullPointerException) && out.value == old(out.value)
      ensures Evaluate(kind, reader, ip).Writes? ==>
                thrown == None && Evaluate(kind, reader, ip) == Writes(Long(out.value))
    {
      var chosen := Evaluate(kind, reader, ip);
      if chosen.RaisesNullPointer? {
        return Some(NullPointerException);
      }
      out.value := chosen.value.long;
      return None;
    }

    /** eval of getCoordPoint: the chosen point is encoded by `asBinary`
        (the well-known binary encoding, outside this model), and the
        holder is written as for text: out.start is 0, out.end the length
        of the encoding, and its bytes are copied to offset 0. */
    method EvalPoint(ip: string, out: VarLenHolder, buffer: array<uint8>, asBinary: Point -> Bytes)
      returns (thrown: Option<JavaException>)
      requires FamilyOf(kind) == PointFamily
      modifies out, buffer
      ensures var encoded := asBinary(Evaluate(kind, reader, ip).value.point);
              && out.buffer == buffer && out.start == 0 && out.end == |encoded|
              && (|encoded| <= buffer.Length ==>
                    thrown == None && buffer[..] == encoded + old(buffer[..])[|encoded|..])
              && (buffer.Length < |encoded| ==>
                    thrown == Some(IndexOutOfBoundsException) && buffer[..] == old(buffer[..]))
      ensures thrown == None ==>
                out.Readable() && out.Contents() == asBinary(Evaluate(kind, reader, ip).value.point)
    {
      var point := Evaluate(kind, reader, ip).value.point;
      var encoded := asBinary(point);
      out.buffer := buffer;
      out.start := 0;
      out.end := |encoded|;
      thrown := SetBytes(buffer, encoded);
      if thrown == None {
        assert buffer[..|encoded|] == encoded;
      }
    }
  }
}
