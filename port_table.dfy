/** The service-port table: the packaged CSV of service names and port
    numbers, read line by line into a map from "<port>:<protocol>" to the
    service description. */
module PortTable {
  import opened Wrappers

  /** The two exceptions that abort the load: a data-read error when the
      resource is missing, a validation error for any failure while parsing. */
  datatype LoadError = DataReadError | ValidationError

  /** Integer.MAX_VALUE and Integer.MIN_VALUE. */
  const MaxInt: int := 0x7fff_ffff
  const MinInt: int := -0x8000_0000

  // ---------------------------------------------------------------------
  // The line pattern ^[a-zA-Z0-9_-]*,\d+,
  // ---------------------------------------------------------------------

  /** The character class [a-zA-Z0-9_-]. */
  predicate IsNameChar(c: char) {
    ('a' <= c <= 'z') || ('A' <= c <= 'Z') || ('0' <= c <= '9') || c == '_' || c == '-'
  }

  /** Java's \d, which without UNICODE_CHARACTER_CLASS is [0-9]. */
  predicate IsDigit(c: char) {
    '0' <= c <= '9'
  }

  predicate AllNameChars(s: string) {
    forall i :: 0 <= i < |s| ==> IsNameChar(s[i])
  }

  predicate AllDigits(s: string) {
    forall i :: 0 <= i < |s| ==> IsDigit(s[i])
  }

  /** Length of the longest prefix of s made of name characters. */
  function NameSpan(s: string): (n: nat)
    ensures n <= |s|
  {
    if s != [] && IsNameChar(s[0]) then 1 + NameSpan(s[1..]) else 0
  }

  /** NameSpan stops at the first character that is not a name character. */
  lemma {:induction false} NameSpanIsLongest(s: string)
    ensures AllNameChars(s[..NameSpan(s)])
    ensures NameSpan(s) < |s| ==> !IsNameChar(s[NameSpan(s)])
  {
    if s != [] && IsNameChar(s[0]) {
      NameSpanIsLongest(s[1..]);
      var n := NameSpan(s);
      assert s[..n] == [s[0]] + s[1..][..n - 1];
    }
  }

  /** Length of the longest prefix of s made of digits. */
  function DigitSpan(s: string): (n: nat)
    ensures n <= |s|
  {
    if s != [] && IsDigit(s[0]) then 1 + DigitSpan(s[1..]) else 0
  }

  /** DigitSpan stops at the first character that is not a digit. */
  lemma {:induction false} DigitSpanIsLongest(s: string)
    ensures AllDigits(s[..DigitSpan(s)])
    ensures DigitSpan(s) < |s| ==> !IsDigit(s[DigitSpan(s)])
  {
    if s != [] && IsDigit(s[0]) {
      DigitSpanIsLongest(s[1..]);
      var n := DigitSpan(s);
      assert s[..n] == [s[0]] + s[1..][..n - 1];
    }
  }

  /** `m.find()` for the pattern ^[a-zA-Z0-9_-]*,\d+, : both repetitions are
      followed by a character they cannot match, so the only match takes the
      longest run of name characters and then the longest run of digits. */
  predicate Matches(line: string) {
    var n := NameSpan(line);
    n < |line| && line[n] == ',' &&
    var d := DigitSpan(line[n + 1..]);
    0 < d && n + 1 + d < |line| && line[n + 1 + d] == ','
  }

  /** The pattern matches a prefix of line whose name part has n characters
      and whose port part has d digits. */
  ghost predicate MatchesWith(line: string, n: nat, d: nat) {
    && n + d + 2 <= |line|
    && AllNameChars(line[..n])
    && line[n] == ','
    && 0 < d
    && AllDigits(line[n + 1..n + 1 + d])
    && line[n + 1 + d] == ','
  }

  /** A match, if there is one, is unique. */
  lemma MatchesWithIsUnique(line: string, n: nat, d: nat)
    requires MatchesWith(line, n, d)
    ensures n == NameSpan(line) && d == DigitSpan(line[n + 1..])
  {
    var m := NameSpan(line);
    NameSpanIsLongest(line);
    assert forall i :: 0 <= i < n ==> IsNameChar(line[i]) by {
      forall i | 0 <= i < n ensures IsNameChar(line[i]) { assert line[..n][i] == line[i]; }
    }
    assert forall i :: 0 <= i < m ==> IsNameChar(line[i]) by {
      forall i | 0 <= i < m ensures IsNameChar(line[i]) { assert line[..m][i] == line[i]; }
    }
    var tail := line[n + 1..];
    var e := DigitSpan(tail);
    DigitSpanIsLongest(tail);
    assert tail[d] == ',';
    assert forall i :: 0 <= i < d ==> IsDigit(tail[i]) by {
      forall i | 0 <= i < d ensures IsDigit(tail[i]) { assert line[n + 1..n + 1 + d][i] == tail[i]; }
    }
    assert forall i :: 0 <= i < e ==> IsDigit(tail[i]) by {
      forall i | 0 <= i < e ensures IsDigit(tail[i]) { assert tail[..e][i] == tail[i]; }
    }
  }

  /** The greedy matcher accepts exactly the lines the pattern matches. */
  lemma MatchesIsPattern(line: string)
    ensures Matches(line) <==> exists n: nat, d: nat :: MatchesWith(line, n, d)
  {
    if Matches(line) {
      var n := NameSpan(line);
      var d := DigitSpan(line[n + 1..]);
      NameSpanIsLongest(line);
      DigitSpanIsLongest(line[n + 1..]);
      assert line[n + 1..][..d] == line[n + 1..n + 1 + d];
      assert MatchesWith(line, n, d);
    }
    if exists n: nat, d: nat :: MatchesWith(line, n, d) {
      var n: nat, d: nat :| MatchesWith(line, n, d);
      MatchesWithIsUnique(line, n, d);
      assert line[n + 1..][d] == line[n + 1 + d];
    }
  }

  // ---------------------------------------------------------------------
  // String.split(",")
  // ---------------------------------------------------------------------

  /** Every field of s between commas, the empty ones included. */
  function Fields(s: string): (fs: seq<string>)
    ensures |fs| >= 1
  {
    if s == [] then [""]
    else
      var rest := Fields(s[1..]);
      if s[0] == ',' then [""] + rest else [[s[0]] + rest[0]] + rest[1..]
  }

  /** The fields put back together with commas between them. */
  function Join(fs: seq<string>): string {
    if fs == [] then ""
    else if |fs| == 1 then fs[0]
    else fs[0] + [','] + Join(fs[1..])
  }

  /** Splitting and joining give back the text, and no field holds a comma. */
  lemma {:induction false} FieldsJoin(s: string)
    ensures Join(Fields(s)) == s
    ensures forall i :: 0 <= i < |Fields(s)| ==> ',' !in Fields(s)[i]
  {
    if s != [] {
      var rest := Fields(s[1..]);
      FieldsJoin(s[1..]);
      if s[0] == ',' {
        assert Fields(s) == [""] + rest;
        assert (["" ] + rest)[1..] == rest;
      } else {
        var fs := Fields(s);
        assert fs == [[s[0]] + rest[0]] + rest[1..];
        if |rest| == 1 {
          assert Join(fs) == [s[0]] + rest[0] == [s[0]] + s[1..];
        } else {
          assert fs[1..] == rest[1..];
          assert Join(rest) == rest[0] + [','] + Join(rest[1..]);
          assert Join(fs) == ([s[0]] + rest[0]) + [','] + Join(rest[1..]);
        }
        assert s == [s[0]] + s[1..];
        forall i | 0 <= i < |fs| ensures ',' !in fs[i] {
          if i == 0 {
            assert fs[0] == [s[0]] + rest[0];
          } else {
            assert fs[i] == rest[i];
          }
        }
      }
    }
  }

  /** A text without commas is a single field. */
  lemma {:induction false} FieldsOfField(a: string)
    requires ',' !in a
    ensures Fields(a) == [a]
  {
    if a != [] {
      FieldsOfField(a[1..]);
      assert a == [a[0]] + a[1..];
    }
  }

  /** A leading comma-free field followed by a comma is split off as the first field. */
  lemma {:induction false} FieldsOfPrefix(a: string, b: string)
    requires ',' !in a
    ensures Fields(a + [','] + b) == [a] + Fields(b)
  {
    var s := a + [','] + b;
    if a == [] {
      assert s == [','] + b;
      assert s[1..] == b;
    } else {
      assert s[1..] == a[1..] + [','] + b;
      FieldsOfPrefix(a[1..], b);
      assert a == [a[0]] + a[1..];
    }
  }

  /** Fields and Join are inverse on comma-free fields. */
  lemma {:induction false} JoinFields(fs: seq<string>)
    requires |fs| >= 1
    requires forall i :: 0 <= i < |fs| ==> ',' !in fs[i]
    ensures Fields(Join(fs)) == fs
  {
    if |fs| == 1 {
      FieldsOfField(fs[0]);
    } else {
      JoinFields(fs[1..]);
      FieldsOfPrefix(fs[0], Join(fs[1..]));
      assert fs == [fs[0]] + fs[1..];
    }
  }

  /** Every field of s is empty exactly when s is nothing but commas. */
  lemma {:induction false} FieldsAllEmpty(s: string)
    ensures (forall i :: 0 <= i < |Fields(s)| ==> Fields(s)[i] == "")
        <==> (forall i :: 0 <= i < |s| ==> s[i] == ',')
  {
    if s != [] {
      FieldsAllEmpty(s[1..]);
      var rest := Fields(s[1..]);
      if s[0] == ',' {
        assert Fields(s) == [""] + rest;
        assert forall i :: 0 <= i < |rest| ==> Fields(s)[i + 1] == rest[i];
        assert forall i :: 0 < i < |s| ==> s[i] == s[1..][i - 1];
      } else {
        assert Fields(s)[0] == [s[0]] + rest[0] != "";
      }
    }
  }

  /** The trailing empty fields removed, as String.split does with limit 0. */
  function DropTrailingEmpty(fs: seq<string>): (r: seq<string>)
    ensures |r| <= |fs|
  {
    if fs == [] then []
    else if fs[|fs| - 1] == "" then DropTrailingEmpty(fs[..|fs| - 1])
    else fs
  }

  /** What is kept is a prefix ending in a non-empty field, and every field
      dropped is empty. */
  lemma {:induction false} DropTrailingEmptyIsPrefix(fs: seq<string>)
    ensures var r := DropTrailingEmpty(fs);
            && r == fs[..|r|]
            && (r != [] ==> r[|r| - 1] != "")
            && forall i :: |r| <= i < |fs| ==> fs[i] == ""
  {
    if fs != [] && fs[|fs| - 1] == "" {
      var init := fs[..|fs| - 1];
      DropTrailingEmptyIsPrefix(init);
      var r := DropTrailingEmpty(init);
      assert init[..|r|] == fs[..|r|];
    }
  }

  /** Nothing is kept exactly when every field is empty. */
  lemma DropTrailingEmptyIsEmpty(fs: seq<string>)
    ensures DropTrailingEmpty(fs) == [] <==> forall i :: 0 <= i < |fs| ==> fs[i] == ""
  {
    var r := DropTrailingEmpty(fs);
    DropTrailingEmptyIsPrefix(fs);
    if r != [] {
      assert fs[|r| - 1] == r[|r| - 1];
    }
  }

  /** Fields before a non-empty one are never dropped. */
  lemma {:induction false} DropTrailingEmptyAfter(pre: seq<string>, fs: seq<string>)
    requires pre != [] && pre[|pre| - 1] != ""
    ensures DropTrailingEmpty(pre + fs) == pre + DropTrailingEmpty(fs)
  {
    if fs == [] {
      assert pre + fs == pre;
    } else if fs[|fs| - 1] == "" {
      assert (pre + fs)[..|pre + fs| - 1] == pre + fs[..|fs| - 1];
      DropTrailingEmptyAfter(pre, fs[..|fs| - 1]);
    }
  }

  /** String.split(","): the fields with the trailing empty ones removed,
      and the whole text as the one field when it holds no comma. */
  function Split(s: string): seq<string> {
    if ',' !in s then [s] else DropTrailingEmpty(Fields(s))
  }

  // ---------------------------------------------------------------------
  // Integer.parseInt
  // ---------------------------------------------------------------------

  /** The number a run of decimal digits denotes. */
  function DecimalValue(s: string): nat
    requires AllDigits(s)
  {
    if s == [] then 0
    else 10 * DecimalValue(s[..|s| - 1]) + (s[|s| - 1] as int - '0' as int)
  }

  /** Integer.parseInt(s): an optional sign and at least one digit, whose value
      fits in 32 bits; None is the NumberFormatException. */
  function ParseInt(s: string): Option<int> {
    if s != [] && (s[0] == '-' || s[0] == '+') then
      if |s| > 1 && AllDigits(s[1..]) then
        var magnitude := DecimalValue(s[1..]);
        var v: int := if s[0] == '-' then -(magnitude as int) else magnitude;
        if MinInt <= v <= MaxInt then Some(v) else None
      else None
    else if s != [] && AllDigits(s) && DecimalValue(s) <= MaxInt then Some(DecimalValue(s))
    else None
  }

  /** Leading zeros do not change the value of a run of digits. */
  lemma {:induction false} LeadingZeroIgnored(s: string)
    requires AllDigits(s)
    ensures AllDigits("0" + s) && DecimalValue("0" + s) == DecimalValue(s)
  {
    var z := "0" + s;
    assert AllDigits(z) by { assert forall i :: 0 < i < |z| ==> z[i] == s[i - 1]; }
    if s != [] {
      var init := s[..|s| - 1];
      assert z[..|z| - 1] == "0" + init;
      assert AllDigits(init) by { assert forall i :: 0 <= i < |init| ==> init[i] == s[i]; }
      LeadingZeroIgnored(init);
    }
  }

  /** parseInt accepts a port written with leading zeros as the same number. */
  lemma ParseIntIgnoresLeadingZeros(s: string)
    requires s != [] && AllDigits(s)
    ensures ParseInt("0" + s) == ParseInt(s)
  {
    LeadingZeroIgnored(s);
  }

  // ---------------------------------------------------------------------
  // One line of the table
  // ---------------------------------------------------------------------

  /** What one line does to the table: nothing, a `put`, or an exception
      that aborts the whole load. */
  datatype LineEffect = Skip | Put(key: string, description: string) | Abort

  /** The body of the `while` loop for one line, in the order the source
      evaluates it: `values[1]`, `parseInt`, `values[3]` unless there are
      exactly three fields, then `values[2]` for the key. */
  function ParseLine(line: string): LineEffect {
    if !Matches(line) then Skip
    else
      var values := Split(line);
      if |values| < 2 || ParseInt(values[1]).None? then Abort
      else if |values| == 3 then Put(values[1] + ":" + values[2], "")
      else if |values| < 4 then Abort
      else Put(values[1] + ":" + values[2], values[3])
  }

  /** A matching line splits into its name, its port text and the fields
      of the rest of the line. */
  lemma MatchedSplit(line: string, n: nat, d: nat)
    requires MatchesWith(line, n, d)
    ensures Split(line) == [line[..n], line[n + 1..n + 1 + d]] + DropTrailingEmpty(Fields(line[n + d + 2..]))
  {
    var name, port, rest := line[..n], line[n + 1..n + 1 + d], line[n + d + 2..];
    assert ',' !in name by { assert forall i :: 0 <= i < n ==> IsNameChar(name[i]); }
    assert ',' !in port by { assert forall i :: 0 <= i < d ==> IsDigit(port[i]); }
    assert line == name + [','] + (port + [','] + rest);
    SplitOfTwoFields(name, port, rest);
  }

  /** Splitting two comma-free fields followed by more text. */
  lemma SplitOfTwoFields(name: string, port: string, rest: string)
    requires ',' !in name && ',' !in port && port != []
    ensures Split(name + [','] + (port + [','] + rest)) == [name, port] + DropTrailingEmpty(Fields(rest))
  {
    var after := port + [','] + rest;
    var line := name + [','] + after;
    FieldsOfPrefix(name, after);
    FieldsOfPrefix(port, rest);
    assert Fields(line) == [name, port] + Fields(rest);
    assert line[|name|] == ',';
    DropTrailingEmptyAfter([name, port], Fields(rest));
  }

  /** What a matching line does: with port text p and the fields of the rest
      of the line f (trailing empty ones removed), it aborts when p overflows
      an int or f is empty, and otherwise puts p + ":" + f[0] with the second
      field of f as the description, or "" when there is none. The port text
      goes into the key as written, leading zeros included. */
  lemma ParseLineOfMatch(line: string, n: nat, d: nat)
    requires MatchesWith(line, n, d)
    ensures var port := line[n + 1..n + 1 + d];
            var tail := DropTrailingEmpty(Fields(line[n + d + 2..]));
            ParseLine(line) ==
              if MaxInt < DecimalValue(port) || tail == [] then Abort
              else Put(port + ":" + tail[0], if |tail| == 1 then "" else tail[1])
  {
    MatchesIsPattern(line);
    MatchedSplit(line, n, d);
  }

  /** A port number above Integer.MAX_VALUE aborts the load instead of
      skipping the line. */
  lemma OverflowingPortAborts(line: string, n: nat, d: nat)
    requires MatchesWith(line, n, d)
    requires MaxInt < DecimalValue(line[n + 1..n + 1 + d])
    ensures ParseLine(line) == Abort
  {
    ParseLineOfMatch(line, n, d);
  }

  /** A matching line with nothing but commas after the port (such as
      "x,80,") splits into two fields, so `values[3]` is out of bounds. */
  lemma TrailingCommasAbort(line: string, n: nat, d: nat)
    requires MatchesWith(line, n, d)
    requires forall i :: n + d + 2 <= i < |line| ==> line[i] == ','
    ensures ParseLine(line) == Abort
  {
    var rest := line[n + d + 2..];
    assert forall i :: 0 <= i < |rest| ==> rest[i] == line[n + d + 2 + i];
    FieldsAllEmpty(rest);
    DropTrailingEmptyIsEmpty(Fields(rest));
    ParseLineOfMatch(line, n, d);
  }

  /** "x,80," has no protocol field once the trailing empty field is dropped. */
  lemma LoneTrailingCommaExample()
    ensures ParseLine("x,80,") == Abort
  {
    assert MatchesWith("x,80,", 1, 2);
    TrailingCommasAbort("x,80,", 1, 2);
  }

  /** The pattern matches a line that starts with a name, a comma, a port
      of digits and a comma. */
  lemma MatchesLine(name: string, port: string, rest: string)
    requires AllNameChars(name) && port != [] && AllDigits(port)
    ensures var line := name + [','] + port + [','] + rest;
            && MatchesWith(line, |name|, |port|)
            && line[|name| + 1..|name| + 1 + |port|] == port
            && line[|name| + |port| + 2..] == rest
  {
    var line := name + [','] + port + [','] + rest;
    assert line[..|name|] == name;
    assert line[|name| + 1..|name| + 1 + |port|] == port;
    assert line[|name| + |port| + 2..] == rest;
  }

  /** The fields after the port of a line with a protocol and a description
      column, which ends the line or is followed by a comma: the protocol
      comes first, the description second, or not at all when it is empty and
      nothing but empty columns follow it. */
  lemma DescribedTail(protocol: string, description: string, more: string)
    requires protocol != [] && ',' !in protocol && ',' !in description
    requires more == [] || more[0] == ','
    ensures var tail := DropTrailingEmpty(Fields(protocol + [','] + (description + more)));
            tail != [] && tail[0] == protocol && (if |tail| == 1 then "" else tail[1]) == description
  {
    var after := Fields(description + more);
    FieldsOfPrefix(protocol, description + more);
    if more == [] {
      assert description + more == description;
      FieldsOfField(description);
    } else {
      assert description + more == description + [','] + more[1..];
      FieldsOfPrefix(description, more[1..]);
    }
    DropTrailingEmptyAfter([protocol], after);
    var kept := DropTrailingEmpty(after);
    DropTrailingEmptyIsPrefix(after);
    assert after[0] == description;
    if kept != [] {
      assert kept[0] == description;
    } else {
      DropTrailingEmptyIsEmpty(after);
    }
  }

  /** A matching line whose text after the port is a protocol and a
      description column, ending the line or followed by a comma and any
      further columns, puts "<port>:<protocol>" with exactly that
      description. */
  lemma DescribedLine(line: string, n: nat, d: nat, protocol: string, description: string, more: string)
    requires MatchesWith(line, n, d) && DecimalValue(line[n + 1..n + 1 + d]) <= MaxInt
    requires line[n + d + 2..] == protocol + [','] + (description + more)
    requires protocol != [] && ',' !in protocol && ',' !in description
    requires more == [] || more[0] == ','
    ensures ParseLine(line) == Put(line[n + 1..n + 1 + d] + ":" + protocol, description)
  {
    DescribedTail(protocol, description, more);
    ParseLineOfMatch(line, n, d);
  }

  /** A matching line whose text after the port is one comma-free protocol
      puts "<port>:<protocol>" with the empty description. */
  lemma UndescribedLine(line: string, n: nat, d: nat)
    requires MatchesWith(line, n, d) && DecimalValue(line[n + 1..n + 1 + d]) <= MaxInt
    requires n + d + 2 < |line| && ',' !in line[n + d + 2..]
    ensures ParseLine(line) == Put(line[n + 1..n + 1 + d] + ":" + line[n + d + 2..], "")
  {
    FieldsOfField(line[n + d + 2..]);
    ParseLineOfMatch(line, n, d);
  }

  // ---------------------------------------------------------------------
  // The whole table
  // ---------------------------------------------------------------------

  /** The effect of each line, in order. */
  function Effects(lines: seq<string>): (es: seq<LineEffect>)
    ensures |es| == |lines|
    ensures forall i :: 0 <= i < |lines| ==> es[i] == ParseLine(lines[i])
  {
    seq(|lines|, i requires 0 <= i < |lines| => ParseLine(lines[i]))
  }

  /** The lines are parsed one at a time: the effects of two blocks of lines
      are the effects of the first followed by those of the second. */
  lemma EffectsOfConcat(a: seq<string>, b: seq<string>)
    ensures Effects(a + b) == Effects(a) + Effects(b)
  {
    assert forall i :: 0 <= i < |a + b| ==> Effects(a + b)[i] == (Effects(a) + Effects(b))[i] by {
      forall i | 0 <= i < |a + b|
        ensures Effects(a + b)[i] == (Effects(a) + Effects(b))[i]
      {
        if i < |a| {
          assert (a + b)[i] == a[i];
        } else {
          assert (a + b)[i] == b[i - |a|];
        }
      }
    }
  }

  /** The table built by applying the effects in order, or the exception
      that aborted it; `put` replaces the description of an existing key. */
  function Build(effects: seq<LineEffect>): Result<map<string, string>, LoadError> {
    if effects == [] then Success(map[])
    else
      match Build(effects[..|effects| - 1])
      case Failure(e) => Failure(e)
      case Success(m) =>
        match effects[|effects| - 1]
        case Skip => Success(m)
        case Put(key, description) => Success(m[key := description])
        case Abort => Failure(ValidationError)
  }

  /** The table the lines describe. */
  function Load(lines: seq<string>): Result<map<string, string>, LoadError> {
    Build(Effects(lines))
  }

  /** Once a prefix has aborted, the rest is never applied. */
  lemma {:induction false} BuildStopsAtFailure(effects: seq<LineEffect>, k: nat)
    requires k <= |effects| && Build(effects[..k]).Failure?
    ensures Build(effects) == Build(effects[..k])
  {
    if k < |effects| {
      var init := effects[..|effects| - 1];
      assert init[..k] == effects[..k];
      BuildStopsAtFailure(init, k);
    } else {
      assert effects[..k] == effects;
    }
  }

  /** A line the pattern does not match leaves the table as it was. */
  lemma NonMatchingLineSkipped(lines: seq<string>, line: string)
    requires !Matches(line)
    ensures Load(lines + [line]) == Load(lines)
  {
    var es := Effects(lines + [line]);
    assert es[..|lines|] == Effects(lines);
    assert es[|lines|] == Skip;
  }

  /** A later line with the same key replaces the description of an earlier one. */
  lemma LaterLineOverwrites(lines: seq<string>, line: string)
    requires Load(lines).Success? && ParseLine(line).Put?
    ensures Load(lines + [line]).Success?
    ensures Load(lines + [line]).value == Load(lines).value[ParseLine(line).key := ParseLine(line).description]
  {
    var es := Effects(lines + [line]);
    assert es[..|lines|] == Effects(lines);
    assert es[|lines|] == ParseLine(line);
  }

  /** Building fails exactly when some effect aborts. */
  lemma {:induction false} BuildFailsIffAbort(effects: seq<LineEffect>)
    ensures Build(effects).Failure? <==> Abort in effects
  {
    if effects != [] {
      var init := effects[..|effects| - 1];
      BuildFailsIffAbort(init);
      assert effects == init + [effects[|effects| - 1]];
    }
  }

  /** The load fails exactly when some line aborts. */
  lemma LoadFailsIffAbort(lines: seq<string>)
    ensures Load(lines).Failure? <==> exists i :: 0 <= i < |lines| && ParseLine(lines[i]) == Abort
  {
    var es := Effects(lines);
    BuildFailsIffAbort(es);
    if Abort in es {
      var i :| 0 <= i < |es| && es[i] == Abort;
      assert ParseLine(lines[i]) == Abort;
    }
  }

  /** A port number above Integer.MAX_VALUE anywhere in the table fails the
      whole load with a validation error. */
  lemma OverflowingPortFailsLoad(lines: seq<string>, i: nat, n: nat, d: nat)
    requires i < |lines| && MatchesWith(lines[i], n, d)
    requires MaxInt < DecimalValue(lines[i][n + 1..n + 1 + d])
    ensures Load(lines) == Failure(ValidationError)
  {
    OverflowingPortAborts(lines[i], n, d);
    LoadFailsIffAbort(lines);
    BuildFails(Effects(lines));
  }

  /** A matching line with nothing but commas after its port, such as
      "x,80,", anywhere in the table fails the whole load with a validation
      error. */
  lemma TrailingCommasFailLoad(lines: seq<string>, i: nat, n: nat, d: nat)
    requires i < |lines| && MatchesWith(lines[i], n, d)
    requires forall k :: n + d + 2 <= k < |lines[i]| ==> lines[i][k] == ','
    ensures Load(lines) == Failure(ValidationError)
  {
    TrailingCommasAbort(lines[i], n, d);
    LoadFailsIffAbort(lines);
    BuildFails(Effects(lines));
  }

  /** The only failure building can produce is a validation error. */
  lemma {:induction false} BuildFails(effects: seq<LineEffect>)
    ensures Build(effects).Failure? ==> Build(effects) == Failure(ValidationError)
  {
    if effects != [] {
      BuildFails(effects[..|effects| - 1]);
    }
  }

  /** The effect puts `key`. */
  ghost predicate PutsKey(e: LineEffect, key: string) {
    e.Put? && e.key == key
  }

  /** Effect i puts `key` with `description`, and no later effect puts `key`. */
  ghost predicate LastPut(effects: seq<LineEffect>, i: int, key: string, description: string) {
    && 0 <= i < |effects|
    && effects[i] == Put(key, description)
    && forall j :: i < j < |effects| ==> !PutsKey(effects[j], key)
  }

  /** A successful build holds one key for each key some effect puts and no
      other. */
  lemma {:induction false} BuildKeys(effects: seq<LineEffect>)
    requires Build(effects).Success?
    ensures forall key :: key in Build(effects).value <==>
              exists i :: 0 <= i < |effects| && PutsKey(effects[i], key)
  {
    if effects != [] {
      var last := |effects| - 1;
      var init := effects[..last];
      assert Build(init).Success?;
      BuildKeys(init);
      var m := Build(init).value;
      var r := Build(effects).value;
      var e := effects[last];
      assert r == if e.Put? then m[e.key := e.description] else m;
      forall key
        ensures key in r <==> exists i :: 0 <= i < |effects| && PutsKey(effects[i], key)
      {
        if PutsKey(e, key) {
          assert key in r;
        } else {
          assert key in r <==> key in m;
          if key in m {
            var i :| 0 <= i < |init| && PutsKey(init[i], key);
            assert PutsKey(effects[i], key);
          }
          if exists i :: 0 <= i < |effects| && PutsKey(effects[i], key) {
            var i :| 0 <= i < |effects| && PutsKey(effects[i], key);
            assert i < last;
            assert PutsKey(init[i], key);
          }
        }
      }
    }
  }

  /** In a successful build each key has the description of the last effect
      that puts it. */
  lemma {:induction false} BuildLastPuts(effects: seq<LineEffect>)
    requires Build(effects).Success?
    ensures forall key :: key in Build(effects).value ==>
              exists i :: LastPut(effects, i, key, Build(effects).value[key])
  {
    if effects != [] {
      var last := |effects| - 1;
      var init := effects[..last];
      assert Build(init).Success?;
      BuildLastPuts(init);
      var m := Build(init).value;
      var r := Build(effects).value;
      var e := effects[last];
      assert r == if e.Put? then m[e.key := e.description] else m;
      forall key | key in r
        ensures exists i :: LastPut(effects, i, key, r[key])
      {
        if PutsKey(e, key) {
          assert LastPut(effects, last, key, r[key]);
        } else {
          assert key in m && r[key] == m[key];
          var i :| LastPut(init, i, key, m[key]);
          assert LastPut(effects, i, key, r[key]);
        }
      }
    }
  }

  /** A successful build holds one key for each key some effect puts and no
      other, and each key has the description of the last effect that puts it. */
  lemma BuildContents(effects: seq<LineEffect>)
    requires Build(effects).Success?
    ensures forall key :: key in Build(effects).value <==>
              exists i :: 0 <= i < |effects| && PutsKey(effects[i], key)
    ensures forall key :: key in Build(effects).value ==>
              exists i :: LastPut(effects, i, key, Build(effects).value[key])
  {
    BuildKeys(effects);
    BuildLastPuts(effects);
  }

  /** A successful load holds one key for each key some matching line puts,
      and no other. */
  lemma LoadKeys(lines: seq<string>)
    requires Load(lines).Success?
    ensures forall key :: key in Load(lines).value <==>
              exists i :: 0 <= i < |lines| && PutsKey(ParseLine(lines[i]), key)
  {
    var es := Effects(lines);
    BuildContents(es);
    forall key
      ensures key in Load(lines).value <==> exists i :: 0 <= i < |lines| && PutsKey(ParseLine(lines[i]), key)
    {
      EffectPutsKey(lines, key);
    }
  }

  /** Some line puts `key` exactly when some effect of the lines does. */
  lemma EffectPutsKey(lines: seq<string>, key: string)
    ensures (exists i :: 0 <= i < |lines| && PutsKey(ParseLine(lines[i]), key)) <==>
            (exists i :: 0 <= i < |Effects(lines)| && PutsKey(Effects(lines)[i], key))
  {
    var es := Effects(lines);
    if exists i :: 0 <= i < |lines| && PutsKey(ParseLine(lines[i]), key) {
      var i :| 0 <= i < |lines| && PutsKey(ParseLine(lines[i]), key);
      assert PutsKey(es[i], key);
    }
    if exists i :: 0 <= i < |es| && PutsKey(es[i], key) {
      var i :| 0 <= i < |es| && PutsKey(es[i], key);
      assert PutsKey(ParseLine(lines[i]), key);
    }
  }

  /** In a successful load each key has the description of the last line
      that puts it. */
  lemma LoadDescriptions(lines: seq<string>)
    requires Load(lines).Success?
    ensures forall key :: key in Load(lines).value ==>
              exists i :: LastPut(Effects(lines), i, key, Load(lines).value[key])
  {
    BuildContents(Effects(lines));
  }

  // ---------------------------------------------------------------------
  // getPortHashMap
  // ---------------------------------------------------------------------

  /** getPortHashMap over the resource's lines, None when the resource is
      missing: the table Load describes, or the exception that aborts it. */
  method GetPortHashMap(resource: Option<seq<string>>) returns (result: Result<map<string, string>, LoadError>)
    ensures resource.None? ==> result == Failure(DataReadError)
    ensures resource.Some? ==> result == Load(resource.value)
  {
    if resource.None? {
      return Failure(DataReadError);
    }
    var lines := resource.value;
    ghost var effects := Effects(lines);
    var serviceInfo: map<string, string> := map[];
    var i := 0;
    while i < |lines|
      invariant i <= |lines|
      invariant Build(effects[..i]) == Success(serviceInfo)
    {
      var line := lines[i];
      assert effects[..i + 1][..i] == effects[..i];
      assert effects[i] == ParseLine(line);
      if Matches(line) {
        var values := Split(line);
        if |values| < 2 || ParseInt(values[1]).None? {
          assert effects[i] == Abort;
          assert Build(effects[..i + 1]).Failure?;
          BuildStopsAtFailure(effects, i + 1);
          return Failure(ValidationError);
        }
        var description: string;
        if |values| == 3 {
          description := "";
        } else {
          if |values| < 4 {
            assert effects[i] == Abort;
            assert Build(effects[..i + 1]).Failure?;
            BuildStopsAtFailure(effects, i + 1);
            return Failure(ValidationError);
          }
          description := values[3];
        }
        var key := values[1] + ":" + values[2];
        assert effects[i] == Put(key, description);
        serviceInfo := serviceInfo[key := description];
      } else {
        assert effects[i] == Skip;
      }
      i := i + 1;
    }
    assert effects[..i] == effects;
    return Success(serviceInfo);
  }
}
