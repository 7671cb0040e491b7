/**
 * The CSV loader of src/DataLoader.cpp: a header line, then one bar per line with six
 * comma-separated fields (timestamp, open, high, low, close, volume). A line that lacks a
 * field or whose number does not parse is skipped and counted; the rest keeps file order.
 *
 * The file is its sequence of lines, `None` when it cannot be opened. `std::getline` on a
 * comma is `NextField`, `std::stod` is the partial decimal parser `Stod`, and the static
 * `trim` is the method `Trim`, proved against the function `Trimmed`.
 */
module CsvLoading {
  import opened Options
  import opened MarketData
  import opened Chars

  // ---------------------------------------------------------------------------
  // trim
  // ---------------------------------------------------------------------------

  /** Number of leading whitespace characters. */
  function LeadingSpaces(s: string): (n: nat)
    ensures n <= |s| && forall k :: 0 <= k < n ==> IsSpace(s[k])
    ensures n < |s| ==> !IsSpace(s[n])
  {
    if |s| > 0 && IsSpace(s[0]) then 1 + LeadingSpaces(s[1..]) else 0
  }

  /** Number of trailing whitespace characters. */
  function TrailingSpaces(s: string): (n: nat)
    ensures n <= |s| && forall k :: |s| - n <= k < |s| ==> IsSpace(s[k])
    ensures n < |s| ==> !IsSpace(s[|s| - n - 1])
  {
    if |s| > 0 && IsSpace(s[|s| - 1]) then 1 + TrailingSpaces(s[..|s| - 1]) else 0
  }

  /** `trim`: drop the leading whitespace, then the trailing whitespace of what is left. */
  function Trimmed(s: string): string
  {
    var u := s[LeadingSpaces(s)..];
    u[..|u| - TrailingSpaces(u)]
  }

  /** The whitespace counts are determined by where the first (last) non-space character is. */
  lemma {:induction false} LeadingSpacesAt(s: string, n: nat)
    requires n <= |s| && (forall k :: 0 <= k < n ==> IsSpace(s[k])) && (n < |s| ==> !IsSpace(s[n]))
    ensures LeadingSpaces(s) == n
  {
    if n > 0 {
      LeadingSpacesAt(s[1..], n - 1);
    }
  }

  lemma {:induction false} TrailingSpacesAt(s: string, n: nat)
    requires n <= |s| && (forall k :: |s| - n <= k < |s| ==> IsSpace(s[k])) && (n < |s| ==> !IsSpace(s[|s| - n - 1]))
    ensures TrailingSpaces(s) == n
  {
    if n > 0 {
      TrailingSpacesAt(s[..|s| - 1], n - 1);
    }
  }

  /** `trim` on a copy: two scans, from the front and from the back. */
  method Trim(s: string) returns (t: string)
    ensures t == Trimmed(s)
  {
    var start := 0;
    while start < |s| && IsSpace(s[start])
      invariant start <= |s| && forall k :: 0 <= k < start ==> IsSpace(s[k])
    {
      start := start + 1;
    }
    LeadingSpacesAt(s, start);
    var result := s[start..];
    var end := |result|;
    while end > 0 && IsSpace(result[end - 1])
      invariant 0 <= end <= |result| && forall k :: end <= k < |result| ==> IsSpace(result[k])
    {
      end := end - 1;
    }
    TrailingSpacesAt(result, |result| - end);
    t := result[..end];
  }

  /** The trimmed string is the slice of its input between the surrounding whitespace, and it
      neither starts nor ends with whitespace. */
  lemma TrimmedIsCore(s: string)
    ensures var t, i := Trimmed(s), LeadingSpaces(s);
      && i + |t| <= |s| && t == s[i..i + |t|]
      && (forall k :: 0 <= k < i ==> IsSpace(s[k]))
      && (forall k :: i + |t| <= k < |s| ==> IsSpace(s[k]))
      && (|t| > 0 ==> !IsSpace(t[0]) && !IsSpace(t[|t| - 1]))
  {
    TrimmedSlice(s);
    TrimmedEnds(s);
  }

  lemma TrimmedSlice(s: string)
    ensures var t, i := Trimmed(s), LeadingSpaces(s);
      && i + |t| <= |s| && t == s[i..i + |t|]
      && (forall k :: i + |t| <= k < |s| ==> IsSpace(s[k]))
  {
    var i := LeadingSpaces(s);
    var u := s[i..];
    var n := TrailingSpaces(u);
    var t := u[..|u| - n];
    assert t == s[i..i + |t|];
    forall k | i + |t| <= k < |s|
      ensures IsSpace(s[k])
    {
      assert s[k] == u[k - i] && |u| - n <= k - i;
    }
  }

  lemma TrimmedEnds(s: string)
    ensures var t := Trimmed(s);
      |t| > 0 ==> !IsSpace(t[0]) && !IsSpace(t[|t| - 1])
  {
    var u := s[LeadingSpaces(s)..];
    var n := TrailingSpaces(u);
    var t := u[..|u| - n];
    if |t| > 0 {
      assert t[0] == u[0] && t[|t| - 1] == u[|u| - n - 1];
    }
  }

  /** Trimming twice is trimming once. */
  lemma TrimIdempotent(s: string)
    ensures Trimmed(Trimmed(s)) == Trimmed(s)
  {
    var t := Trimmed(s);
    TrimmedIsCore(s);
    if |t| > 0 {
      LeadingSpacesAt(t, 0);
      assert t[0..] == t;
      TrailingSpacesAt(t, 0);
    }
  }

  /** A string trims to "" exactly when it is all whitespace. */
  lemma TrimmedEmptyIffAllSpace(s: string)
    ensures Trimmed(s) == [] <==> forall k :: 0 <= k < |s| ==> IsSpace(s[k])
  {
    var i := LeadingSpaces(s);
    var u := s[i..];
    if forall k :: 0 <= k < |s| ==> IsSpace(s[k]) {
      LeadingSpacesAt(s, |s|);
    } else {
      var k :| 0 <= k < |s| && !IsSpace(s[k]);
      assert i <= k;
      assert !IsSpace(u[k - i]);
      assert TrailingSpaces(u) < |u|;
    }
  }

  // ---------------------------------------------------------------------------
  // std::stod
  // ---------------------------------------------------------------------------

  function Pow10(n: nat): (p: real)
    ensures p >= 1.0
  {
    if n == 0 then 1.0 else 10.0 * Pow10(n - 1)
  }

  /** The mantissa scaled by an optional exponent part (`e`/`E`, optional sign, digits)
      starting at t; an `e` without digits is not part of the number. */
  function WithExponent(mantissa: real, t: string): real
  {
    if |t| > 0 && (t[0] == 'e' || t[0] == 'E') then
      var negative := |t| > 1 && t[1] == '-';
      var u := if |t| > 1 && (t[1] == '-' || t[1] == '+') then t[2..] else t[1..];
      var k := DigitRun(u);
      if k == 0 then mantissa
      else if negative then mantissa / Pow10(DigitsValue(u[..k]))
      else mantissa * Pow10(DigitsValue(u[..k]))
    else mantissa
  }

  /** The value of the digits after a decimal point. */
  function FractionValue(d: string): real
    requires forall k :: 0 <= k < |d| ==> IsDigit(d[k])
  {
    DigitsValue(d) as real / Pow10(|d|)
  }

  /** The unsigned part of a number: digits with an optional fraction, at least one digit in
      all; its value and the text after it. */
  function UnsignedDecimal(body: string): Option<(real, string)>
  {
    var n := DigitRun(body);
    if n < |body| && body[n] == '.' then WithFraction(body, n)
    else if n == 0 then None
    else Some((DigitsValue(body[..n]) as real, body[n..]))
  }

  /** The digits before the point at n and those after it, at least one digit in all. */
  function WithFraction(body: string, n: nat): Option<(real, string)>
    requires n < |body| && forall k :: 0 <= k < n ==> IsDigit(body[k])
  {
    var fraction := body[n + 1..];
    var m := DigitRun(fraction);
    if n + m == 0 then None
    else Some((DigitsValue(body[..n]) as real + FractionValue(fraction[..m]), fraction[m..]))
  }

  /** The unsigned decimal scaled by the exponent that follows it. */
  function Magnitude(body: string): Option<real>
  {
    match UnsignedDecimal(body)
    case None => None
    case Some((mantissa, after)) => Some(WithExponent(mantissa, after))
  }

  /** `std::stod` on a trimmed field: an optional sign, the unsigned decimal, an optional
      exponent; characters after the number are ignored. `None` is the `std::invalid_argument`
      the loader catches. */
  function Stod(s: string): Option<real>
  {
    if |s| > 0 && s[0] == '-' then
      match Magnitude(s[1..])
      case None => None
      case Some(m) => Some(-m)
    else if |s| > 0 && s[0] == '+' then Magnitude(s[1..])
    else Magnitude(s)
  }

  lemma {:induction false} DigitRunStops(a: string, b: string)
    requires forall k :: 0 <= k < |a| ==> IsDigit(a[k])
    requires b == [] || !IsDigit(b[0])
    ensures DigitRun(a + b) == |a|
  {
    if |a| > 0 {
      assert (a + b)[1..] == a[1..] + b;
      DigitRunStops(a[1..], b);
    }
  }

  /** Without a sign in front, `Stod` is the unsigned decimal scaled by its exponent. */
  lemma StodUnsigned(s: string)
    requires |s| > 0 && IsDigit(s[0])
    ensures Stod(s) == Magnitude(s) && Magnitude(s).Some?
  {
  }

  /** The parts `UnsignedDecimal` finds when digits are followed by a point. */
  lemma UnsignedWithPoint(s: string, n: nat, m: nat)
    requires n == DigitRun(s) && n < |s| && s[n] == '.' && m == DigitRun(s[n + 1..]) && n + m > 0
    ensures UnsignedDecimal(s) == Some((DigitsValue(s[..n]) as real + FractionValue(s[n + 1..][..m]), s[n + 1..][m..]))
  {
  }

  /** The parts `UnsignedDecimal` finds when digits are not followed by a point. */
  lemma UnsignedWithoutPoint(s: string, n: nat)
    requires n == DigitRun(s) && 0 < n && (n == |s| || s[n] != '.')
    ensures UnsignedDecimal(s) == Some((DigitsValue(s[..n]) as real, s[n..]))
  {
  }

  /** A plain decimal, digits, a point at n, then digits, reads as its value. */
  lemma StodOfDecimal(s: string, n: nat)
    requires 0 < n < |s| && s[n] == '.'
    requires forall k :: 0 <= k < |s| && k != n ==> IsDigit(s[k])
    ensures Stod(s) == Some(DigitsValue(s[..n]) as real + FractionValue(s[n + 1..]))
  {
    var f := s[n + 1..];
    DigitRunStops(s[..n], s[n..]);
    assert s[..n] + s[n..] == s;
    DigitRunOfDigits(f);
    assert f[..|f|] == f && f[|f|..] == [];
    UnsignedWithPoint(s, n, |f|);
    StodUnsigned(s);
  }

  /** A string of digits reads as its value. */
  lemma StodOfInteger(i: string)
    requires |i| > 0 && forall k :: 0 <= k < |i| ==> IsDigit(i[k])
    ensures Stod(i) == Some(DigitsValue(i) as real)
  {
    UnsignedOfDigits(i);
    StodUnsigned(i);
  }

  lemma UnsignedOfDigits(i: string)
    requires |i| > 0 && forall k :: 0 <= k < |i| ==> IsDigit(i[k])
    ensures UnsignedDecimal(i) == Some((DigitsValue(i) as real, []))
  {
    DigitRunOfDigits(i);
    assert i[..|i|] == i && i[|i|..] == [];
    UnsignedWithoutPoint(i, |i|);
  }

  /** A leading minus negates the value that follows. */
  lemma StodOfNegative(s: string)
    requires |s| > 0 && IsDigit(s[0])
    ensures Stod("-" + s).Some? && Stod(s).Some? && Stod("-" + s).value == -Stod(s).value
  {
    var t := "-" + s;
    assert t[0] == '-' && t[1..] == s;
  }

  /** Without a digit, a sign or a point in front there is no number. */
  lemma StodRejectsNonNumeric(s: string)
    requires s == [] || (!IsDigit(s[0]) && s[0] != '-' && s[0] != '+' && s[0] != '.')
    ensures Stod(s) == None
  {
  }

  // ---------------------------------------------------------------------------
  // std::getline(ss, item, ',')
  // ---------------------------------------------------------------------------

  /** Position of the first comma, or the length. */
  function CommaAt(s: string): (j: nat)
    ensures j <= |s| && forall k :: 0 <= k < j ==> s[k] != ','
    ensures j < |s| ==> s[j] == ','
  {
    if |s| == 0 || s[0] == ',' then 0 else 1 + CommaAt(s[1..])
  }

  /** `std::getline` with a comma delimiter on what is left of the line: fails only when
      nothing is left; otherwise the text up to the comma (consumed) or to the end. */
  function NextField(rest: string): (r: Option<(string, string)>)
    ensures r.None? <==> rest == []
    ensures r.Some? ==> ',' !in r.value.0 && |r.value.1| < |rest|
    ensures r.Some? ==> rest == r.value.0 + [','] + r.value.1 || (rest == r.value.0 && r.value.1 == [])
  {
    if rest == [] then None
    else
      var j := CommaAt(rest);
      if j < |rest| then
        assert rest == rest[..j] + [','] + rest[j + 1..];
        Some((rest[..j], rest[j + 1..]))
      else
        Some((rest, []))
  }

  /** All the fields successive `getline` calls return from a line. */
  function Fields(line: string): seq<string>
    decreases |line|
  {
    match NextField(line)
    case None => []
    case Some((item, rest)) => [item] + Fields(rest)
  }

  /** A comma-free field followed by a comma is read off the front. */
  lemma FieldsOfJoin(f: string, rest: string)
    requires ',' !in f
    ensures Fields(f + [','] + rest) == [f] + Fields(rest)
  {
    var s := f + [','] + rest;
    var j := CommaAt(s);
    assert s[|f|] == ',';
    assert forall k :: 0 <= k < |f| ==> s[k] == f[k];
    assert j == |f|;
    assert s[..|f|] == f && s[|f| + 1..] == rest;
    assert NextField(s) == Some((f, rest));
  }

  /** A final non-empty comma-free field is the last one. */
  lemma FieldsOfLast(f: string)
    requires f != [] && ',' !in f
    ensures Fields(f) == [f]
  {
  }

  // ---------------------------------------------------------------------------
  // One row
  // ---------------------------------------------------------------------------

  /** Read a numeric field: `getline`, then `stod(trim(item))`. */
  function ReadNumber(rest: string): Option<(real, string)>
  {
    match NextField(rest)
    case None => None
    case Some((item, after)) =>
      match Stod(Trimmed(item))
      case None => None
      case Some(v) => Some((v, after))
  }

  /** The body of the `try` block: the timestamp field trimmed, then five numeric fields. */
  function ParseRow(line: string): Option<Bar>
  {
    match NextField(line)
    case None => None
    case Some((ts, r0)) =>
      match ReadNumber(r0)
      case None => None
      case Some((o, r1)) =>
        match ReadNumber(r1)
        case None => None
        case Some((h, r2)) =>
          match ReadNumber(r2)
          case None => None
          case Some((l, r3)) =>
            match ReadNumber(r3)
            case None => None
            case Some((c, r4)) =>
              match ReadNumber(r4)
              case None => None
              case Some((v, _)) => Some(Bar(Trimmed(ts), o, h, l, c, v))
  }

  /** The row a list of fields describes: the first six fields, the timestamp trimmed and the
      five numbers parsed; fewer than six fields, or a number that does not parse, is no row. */
  function RowFromFields(fs: seq<string>): Option<Bar>
  {
    if |fs| < 6 then None
    else
      match (Stod(Trimmed(fs[1])), Stod(Trimmed(fs[2])), Stod(Trimmed(fs[3])), Stod(Trimmed(fs[4])), Stod(Trimmed(fs[5])))
      case (Some(o), Some(h), Some(l), Some(c), Some(v)) => Some(Bar(Trimmed(fs[0]), o, h, l, c, v))
      case _ => None
  }

  /** Reading a number consumes exactly the line's next field. */
  lemma ReadNumberFields(rest: string)
    ensures ReadNumber(rest).Some? ==> rest != [] && Fields(rest) == [NextField(rest).value.0] + Fields(ReadNumber(rest).value.1)
    ensures ReadNumber(rest).Some? ==> Stod(Trimmed(Fields(rest)[0])) == Some(ReadNumber(rest).value.0)
    ensures ReadNumber(rest).None? ==> Fields(rest) == [] || Stod(Trimmed(Fields(rest)[0])).None?
  {
  }

  /** The getline-by-getline row parser reads the row its fields describe: a row needs six
      fields, and fields after the sixth are ignored. */
  lemma ParseRowFromFields(line: string)
    ensures ParseRow(line) == RowFromFields(Fields(line))
  {
    var fs := Fields(line);
    if line != [] {
      var r0 := NextField(line).value.1;
      assert fs == [NextField(line).value.0] + Fields(r0);
      ReadNumberFields(r0);
      if ReadNumber(r0).Some? {
        var r1 := ReadNumber(r0).value.1;
        ReadNumberFields(r1);
        if ReadNumber(r1).Some? {
          var r2 := ReadNumber(r1).value.1;
          ReadNumberFields(r2);
          if ReadNumber(r2).Some? {
            var r3 := ReadNumber(r2).value.1;
            ReadNumberFields(r3);
            if ReadNumber(r3).Some? {
              var r4 := ReadNumber(r3).value.1;
              ReadNumberFields(r4);
            }
          }
        }
      }
    }
  }

  /** Fields after the sixth never change the row. */
  lemma ExtraFieldsIgnored(fs: seq<string>, extra: seq<string>)
    requires |fs| >= 6
    ensures RowFromFields(fs + extra) == RowFromFields(fs)
  {
    assert (fs + extra)[..6] == fs[..6];
    assert forall k :: 0 <= k < 6 ==> (fs + extra)[k] == fs[k];
  }

  /** A stored timestamp is already trimmed. */
  lemma TimestampIsTrimmed(line: string)
    requires ParseRow(line).Some?
    ensures Trimmed(ParseRow(line).value.timestamp) == ParseRow(line).value.timestamp
  {
    TrimIdempotent(NextField(line).value.0);
  }

  /** `getline` then `stod(trim(item))`, with the trim done by the `Trim` method. */
  method NumberField(rest: string) returns (r: Option<(real, string)>)
    ensures r == ReadNumber(rest)
  {
    var field := NextField(rest);
    if field.None? {
      return None;
    }
    var item := Trim(field.value.0);
    var v := Stod(item);
    if v.None? {
      return None;
    }
    return Some((v.value, field.value.1));
  }

  /** One line of the loader's loop: the timestamp and the five numbers in order; the first
      missing field or unparsable number rejects the line. */
  method ParseLine(line: string) returns (bar: Option<Bar>)
    ensures bar == ParseRow(line)
  {
    var first := NextField(line);
    if first.None? {
      return None;
    }
    var timestamp := Trim(first.value.0);
    var open := NumberField(first.value.1);
    if open.None? {
      return None;
    }
    var high := NumberField(open.value.1);
    if high.None? {
      return None;
    }
    var low := NumberField(high.value.1);
    if low.None? {
      return None;
    }
    var close := NumberField(low.value.1);
    if close.None? {
      return None;
    }
    var volume := NumberField(close.value.1);
    if volume.None? {
      return None;
    }
    return Some(Bar(timestamp, open.value.0, high.value.0, low.value.0, close.value.0, volume.value.0));
  }

  // ---------------------------------------------------------------------------
  // loadCSV
  // ---------------------------------------------------------------------------

  /** The bars of the data lines, in file order, bad lines dropped. */
  function ParsedRows(lines: seq<string>): seq<Bar>
  {
    if lines == [] then []
    else
      var before := ParsedRows(lines[..|lines| - 1]);
      match ParseRow(lines[|lines| - 1])
      case None => before
      case Some(bar) => before + [bar]
  }

  /** The number of data lines that do not parse. */
  function BadRows(lines: seq<string>): nat
  {
    if lines == [] then 0
    else BadRows(lines[..|lines| - 1]) + (if ParseRow(lines[|lines| - 1]).None? then 1 else 0)
  }

  /** Every data line is either a bar or a bad line. */
  lemma {:induction false} RowsAccountedFor(lines: seq<string>)
    ensures |ParsedRows(lines)| + BadRows(lines) == |lines|
  {
    if lines != [] {
      RowsAccountedFor(lines[..|lines| - 1]);
    }
  }

  /** Parsing is line by line: the bars of a concatenation are the bars of each part, in order. */
  lemma {:induction false} ParsedRowsAppend(a: seq<string>, b: seq<string>)
    ensures ParsedRows(a + b) == ParsedRows(a) + ParsedRows(b)
    decreases |b|
  {
    if b == [] {
      assert a + b == a;
    } else {
      assert (a + b)[..|a + b| - 1] == a + b[..|b| - 1];
      ParsedRowsAppend(a, b[..|b| - 1]);
    }
  }

  /** Every loaded bar comes from a data line that parses to it. */
  lemma {:induction false} BarsComeFromLines(lines: seq<string>, k: nat)
    requires k < |ParsedRows(lines)|
    ensures exists j :: 0 <= j < |lines| && ParseRow(lines[j]) == Some(ParsedRows(lines)[k])
  {
    var front := lines[..|lines| - 1];
    var last := lines[|lines| - 1];
    if k < |ParsedRows(front)| {
      BarsComeFromLines(front, k);
      var j :| 0 <= j < |front| && ParseRow(front[j]) == Some(ParsedRows(front)[k]);
      assert lines[j] == front[j];
    } else {
      assert ParseRow(last) == Some(ParsedRows(lines)[k]);
    }
  }

  /** What `loadCSV` returns for a file's lines: nothing for an unopenable or empty file, else
      the bars of every line after the header. */
  function Loaded(file: Option<seq<string>>): seq<Bar>
  {
    match file
    case None => []
    case Some(lines) => if lines == [] then [] else ParsedRows(lines[1..])
  }

  /** `DataLoader::loadCSV`; also returns the `bad_lines` count it reports. */
  method LoadCsv(file: Option<seq<string>>) returns (data: seq<Bar>, badLines: nat)
    ensures data == Loaded(file)
    ensures file.Some? && file.value != [] ==> badLines == BadRows(file.value[1..])
    ensures file.Some? && file.value != [] ==> |data| + badLines == |file.value| - 1
    ensures file.None? || file.value == [] ==> badLines == 0
  {
    data, badLines := [], 0;
    if file.None? {
      return;
    }
    var lines := file.value;
    if |lines| == 0 {
      return;
    }
    var rows := lines[1..];
    for n := 0 to |rows|
      invariant data == ParsedRows(rows[..n]) && badLines == BadRows(rows[..n])
    {
      assert rows[..n + 1][..n] == rows[..n];
      var bar := ParseLine(rows[n]);
      if bar.None? {
        badLines := badLines + 1;
      } else {
        data := data + [bar.value];
      }
    }
    assert rows[..|rows|] == rows;
    RowsAccountedFor(rows);
  }
}
