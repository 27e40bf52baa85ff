/**
  The header part of the report: a status line carrying only the numeric
  status code, then one `name: value` line for each raw header line curl
  delivered that can be split at a colon, in the order curl delivered them.
  This is a simplified form of the field-line syntax of section 5 of RFC 9112:
  the name is what precedes the first colon, the value what follows it, both
  stripped of surrounding whitespace.
 */
module Headers {
  import opened Options
  import opened Text
  import opened Sequences

  /** `HTTP/1.1 ` followed by the decimal status code. */
  function StatusLine(status: U32): (line: string)
    ensures |line| > 9 && line[..9] == "HTTP/1.1 "
    ensures forall i :: 9 <= i < |line| ==> IsDigit(line[i])
    ensures line[9] == '0' <==> status == 0
    ensures line[9] == '0' ==> |line| == 10
    ensures DecimalValue(line[9..]) == status
  {
    var digits := Decimal(status);
    DecimalRoundTrip(status);
    assert ("HTTP/1.1 " + digits)[9..] == digits;
    "HTTP/1.1 " + digits
  }

  /** The contract of `StatusLine` fixes the line: any line that is `HTTP/1.1 `
      followed by digits without a leading zero denoting the status code is it. */
  lemma StatusLineDeterminedByCode(line: string, status: U32)
    requires |line| > 9 && line[..9] == "HTTP/1.1 "
    requires forall i :: 9 <= i < |line| ==> IsDigit(line[i])
    requires line[9] == '0' ==> |line| == 10
    requires DecimalValue(line[9..]) == status
    ensures line == StatusLine(status)
  {
    var expected := StatusLine(status);
    DecimalCanonical(line[9..], status);
    DecimalCanonical(expected[9..], status);
    assert line == line[..9] + line[9..];
    assert expected == expected[..9] + expected[9..];
  }

  /** The output line for one raw header line: its trimmed name and trimmed
      value joined by `": "`, or `None` for a line without a colon (curl's own
      status line, the blank line that ends the header block). */
  function FieldLine(raw: string): (line: Option<string>)
    ensures line.Some? <==> ':' in raw
  {
    match SplitOnce(raw, ':')
    case Some((name, value)) => Some(Trim(name) + ": " + Trim(value))
    case None => None
  }

  /** What one raw header line contributes to the output: its output line, or nothing. */
  function Emitted(raw: string): (lines: seq<string>)
    ensures |lines| <= 1
    ensures |lines| == 1 <==> ':' in raw
  {
    match FieldLine(raw)
    case Some(line) => [line]
    case None => []
  }

  /** The output lines for a list of raw header lines, in order. */
  function HeaderLines(raw: seq<string>): (lines: seq<string>)
    ensures |lines| <= |raw|
  {
    FilterMap(FieldLine, raw)
  }

  /** The raw header lines that contain a colon, in their original order. */
  function ColonLines(raw: seq<string>): (kept: seq<string>)
    ensures forall h :: h in kept ==> h in raw && ':' in h
    ensures forall h :: h in raw && ':' in h ==> h in kept
  {
    Kept(FieldLine, raw)
  }

  /** A single raw line is kept exactly when it contains a colon; with
      `ColonLinesAppend` this fixes `ColonLines` on every list of raw lines. */
  lemma ColonLinesSingle(h: string)
    ensures ColonLines([h]) == if ':' in h then [h] else []
  {
    KeptSingle(FieldLine, h);
  }

  /** The header block printed for a response: the status line, then each raw
      header line that has a colon, rewritten as `name: value`. */
  method PrintHeaders(headers: seq<string>, status: U32) returns (out: seq<string>)
    ensures out == [StatusLine(status)] + HeaderLines(headers)
    ensures out[0][..9] == "HTTP/1.1 " && DecimalValue(out[0][9..]) == status
    ensures |out| == 1 + |ColonLines(headers)|
  {
    var statusLine := StatusLine(status);
    out := [statusLine];
    for i := 0 to |headers|
      invariant out == [statusLine] + HeaderLines(headers[..i])
    {
      PrintedSoFarStep(statusLine, headers, i, out);
      out := PrintFieldLine(out, headers[i]);
    }
    assert headers[..|headers|] == headers;
    HeaderLinesAreColonLines(headers);
  }

  /** Prints one raw header line: appends `name: value` when it splits at a colon. */
  method PrintFieldLine(out: seq<string>, header: string) returns (out': seq<string>)
    ensures out' == out + Emitted(header)
  {
    out' := out;
    match SplitOnce(header, ':')
    case Some((key, value)) =>
      out' := out' + [Trim(key) + ": " + Trim(value)];
    case None =>
  }

  /** One more raw header line adds its output line, if it has one, at the end. */
  lemma HeaderLinesStep(headers: seq<string>, i: nat)
    requires i < |headers|
    ensures HeaderLines(headers[..i + 1]) == HeaderLines(headers[..i]) + Emitted(headers[i])
  {
    assert headers[..i + 1] == headers[..i] + [headers[i]];
    HeaderLinesAppend(headers[..i], [headers[i]]);
    FilterMapSingle(FieldLine, headers[i]);
  }

  /** The loop of `PrintHeaders` keeps its invariant: appending what the next
      raw line contributes extends the output to one more raw line. */
  lemma PrintedSoFarStep(statusLine: string, headers: seq<string>, i: nat, out: seq<string>)
    requires i < |headers|
    requires out == [statusLine] + HeaderLines(headers[..i])
    ensures out + Emitted(headers[i]) == [statusLine] + HeaderLines(headers[..i + 1])
  {
    HeaderLinesStep(headers, i);
    AppendStep([statusLine], HeaderLines(headers[..i]), Emitted(headers[i]), HeaderLines(headers[..i + 1]));
  }

  /** Concatenation regrouped: extending `a` by `e` to `b` extends `s + a` to `s + b`. */
  lemma AppendStep<T>(s: seq<T>, a: seq<T>, e: seq<T>, b: seq<T>)
    requires b == a + e
    ensures (s + a) + e == s + b
  {
  }

  /** Header lines are rendered one by one: the lines for two blocks of raw
      header lines are the lines for the first followed by those for the second. */
  lemma HeaderLinesAppend(a: seq<string>, b: seq<string>)
    ensures HeaderLines(a + b) == HeaderLines(a) + HeaderLines(b)
  {
    FilterMapAppend(FieldLine, a, b);
  }

  /** Keeping the colon lines of two blocks is keeping those of each, in order. */
  lemma ColonLinesAppend(a: seq<string>, b: seq<string>)
    ensures ColonLines(a + b) == ColonLines(a) + ColonLines(b)
  {
    KeptAppend(FieldLine, a, b);
  }

  /** A single raw header line gives exactly one output line, its trimmed
      name, `": "` and its trimmed value, when it has a colon, and none otherwise. */
  lemma SingleHeaderLine(raw: string)
    ensures ':' !in raw ==> HeaderLines([raw]) == []
    ensures ':' in raw ==> exists name, value ::
      raw == name + ":" + value && ':' !in name
      && HeaderLines([raw]) == [Trim(name) + ": " + Trim(value)]
  {
    FilterMapSingle(FieldLine, raw);
    if ':' in raw {
      var r := SplitOnce(raw, ':');
      var name, value := r.value.0, r.value.1;
      assert raw == name + ":" + value;
      assert HeaderLines([raw]) == [Trim(name) + ": " + Trim(value)];
    }
  }

  /** Splitting happens at the first colon only: later colons stay in the value. */
  lemma LaterColonsStayInValue(name: string, value: string)
    requires ':' !in name
    ensures FieldLine(name + ":" + value) == Some(Trim(name) + ": " + Trim(value))
  {
    assert name + ":" + value == name + [':'] + value;
    SplitOnceOfJoin(name, ':', value);
  }

  /** The header lines are the colon lines, each rewritten: one output line per
      raw line with a colon, so duplicate names are neither merged nor dropped. */
  lemma HeaderLinesAreColonLines(raw: seq<string>)
    ensures |HeaderLines(raw)| == |ColonLines(raw)|
    ensures forall j :: 0 <= j < |ColonLines(raw)| ==>
      FieldLine(ColonLines(raw)[j]) == Some(HeaderLines(raw)[j])
  {
    FilterMapIsMapOfKept(FieldLine, raw);
  }

  /** Rewriting an output line again leaves it unchanged: the name of an output
      line has no colon and no surrounding whitespace, and its value none either. */
  lemma FieldLineIdempotent(raw: string, line: string)
    requires FieldLine(raw) == Some(line)
    ensures FieldLine(line) == Some(line)
  {
    var r := SplitOnce(raw, ':');
    var name, value := Trim(r.value.0), Trim(r.value.1);
    assert line == name + ": " + value;
    TrimKeepsOut(r.value.0, ':');
    RenderedLineParts(name, value);
    TrimOfTrimmed(name);
    SpaceThenTrimmed(value);
  }

  /** The space after the colon of an output line is trimmed away again. */
  lemma SpaceThenTrimmed(m: string)
    requires Trimmed(m)
    ensures Trim(" " + m) == m
  {
    assert " " + m + [] == " " + m;
    TrimOfPadded(" ", m, []);
  }

  /** Trimming never brings in a character that was not there. */
  lemma TrimKeepsOut(s: string, c: char)
    requires c !in s
    ensures c !in Trim(s)
  {
    var lead, tail := TrimDecompose(s);
  }

  /** An output line `name: value` splits back into `name` and ` value`. */
  lemma RenderedLineParts(name: string, value: string)
    requires ':' !in name
    ensures FieldLine(name + ": " + value) == Some(Trim(name) + ": " + Trim(" " + value))
  {
    assert name + ": " + value == name + ":" + (" " + value);
    LaterColonsStayInValue(name, " " + value);
  }

  /** A wire line `name:` followed by whitespace, the value and trailing
      whitespace (a CRLF) prints as `name: value`. */
  lemma WireFieldLine(name: string, space: string, value: string, crlf: string)
    requires ':' !in name && Trimmed(name) && Trimmed(value)
    requires AllWhitespace(space) && AllWhitespace(crlf)
    ensures FieldLine(name + ":" + (space + value + crlf)) == Some(name + ": " + value)
  {
    TrimOfTrimmed(name);
    TrimOfPadded(space, value, crlf);
    LaterColonsStayInValue(name, space + value + crlf);
  }

  /** Duplicate names are kept in wire order: a block made of a status line,
      fields `a`, `b`, `a` and the blank line ending the block prints exactly
      the three fields, in that order. */
  lemma DuplicateNamesKeptInOrder(
    statusText: string, a: string, b: string, v1: string, v2: string, v3: string,
    space: string, crlf: string)
    requires ':' !in statusText
    requires ':' !in a && ':' !in b && Trimmed(a) && Trimmed(b)
    requires Trimmed(v1) && Trimmed(v2) && Trimmed(v3)
    requires AllWhitespace(space) && AllWhitespace(crlf)
    ensures HeaderLines([statusText, a + ":" + (space + v1 + crlf), b + ":" + (space + v2 + crlf),
                         a + ":" + (space + v3 + crlf), crlf])
      == [a + ": " + v1, b + ": " + v2, a + ": " + v3]
  {
    var l1, l2, l3 := a + ":" + (space + v1 + crlf), b + ":" + (space + v2 + crlf), a + ":" + (space + v3 + crlf);
    FramingLinesDropped(statusText, crlf);
    WireFieldLine(a, space, v1, crlf);
    WireFieldLine(b, space, v2, crlf);
    WireFieldLine(a, space, v3, crlf);
    FilterMapMiddleThree(FieldLine, statusText, l1, l2, l3, crlf, a + ": " + v1, b + ": " + v2, a + ": " + v3);
  }

  /** A status line without a colon and the blank line ending the block print nothing. */
  lemma FramingLinesDropped(statusText: string, crlf: string)
    requires ':' !in statusText && AllWhitespace(crlf)
    ensures FieldLine(statusText) == None && FieldLine(crlf) == None
  {
    assert !IsWhitespace(':');
  }
}
