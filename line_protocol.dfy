/** `line_protocol` (gevent_tools/util.py): read a stream line by line and
    hand out each line, stripped of surrounding whitespace unless told
    not to, until a read gives None or an empty line or fails. */
module LineProtocol {

  import opened Wrappers

  /** What one `readline()` does: return a string (the empty string at the
      end of a file), return None, or raise IOError. */
  datatype Read = Line(text: string) | Eof | Failure

  /** The characters Python 2's `str.strip()` removes. */
  predicate IsSpace(c: char)
  {
    c == ' ' || c == '\t' || c == '\n' || c == '\r' || c == 11 as char || c == 12 as char
  }

  function StripLeft(s: string): string
  {
    if s != [] && IsSpace(s[0]) then StripLeft(s[1..]) else s
  }

  function StripRight(s: string): string
  {
    if s != [] && IsSpace(s[|s| - 1]) then StripRight(s[..|s| - 1]) else s
  }

  /** `s.strip()`. */
  function Strip(s: string): string
  {
    StripRight(StripLeft(s))
  }

  lemma {:induction false} StripLeftFacts(s: string)
    ensures var r := StripLeft(s);
            && |r| <= |s| && r == s[|s| - |r|..]
            && (r == [] || !IsSpace(r[0]))
            && forall i :: 0 <= i < |s| - |r| ==> IsSpace(s[i])
  {
    if s != [] && IsSpace(s[0]) {
      var t := s[1..];
      StripLeftFacts(t);
      var r := StripLeft(t);
      assert StripLeft(s) == r;
      assert t[|t| - |r|..] == s[|s| - |r|..];
      forall i | 0 < i < |s| - |r|
        ensures IsSpace(s[i])
      {
        assert s[i] == t[i - 1];
      }
    }
  }

  lemma {:induction false} StripRightFacts(s: string)
    ensures var r := StripRight(s);
            && |r| <= |s| && r == s[..|r|]
            && (r == [] || !IsSpace(r[|r| - 1]))
            && forall i :: |r| <= i < |s| ==> IsSpace(s[i])
  {
    if s != [] && IsSpace(s[|s| - 1]) {
      var t := s[..|s| - 1];
      StripRightFacts(t);
      var r := StripRight(t);
      assert StripRight(s) == r;
      assert t[..|r|] == s[..|r|];
      forall i | |r| <= i < |s| - 1
        ensures IsSpace(s[i])
      {
        assert s[i] == t[i];
      }
    }
  }

  /** What `strip` leaves has no whitespace at either end, and it is empty
      exactly when the string is all whitespace. */
  lemma StripFacts(s: string)
    ensures var r := Strip(s);
            && (r == [] || (!IsSpace(r[0]) && !IsSpace(r[|r| - 1])))
            && (r == [] <==> forall i :: 0 <= i < |s| ==> IsSpace(s[i]))
  {
    var l := StripLeft(s);
    StripLeftFacts(s);
    StripRightFacts(l);
    var r := StripRight(l);
    assert r != [] ==> r[0] == l[0];
    assert l != [] ==> r != [];
    if r == [] {
      assert l == [];
    } else {
      assert !IsSpace(s[|s| - |l|]);
    }
  }

  /** The value `line` holds after one turn's read: None for None and for
      an IOError, otherwise the text, stripped when `strip` is set. */
  function Received(read: Read, strip: bool): Option<string>
  {
    match read
    case Line(text) => Some(if strip then Strip(text) else text)
    case Eof => None
    case Failure => None
  }

  /** Whether the loop yields that value rather than stopping. */
  predicate Yields(read: Read, strip: bool)
  {
    var line := Received(read, strip);
    line.Some? && line.value != []
  }

  /** The lines the generator yields for these reads; reads past the end
      of the list give None. */
  function Lines(stream: seq<Read>, strip: bool): (r: seq<string>)
    ensures |r| <= |stream|
  {
    if stream == [] || !Yields(stream[0], strip) then []
    else [Received(stream[0], strip).value] + Lines(stream[1..], strip)
  }

  /** One turn of the loop: a read that yields, then the rest. */
  lemma LinesCons(stream: seq<Read>, strip: bool)
    requires stream != [] && Yields(stream[0], strip)
    ensures Lines(stream, strip) == [Received(stream[0], strip).value] + Lines(stream[1..], strip)
  {
  }

  /** The turn that stops the loop. */
  lemma LinesStop(stream: seq<Read>, strip: bool)
    requires stream == [] || !Yields(stream[0], strip)
    ensures Lines(stream, strip) == []
  {
  }

  /** The position of the first read that ends the stream. */
  function StopAt(stream: seq<Read>, strip: bool): (n: nat)
    ensures n <= |stream|
    ensures forall i :: 0 <= i < n ==> Yields(stream[i], strip)
    ensures n < |stream| ==> !Yields(stream[n], strip)
  {
    if stream == [] || !Yields(stream[0], strip) then 0
    else 1 + StopAt(stream[1..], strip)
  }

  /** The lines come out in read order, none of them empty, one for each
      read before the first None, empty line or IOError, and nothing after
      it. */
  lemma {:induction false} LinesSpec(stream: seq<Read>, strip: bool)
    ensures var r := Lines(stream, strip);
            && |r| == StopAt(stream, strip)
            && forall i :: 0 <= i < |r| ==> r[i] != [] && Some(r[i]) == Received(stream[i], strip)
  {
    if stream != [] && Yields(stream[0], strip) {
      LinesSpec(stream[1..], strip);
    }
  }

  /** The `while True` loop of `line_protocol`, collecting what it yields. */
  method Collect(stream: seq<Read>, strip: bool) returns (lines: seq<string>)
    ensures lines == Lines(stream, strip)
  {
    lines := [];
    var i := 0;
    while true
      invariant 0 <= i <= |stream|
      invariant Lines(stream, strip) == lines + Lines(stream[i..], strip)
      decreases |stream| - i
    {
      var line := ReadOne(stream, i, strip);
      if line.Some? && line.value != [] {
        assert stream[i..][0] == stream[i] && stream[i..][1..] == stream[i + 1..];
        LinesCons(stream[i..], strip);
        lines := lines + [line.value];
        i := i + 1;
      } else {
        assert i < |stream| ==> stream[i..][0] == stream[i];
        LinesStop(stream[i..], strip);
        break;
      }
    }
  }

  /** One turn's `line = reads()` and optional `line.strip()`; reading
      past the end of the list gives None. */
  method ReadOne(stream: seq<Read>, i: nat, strip: bool) returns (line: Option<string>)
    ensures i < |stream| ==> line == Received(stream[i], strip)
    ensures i >= |stream| ==> line == None
  {
    if i >= |stream| {
      return None;
    }
    match stream[i] {
      case Line(text) =>
        line := Some(text);
        if strip {
          line := Some(Strip(text));
        }
      case Eof =>
        line := None;
      case Failure =>
        line := None;
    }
  }

  /** With `strip`, a read of nothing but whitespace ends the stream. */
  lemma BlankLineEnds(stream: seq<Read>, text: string)
    requires stream != [] && stream[0] == Line(text)
    requires forall i :: 0 <= i < |text| ==> IsSpace(text[i])
    ensures Lines(stream, true) == []
  {
    StripFacts(text);
  }

  /** The position just after the first newline of `data`, or its length. */
  function NextBreak(data: string): (k: nat)
    ensures 0 < k <= |data| || (data == [] && k == 0)
    ensures forall i :: 0 <= i < k - 1 ==> data[i] != '\n'
    ensures k < |data| ==> data[k - 1] == '\n'
  {
    if data == [] then 0
    else if data[0] == '\n' then 1
    else 1 + NextBreak(data[1..])
  }

  /** `readline()` on a file over `data`: each line with its newline, the
      last one without if the data does not end in one, then "". */
  function ReadLines(data: string): seq<Read>
    decreases |data|
  {
    if data == [] then [Line([])]
    else
      var k := NextBreak(data);
      [Line(data[..k])] + ReadLines(data[k..])
  }

  /** `sep.join(lines)`. */
  function Join(lines: seq<string>, sep: string): string
  {
    if lines == [] then []
    else if |lines| == 1 then lines[0]
    else lines[0] + sep + Join(lines[1..], sep)
  }

  /** A line as the tests send it: not empty, no newline inside, and no
      whitespace at either end. */
  predicate Plain(line: string)
  {
    line != [] && '\n' !in line && !IsSpace(line[0]) && !IsSpace(line[|line| - 1])
  }

  /** `readline()` returns a plain line followed by a separator ending in
      a newline as one read, and the rest of the data after it. */
  lemma ReadPlainLine(line: string, sep: string, rest: string)
    requires Plain(line) && (sep == "\n" || sep == "\r\n")
    ensures ReadLines(line + sep + rest) == [Line(line + sep)] + ReadLines(rest)
  {
    var data := line + sep + rest;
    var k := |line| + |sep|;
    assert forall i :: 0 <= i < |line| ==> data[i] == line[i];
    assert data[k - 1] == '\n';
    assert sep == "\r\n" ==> data[|line|] == '\r';
    assert NextBreak(data) == k;
    assert data[..k] == line + sep;
    assert data[k..] == rest;
  }

  /** A plain line ends its data: one read, then "". */
  lemma ReadLastLine(line: string)
    requires Plain(line)
    ensures ReadLines(line) == [Line(line), Line([])]
  {
    assert forall i :: 0 <= i < |line| ==> line[i] != '\n';
    assert NextBreak(line) == |line|;
    assert line[..|line|] == line && line[|line|..] == [];
  }

  /** Stripping a plain line and its separator leaves the line. */
  lemma StripSeparated(line: string, sep: string)
    requires Plain(line) && (sep == "\n" || sep == "\r\n" || sep == "")
    ensures Strip(line + sep) == line
  {
    var s := line + sep;
    assert s[0] == line[0];
    assert StripLeft(s) == s;
    assert StripRight(line) == line;
    if sep == "\n" {
      assert s[|s| - 1] == '\n' && s[..|s| - 1] == line;
    } else if sep == "\r\n" {
      var t := line + "\r";
      assert s[|s| - 1] == '\n' && s[..|s| - 1] == t;
      assert t[|t| - 1] == '\r' && t[..|t| - 1] == line;
      assert StripRight(t) == line;
      assert StripRight(s) == StripRight(t);
    } else {
      assert s == line;
    }
  }

  /** A plain line and its separator come out as the line, followed by
      whatever the rest of the data gives. */
  lemma JoinedStep(line: string, sep: string, rest: string)
    requires Plain(line) && (sep == "\n" || sep == "\r\n")
    ensures Lines(ReadLines(line + sep + rest), true) == [line] + Lines(ReadLines(rest), true)
  {
    ReadPlainLine(line, sep, rest);
    StripSeparated(line, sep);
    var stream := ReadLines(line + sep + rest);
    assert stream[0] == Line(line + sep) && stream[1..] == ReadLines(rest);
    assert Received(stream[0], true) == Some(line);
    LinesCons(stream, true);
  }

  /** A plain line alone comes out as itself. */
  lemma LastLine(line: string)
    requires Plain(line)
    ensures Lines(ReadLines(line), true) == [line]
  {
    ReadLastLine(line);
    StripSeparated(line, "");
    assert line + "" == line;
    assert Received(Line(line), true) == Some(line);
    var stream := ReadLines(line);
    assert stream[1..] == [Line([])];
    assert Strip([]) == [];
    LinesStop(stream[1..], true);
    LinesCons(stream, true);
  }

  /** N plain lines joined by "\n" or by "\r\n" come out as exactly those N
      lines when stripped. */
  lemma {:induction false} JoinedLinesRoundTrip(lines: seq<string>, sep: string)
    requires forall i :: 0 <= i < |lines| ==> Plain(lines[i])
    requires sep == "\n" || sep == "\r\n"
    ensures Lines(ReadLines(Join(lines, sep)), true) == lines
    decreases |lines|, 1
  {
    if |lines| >= 2 {
      JoinedMany(lines, sep);
    } else if lines != [] {
      LastLine(lines[0]);
      assert lines == [lines[0]];
    } else {
      assert ReadLines([]) == [Line([])];
    }
  }

  /** The step of that round trip for two lines or more. */
  lemma {:induction false} JoinedMany(lines: seq<string>, sep: string)
    requires |lines| >= 2 && forall i :: 0 <= i < |lines| ==> Plain(lines[i])
    requires sep == "\n" || sep == "\r\n"
    ensures Lines(ReadLines(Join(lines, sep)), true) == lines
    decreases |lines|, 0
  {
    JoinedCons(lines, sep);
    var tail := lines[1..];
    assert Lines(ReadLines(Join(lines, sep)), true) == [lines[0]] + Lines(ReadLines(Join(tail, sep)), true);
    assert forall i :: 0 <= i < |tail| ==> Plain(tail[i]) by {
      assert forall i :: 0 <= i < |tail| ==> tail[i] == lines[i + 1];
    }
    JoinedLinesRoundTrip(tail, sep);
    assert [lines[0]] + tail == lines;
  }

  /** Reading two lines or more joined: the first line, then the others. */
  lemma JoinedCons(lines: seq<string>, sep: string)
    requires |lines| >= 2 && Plain(lines[0])
    requires sep == "\n" || sep == "\r\n"
    ensures Lines(ReadLines(Join(lines, sep)), true) == [lines[0]] + Lines(ReadLines(Join(lines[1..], sep)), true)
  {
    assert Join(lines, sep) == lines[0] + sep + Join(lines[1..], sep);
    JoinedStep(lines[0], sep, Join(lines[1..], sep));
  }

  /** A line that ends in its only newline. */
  predicate Terminated(line: string)
  {
    line != [] && line[|line| - 1] == '\n' && '\n' !in line[..|line| - 1]
  }

  /** `''.join(lines)`. */
  function Concat(lines: seq<string>): string
  {
    if lines == [] then [] else lines[0] + Concat(lines[1..])
  }

  /** `readline()` returns a terminated line as one read. */
  lemma ReadTerminatedLine(line: string, rest: string)
    requires Terminated(line)
    ensures ReadLines(line + rest) == [Line(line)] + ReadLines(rest)
  {
    var data := line + rest;
    assert forall i :: 0 <= i < |line| - 1 ==> data[i] == line[..|line| - 1][i];
    assert data[|line| - 1] == '\n';
    assert NextBreak(data) == |line|;
    assert data[..|line|] == line && data[|line|..] == rest;
  }

  /** Without `strip`, terminated lines come out verbatim, newline and all,
      a lone "\n" included. */
  lemma {:induction false} VerbatimLines(lines: seq<string>)
    requires forall i :: 0 <= i < |lines| ==> Terminated(lines[i])
    ensures Lines(ReadLines(Concat(lines)), false) == lines
  {
    if lines != [] {
      var tail := lines[1..];
      ReadTerminatedLine(lines[0], Concat(tail));
      var stream := ReadLines(Concat(lines));
      assert stream[0] == Line(lines[0]) && stream[1..] == ReadLines(Concat(tail));
      assert Received(stream[0], false) == Some(lines[0]);
      LinesCons(stream, false);
      assert forall i :: 0 <= i < |tail| ==> Terminated(tail[i]) by {
        assert forall i :: 0 <= i < |tail| ==> tail[i] == lines[i + 1];
      }
      VerbatimLines(tail);
      assert [lines[0]] + tail == lines;
    } else {
      assert ReadLines([]) == [Line([])];
      LinesStop(ReadLines([]), false);
    }
  }

  /** Each line followed by its separator. */
  function Terminate(lines: seq<string>, sep: string): (r: seq<string>)
    ensures |r| == |lines|
    ensures forall i :: 0 <= i < |lines| ==> r[i] == lines[i] + sep
  {
    if lines == [] then [] else [lines[0] + sep] + Terminate(lines[1..], sep)
  }

  /** With `strip`, plain lines each sent with "\n" or "\r\n" come out as
      the lines without their separators. */
  lemma {:induction false} StrippedLines(lines: seq<string>, sep: string)
    requires forall i :: 0 <= i < |lines| ==> Plain(lines[i])
    requires sep == "\n" || sep == "\r\n"
    ensures Lines(ReadLines(Concat(Terminate(lines, sep))), true) == lines
  {
    if lines != [] {
      var tail := lines[1..];
      assert Concat(Terminate(lines, sep)) == lines[0] + sep + Concat(Terminate(tail, sep));
      JoinedStep(lines[0], sep, Concat(Terminate(tail, sep)));
      assert forall i :: 0 <= i < |tail| ==> Plain(tail[i]) by {
        assert forall i :: 0 <= i < |tail| ==> tail[i] == lines[i + 1];
      }
      StrippedLines(tail, sep);
      assert [lines[0]] + tail == lines;
    } else {
      assert ReadLines([]) == [Line([])];
      LinesStop(ReadLines([]), true);
    }
  }
}
