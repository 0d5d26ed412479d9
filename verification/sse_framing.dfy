/**
 * Server-sent event framing: the printer `format_sse_event` (core/anthropic/sse.py), the line
 * parser `parse_sse_lines` (core/anthropic/stream_contracts.py) and the incremental reader of
 * `EmittedNativeSseTracker.feed` (core/anthropic/emitted_sse_tracker.py).
 *
 * The reader's answer does not depend on how a text is cut, and it reads back what was printed.
 */
module SseFraming {
  import opened Text

  /** An event before its data is decoded. */
  datatype Raw = Raw(event: string, data: string)

  // ----- lines -----

  /** The characters at which `str.splitlines` breaks a line. */
  predicate IsBreak(c: char) {
    || '\n' <= c <= '\r' || '\U{1c}' <= c <= '\U{1e}'
    || c == '\U{85}' || c == '\U{2028}' || c == '\U{2029}'
  }

  predicate NoBreak(s: string) {
    forall i | 0 <= i < |s| :: !IsBreak(s[i])
  }

  function LineEnd(s: string): (k: nat)
    ensures k <= |s| && NoBreak(s[..k]) && (k < |s| ==> IsBreak(s[k]))
  {
    if s == "" || IsBreak(s[0]) then 0 else 1 + LineEnd(s[1..])
  }

  function SplitLines(s: string): seq<string>
    decreases |s|
  {
    if s == "" then []
    else
      var k := LineEnd(s);
      if k == |s| then [s]
      else [s[..k]] + SplitLines(s[if s[k] == '\r' && k + 1 < |s| && s[k + 1] == '\n' then k + 2 else k + 1..])
  }

  function Pending(event: string, data: seq<string>): seq<Raw> {
    if event == "" && data == [] then [] else [Raw(event, Join(data, "\n"))]
  }

  /** `parse_sse_lines`: the arguments are the event name and the data lines read so far. */
  function ParseLines(lines: seq<string>, event: string, data: seq<string>): seq<Raw>
    decreases |lines|
  {
    if lines == [] then Pending(event, data)
    else
      var line, rest := lines[0], lines[1..];
      if line == "" then Pending(event, data) + ParseLines(rest, "", [])
      else if StartsWith(line, "event:") then ParseLines(rest, Strip(line[6..]), data)
      else if StartsWith(line, "data:") then ParseLines(rest, event, data + [Strip(line[5..])])
      else ParseLines(rest, event, data)
  }

  function ParseFrame(frame: string): seq<Raw> {
    if IsBlank(frame) then [] else ParseLines(SplitLines(frame), "", [])
  }

  // ----- frames -----

  /** The position of the first blank line, or -1. */
  function FindBlankLine(s: string): (k: int)
    ensures k == -1 || 0 <= k <= |s| - 2
    ensures k >= 0 ==> s[k] == '\n' && s[k + 1] == '\n' && forall j | 0 <= j < k :: !(s[j] == '\n' && s[j + 1] == '\n')
    ensures k == -1 ==> forall j | 0 <= j < |s| - 1 :: !(s[j] == '\n' && s[j + 1] == '\n')
  {
    if |s| < 2 then -1
    else if s[0] == '\n' && s[1] == '\n' then 0
    else
      var k := FindBlankLine(s[1..]);
      assert forall j | 1 <= j < |s| :: s[j] == s[1..][j - 1];
      if k < 0 then -1 else k + 1
  }

  /** The events of the complete frames of a text. */
  function Observed(text: string): seq<Raw>
    decreases |text|
  {
    var k := FindBlankLine(text);
    if k < 0 then [] else ParseFrame(text[..k]) + Observed(text[k + 2..])
  }

  /** What follows the last complete frame. */
  function Rest(text: string): string
    decreases |text|
  {
    var k := FindBlankLine(text);
    if k < 0 then text else Rest(text[k + 2..])
  }

  lemma FirstFrame(a: string, b: string)
    requires FindBlankLine(a) >= 0
    ensures var k := FindBlankLine(a);
            FindBlankLine(a + b) == k && (a + b)[..k] == a[..k] && (a + b)[k + 2..] == a[k + 2..] + b
  {
    assert forall j | 0 <= j < |a| :: (a + b)[j] == a[j];
  }

  /** Reading a text in two parts: what the first part leaves over is read with the second. */
  lemma {:induction false} CutAnywhere(a: string, b: string)
    ensures Observed(a + b) == Observed(a) + Observed(Rest(a) + b)
    ensures Rest(a + b) == Rest(Rest(a) + b)
    decreases |a|
  {
    var k := FindBlankLine(a);
    if k >= 0 {
      FirstFrame(a, b);
      CutAnywhere(a[k + 2..], b);
      Assoc(ParseFrame(a[..k]), Observed(a[k + 2..]), Observed(Rest(a[k + 2..]) + b));
    }
  }

  // ----- printing -----

  function EventLine(r: Raw): string {
    "event: " + r.event
  }

  function DataLine(r: Raw): string {
    "data: " + r.data
  }

  /** `format_sse_event`. */
  function Print(r: Raw): string {
    EventLine(r) + "\n" + DataLine(r) + "\n\n"
  }

  function PrintAll(rs: seq<Raw>): string {
    if rs == [] then "" else Print(rs[0]) + PrintAll(rs[1..])
  }

  /** One line, without outer white space: what event names and JSON texts are. */
  predicate Printable(r: Raw) {
    NoBreak(r.event) && NoBreak(r.data) && Stripped(r.event) && Stripped(r.data)
  }

  lemma StripPadded(s: string)
    requires Stripped(s)
    ensures Strip(" " + s) == s
  {
    assert (" " + s)[1..] == s && (" " + s)[0] == ' ';
    assert LStrip(s) == s && RStrip(s) == s;
  }

  lemma {:induction false} LineEndOf(a: string, b: string)
    requires NoBreak(a) && b != "" && IsBreak(b[0])
    ensures LineEnd(a + b) == |a|
  {
    assert forall j | 0 <= j < |a| :: (a + b)[j] == a[j];
    assert (a + b)[|a|] == b[0];
  }

  lemma TwoLines(first: string, second: string)
    requires NoBreak(first) && NoBreak(second) && second != ""
    ensures SplitLines(first + "\n" + second) == [first, second]
  {
    var rest := "\n" + second;
    var frame := first + "\n" + second;
    assert frame == first + rest;
    LineEndOf(first, rest);
    assert frame[|first|] == '\n' && frame[..|first|] == first && frame[|first| + 1..] == second;
    OneLine(second);
  }

  lemma {:induction false} OneLine(s: string)
    requires NoBreak(s) && s != ""
    ensures SplitLines(s) == [s]
  {
    assert LineEnd(s) == |s|;
  }

  lemma LineStarts(r: Raw)
    requires Printable(r)
    ensures StartsWith(EventLine(r), "event:") && EventLine(r)[6..] == " " + r.event
    ensures !StartsWith(DataLine(r), "event:") && StartsWith(DataLine(r), "data:") && DataLine(r)[5..] == " " + r.data
    ensures NoBreak(EventLine(r)) && NoBreak(DataLine(r)) && DataLine(r) != "" && EventLine(r) != ""
            && EventLine(r)[0] == 'e'
  {
    assert DataLine(r)[0] == 'd';
    if |DataLine(r)| >= 6 {
      assert DataLine(r)[..6][0] == 'd';
    }
  }

  lemma ParseTwo(first: string, second: string, event: string, data: string)
    requires first != "" && StartsWith(first, "event:") && Strip(first[6..]) == event
    requires second != "" && !StartsWith(second, "event:") && StartsWith(second, "data:") && Strip(second[5..]) == data
    ensures ParseLines([first, second], "", []) == [Raw(event, data)]
  {
    assert [first, second][1..] == [second] && [second][1..] == [] && [] + [data] == [data];
    assert ParseLines([first, second], "", []) == ParseLines([second], event, []);
    assert ParseLines([second], event, []) == ParseLines([], event, [data]);
  }

  lemma FrameParses(r: Raw)
    requires Printable(r)
    ensures ParseFrame(EventLine(r) + "\n" + DataLine(r)) == [r]
  {
    LineStarts(r);
    TwoLines(EventLine(r), DataLine(r));
    var frame := EventLine(r) + "\n" + DataLine(r);
    assert frame[0] == 'e' && !IsBlank(frame);
    StripPadded(r.event);
    StripPadded(r.data);
    ParseTwo(EventLine(r), DataLine(r), r.event, r.data);
  }

  lemma BlankLineAfter(first: string, second: string, more: string)
    requires NoBreak(first) && NoBreak(second) && second != ""
    ensures FindBlankLine(first + "\n" + second + "\n\n" + more) == |first| + 1 + |second|
  {
    var text, n, m := first + "\n" + second + "\n\n" + more, |first|, |first| + 1 + |second|;
    assert text[m] == '\n' && text[m + 1] == '\n';
    assert text[n] == '\n' && text[n + 1] == second[0] != '\n';
    forall j | 0 <= j < m && j != n ensures text[j] != '\n' {
      if j < n {
        assert text[j] == first[j];
      } else {
        assert text[j] == second[j - n - 1];
      }
    }
  }

  /** Reading a printed frame with more text after it. */
  lemma ReadOne(r: Raw, more: string)
    requires Printable(r)
    ensures Observed(Print(r) + more) == [r] + Observed(more) && Rest(Print(r) + more) == Rest(more)
  {
    LineStarts(r);
    BlankLineAfter(EventLine(r), DataLine(r), more);
    FrameParses(r);
    OneFrame(EventLine(r) + "\n" + DataLine(r), more);
  }

  lemma OneFrame(frame: string, more: string)
    requires FindBlankLine(frame + "\n\n" + more) == |frame|
    ensures Observed(frame + "\n\n" + more) == ParseFrame(frame) + Observed(more)
            && Rest(frame + "\n\n" + more) == Rest(more)
  {
    var text := frame + "\n\n" + more;
    assert text[..|frame|] == frame && text[|frame| + 2..] == more;
  }

  /** Printed events are read back exactly, in order, with nothing left over. */
  lemma {:induction false} ReadBack(rs: seq<Raw>)
    requires forall r | r in rs :: Printable(r)
    ensures Observed(PrintAll(rs)) == rs && Rest(PrintAll(rs)) == ""
    decreases |rs|
  {
    if rs != [] {
      ReadOne(rs[0], PrintAll(rs[1..]));
      ReadBack(rs[1..]);
    }
  }

  // ----- frames with several lines -----

  /** The last event line counts, and all data lines do. */
  function EventNamed(lines: seq<string>): string {
    if lines == [] then ""
    else
      var last := lines[|lines| - 1];
      if "event:" <= last then Strip(last[6..]) else EventNamed(lines[..|lines| - 1])
  }

  function DataIn(lines: seq<string>): seq<string> {
    if lines == [] then []
    else
      var last := lines[|lines| - 1];
      DataIn(lines[..|lines| - 1]) + if "data:" <= last && !("event:" <= last) then [Strip(last[5..])] else []
  }

  function EventOf(event: string, data: seq<string>): seq<Raw> {
    if event == "" && data == [] then [] else [Raw(event, Join(data, "\n"))]
  }

  predicate NoneEmpty(lines: seq<string>) {
    forall i | 0 <= i < |lines| :: lines[i] != ""
  }

  lemma {:induction false} ParseSnoc(lines: seq<string>, last: string, event: string, data: seq<string>)
    requires last != "" && NoneEmpty(lines)
    ensures var event', data' := Reads(lines, event, data).0, Reads(lines, event, data).1;
            && ParseLines(lines, event, data) == EventOf(event', data')
            && ParseLines(lines + [last], event, data) == ParseLines([last], event', data')
            && Reads(lines + [last], event, data) ==
                 (if "event:" <= last then (Strip(last[6..]), data')
                  else if "data:" <= last then (event', data' + [Strip(last[5..])])
                  else (event', data'))
    decreases |lines|
  {
    if lines == [] {
      assert [] + [last] == [last] && [last][1..] == [];
    } else {
      AppendTail(lines, [last]);
      var line := lines[0];
      if "event:" <= line {
        ParseSnoc(lines[1..], last, Strip(line[6..]), data);
      } else if "data:" <= line {
        ParseSnoc(lines[1..], last, event, data + [Strip(line[5..])]);
      } else {
        ParseSnoc(lines[1..], last, event, data);
      }
    }
  }

  /** The event name and the data lines after these lines. */
  function Reads(lines: seq<string>, event: string, data: seq<string>): (string, seq<string>)
    decreases |lines|
  {
    if lines == [] then (event, data)
    else if "event:" <= lines[0] then Reads(lines[1..], Strip(lines[0][6..]), data)
    else if "data:" <= lines[0] then Reads(lines[1..], event, data + [Strip(lines[0][5..])])
    else Reads(lines[1..], event, data)
  }

  /** A frame of any lines is one event: its last name, its data lines joined, whatever else is in it ignored. */
  lemma {:induction false} LinesAreRead(lines: seq<string>)
    requires NoneEmpty(lines)
    ensures Reads(lines, "", []) == (EventNamed(lines), DataIn(lines))
    ensures ParseLines(lines, "", []) == EventOf(EventNamed(lines), DataIn(lines))
    decreases |lines|
  {
    if lines != [] {
      var init, last := lines[..|lines| - 1], lines[|lines| - 1];
      assert lines == init + [last];
      LinesAreRead(init);
      ParseSnoc(init, last, "", []);
      assert [last][1..] == [];
      AppendNone(DataIn(init));
    }
  }

  /** The form in which an event is sent. */
  lemma PrintedAs(r: Raw)
    ensures Print(r) == "event: " + r.event + "\ndata: " + r.data + "\n\n"
  {
  }

  // ----- lines -----

  lemma AsciiBreaks(c: char)
    requires c < '\U{80}'
    ensures IsBreak(c) <==>
              c == '\n' || c == '\r' || c == '\U{b}' || c == '\U{c}' || c == '\U{1c}' || c == '\U{1d}' || c == '\U{1e}'
  {
  }

  /** A line ends at a break, a carriage return with its line feed being one; at the end no line is left over. */
  lemma LinesAreSplit(line: string, end: string, more: string)
    requires NoBreak(line)
    requires end == "\r\n" || (|end| == 1 && IsBreak(end[0]) && !(end[0] == '\r' && more != "" && more[0] == '\n'))
    ensures SplitLines(line) == if line == "" then [] else [line]
    ensures SplitLines(line + end + more) == [line] + SplitLines(more)
  {
    var s := line + end + more;
    assert line[..|line|] == line;
    LineEndOf(line, end + more);
    LineEndAll(line);
    assert line + (end + more) == s && s[..|line|] == line && s[|line|] == end[0];
    assert s[|line| + |end|..] == more;
  }

  lemma {:induction false} LineEndAll(line: string)
    requires NoBreak(line)
    ensures LineEnd(line) == |line|
  {
    if line != "" {
      LineEndAll(line[1..]);
    }
  }
}
