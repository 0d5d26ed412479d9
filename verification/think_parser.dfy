/**
 * The streaming parser for <think> tags (core/anthropic/thinking.py).
 *
 * `Labelling` is the one-pass reading of a whole text: matched tags and orphan closing tags
 * disappear, every other character is text or thinking.  The parser, fed the text in any pieces,
 * computes that labelling.
 */
module ThinkParser {
  import opened Text

  datatype Kind = TEXT | THINKING

  datatype Chunk = Chunk(kind: Kind, content: string)

  const OPEN_TAG := "<think>"
  const CLOSE_TAG := "</think>"

  // ----- the specification -----

  datatype Labelled = Labelled(c: char, kind: Kind)

  function Label(s: string, kind: Kind): seq<Labelled> {
    seq(|s|, i requires 0 <= i < |s| => Labelled(s[i], kind))
  }

  function Labelling(s: string, inside: bool): seq<Labelled>
    decreases |s|
  {
    if s == "" then []
    else if StartsWith(s, CLOSE_TAG) then Labelling(s[8..], false)
    else if !inside && StartsWith(s, OPEN_TAG) then Labelling(s[7..], true)
    else [Labelled(s[0], if inside then THINKING else TEXT)] + Labelling(s[1..], inside)
  }

  // ----- searching -----

  /** `str.find`. */
  function Find(s: string, pattern: string): (k: int)
    requires pattern != ""
    ensures k == -1 || OccursAt(s, pattern, k)
    ensures k >= 0 ==> forall j | 0 <= j < k :: !OccursAt(s, pattern, j)
    ensures k == -1 ==> forall j :: !OccursAt(s, pattern, j)
  {
    if |s| < |pattern| then -1
    else if s[..|pattern|] == pattern then 0
    else
      var k := Find(s[1..], pattern);
      assert forall j | 1 <= j :: OccursAt(s, pattern, j) <==> OccursAt(s[1..], pattern, j - 1);
      if k < 0 then -1 else k + 1
  }

  /** `str.rfind` of "<". */
  function LastBracket(s: string): (k: int)
    ensures -1 <= k < |s|
    ensures k >= 0 ==> s[k] == '<'
    ensures forall j | k < j < |s| :: s[j] != '<'
  {
    if s == "" then -1
    else if s[|s| - 1] == '<' then |s| - 1
    else LastBracket(s[..|s| - 1])
  }

  // ----- the parser -----

  datatype State = State(buffer: string, inside: bool)

  const FRESH := State("", false)

  function Emit(kind: Kind, s: string): Option<Chunk> {
    if s == "" then None else Some(Chunk(kind, s))
  }

  function ParseOutside(s: State): (State, Option<Chunk>) {
    var open, close := Find(s.buffer, OPEN_TAG), Find(s.buffer, CLOSE_TAG);
    if close != -1 && (open == -1 || close < open) then
      (State(s.buffer[close + 8..], false), Emit(TEXT, s.buffer[..close]))
    else if open == -1 then
      var last := LastBracket(s.buffer);
      var tail := if last == -1 then "" else s.buffer[last..];
      if last != -1 && ((|tail| < 7 && StartsWith(OPEN_TAG, tail)) || (|tail| < 8 && StartsWith(CLOSE_TAG, tail))) then
        (State(tail, false), Emit(TEXT, s.buffer[..last]))
      else
        (State("", false), Emit(TEXT, s.buffer))
    else
      (State(s.buffer[open + 7..], true), Emit(TEXT, s.buffer[..open]))
  }

  function ParseInside(s: State): (State, Option<Chunk>) {
    var close := Find(s.buffer, CLOSE_TAG);
    if close == -1 then
      var last := LastBracket(s.buffer);
      if last != -1 && |s.buffer| - last < 8 && StartsWith(CLOSE_TAG, s.buffer[last..]) then
        (State(s.buffer[last..], true), Emit(THINKING, s.buffer[..last]))
      else
        (State("", true), Emit(THINKING, s.buffer))
    else
      (State(s.buffer[close + 8..], false), Emit(THINKING, s.buffer[..close]))
  }

  function ParseOnce(s: State): (State, Option<Chunk>) {
    if s.inside then ParseInside(s) else ParseOutside(s)
  }

  /** A call that emits leaves a shorter buffer, and one that does not never leaves a longer one. */
  lemma ParseOnceShrinks(s: State)
    ensures |ParseOnce(s).0.buffer| <= |s.buffer|
    ensures ParseOnce(s).1.Some? ==> |ParseOnce(s).0.buffer| < |s.buffer|
  {
  }

  function Loop(s: State): (State, seq<Chunk>)
    decreases |s.buffer|
  {
    ParseOnceShrinks(s);
    var (s', chunk) := ParseOnce(s);
    if s.buffer == "" then (s, [])
    else if chunk.Some? then (Loop(s').0, [chunk.value] + Loop(s').1)
    else if |s'.buffer| == |s.buffer| then (s', [])
    else Loop(s')
  }

  lemma LoopTurn(s: State, chunks: seq<Chunk>)
    requires s.buffer != ""
    ensures
      var (s', chunk) := ParseOnce(s);
      && |s'.buffer| <= |s.buffer| && (chunk.Some? ==> |s'.buffer| < |s.buffer|)
      && if chunk.Some? then
           Loop(s).0 == Loop(s').0 && chunks + Loop(s).1 == chunks + [chunk.value] + Loop(s').1
         else if |s'.buffer| == |s.buffer| then Loop(s) == (s', []) && chunks + Loop(s).1 == chunks
         else Loop(s) == Loop(s')
  {
    ParseOnceShrinks(s);
  }

  function Feed(s: State, content: string): (State, seq<Chunk>) {
    Loop(s.(buffer := s.buffer + content))
  }

  function Flush(s: State): Option<Chunk> {
    Emit(if s.inside then THINKING else TEXT, s.buffer)
  }

  class ThinkTagParser {
    var buffer: string
    var inThinkTag: bool

    function View(): State
      reads this
    {
      State(buffer, inThinkTag)
    }

    constructor ()
      ensures View() == FRESH
    {
      buffer, inThinkTag := "", false;
    }

    method ParseOutsideThink() returns (chunk: Option<Chunk>)
      requires !inThinkTag
      modifies this
      ensures (View(), chunk) == ParseOutside(old(View()))
    {
      var thinkStart := Find(buffer, OPEN_TAG);
      var orphanClose := Find(buffer, CLOSE_TAG);
      if orphanClose != -1 && (thinkStart == -1 || orphanClose < thinkStart) {
        var preOrphan := buffer[..orphanClose];
        buffer := buffer[orphanClose + |CLOSE_TAG|..];
        return Emit(TEXT, preOrphan);
      }
      if thinkStart == -1 {
        var last := LastBracket(buffer);
        if last != -1 {
          var tail := buffer[last..];
          if (|tail| < |OPEN_TAG| && StartsWith(OPEN_TAG, tail))
            || (|tail| < |CLOSE_TAG| && StartsWith(CLOSE_TAG, tail)) {
            var emit := buffer[..last];
            buffer := tail;
            return Emit(TEXT, emit);
          }
        }
        var emit := buffer;
        buffer := "";
        return Emit(TEXT, emit);
      }
      var preThink := buffer[..thinkStart];
      buffer := buffer[thinkStart + |OPEN_TAG|..];
      inThinkTag := true;
      return Emit(TEXT, preThink);
    }

    method ParseInsideThink() returns (chunk: Option<Chunk>)
      requires inThinkTag
      modifies this
      ensures (View(), chunk) == ParseInside(old(View()))
    {
      var thinkEnd := Find(buffer, CLOSE_TAG);
      if thinkEnd == -1 {
        var last := LastBracket(buffer);
        if last != -1 && |buffer| - last < |CLOSE_TAG| {
          var tail := buffer[last..];
          if StartsWith(CLOSE_TAG, tail) {
            var emit := buffer[..last];
            buffer := tail;
            return Emit(THINKING, emit);
          }
        }
        var emit := buffer;
        buffer := "";
        return Emit(THINKING, emit);
      }
      var content := buffer[..thinkEnd];
      buffer := buffer[thinkEnd + |CLOSE_TAG|..];
      inThinkTag := false;
      return Emit(THINKING, content);
    }

    method FeedContent(content: string) returns (chunks: seq<Chunk>)
      modifies this
      ensures View() == Feed(old(View()), content).0 && chunks == Feed(old(View()), content).1
    {
      buffer := buffer + content;
      chunks := [];
      ghost var start := View();
      while buffer != ""
        invariant Loop(View()).0 == Loop(start).0
        invariant chunks + Loop(View()).1 == Loop(start).1
        decreases |buffer|
      {
        var prevLen := |buffer|;
        var chunk;
        LoopTurn(View(), chunks);
        if !inThinkTag {
          chunk := ParseOutsideThink();
        } else {
          chunk := ParseInsideThink();
        }
        if chunk.Some? {
          chunks := chunks + [chunk.value];
        } else if |buffer| == prevLen {
          return;
        }
      }
    }

    method FlushBuffer() returns (chunk: Option<Chunk>)
      modifies this
      ensures chunk == Flush(old(View())) && View() == old(View()).(buffer := "")
    {
      chunk := Emit(if inThinkTag then THINKING else TEXT, buffer);
      buffer := "";
    }
  }

  // ----- the parser computes the labelling -----

  predicate TagAt(s: string, k: int, inside: bool) {
    OccursAt(s, CLOSE_TAG, k) || (!inside && OccursAt(s, OPEN_TAG, k))
  }

  function KindOf(inside: bool): Kind {
    if inside then THINKING else TEXT
  }

  /** Text in which no tag begins is labelled as it stands. */
  lemma {:induction false} PlainText(pre: string, rest: string, inside: bool)
    requires forall k | 0 <= k < |pre| :: !TagAt(pre + rest, k, inside)
    ensures Labelling(pre + rest, inside) == Label(pre, KindOf(inside)) + Labelling(rest, inside)
    decreases |pre|
  {
    var s := pre + rest;
    if pre == "" {
      assert s == rest;
    } else {
      assert s[1..] == pre[1..] + rest;
      PlainChar(s, inside);
      forall k | 0 <= k < |pre[1..]| ensures !TagAt(pre[1..] + rest, k, inside) {
        assert !TagAt(s, k + 1, inside);
        TagAtShift(s, k, inside);
      }
      PlainText(pre[1..], rest, inside);
      assert Label(pre, KindOf(inside)) == [Labelled(s[0], KindOf(inside))] + Label(pre[1..], KindOf(inside));
    }
  }

  lemma PlainChar(s: string, inside: bool)
    requires s != "" && !TagAt(s, 0, inside)
    ensures Labelling(s, inside) == [Labelled(s[0], KindOf(inside))] + Labelling(s[1..], inside)
  {
    Begins(s, CLOSE_TAG);
    Begins(s, OPEN_TAG);
  }

  lemma TagAtShift(s: string, k: int, inside: bool)
    requires s != "" && k >= 0
    ensures TagAt(s[1..], k, inside) <==> TagAt(s, k + 1, inside)
  {
    OccursShift(s, k, CLOSE_TAG);
    OccursShift(s, k, OPEN_TAG);
  }

  lemma OccursShift(s: string, k: int, tag: string)
    requires s != "" && k >= 0
    ensures OccursAt(s[1..], tag, k) <==> OccursAt(s, tag, k + 1)
  {
    if k <= |s| - 1 - |tag| {
      assert s[1..][k..k + |tag|] == s[k + 1..k + 1 + |tag|];
    }
  }

  lemma Begins(s: string, tag: string)
    ensures OccursAt(s, tag, 0) <==> StartsWith(s, tag)
  {
    if |tag| <= |s| {
      assert s[0..0 + |tag|] == s[..|tag|];
    }
  }

  lemma Contained(buf: string, t: string, tag: string, k: int)
    requires 0 <= k && k + |tag| <= |buf|
    ensures OccursAt(buf + t, tag, k) <==> OccursAt(buf, tag, k)
  {
    assert (buf + t)[k..k + |tag|] == buf[k..k + |tag|];
  }

  /** A tag that begins in `buf` but is not contained in it: `buf` ends in a proper prefix of the tag. */
  lemma Straddles(buf: string, t: string, tag: string, k: int)
    requires 0 <= k < |buf| && OccursAt(buf + t, tag, k) && !OccursAt(buf, tag, k)
    ensures |buf| - k < |tag| && StartsWith(tag, buf[k..])
    ensures forall j | k <= j < |buf| :: buf[j] == tag[j - k]
  {
    var s := buf + t;
    if k + |tag| <= |buf| {
      Contained(buf, t, tag, k);
    }
    assert s[k..k + |tag|][..|buf| - k] == buf[k..];
    assert forall j | k <= j < |buf| :: buf[j] == s[k..k + |tag|][j - k];
  }

  /**
   * If `buf` contains no tag, a tag of `buf + t` can only begin at the last bracket, and then what
   * follows it is a tag prefix.
   */
  lemma OnlyAtLastBracket(buf: string, t: string, tag: string, k: int)
    requires tag == OPEN_TAG || tag == CLOSE_TAG
    requires 0 <= k < |buf| && OccursAt(buf + t, tag, k) && !OccursAt(buf, tag, k)
    ensures k == LastBracket(buf) && |buf| - k < |tag| && StartsWith(tag, buf[k..])
  {
    Straddles(buf, t, tag, k);
    BracketOnlyFirst(tag, 1);
    assert buf[k] == tag[0];
    forall j | k < j < |buf| ensures buf[j] != '<' {
      BracketOnlyFirst(tag, j - k);
    }
  }

  lemma BracketOnlyFirst(tag: string, j: int)
    requires tag == OPEN_TAG || tag == CLOSE_TAG
    requires 0 < j < |tag|
    ensures tag[0] == '<' && tag[j] != '<'
  {
  }

  /** Where the searched tag is found, it begins the labelling's next turn. */
  lemma AtTag(buf: string, t: string, k: nat, tag: string, inside: bool)
    requires OccursAt(buf, tag, k)
    requires tag == CLOSE_TAG || (tag == OPEN_TAG && !inside)
    ensures Labelling(buf[k..] + t, inside) == Labelling(buf[k + |tag|..] + t, tag == OPEN_TAG)
  {
    var s := buf[k..] + t;
    assert s[..|tag|] == buf[k..k + |tag|];
    assert s[|tag|..] == buf[k + |tag|..] + t;
    if tag == OPEN_TAG {
      assert s[1] == tag[1] == 't';
      assert !StartsWith(s, CLOSE_TAG) by {
        if |s| >= 8 {
          assert s[..8][1] == s[1] && CLOSE_TAG[1] == '/';
        }
      }
    }
  }

  lemma OccursInPrefix(buf: string, t: string, tag: string, j: int, k: int)
    requires 0 <= j < k && OccursAt(buf, tag, k) && (tag == OPEN_TAG || tag == CLOSE_TAG)
    ensures forall other | (other == OPEN_TAG || other == CLOSE_TAG)
            && OccursAt(buf + t, other, j) :: OccursAt(buf, other, j)
  {
    assert buf[k..k + |tag|][0] == tag[0] == '<';
    assert LastBracket(buf) >= k;
    forall other | (other == OPEN_TAG || other == CLOSE_TAG) && OccursAt(buf + t, other, j)
      ensures OccursAt(buf, other, j) {
      if !OccursAt(buf, other, j) {
        OnlyAtLastBracket(buf, t, other, j);
      }
    }
  }

  function Labels(chunk: Option<Chunk>): seq<Labelled> {
    if chunk.None? then [] else Label(chunk.value.content, chunk.value.kind)
  }

  ghost predicate Correct(s: State, t: string, s': State, chunk: Option<Chunk>) {
    Labelling(s.buffer + t, s.inside) == Labels(chunk) + Labelling(s'.buffer + t, s'.inside)
  }

  /** One call outside a tag, with any text still to come. */
  lemma OutsideCorrect(s: State, t: string)
    requires !s.inside
    ensures Correct(s, t, ParseOutside(s).0, ParseOutside(s).1)
  {
    var buf := s.buffer;
    var (s', chunk) := ParseOutside(s);
    var open, close := Find(buf, OPEN_TAG), Find(buf, CLOSE_TAG);
    if close != -1 && (open == -1 || close < open) {
      UpToTag(s, t, close, CLOSE_TAG);
    } else if open != -1 {
      UpToTag(s, t, open, OPEN_TAG);
    } else {
      TailCorrect(s, t, s', chunk);
    }
  }

  /** The text before the first tag is emitted, and the tag disappears. */
  lemma UpToTag(s: State, t: string, k: nat, tag: string)
    requires tag == CLOSE_TAG || (tag == OPEN_TAG && !s.inside)
    requires OccursAt(s.buffer, tag, k) && forall j | 0 <= j < k :: !TagAt(s.buffer, j, s.inside)
    ensures Correct(s, t, State(s.buffer[k + |tag|..], tag == OPEN_TAG), Emit(KindOf(s.inside), s.buffer[..k]))
  {
    var buf := s.buffer;
    var rest := buf[k..] + t;
    forall j | 0 <= j < k ensures !TagAt(buf + t, j, s.inside) {
      OccursInPrefix(buf, t, tag, j, k);
      assert !TagAt(buf, j, s.inside);
    }
    assert buf[..k] + rest == buf + t;
    PlainText(buf[..k], rest, s.inside);
    AtTag(buf, t, k, tag, s.inside);
  }

  /** What the final branches keep: nothing, or the tail from the last bracket if that is a tag prefix. */
  lemma TailKept(s: State)
    requires Find(s.buffer, CLOSE_TAG) == -1 && (s.inside || Find(s.buffer, OPEN_TAG) == -1)
    ensures
      var (s', chunk) := ParseOnce(s);
      var k := |s.buffer| - |s'.buffer|;
      && 0 <= k && s' == State(s.buffer[k..], s.inside) && chunk == Emit(KindOf(s.inside), s.buffer[..k])
      && (k == |s.buffer| || k == LastBracket(s.buffer))
      && (k == |s.buffer| ==>
            var last := LastBracket(s.buffer);
            last != -1 ==>
              && !(|s.buffer| - last < 8 && StartsWith(CLOSE_TAG, s.buffer[last..]))
              && (s.inside || !(|s.buffer| - last < 7 && StartsWith(OPEN_TAG, s.buffer[last..]))))
  {
    var buf := s.buffer;
    assert buf[|buf|..] == "" && buf[..|buf|] == buf;
  }

  /** No complete tag in the buffer: everything up to a possible tag prefix is emitted. */
  lemma TailCorrect(s: State, t: string, s': State, chunk: Option<Chunk>)
    requires (s', chunk) == ParseOnce(s)
    requires Find(s.buffer, CLOSE_TAG) == -1 && (s.inside || Find(s.buffer, OPEN_TAG) == -1)
    ensures Correct(s, t, s', chunk)
  {
    TailKept(s);
    NoTagBeforeTail(s, t);
    HeldTail(s.buffer, t, |s.buffer| - |s'.buffer|, s.inside);
  }

  lemma HeldTail(buf: string, t: string, k: nat, inside: bool)
    requires k <= |buf| && forall j | 0 <= j < k :: !TagAt(buf + t, j, inside)
    ensures Correct(State(buf, inside), t, State(buf[k..], inside), Emit(KindOf(inside), buf[..k]))
  {
    assert buf == buf[..k] + buf[k..];
    Assoc(buf[..k], buf[k..], t);
    PlainText(buf[..k], buf[k..] + t, inside);
  }

  lemma NoTagBeforeTail(s: State, t: string)
    requires Find(s.buffer, CLOSE_TAG) == -1 && (s.inside || Find(s.buffer, OPEN_TAG) == -1)
    ensures forall j | 0 <= j < |s.buffer| - |ParseOnce(s).0.buffer| :: !TagAt(s.buffer + t, j, s.inside)
  {
    TailKept(s);
    forall j | 0 <= j < |s.buffer| - |ParseOnce(s).0.buffer| ensures !TagAt(s.buffer + t, j, s.inside) {
      if OccursAt(s.buffer + t, CLOSE_TAG, j) {
        OnlyAtLastBracket(s.buffer, t, CLOSE_TAG, j);
      }
      if !s.inside && OccursAt(s.buffer + t, OPEN_TAG, j) {
        OnlyAtLastBracket(s.buffer, t, OPEN_TAG, j);
      }
    }
  }

  lemma InsideCorrect(s: State, t: string)
    requires s.inside
    ensures Correct(s, t, ParseInside(s).0, ParseInside(s).1)
  {
    var close := Find(s.buffer, CLOSE_TAG);
    if close != -1 {
      UpToTag(s, t, close, CLOSE_TAG);
    } else {
      TailCorrect(s, t, ParseInside(s).0, ParseInside(s).1);
    }
  }

  function AllLabels(chunks: seq<Chunk>): seq<Labelled> {
    if chunks == [] then [] else Label(chunks[0].content, chunks[0].kind) + AllLabels(chunks[1..])
  }

  lemma {:induction false} AllLabelsAppend(a: seq<Chunk>, b: seq<Chunk>)
    ensures AllLabels(a + b) == AllLabels(a) + AllLabels(b)
  {
    if a == [] {
      AppendNone(b);
      AppendNone(AllLabels(b));
    } else {
      AppendTail(a, b);
      AllLabelsAppend(a[1..], b);
      Assoc(Label(a[0].content, a[0].kind), AllLabels(a[1..]), AllLabels(b));
    }
  }

  /** The held buffer is empty or a proper prefix of a tag that may still come. */
  predicate Held(s: State) {
    s.buffer == "" ||
    (|s.buffer| <= 7
     && ((StartsWith(CLOSE_TAG, s.buffer)) || (!s.inside && |s.buffer| <= 6 && StartsWith(OPEN_TAG, s.buffer))))
  }

  lemma {:induction false} LoopCorrect(s: State, t: string)
    ensures Labelling(s.buffer + t, s.inside) ==
              AllLabels(Loop(s).1) + Labelling(Loop(s).0.buffer + t, Loop(s).0.inside)
    ensures Held(Loop(s).0)
    decreases |s.buffer|
  {
    var (s', chunk) := ParseOnce(s);
    ParseOnceShrinks(s);
    if s.buffer != "" {
      if s.inside {
        InsideCorrect(s, t);
      } else {
        OutsideCorrect(s, t);
      }
      if chunk.Some? || |s'.buffer| < |s.buffer| {
        LoopCorrect(s', t);
        LoopLabels(s, t);
      }
    }
  }

  /** The labels of a turn that goes on. */
  lemma LoopLabels(s: State, t: string)
    requires var (s', chunk) := ParseOnce(s); s.buffer != "" && (chunk.Some? || |s'.buffer| < |s.buffer|)
    ensures var (s', chunk) := ParseOnce(s); var rest := Labelling(Loop(s).0.buffer + t, Loop(s).0.inside);
            && Loop(s).0 == Loop(s').0
            && AllLabels(Loop(s).1) + rest == Labels(chunk) + (AllLabels(Loop(s').1) + rest)
  {
    ParseOnceShrinks(s);
    var (s', chunk) := ParseOnce(s);
    var rest, more := Labelling(Loop(s).0.buffer + t, Loop(s).0.inside), AllLabels(Loop(s').1);
    Assoc(Labels(chunk), more, rest);
    AppendNone(more);
    if chunk.Some? {
      AppendTail([chunk.value], Loop(s').1);
    }
  }

  ghost function FeedAll(s: State, pieces: seq<string>): (State, seq<Chunk>)
    decreases |pieces|
  {
    if pieces == [] then (s, [])
    else
      var (s1, chunks) := Feed(s, pieces[0]);
      (FeedAll(s1, pieces[1..]).0, chunks + FeedAll(s1, pieces[1..]).1)
  }

  lemma {:induction false} FeedAllCorrect(s: State, pieces: seq<string>, t: string)
    requires Held(s)
    ensures Held(FeedAll(s, pieces).0)
    ensures Labelling(s.buffer + Concat(pieces) + t, s.inside) ==
              AllLabels(FeedAll(s, pieces).1) + Labelling(FeedAll(s, pieces).0.buffer + t, FeedAll(s, pieces).0.inside)
    decreases |pieces|
  {
    if pieces == [] {
      assert s.buffer + "" == s.buffer;
    } else {
      var s1 := Feed(s, pieces[0]).0;
      FeedOneCorrect(s, pieces[0], Concat(pieces[1..]), t);
      FeedAllCorrect(s1, pieces[1..], t);
      var (s2, chunks) := FeedAll(s1, pieces[1..]);
      AllLabelsAppend(Feed(s, pieces[0]).1, chunks);
      Assoc(AllLabels(Feed(s, pieces[0]).1), AllLabels(chunks), Labelling(s2.buffer + t, s2.inside));
    }
  }

  lemma FeedOneCorrect(s: State, piece: string, rest: string, t: string)
    ensures var s1 := Feed(s, piece).0;
            && Held(s1)
            && Labelling(s.buffer + (piece + rest) + t, s.inside) ==
                 AllLabels(Feed(s, piece).1) + Labelling(s1.buffer + rest + t, s1.inside)
  {
    LoopCorrect(s.(buffer := s.buffer + piece), rest + t);
    Assoc(s.buffer, piece, rest);
    Assoc(s.buffer + piece, rest, t);
    Assoc(Feed(s, piece).0.buffer, rest, t);
  }

  lemma FlushCorrect(s: State)
    requires Held(s)
    ensures Labelling(s.buffer, s.inside) == Labels(Flush(s))
  {
    var buf := s.buffer;
    assert buf + "" == buf;
    if |buf| == 7 {
      assert buf[1] == CLOSE_TAG[..7][1] == '/' && OPEN_TAG[1] == 't';
      Begins(buf, OPEN_TAG);
      assert !OccursAt(buf, OPEN_TAG, 0);
    }
    PlainText(buf, "", s.inside);
  }

  /** A fresh parser, fed a text in any pieces and then flushed, labels it as the one-pass reading does. */
  method ParsePieces(pieces: seq<string>) returns (chunks: seq<Chunk>, held: string)
    ensures AllLabels(chunks) == Labelling(Concat(pieces), false)
    ensures |held| <= 7 && (held == "" || StartsWith(OPEN_TAG, held) || StartsWith(CLOSE_TAG, held))
  {
    var parser := new ThinkTagParser();
    chunks := [];
    for n := 0 to |pieces|
      invariant parser.View() == FeedAll(FRESH, pieces[..n]).0 && chunks == FeedAll(FRESH, pieces[..n]).1
    {
      var more := parser.FeedContent(pieces[n]);
      chunks := chunks + more;
      FeedAllSnoc(FRESH, pieces[..n], pieces[n]);
      assert pieces[..n + 1] == pieces[..n] + [pieces[n]];
    }
    assert pieces[..|pieces|] == pieces;
    FeedAllCorrect(FRESH, pieces, "");
    assert "" + Concat(pieces) + "" == Concat(pieces) && parser.buffer + "" == parser.buffer;
    FlushCorrect(parser.View());
    held := parser.buffer;
    ghost var fed := chunks;
    var last := parser.FlushBuffer();
    if last.Some? {
      chunks := chunks + [last.value];
      AllLabelsAppend(fed, [last.value]);
    }
  }

  lemma {:induction false} FeedAllSnoc(s: State, pieces: seq<string>, piece: string)
    ensures var (s1, chunks) := FeedAll(s, pieces);
            && FeedAll(s, pieces + [piece]).0 == Feed(s1, piece).0
            && FeedAll(s, pieces + [piece]).1 == chunks + Feed(s1, piece).1
    decreases |pieces|
  {
    if pieces == [] {
      assert [piece][1..] == [] && [] + [piece] == [piece];
      assert Feed(s, piece).1 + [] == Feed(s, piece).1;
    } else {
      assert (pieces + [piece])[1..] == pieces[1..] + [piece];
      FeedAllSnoc(Feed(s, pieces[0]).0, pieces[1..], piece);
      var (s1, chunks) := FeedAll(s, pieces);
      Assoc(Feed(s, pieces[0]).1, FeedAll(Feed(s, pieces[0]).0, pieces[1..]).1, Feed(s1, piece).1);
    }
  }
}
