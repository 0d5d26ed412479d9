/**
 * The policy on well-formed upstream streams: blocks may overlap, stop late, stop twice, go on
 * after a stop, or begin with a delta, and the client still receives a stream that meets the contract.
 */
module NativePolicyStreams {
  import opened Text
  import opened StreamContract
  import opened NativePolicy
  import opened NativePolicyContract

  predicate Mentions(e: Event, i: int) {
    (e.BlockStart? || e.BlockDelta? || e.BlockStop?) && e.index == i
  }

  ghost function First(es: seq<Event>, i: int): (r: Option<Event>)
    ensures r.Some? ==> Mentions(r.value, i)
  {
    if es == [] then None
    else
      var earlier := First(es[..|es| - 1], i);
      if earlier.Some? then earlier
      else if Mentions(es[|es| - 1], i) then Some(es[|es| - 1])
      else None
  }

  ghost function Last(es: seq<Event>, i: int): Option<Event> {
    if es == [] then None
    else if Mentions(es[|es| - 1], i) then Some(es[|es| - 1])
    else Last(es[..|es| - 1], i)
  }

  predicate Fits(first: Event, d: Delta, thinking: bool) {
    match first
    case BlockStart(_, b) =>
      ShouldDrop(b.kind, thinking) || (DeltaKind(d.kind).Some? && DeltaFits(StorageKind(b), d.kind))
    case BlockDelta(_, d0) => DeltaKind(d.kind) == DeltaKind(d0.kind)
    case _ => false
  }

  /** A block is started at most once and before its other events; without a start it may carry text or tool deltas. */
  ghost predicate Expected(before: seq<Event>, e: Event, thinking: bool) {
    match e
    case BlockStart(i, b) =>
      First(before, i).None? && (ShouldDrop(b.kind, thinking) || b.kind in ALLOWED_START_KINDS)
    case BlockDelta(i, d) =>
      (match First(before, i)
       case None => d.kind in {"text_delta", "input_json_delta"}
       case Some(first) => Fits(first, d, thinking))
    case BlockStop(i) => First(before, i).Some?
    case Malformed(_, _) => false
    case _ => true
  }

  ghost predicate WellFormed(es: seq<Event>, thinking: bool) {
    forall k | 0 <= k < |es| :: Expected(es[..k], es[k], thinking)
  }

  /** What the first event of a block fixes about the upstream reading. */
  ghost predicate Role(u: Upstream, i: int, first: Event, thinking: bool) {
    match first
    case BlockStart(_, b) =>
      if ShouldDrop(b.kind, thinking) then i in u.dropped && i !in u.blocks
      else i in u.blocks && i !in u.dropped && u.blocks[i].kind == StorageKind(b) && b.kind in ALLOWED_START_KINDS
    case BlockDelta(_, d) =>
      && i in u.blocks && i !in u.dropped
      && d.kind in {"text_delta", "input_json_delta"} && DeltaKind(d.kind) == Some(u.blocks[i].kind)
    case _ => false
  }

  ghost predicate Reading(u: Upstream, es: seq<Event>, thinking: bool) {
    && (forall i | First(es, i).None? :: i !in u.blocks && i !in u.dropped)
    && (forall i | First(es, i).Some? :: Role(u, i, First(es, i).value, thinking))
    && u.live <= u.blocks.Keys && u.overlapped <= u.blocks.Keys && u.overlapped !! u.live
    && (forall i | IsLive(u, i) :: Last(es, i).Some? && !Last(es, i).value.BlockStop?)
  }

  lemma FirstSnoc(es: seq<Event>, e: Event)
    ensures forall i :: First(es + [e], i) ==
              if First(es, i).Some? then First(es, i) else if Mentions(e, i) then Some(e) else None
    ensures forall i :: Last(es + [e], i) == if Mentions(e, i) then Some(e) else Last(es, i)
  {
    assert (es + [e])[..|es|] == es;
  }

  lemma DeltaTypes(d: Delta)
    ensures !ShouldDrop("text_delta", false) && !ShouldDrop("input_json_delta", false)
    ensures forall b: Block | b.kind in ALLOWED_START_KINDS && DeltaKind(d.kind).Some?
            && DeltaFits(StorageKind(b), d.kind) ::
              DeltaKind(d.kind) == Some(StorageKind(b))
  {
    NoThinkingInside("text_delta");
    NoThinkingInside("input_json_delta");
  }

  lemma NoThinkingInside(s: string)
    requires s == "text_delta" || s == "input_json_delta"
    ensures !ShouldDrop(s, false)
  {
    assert s[0] != 'r';
    forall k | 0 <= k <= |s| ensures !OccursAt(s, "thinking", k) {
      if 0 <= k <= |s| - 8 {
        assert s[k..k + 8][0] == s[k] && s[k..k + 8][1] == s[k + 1];
      }
    }
  }

  lemma ReadingStart(u: Upstream, es: seq<Event>, i: int, b: Block, thinking: bool)
    requires Reading(u, es, thinking) && Expected(es, BlockStart(i, b), thinking)
    ensures Reading(Read(u, BlockStart(i, b), thinking), es + [BlockStart(i, b)], thinking)
  {
    var e := BlockStart(i, b);
    var u' := Read(u, e, thinking);
    FirstSnoc(es, e);
    assert First(es, i).None?;
    forall j | j != i && First(es, j).Some? ensures Role(u', j, First(es, j).value, thinking) {
      assert Role(u, j, First(es, j).value, thinking);
    }
  }

  /** A delta of a known block keeps the kind of that block, whether or not it reopens it. */
  lemma ReadingDelta(u: Upstream, es: seq<Event>, i: int, d: Delta, thinking: bool)
    requires Reading(u, es, thinking) && Expected(es, BlockDelta(i, d), thinking)
    ensures var e := BlockDelta(i, d);
            Reading(Read(u, e, thinking), es + [e], thinking) && !PassesRaw(u, e, thinking) && Regular(u, e, thinking)
  {
    var e := BlockDelta(i, d);
    var u' := Read(u, e, thinking);
    FirstSnoc(es, e);
    DeltaTypes(d);
    if First(es, i).Some? {
      assert Role(u, i, First(es, i).value, thinking);
      assert Role(u', i, First(es, i).value, thinking);
    } else {
      assert Role(u', i, e, thinking);
    }
    forall j | j != i && First(es, j).Some? ensures Role(u', j, First(es, j).value, thinking) {
      assert Role(u, j, First(es, j).value, thinking);
    }
    forall j | IsLive(u', j) ensures Last(es + [e], j).Some? && !Last(es + [e], j).value.BlockStop? {
      if j != i {
        assert IsLive(u, j);
      }
    }
  }

  lemma ReadingStop(u: Upstream, es: seq<Event>, i: int, thinking: bool)
    requires Reading(u, es, thinking) && Expected(es, BlockStop(i), thinking)
    ensures var e := BlockStop(i);
            Reading(Read(u, e, thinking), es + [e], thinking) && !PassesRaw(u, e, thinking)
  {
    var e := BlockStop(i);
    var u' := Read(u, e, thinking);
    FirstSnoc(es, e);
    assert Role(u, i, First(es, i).value, thinking);
    forall j | First(es, j).Some? ensures Role(u', j, First(es, j).value, thinking) {
      assert Role(u, j, First(es, j).value, thinking);
    }
    forall j | IsLive(u', j) ensures Last(es + [e], j).Some? && !Last(es + [e], j).value.BlockStop? {
      assert IsLive(u, j);
    }
  }

  lemma ReadingStep(u: Upstream, es: seq<Event>, e: Event, thinking: bool)
    requires Reading(u, es, thinking) && Expected(es, e, thinking)
    ensures Reading(Read(u, e, thinking), es + [e], thinking)
    ensures !PassesRaw(u, e, thinking) && Regular(u, e, thinking) && !Restarts(u, e, thinking)
  {
    match e
    case BlockStart(i, b) => ReadingStart(u, es, i, b, thinking);
    case BlockDelta(i, d) => ReadingDelta(u, es, i, d, thinking);
    case BlockStop(i) => ReadingStop(u, es, i, thinking);
    case _ => FirstSnoc(es, e);
  }

  lemma {:induction false} WellFormedReads(u: Upstream, before: seq<Event>, es: seq<Event>, thinking: bool)
    requires Reading(u, before, thinking)
    requires forall k | 0 <= k < |es| :: Expected(before + es[..k], es[k], thinking)
    ensures NeverRaw(u, es, thinking) && AllRegular(u, es, thinking) && !EverRestarts(u, es, thinking)
    ensures Reading(ReadAll(u, es, thinking), before + es, thinking)
    decreases |es|
  {
    if es == [] {
      assert before + es == before;
    } else {
      var e, rest := es[0], es[1..];
      assert before + es[..0] == before;
      ReadingStep(u, before, e, thinking);
      forall k | 0 <= k < |rest| ensures Expected((before + [e]) + rest[..k], rest[k], thinking) {
        assert (before + [e]) + rest[..k] == before + es[..k + 1];
      }
      WellFormedReads(Read(u, e, thinking), before + [e], rest, thinking);
      assert es == [e] + rest;
      Assoc(before, [e], rest);
    }
  }

  /**
   * The output of a well-formed upstream never deltas or stops a block that is not open and never
   * reuses an index, and it ends with nothing open if the last event of every block is a stop.
   */
  lemma WellFormedStreamsAreRepaired(es: seq<Event>, thinking: bool)
    requires WellFormed(es, thinking)
    ensures Run(START, Output(FRESH, es, thinking)).Some?
    ensures (forall i :: Last(es, i).Some? ==> Last(es, i).value.BlockStop?)
            ==> Run(START, Output(FRESH, es, thinking)).value.open == map[]
  {
    assert [] + es == es;
    assert forall k | 0 <= k < |es| :: [] + es[..k] == es[..k];
    WellFormedReads(NOTHING, [], es, thinking);
    UnforwardedStreams(es, thinking);
  }

  // ----- the rest of the contract -----

  lemma {:induction false} OutputSnoc(s: State, es: seq<Event>, e: Event, thinking: bool)
    requires Ordered(s)
    ensures Output(s, es + [e], thinking) == Output(s, es, thinking) + Transform(After(s, es, thinking), e, thinking).1
    ensures After(s, es + [e], thinking) == Transform(After(s, es, thinking), e, thinking).0
    decreases |es|
  {
    if es == [] {
      assert es + [e] == [e] && [e][1..] == [];
      TransformOrdered(s, e, thinking);
      AppendNone(Transform(s, e, thinking).1);
    } else {
      AppendTail(es, [e]);
      TransformOrdered(s, es[0], thinking);
      var (s1, out) := Transform(s, es[0], thinking);
      OutputSnoc(s1, es[1..], e, thinking);
      Assoc(out, Output(s1, es[1..], thinking), Transform(After(s1, es[1..], thinking), e, thinking).1);
    }
  }

  /** An event that is not about a block comes out as it went in, and nothing else of its kind comes out. */
  lemma {:induction false} OtherEventsPass(s: State, es: seq<Event>, x: Event, thinking: bool)
    requires Ordered(s)
    requires !x.BlockStart? && !x.BlockDelta? && !x.BlockStop?
    ensures x in Output(s, es, thinking) <==> x in es
    decreases |es|
  {
    if es != [] {
      TransformOrdered(s, es[0], thinking);
      var (s1, out) := Transform(s, es[0], thinking);
      OtherEventsPass(s1, es[1..], x, thinking);
      if es[0].BlockStart? {
        ClosesAreStops(s.order, s.segs, es[0].index);
      }
      assert x in out <==> x == es[0];
      assert x in es <==> x == es[0] || x in es[1..];
    }
  }

  lemma {:induction false} ClosesAreStops(order: seq<int>, segs: map<int, Segment>, current: int)
    requires forall k | k in order :: k in segs
    ensures forall e | e in CloseEvents(order, segs, current) :: e.BlockStop?
  {
    if order != [] {
      ClosesAreStops(order[1..], segs, current);
    }
  }

  lemma {:induction false} KeptStartCounts(s: State, es: seq<Event>, k: int, thinking: bool)
    requires Ordered(s) && 0 <= k < |es| && es[k].BlockStart? && !ShouldDrop(es[k].block.kind, thinking)
    ensures After(s, es, thinking).nextIndex > s.nextIndex
    decreases |es|
  {
    var s1 := Transform(s, es[0], thinking).0;
    TransformOrdered(s, es[0], thinking);
    IndexesAreConsecutive(s1, es[1..], thinking);
    StepIndexes(s, es[0], thinking);
    if k > 0 {
      KeptStartCounts(s1, es[1..], k - 1, thinking);
    }
  }

  lemma FramePasses(es: seq<Event>, thinking: bool, allowError: bool)
    requires exists k :: 0 <= k < |es| && es[k].MessageStart?
    requires es[|es| - 1] == MessageStop
    requires allowError || forall e | e in es :: !e.Error?
    ensures var out := Output(FRESH, es, thinking);
            && (exists k :: 0 <= k < |out| && out[k].MessageStart?)
            && out[|out| - 1] == MessageStop
            && (allowError || forall e | e in out :: !e.Error?)
  {
    var out := Output(FRESH, es, thinking);
    var k :| 0 <= k < |es| && es[k].MessageStart?;
    OtherEventsPass(FRESH, es, es[k], thinking);
    var init := es[..|es| - 1];
    assert es == init + [MessageStop];
    OutputSnoc(FRESH, init, MessageStop, thinking);
    if !allowError {
      forall e | e in out ensures !e.Error? {
        if e.Error? {
          OtherEventsPass(FRESH, es, e, thinking);
        }
      }
    }
  }

  /** A well-formed upstream with a complete message around it yields a stream that meets the whole contract. */
  lemma CompleteStreamsSatisfy(es: seq<Event>, thinking: bool, allowError: bool)
    requires WellFormed(es, thinking)
    requires forall i :: Last(es, i).Some? ==> Last(es, i).value.BlockStop?
    requires exists k :: 0 <= k < |es| && es[k].MessageStart?
    requires es[|es| - 1] == MessageStop
    requires allowError || forall e | e in es :: !e.Error?
    requires exists k :: 0 <= k < |es| && es[k].BlockStart? && !ShouldDrop(es[k].block.kind, thinking)
    ensures Satisfies(Output(FRESH, es, thinking), allowError)
  {
    var out := Output(FRESH, es, thinking);
    WellFormedStreamsAreRepaired(es, thinking);
    FramePasses(es, thinking, allowError);
    var k :| 0 <= k < |es| && es[k].BlockStart? && !ShouldDrop(es[k].block.kind, thinking);
    KeptStartCounts(FRESH, es, k, thinking);
    IndexesAreConsecutive(FRESH, es, thinking);
    assert StartIndexes(out)[0] in StartIndexes(out);
    SeenStarts(START, out);
  }

  lemma {:induction false} SeenStarts(c: Check, es: seq<Event>)
    requires Run(c, es).Some?
    ensures c.seen <= Run(c, es).value.seen
    ensures forall x | x in StartIndexes(es) :: x in Run(c, es).value.seen
    decreases |es|
  {
    if es != [] {
      SeenStarts(Step(c, es[0]).value, es[1..]);
    }
  }

  // ----- why the hypotheses are there -----

  const TEXT := Block("text", "", None, None, None)

  lemma {:induction false} ReadAppend(u: Upstream, a: seq<Event>, b: seq<Event>, thinking: bool)
    ensures ReadAll(u, a + b, thinking) == ReadAll(ReadAll(u, a, thinking), b, thinking)
    ensures AllAcceptable(u, a + b, thinking) <==>
              AllAcceptable(u, a, thinking) && AllAcceptable(ReadAll(u, a, thinking), b, thinking)
    decreases |a|
  {
    if a == [] {
      AppendNone(b);
    } else {
      AppendTail(a, b);
      ReadAppend(Read(u, a[0], thinking), a[1..], b, thinking);
    }
  }

  lemma {:induction false} NumberedAll(u: Upstream, es: seq<Event>, thinking: bool)
    requires Numbered(u)
    ensures Numbered(ReadAll(u, es, thinking))
    decreases |es|
  {
    if es != [] {
      NumberedStep(u, es[0], thinking);
      NumberedAll(Read(u, es[0], thinking), es[1..], thinking);
    }
  }

  // ----- segments that are lost -----

  /** A stop of the given number is forwarded: it names an index that is not a block of the upstream. */
  ghost predicate ForwardsStop(u: Upstream, es: seq<Event>, x: int, thinking: bool)
    decreases |es|
  {
    && es != []
    && ((es[0] == BlockStop(x) && PassesRaw(u, es[0], thinking))
        || ForwardsStop(Read(u, es[0], thinking), es[1..], x, thinking))
  }

  ghost predicate Nobodys(u: Upstream, x: int) {
    x < u.next && forall k | k in u.blocks :: u.blocks[k].segment != x
  }

  lemma NobodysStep(u: Upstream, e: Event, x: int, thinking: bool)
    requires Nobodys(u, x)
    ensures var u' := Read(u, e, thinking);
            && Nobodys(u', x)
            && (x in u'.segments <==> x in u.segments && !(e == BlockStop(x) && PassesRaw(u, e, thinking)))
  {
    match e
    case BlockStart(i, b) =>
    case BlockDelta(i, d) =>
    case BlockStop(i) =>
    case _ =>
  }

  lemma {:induction false} NobodysStays(u: Upstream, es: seq<Event>, x: int, thinking: bool)
    requires Nobodys(u, x)
    ensures x in ReadAll(u, es, thinking).segments <==> x in u.segments && !ForwardsStop(u, es, x, thinking)
    decreases |es|
  {
    if es != [] {
      NobodysStep(u, es[0], x, thinking);
      NobodysStays(Read(u, es[0], thinking), es[1..], x, thinking);
    }
  }

  /**
   * Starting a live block again loses its segment: whatever follows and is accepted, that segment
   * is open at the end exactly if it was open and no stop of its number is forwarded.
   */
  lemma RestartLeaks(before: seq<Event>, i: int, b: Block, after: seq<Event>, thinking: bool)
    requires Restarts(ReadAll(NOTHING, before, thinking), BlockStart(i, b), thinking)
    ensures var u := ReadAll(NOTHING, before, thinking);
            var u1, x := Read(u, BlockStart(i, b), thinking), u.blocks[i].segment;
            var r := Run(START, Output(FRESH, before + [BlockStart(i, b)] + after, thinking));
            r.Some? ==> (x in r.value.open <==> x in u.segments && !ForwardsStop(u1, after, x, thinking))
  {
    var e, u := BlockStart(i, b), ReadAll(NOTHING, before, thinking);
    var u1, x := Read(u, e, thinking), u.blocks[i].segment;
    NumberedAll(NOTHING, before, thinking);
    RestartedIsNobodys(u, i, b, thinking);
    NobodysStays(u1, after, x, thinking);
    ReadMore(u, e, [], thinking);
    AppendNone([e]);
    ReadAppend(NOTHING, before, [e], thinking);
    ReadAppend(NOTHING, before + [e], after, thinking);
    PolicyMeetsContract(before + [e] + after, thinking);
  }

  lemma RestartedIsNobodys(u: Upstream, i: int, b: Block, thinking: bool)
    requires Numbered(u) && Restarts(u, BlockStart(i, b), thinking)
    ensures var u1, x := Read(u, BlockStart(i, b), thinking), u.blocks[i].segment;
            Nobodys(u1, x) && (x in u1.segments <==> x in u.segments)
  {
  }

  /** With thinking off no stop is forwarded, so the loss is for ever. */
  lemma {:induction false} StopsAreForwardedForThinking(u: Upstream, es: seq<Event>, x: int)
    ensures !ForwardsStop(u, es, x, false)
    decreases |es|
  {
    if es != [] {
      StopsAreForwardedForThinking(Read(u, es[0], false), es[1..], x);
    }
  }

  /** With thinking on, a stop of the lost number ends it. */
  lemma ForwardedStopEndsLost(i: int)
    requires i != 0
    ensures var es := [BlockStart(i, TEXT), BlockStart(i, TEXT), BlockStop(i), BlockStop(0)];
            var r := Run(START, Output(FRESH, es, true));
            r.Some? && r.value.open == map[]
  {
    var a, b, c := BlockStart(i, TEXT), BlockStop(i), BlockStop(0);
    var u1 := Read(NOTHING, a, true);
    var u2 := Read(u1, a, true);
    var u3 := Read(u2, b, true);
    StartedTwice(i);
    LostIsEnded(u2, i);
    ReadMore(u3, c, [], true);
    ReadMore(u2, b, [c], true);
    ReadMore(u1, a, [b, c], true);
    ReadMore(NOTHING, a, [a, b, c], true);
    assert [a] + [a, b, c] == [a, a, b, c] && [a] + [b, c] == [a, b, c] && [b] + [c] == [b, c] && [c] + [] == [c];
    PolicyMeetsContract([a, a, b, c], true);
  }

  lemma StartedTwice(i: int)
    ensures var a := BlockStart(i, TEXT); var u1 := Read(NOTHING, a, true); var u2 := Read(u1, a, true);
            && Acceptable(NOTHING, a, true) && Acceptable(u1, a, true)
            && u2.segments == map[0 := "text", 1 := "text"] && u2.dropped == {} && u2.overlapped == {}
            && u2.blocks.Keys == {i} && u2.blocks[i].segment == 1 && u2.live == {i}
  {
    TextRead(NOTHING, i);
    TextRead(Read(NOTHING, BlockStart(i, TEXT), true), i);
  }

  lemma LostIsEnded(u: Upstream, i: int)
    requires i != 0 && u.segments == map[0 := "text", 1 := "text"] && u.dropped == {} && u.overlapped == {}
    requires u.blocks.Keys == {i} && u.blocks[i].segment == 1 && u.live == {i}
    ensures var u1 := Read(u, BlockStop(i), true);
            && Acceptable(u, BlockStop(i), true) && Acceptable(u1, BlockStop(0), true)
            && Read(u1, BlockStop(0), true).segments == map[]
  {
    var u1 := Read(u, BlockStop(i), true);
    assert u1.segments == map[0 := "text"];
  }

  lemma ReadMore(u: Upstream, e: Event, rest: seq<Event>, thinking: bool)
    ensures ReadAll(u, [e] + rest, thinking) == ReadAll(Read(u, e, thinking), rest, thinking)
    ensures AllAcceptable(u, [e] + rest, thinking) <==>
              Acceptable(u, e, thinking) && AllAcceptable(Read(u, e, thinking), rest, thinking)
  {
    assert ([e] + rest)[1..] == rest;
  }

  lemma TextRead(u: Upstream, i: int)
    requires u.live <= {i}
    ensures Acceptable(u, BlockStart(i, TEXT), true)
    ensures var u' := Read(u, BlockStart(i, TEXT), true);
            && u'.dropped == u.dropped && u'.overlapped == u.overlapped && u'.next == u.next + 1
            && u'.segments == u.segments[u.next := "text"] && u'.blocks.Keys == u.blocks.Keys + {i}
            && u'.blocks[i] == Latest("text", u.next) && u'.live == {i}
  {
    assert OtherSegments(u, i) == {} && u.live - {i} == {};
    assert u.segments - {} == u.segments && u.overlapped + {} == u.overlapped;
    assert !ShouldDrop(TEXT.kind, true) && StorageKind(TEXT) == "text";
  }

  // ----- events that are forwarded -----

  lemma ForwardedOutput(before: seq<Event>, e: Event, thinking: bool)
    requires PassesRaw(ReadAll(NOTHING, before, thinking), e, thinking)
    requires AllAcceptable(NOTHING, before, thinking)
    ensures Output(FRESH, before + [e], thinking) == Output(FRESH, before, thinking) + [e]
    ensures Run(START, Output(FRESH, before + [e], thinking)).Some? <==>
              Acceptable(ReadAll(NOTHING, before, thinking), e, thinking)
  {
    var u := ReadAll(NOTHING, before, thinking);
    ManySteps(FRESH, NOTHING, START, before, thinking);
    OutputSnoc(FRESH, before, e, thinking);
    assert Transform(After(FRESH, before, thinking), e, thinking).1 == [e];
    ReadMore(u, e, [], thinking);
    AppendNone([e]);
    ReadAppend(NOTHING, before, [e], thinking);
    PolicyMeetsContract(before + [e], thinking);
  }

  /**
   * After any accepted events, a stop of an index that was never seen is forwarded with thinking on,
   * and the contract refuses it exactly if no segment of that number is open.
   */
  lemma UnseenStopIsRefusedIff(before: seq<Event>, i: int)
    requires AllAcceptable(NOTHING, before, true)
    requires PassesRaw(ReadAll(NOTHING, before, true), BlockStop(i), true)
    ensures Output(FRESH, before + [BlockStop(i)], true) == Output(FRESH, before, true) + [BlockStop(i)]
    ensures Run(START, Output(FRESH, before + [BlockStop(i)], true)).None? <==>
              i !in ReadAll(NOTHING, before, true).segments
  {
    ForwardedOutput(before, BlockStop(i), true);
  }

  ghost predicate KnownKinds(u: Upstream) {
    forall x | x in u.segments :: u.segments[x] in ALLOWED_START_KINDS + {"text_eager"}
  }

  lemma {:induction false} KindsAreKnown(u: Upstream, es: seq<Event>, thinking: bool)
    requires KnownKinds(u) && AllAcceptable(u, es, thinking)
    ensures KnownKinds(ReadAll(u, es, thinking))
    decreases |es|
  {
    if es != [] {
      KnownStep(u, es[0], thinking);
      KindsAreKnown(Read(u, es[0], thinking), es[1..], thinking);
    }
  }

  lemma KnownStep(u: Upstream, e: Event, thinking: bool)
    requires KnownKinds(u) && Acceptable(u, e, thinking)
    ensures KnownKinds(Read(u, e, thinking))
  {
  }

  /**
   * After any accepted events, a thinking or signature delta of an index that was never seen is
   * forwarded, and the contract refuses it exactly if no thinking segment of that number is open.
   */
  lemma UnseenThinkingIsRefusedIff(before: seq<Event>, i: int, d: Delta, thinking: bool)
    requires AllAcceptable(NOTHING, before, thinking)
    requires PassesRaw(ReadAll(NOTHING, before, thinking), BlockDelta(i, d), thinking)
    ensures Output(FRESH, before + [BlockDelta(i, d)], thinking) == Output(FRESH, before, thinking) + [BlockDelta(i, d)]
    ensures var segments := ReadAll(NOTHING, before, thinking).segments;
            Run(START, Output(FRESH, before + [BlockDelta(i, d)], thinking)).None? <==>
              !(i in segments && segments[i] == "thinking")
  {
    ForwardedOutput(before, BlockDelta(i, d), thinking);
    KindsAreKnown(NOTHING, before, thinking);
  }

  /** A forwarded stop can be the right one by chance: the first segment has the number 0. */
  lemma ForwardedStopCanBeRight(i: int)
    requires i != 0
    ensures var es := [BlockStart(i, TEXT), BlockStop(0)];
            && PassesRaw(Read(NOTHING, es[0], true), es[1], true)
            && Run(START, Output(FRESH, es, true)).Some? && Run(START, Output(FRESH, es, true)).value.open == map[]
  {
    var a, b := BlockStart(i, TEXT), BlockStop(0);
    TextRead(NOTHING, i);
    var u1 := Read(NOTHING, a, true);
    assert Read(u1, b, true).segments == map[];
    ReadMore(u1, b, [], true);
    ReadMore(NOTHING, a, [b], true);
    assert [a] + [b] == [a, b] && [b] + [] == [b];
    PolicyMeetsContract([a, b], true);
  }

  /** The events that make the policy write to the segment of the live block k. */
  ghost predicate Touches(u: Upstream, k: int, e: Event, thinking: bool) {
    match e
    case BlockStart(i, b) => i != k && !ShouldDrop(b.kind, thinking)
    case BlockDelta(i, d) => i == k && Kept(u, k, d.kind, thinking) && DeltaKind(d.kind).Some?
    case BlockStop(i) => i == k && k !in u.dropped && k !in u.overlapped
    case _ => false
  }

  /**
   * Once a forwarded stop has ended the segment of a live block, the block's next delta or stop, or
   * a start that overlaps it, is refused.
   */
  lemma EndedUnderItsBlock(before: seq<Event>, k: int, e: Event, thinking: bool)
    requires var u := ReadAll(NOTHING, before, thinking);
             IsLive(u, k) && u.blocks[k].segment !in u.segments && Touches(u, k, e, thinking)
    ensures Run(START, Output(FRESH, before + [e], thinking)).None?
  {
    var u := ReadAll(NOTHING, before, thinking);
    assert e.BlockStart? ==> u.blocks[k].segment in OtherSegments(u, e.index);
    ReadMore(u, e, [], thinking);
    AppendNone([e]);
    ReadAppend(NOTHING, before, [e], thinking);
    PolicyMeetsContract(before + [e], thinking);
  }

  /**
   * Two downstream blocks can be open at once: a delta that reopens its block leaves the other open.
   * "At most one open block" is not an invariant of the policy; the contract is.
   */
  lemma ReopenedBlocksOverlap(i: int, j: int, d: Delta)
    requires i != j && d.kind == "text_delta"
    ensures
      var r := Run(START, Output(FRESH, [BlockStart(i, TEXT), BlockStart(j, TEXT), BlockDelta(i, d)], true));
      r.Some? && r.value.open.Keys == {1, 2}
  {
    var a, b, x := BlockStart(i, TEXT), BlockStart(j, TEXT), BlockDelta(i, d);
    OverlapStarts(i, j);
    OutputOfThree(FRESH, a, b, x, true);
    Assoc([BlockStart(0, TEXT)], [BlockStop(0), BlockStart(1, TEXT)], [BlockStart(2, TEXT), BlockDelta(2, d)]);
    OverlapRun(BlockStart(0, TEXT), BlockStart(1, TEXT), d);
  }

  lemma OutputOfThree(s: State, a: Event, b: Event, x: Event, thinking: bool)
    requires Ordered(s)
    ensures var (s1, out1) := Transform(s, a, thinking);
            && Ordered(s1)
            && var (s2, out2) := Transform(s1, b, thinking);
               Ordered(s2) && Output(s, [a, b, x], thinking) == out1 + (out2 + Transform(s2, x, thinking).1)
  {
    TransformOrdered(s, a, thinking);
    var (s1, out1) := Transform(s, a, thinking);
    TransformOrdered(s1, b, thinking);
    var s2 := Transform(s1, b, thinking).0;
    TransformOrdered(s2, x, thinking);
    assert [a, b, x][1..] == [b, x] && [b, x][1..] == [x] && [x][1..] == [];
    assert Output(s2, [x], thinking) ==
             Transform(s2, x, thinking).1 + Output(Transform(s2, x, thinking).0, [], thinking);
    AppendNone(Transform(s2, x, thinking).1);
    assert Output(s1, [b, x], thinking) == Transform(s1, b, thinking).1 + Output(s2, [x], thinking);
  }

  lemma OverlapStarts(i: int, j: int)
    requires i != j
    ensures Transform(FRESH, BlockStart(i, TEXT), true) ==
              (State(1, [i], map[i := Segment("text", 0, true, TEXT)], {}, {}), [BlockStart(0, TEXT)])
    ensures var s1 := State(1, [i], map[i := Segment("text", 0, true, TEXT)], {}, {});
            var (s2, out) := Transform(s1, BlockStart(j, TEXT), true);
            && out == [BlockStop(0), BlockStart(1, TEXT)]
            && s2 == State(2, [i, j], map[i := Segment("text", 0, false, TEXT), j := Segment("text", 1, true, TEXT)],
                           {}, {i})
  {
    var s1 := State(1, [i], map[i := Segment("text", 0, true, TEXT)], {}, {});
    assert CloseOthers(FRESH, i) == FRESH && CloseEvents(FRESH.order, FRESH.segs, i) == [];
    AppendNone([BlockStart(0, TEXT)]);
    assert !ShouldDrop(TEXT.kind, true) && Allocate(FRESH, i, "text", TEXT) == s1;
    assert [] + [i] == [i] && [i] + [j] == [i, j] && [i][1..] == [];
    assert CloseEvents([i], s1.segs, j) == [BlockStop(0)] + CloseEvents([i][1..], s1.segs, j);
    assert Overlapped(s1.segs, j) == {i};
    assert CloseOthers(s1, j) == State(1, [i], map[i := Segment("text", 0, false, TEXT)], {}, {i});
  }

  lemma OverlapRun(a: Event, b: Event, d: Delta)
    requires a == BlockStart(0, TEXT) && b == BlockStart(1, TEXT) && d.kind == "text_delta"
    ensures var r := Run(START, [a] + [BlockStop(0), b] + [BlockStart(2, TEXT), BlockDelta(2, d)]);
            r.Some? && r.value.open.Keys == {1, 2}
  {
    RunOne(START, a);
    var c1 := Step(START, a).value;
    RunAppend(START, [a], [BlockStop(0), b]);
    RunTwo(c1, BlockStop(0), b);
    var c2 := Run(c1, [BlockStop(0), b]).value;
    RunAppend(START, [a] + [BlockStop(0), b], [BlockStart(2, TEXT), BlockDelta(2, d)]);
    RunTwo(c2, BlockStart(2, TEXT), BlockDelta(2, d));
  }
}
