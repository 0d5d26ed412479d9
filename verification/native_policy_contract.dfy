/**
 * What the policy's output owes to the stream contract.
 *
 * The upstream is read on its own terms: which of its blocks were seen, which are live, which were
 * overlapped while live, which were dropped, and how many segments its starts and reopenings have
 * begun.  This reading decides, for every stream, whether the output breaks the contract and what
 * it leaves open.
 */
module NativePolicyContract {
  import opened Text
  import opened StreamContract
  import opened NativePolicy

  // ----- the upstream on its own terms -----

  /** The latest segment of an upstream block: its kind and its number. */
  datatype Latest = Latest(kind: string, segment: int)

  /**
   * `blocks` are those seen, `live` those among them that go on. A kept start, and a delta that
   * reopens or begins a block, begins a segment; segments are numbered 0, 1, 2, ... in this order
   * and `next` is the number of the next one. `segments` are the open ones with their kinds.
   */
  datatype Upstream = Upstream(blocks: map<int, Latest>, live: set<int>, dropped: set<int>, overlapped: set<int>,
                               segments: map<int, string>, next: nat)

  const NOTHING := Upstream(map[], {}, {}, {}, map[], 0)

  predicate Kept(u: Upstream, i: int, kind: string, thinking: bool) {
    i !in u.dropped && !ShouldDrop(kind, thinking)
  }

  predicate IsLive(u: Upstream, i: int) {
    i in u.blocks && i in u.live
  }

  /** The segments of the live blocks other than i. */
  function OtherSegments(u: Upstream, i: int): set<int> {
    set k | k in u.blocks && k in u.live && k != i :: u.blocks[k].segment
  }

  /** A delta that begins a segment: of a suspended or stopped block, or of a text or tool block never seen. */
  predicate Begins(u: Upstream, i: int, d: Delta, thinking: bool) {
    && Kept(u, i, d.kind, thinking) && DeltaKind(d.kind).Some? && !IsLive(u, i)
    && (i in u.blocks || DeltaKind(d.kind).value != "thinking")
  }

  /** A start of another block suspends every live block; a delta wakes a suspended one. */
  function Read(u: Upstream, e: Event, thinking: bool): Upstream {
    match e
    case BlockStart(i, b) =>
      if ShouldDrop(b.kind, thinking) then u.(dropped := u.dropped + {i})
      else
        Upstream(u.blocks[i := Latest(StorageKind(b), u.next)], {i}, u.dropped, u.overlapped + (u.live - {i}),
                 (u.segments - OtherSegments(u, i))[u.next := StorageKind(b)], u.next + 1)
    case BlockDelta(i, d) =>
      if Begins(u, i, d, thinking) then
        var kind := DeltaKind(d.kind).value;
        Upstream(u.blocks[i := Latest(kind, u.next)], u.live + {i}, u.dropped, u.overlapped - {i},
                 u.segments[u.next := kind], u.next + 1)
      else u
    case BlockStop(i) =>
      if i in u.dropped then u
      else if i in u.overlapped then u.(overlapped := u.overlapped - {i})
      else if IsLive(u, i) then u.(live := u.live - {i}, segments := u.segments - {u.blocks[i].segment})
      else if i in u.blocks || !thinking then u
      else u.(segments := u.segments - {i})
    case _ => u
  }

  /** The two shapes that the policy forwards under the upstream's own index. */
  predicate PassesRaw(u: Upstream, e: Event, thinking: bool) {
    match e
    case BlockDelta(i, d) =>
      Kept(u, i, d.kind, thinking) && DeltaKind(d.kind) == Some("thinking") && i !in u.blocks
    case BlockStop(i) =>
      thinking && i !in u.dropped && i !in u.overlapped && i !in u.blocks
    case _ => false
  }

  /**
   * A kept start has a known block type, and the live blocks that it suspends still have their
   * segments open. A delta or stop of a live block meets its open segment, which the delta fits. A
   * forwarded event meets the open segment whose number happens to be its index.
   */
  predicate Acceptable(u: Upstream, e: Event, thinking: bool) {
    match e
    case BlockStart(i, b) =>
      || ShouldDrop(b.kind, thinking)
      || (b.kind in ALLOWED_START_KINDS && OtherSegments(u, i) <= u.segments.Keys)
    case BlockDelta(i, d) =>
      || !Kept(u, i, d.kind, thinking) || Begins(u, i, d, thinking)
      || (var x := if IsLive(u, i) && DeltaKind(d.kind).Some? then u.blocks[i].segment else i;
          x in u.segments && DeltaFits(u.segments[x], d.kind))
    case BlockStop(i) =>
      if PassesRaw(u, e, thinking) then i in u.segments
      else i !in u.dropped && i !in u.overlapped && IsLive(u, i) ==> u.blocks[i].segment in u.segments
    case Malformed(_, _) => false
    case _ => true
  }

  ghost function ReadAll(u: Upstream, es: seq<Event>, thinking: bool): Upstream
    decreases |es|
  {
    if es == [] then u else ReadAll(Read(u, es[0], thinking), es[1..], thinking)
  }

  ghost predicate AllAcceptable(u: Upstream, es: seq<Event>, thinking: bool)
    decreases |es|
  {
    es != [] ==> Acceptable(u, es[0], thinking) && AllAcceptable(Read(u, es[0], thinking), es[1..], thinking)
  }

  // ----- the invariant -----

  /** The policy's tables are the upstream reading. */
  ghost predicate Tracks(s: State, u: Upstream) {
    && Ordered(s)
    && s.segs.Keys == u.blocks.Keys && u.live <= u.blocks.Keys && s.nextIndex == u.next
    && (forall k | k in s.segs :: s.segs[k].open == (k in u.live) && s.segs[k].downIndex == u.blocks[k].segment)
    && s.dropped == u.dropped && s.pending == u.overlapped && s.pending <= s.segs.Keys
  }

  /** Blocks have different segments, whose numbers have been given out; a live block knows the kind of its segment. */
  ghost predicate Numbered(u: Upstream) {
    && (forall k | k in u.blocks :: 0 <= u.blocks[k].segment < u.next)
    && (forall j, k | j in u.blocks && k in u.blocks && j != k :: u.blocks[j].segment != u.blocks[k].segment)
    && (forall x | x in u.segments :: 0 <= x < u.next)
    && (forall k | IsLive(u, k) && u.blocks[k].segment in u.segments ::
          u.segments[u.blocks[k].segment] == u.blocks[k].kind)
  }

  /** The checker's state after the output is the upstream reading. */
  ghost predicate Agrees(u: Upstream, c: Check) {
    c.open == u.segments && forall x :: x in c.seen <==> 0 <= x < u.next
  }

  ghost predicate Inv(s: State, u: Upstream, c: Check) {
    Tracks(s, u) && Numbered(u) && Agrees(u, c)
  }

  lemma TracksStep(s: State, u: Upstream, e: Event, thinking: bool)
    requires Tracks(s, u)
    ensures Tracks(Transform(s, e, thinking).0, Read(u, e, thinking))
  {
    match e
    case BlockStart(i, b) => TracksStart(s, u, i, b, thinking);
    case BlockDelta(i, d) => TracksDelta(s, u, i, d, thinking);
    case BlockStop(i) => TracksStop(s, u, i, thinking);
    case _ =>
  }

  lemma TracksStart(s: State, u: Upstream, i: int, b: Block, thinking: bool)
    requires Tracks(s, u)
    ensures Tracks(Transform(s, BlockStart(i, b), thinking).0, Read(u, BlockStart(i, b), thinking))
  {
    TransformOrdered(s, BlockStart(i, b), thinking);
    assert Overlapped(s.segs, i) == u.live - {i};
  }

  lemma TracksDelta(s: State, u: Upstream, i: int, d: Delta, thinking: bool)
    requires Tracks(s, u)
    ensures Tracks(Transform(s, BlockDelta(i, d), thinking).0, Read(u, BlockDelta(i, d), thinking))
  {
    TransformOrdered(s, BlockDelta(i, d), thinking);
    if Begins(u, i, d, thinking) {
      ReopenShape(s, i, d, thinking);
    }
  }

  lemma TracksStop(s: State, u: Upstream, i: int, thinking: bool)
    requires Tracks(s, u)
    ensures Tracks(Transform(s, BlockStop(i), thinking).0, Read(u, BlockStop(i), thinking))
  {
    TransformOrdered(s, BlockStop(i), thinking);
  }

  lemma NumberedStep(u: Upstream, e: Event, thinking: bool)
    requires Numbered(u)
    ensures Numbered(Read(u, e, thinking))
  {
    match e
    case BlockStart(i, b) => NumberedStart(u, i, b, thinking);
    case BlockDelta(i, d) => NumberedDelta(u, i, d, thinking);
    case BlockStop(i) => NumberedStop(u, i, thinking);
    case _ =>
  }

  lemma NumberedStart(u: Upstream, i: int, b: Block, thinking: bool)
    requires Numbered(u)
    ensures Numbered(Read(u, BlockStart(i, b), thinking))
  {
  }

  lemma NumberedDelta(u: Upstream, i: int, d: Delta, thinking: bool)
    requires Numbered(u)
    ensures Numbered(Read(u, BlockDelta(i, d), thinking))
  {
  }

  lemma NumberedStop(u: Upstream, i: int, thinking: bool)
    requires Numbered(u)
    ensures Numbered(Read(u, BlockStop(i), thinking))
  {
  }

  /** A delta on a block that is not live allocates a segment and announces it first. */
  lemma ReopenShape(s: State, i: int, d: Delta, thinking: bool)
    requires Ordered(s) && s.pending <= s.segs.Keys
    requires i !in s.dropped && !ShouldDrop(d.kind, thinking) && DeltaKind(d.kind).Some?
    requires i in s.segs ==> !s.segs[i].open
    requires i !in s.segs ==> DeltaKind(d.kind).value != "thinking"
    ensures
      var kind := DeltaKind(d.kind).value;
      var block := SyntheticStart(kind, i, if i in s.segs then Some(s.segs[i].lastStart) else None);
      Transform(s, BlockDelta(i, d), thinking) ==
        (Allocate(s.(pending := s.pending - {i}), i, kind, if i in s.segs then s.segs[i].lastStart else block),
         [BlockStart(s.nextIndex, block), BlockDelta(s.nextIndex, d)])
  {
    if i !in s.segs {
      assert s.pending - {i} == s.pending;
    }
  }

  ghost function ClosedDowns(order: seq<int>, segs: map<int, Segment>, current: int): set<int>
    requires forall k | k in order :: k in segs
  {
    set k | k in order && k != current && segs[k].open :: segs[k].downIndex
  }

  /** The closing loop's stops are accepted exactly if all of them meet an open block. */
  lemma {:induction false} CloseRuns(order: seq<int>, segs: map<int, Segment>, current: int, c: Check)
    requires forall k | k in order :: k in segs
    requires forall a, b | 0 <= a < b < |order| :: order[a] != order[b]
    requires forall j, k | j in order && k in order && j != k :: segs[j].downIndex != segs[k].downIndex
    ensures var downs := ClosedDowns(order, segs, current);
            Run(c, CloseEvents(order, segs, current)) ==
              if downs <= c.open.Keys then Some(c.(open := c.open - downs)) else None
    decreases |order|
  {
    if order == [] {
      assert ClosedDowns(order, segs, current) == {};
      assert c.open - {} == c.open;
    } else {
      var k, rest := order[0], order[1..];
      assert order == [k] + rest;
      if k != current && segs[k].open {
        CloseFirst(order, segs, current, c);
      } else {
        CloseRuns(rest, segs, current, c);
        assert ClosedDowns(order, segs, current) == ClosedDowns(rest, segs, current);
        assert [] + CloseEvents(rest, segs, current) == CloseEvents(rest, segs, current);
      }
    }
  }

  lemma {:induction false} CloseFirst(order: seq<int>, segs: map<int, Segment>, current: int, c: Check)
    requires forall k | k in order :: k in segs
    requires forall a, b | 0 <= a < b < |order| :: order[a] != order[b]
    requires forall j, k | j in order && k in order && j != k :: segs[j].downIndex != segs[k].downIndex
    requires order != [] && order[0] != current && segs[order[0]].open
    ensures var downs := ClosedDowns(order, segs, current);
            Run(c, CloseEvents(order, segs, current)) ==
              if downs <= c.open.Keys then Some(c.(open := c.open - downs)) else None
    decreases |order|, 0
  {
    var x, rest := segs[order[0]].downIndex, order[1..];
    var later := ClosedDowns(rest, segs, current);
    assert order == [order[0]] + rest;
    assert ClosedDowns(order, segs, current) == {x} + later;
    assert x !in later;
    RunAppend(c, [BlockStop(x)], CloseEvents(rest, segs, current));
    RunOne(c, BlockStop(x));
    if x in c.open {
      var c1 := c.(open := c.open - {x});
      CloseRuns(rest, segs, current, c1);
      assert later <= c1.open.Keys <==> {x} + later <= c.open.Keys;
      assert c1.open - later == c.open - ({x} + later);
    }
  }

  lemma RunTwo(c: Check, e: Event, f: Event)
    ensures Run(c, [e, f]) == if Step(c, e).Some? then Step(Step(c, e).value, f) else None
  {
    RunSnoc(c, [e], f);
    RunOne(c, e);
    assert [e] + [f] == [e, f];
  }

  /** Block starts: the others are closed, then the new segment opens under a fresh index. */
  lemma StartStep(s: State, u: Upstream, c: Check, i: int, b: Block, thinking: bool)
    requires Inv(s, u, c) && !ShouldDrop(b.kind, thinking)
    ensures var e := BlockStart(i, b); var r := Run(c, Transform(s, e, thinking).1);
            (r.Some? <==> Acceptable(u, e, thinking)) && (r.Some? ==> Agrees(Read(u, e, thinking), r.value))
  {
    var start, downs := BlockStart(s.nextIndex, b), ClosedDowns(s.order, s.segs, i);
    ClosedAreOthers(s, u, i);
    CloseRuns(s.order, s.segs, i, c);
    RunAppend(c, CloseEvents(s.order, s.segs, i), [start]);
    RunOne(c.(open := c.open - downs), start);
  }

  lemma ClosedAreOthers(s: State, u: Upstream, i: int)
    requires Tracks(s, u)
    ensures ClosedDowns(s.order, s.segs, i) == OtherSegments(u, i)
  {
  }

  /** Deltas: on a live block, and forwarded, they must fit an open segment; otherwise they begin one. */
  lemma DeltaStep(s: State, u: Upstream, c: Check, i: int, d: Delta, thinking: bool)
    requires Inv(s, u, c)
    ensures var e := BlockDelta(i, d); var r := Run(c, Transform(s, e, thinking).1);
            (r.Some? <==> Acceptable(u, e, thinking)) && (r.Some? ==> Agrees(Read(u, e, thinking), r.value))
  {
    var e := BlockDelta(i, d);
    if Begins(u, i, d, thinking) {
      var kind := DeltaKind(d.kind).value;
      ReopenShape(s, i, d, thinking);
      FreshBlock(c, u.next, SyntheticStart(kind, i, if i in s.segs then Some(s.segs[i].lastStart) else None), d, kind);
    } else if Kept(u, i, d.kind, thinking) {
      var x := if IsLive(u, i) && DeltaKind(d.kind).Some? then u.blocks[i].segment else i;
      assert Transform(s, e, thinking).1 == [BlockDelta(x, d)];
      RunOne(c, BlockDelta(x, d));
    }
  }

  lemma FreshBlock(c: Check, n: int, block: Block, d: Delta, kind: string)
    requires n !in c.open && n !in c.seen && DeltaKind(d.kind) == Some(kind)
    requires block.kind == kind && block.text == ""
    ensures Run(c, [BlockStart(n, block), BlockDelta(n, d)]) == Some(Check(c.open[n := kind], c.seen + {n}))
  {
    assert StorageKind(block) == kind;
    RunTwo(c, BlockStart(n, block), BlockDelta(n, d));
    assert Step(c, BlockStart(n, block)) == Some(Check(c.open[n := kind], c.seen + {n}));
  }

  lemma StopStep(s: State, u: Upstream, c: Check, i: int, thinking: bool)
    requires Inv(s, u, c)
    ensures var e := BlockStop(i); var r := Run(c, Transform(s, e, thinking).1);
            (r.Some? <==> Acceptable(u, e, thinking)) && (r.Some? ==> Agrees(Read(u, e, thinking), r.value))
  {
    var e := BlockStop(i);
    var out := Transform(s, e, thinking).1;
    if out != [] {
      var x := if IsLive(u, i) then u.blocks[i].segment else i;
      assert out == [BlockStop(x)];
      RunOne(c, BlockStop(x));
    }
  }

  lemma OneStep(s: State, u: Upstream, c: Check, e: Event, thinking: bool)
    requires Inv(s, u, c)
    ensures var r := Run(c, Transform(s, e, thinking).1);
            && (r.Some? <==> Acceptable(u, e, thinking))
            && (r.Some? ==> Inv(Transform(s, e, thinking).0, Read(u, e, thinking), r.value))
  {
    TracksStep(s, u, e, thinking);
    NumberedStep(u, e, thinking);
    match e
    case BlockStart(i, b) =>
      if !ShouldDrop(b.kind, thinking) {
        StartStep(s, u, c, i, b, thinking);
      }
    case BlockDelta(i, d) => DeltaStep(s, u, c, i, d, thinking);
    case BlockStop(i) => StopStep(s, u, c, i, thinking);
    case _ => RunOne(c, e);
  }

  lemma {:induction false} ManySteps(s: State, u: Upstream, c: Check, es: seq<Event>, thinking: bool)
    requires Inv(s, u, c)
    ensures var r := Run(c, Output(s, es, thinking));
            && (r.Some? <==> AllAcceptable(u, es, thinking))
            && (r.Some? ==> Inv(After(s, es, thinking), ReadAll(u, es, thinking), r.value))
    decreases |es|
  {
    if es != [] {
      var e, rest := es[0], es[1..];
      var (s1, out) := Transform(s, e, thinking);
      TransformOrdered(s, e, thinking);
      OneStep(s, u, c, e, thinking);
      RunAppend(c, out, Output(s1, rest, thinking));
      if Acceptable(u, e, thinking) {
        ManySteps(s1, Read(u, e, thinking), Run(c, out).value, rest, thinking);
      }
    }
  }

  /**
   * For every upstream stream: the output breaks no rule of the contract exactly when every event is
   * acceptable, and what it then leaves open are the segments that the reading has open, of the same
   * kinds.
   */
  lemma PolicyMeetsContract(es: seq<Event>, thinking: bool)
    ensures var r := Run(START, Output(FRESH, es, thinking));
            && (r.Some? <==> AllAcceptable(NOTHING, es, thinking))
            && (r.Some? ==> r.value.open == ReadAll(NOTHING, es, thinking).segments)
  {
    ManySteps(FRESH, NOTHING, START, es, thinking);
  }

  // ----- streams of which nothing is forwarded -----

  /** A kept start has a known block type; a kept delta has a known type that fits its block if that is live. */
  predicate Regular(u: Upstream, e: Event, thinking: bool) {
    match e
    case BlockStart(i, b) => ShouldDrop(b.kind, thinking) || b.kind in ALLOWED_START_KINDS
    case BlockDelta(i, d) =>
      Kept(u, i, d.kind, thinking) ==>
        DeltaKind(d.kind).Some? && (IsLive(u, i) ==> DeltaFits(u.blocks[i].kind, d.kind))
    case Malformed(_, _) => false
    case _ => true
  }

  /** A kept start of a block that is live already: the old segment is forgotten. */
  predicate Restarts(u: Upstream, e: Event, thinking: bool) {
    e.BlockStart? && !ShouldDrop(e.block.kind, thinking) && IsLive(u, e.index)
  }

  ghost predicate NeverRaw(u: Upstream, es: seq<Event>, thinking: bool)
    decreases |es|
  {
    es != [] ==> !PassesRaw(u, es[0], thinking) && NeverRaw(Read(u, es[0], thinking), es[1..], thinking)
  }

  ghost predicate AllRegular(u: Upstream, es: seq<Event>, thinking: bool)
    decreases |es|
  {
    es != [] ==> Regular(u, es[0], thinking) && AllRegular(Read(u, es[0], thinking), es[1..], thinking)
  }

  ghost predicate EverRestarts(u: Upstream, es: seq<Event>, thinking: bool)
    decreases |es|
  {
    es != [] && (Restarts(u, es[0], thinking) || EverRestarts(Read(u, es[0], thinking), es[1..], thinking))
  }

  ghost predicate NoneLive(u: Upstream) {
    forall i :: !IsLive(u, i)
  }

  /** Every live block's segment is open, and open segments have kinds that a contract knows. */
  ghost predicate Secure(u: Upstream) {
    && Numbered(u)
    && (forall k | IsLive(u, k) :: u.blocks[k].segment in u.segments)
    && (forall x | x in u.segments :: u.segments[x] in ALLOWED_START_KINDS + {"text_eager"})
  }

  /** An open segment that belongs to no live block. */
  ghost predicate IsLost(u: Upstream, x: int) {
    x in u.segments && forall k | IsLive(u, k) :: u.blocks[k].segment != x
  }

  /** No segment takes a delta of a type that the policy does not know. */
  lemma UnknownDeltaFitsNothing(kind: string, deltaKind: string)
    requires kind in ALLOWED_START_KINDS + {"text_eager"} && DeltaKind(deltaKind).None?
    ensures !DeltaFits(kind, deltaKind)
  {
  }

  lemma RegularIsAcceptable(u: Upstream, e: Event, thinking: bool)
    requires Secure(u) && !PassesRaw(u, e, thinking)
    ensures Acceptable(u, e, thinking) <==> Regular(u, e, thinking)
  {
    match e
    case BlockStart(i, b) =>
    case BlockDelta(i, d) =>
      if DeltaKind(d.kind).None? && i in u.segments {
        UnknownDeltaFitsNothing(u.segments[i], d.kind);
      }
    case BlockStop(i) =>
    case _ =>
  }

  lemma SecureStep(u: Upstream, e: Event, thinking: bool)
    requires Secure(u) && !PassesRaw(u, e, thinking) && Regular(u, e, thinking)
    ensures Secure(Read(u, e, thinking))
  {
    NumberedStep(u, e, thinking);
    match e
    case BlockStart(i, b) =>
    case BlockDelta(i, d) =>
    case BlockStop(i) =>
    case _ =>
  }

  /** Only a second start of a live block loses a segment, and a lost one stays. */
  lemma LostStep(u: Upstream, e: Event, thinking: bool)
    requires Secure(u) && !PassesRaw(u, e, thinking) && Regular(u, e, thinking)
    ensures forall x :: IsLost(Read(u, e, thinking), x) <==>
                          IsLost(u, x) || (Restarts(u, e, thinking) && x == u.blocks[e.index].segment)
  {
    var u' := Read(u, e, thinking);
    match e
    case BlockStart(i, b) => LostStart(u, i, b, thinking);
    case BlockDelta(i, d) => LostDelta(u, i, d, thinking);
    case BlockStop(i) => LostStop(u, i, thinking);
    case _ =>
  }

  lemma LostStart(u: Upstream, i: int, b: Block, thinking: bool)
    requires Secure(u)
    ensures var e := BlockStart(i, b);
            forall x :: IsLost(Read(u, e, thinking), x) <==>
                          IsLost(u, x) || (Restarts(u, e, thinking) && x == u.blocks[i].segment)
  {
    var e := BlockStart(i, b);
    var u' := Read(u, e, thinking);
    if !ShouldDrop(b.kind, thinking) {
      forall x ensures IsLost(u', x) <==> IsLost(u, x) || (Restarts(u, e, thinking) && x == u.blocks[i].segment) {
        assert IsLive(u', i) && u'.blocks[i].segment == u.next;
        assert forall k | IsLive(u', k) :: k == i;
        if x in u.segments && !IsLost(u, x) {
          var k :| IsLive(u, k) && u.blocks[k].segment == x;
          assert k != i ==> x in OtherSegments(u, i);
        }
      }
    } else {
      assert forall k :: IsLive(u', k) <==> IsLive(u, k);
    }
  }

  lemma LostDelta(u: Upstream, i: int, d: Delta, thinking: bool)
    requires Secure(u)
    ensures forall x :: IsLost(Read(u, BlockDelta(i, d), thinking), x) <==> IsLost(u, x)
  {
    var u' := Read(u, BlockDelta(i, d), thinking);
    if Begins(u, i, d, thinking) {
      forall x ensures IsLost(u', x) <==> IsLost(u, x) {
        assert IsLive(u', i) && u'.blocks[i].segment == u.next;
        assert forall k | k != i :: IsLive(u', k) <==> IsLive(u, k);
      }
    }
  }

  lemma LostStop(u: Upstream, i: int, thinking: bool)
    requires Secure(u) && !PassesRaw(u, BlockStop(i), thinking)
    ensures forall x :: IsLost(Read(u, BlockStop(i), thinking), x) <==> IsLost(u, x)
  {
    var u' := Read(u, BlockStop(i), thinking);
    forall x ensures IsLost(u', x) <==> IsLost(u, x) {
      assert forall k | k != i :: IsLive(u', k) <==> IsLive(u, k);
    }
  }

  ghost predicate NoneLost(u: Upstream) {
    forall x :: !IsLost(u, x)
  }

  lemma {:induction false} RegularSteps(u: Upstream, es: seq<Event>, thinking: bool)
    requires Secure(u) && NeverRaw(u, es, thinking)
    ensures AllAcceptable(u, es, thinking) <==> AllRegular(u, es, thinking)
    ensures AllRegular(u, es, thinking) ==>
              && Secure(ReadAll(u, es, thinking))
              && (NoneLost(ReadAll(u, es, thinking)) <==> NoneLost(u) && !EverRestarts(u, es, thinking))
    decreases |es|
  {
    if es != [] {
      RegularIsAcceptable(u, es[0], thinking);
      if Regular(u, es[0], thinking) {
        SecureStep(u, es[0], thinking);
        NoneLostStep(u, es[0], thinking);
        RegularSteps(Read(u, es[0], thinking), es[1..], thinking);
      }
    }
  }

  lemma NoneLostStep(u: Upstream, e: Event, thinking: bool)
    requires Secure(u) && !PassesRaw(u, e, thinking) && Regular(u, e, thinking)
    ensures NoneLost(Read(u, e, thinking)) <==> NoneLost(u) && !Restarts(u, e, thinking)
  {
    LostStep(u, e, thinking);
    if Restarts(u, e, thinking) {
      assert IsLost(Read(u, e, thinking), u.blocks[e.index].segment);
    }
  }

  /**
   * For every upstream stream of which nothing is forwarded raw: the output breaks no rule exactly
   * when every kept event has a known type that fits, and it then ends with nothing open exactly
   * when no live block was started again and no block is live at the end.
   */
  lemma UnforwardedStreams(es: seq<Event>, thinking: bool)
    requires NeverRaw(NOTHING, es, thinking)
    ensures var r := Run(START, Output(FRESH, es, thinking));
            && (r.Some? <==> AllRegular(NOTHING, es, thinking))
            && (r.Some? ==>
                  (r.value.open == map[] <==>
                     !EverRestarts(NOTHING, es, thinking) && NoneLive(ReadAll(NOTHING, es, thinking))))
  {
    PolicyMeetsContract(es, thinking);
    RegularSteps(NOTHING, es, thinking);
    if AllRegular(NOTHING, es, thinking) {
      NothingOpen(ReadAll(NOTHING, es, thinking));
    }
  }

  lemma NothingOpen(u: Upstream)
    requires Secure(u)
    ensures u.segments == map[] <==> NoneLost(u) && NoneLive(u)
  {
    if NoneLost(u) && NoneLive(u) {
      forall x ensures x !in u.segments {
        assert !IsLost(u, x);
      }
    } else if !NoneLost(u) {
      var x :| IsLost(u, x);
      assert x in u.segments;
    } else {
      var i :| IsLive(u, i);
      assert u.blocks[i].segment in u.segments;
    }
  }

  // ----- downstream indexes -----

  function StartIndexes(es: seq<Event>): seq<int> {
    if es == [] then []
    else (if es[0].BlockStart? then [es[0].index] else []) + StartIndexes(es[1..])
  }

  lemma {:induction false} StartIndexesAppend(a: seq<Event>, b: seq<Event>)
    ensures StartIndexes(a + b) == StartIndexes(a) + StartIndexes(b)
  {
    if a == [] {
      AppendNone(b);
      AppendNone(StartIndexes(b));
    } else {
      AppendTail(a, b);
      StartIndexesAppend(a[1..], b);
      Assoc(if a[0].BlockStart? then [a[0].index] else [], StartIndexes(a[1..]), StartIndexes(b));
    }
  }

  lemma {:induction false} ClosesStartNothing(order: seq<int>, segs: map<int, Segment>, current: int)
    requires forall k | k in order :: k in segs
    ensures StartIndexes(CloseEvents(order, segs, current)) == []
  {
    if order != [] {
      ClosesStartNothing(order[1..], segs, current);
      var first := if order[0] != current && segs[order[0]].open then [BlockStop(segs[order[0]].downIndex)] else [];
      assert StartIndexes(first) == [];
      StartIndexesAppend(first, CloseEvents(order[1..], segs, current));
    }
  }

  lemma StepIndexes(s: State, e: Event, thinking: bool)
    requires Ordered(s)
    ensures
      var (s', out) := Transform(s, e, thinking);
      && s.nextIndex <= s'.nextIndex <= s.nextIndex + 1
      && StartIndexes(out) == if s'.nextIndex == s.nextIndex then [] else [s.nextIndex]
  {
    var (s', out) := Transform(s, e, thinking);
    match e
    case BlockStart(i, b) =>
      if !ShouldDrop(b.kind, thinking) {
        var closes := CloseEvents(s.order, s.segs, i);
        ClosesStartNothing(s.order, s.segs, i);
        StartIndexesAppend(closes, [BlockStart(s.nextIndex, b)]);
        assert StartIndexes([BlockStart(s.nextIndex, b)]) == [s.nextIndex];
      }
    case BlockDelta(i, d) =>
      if |out| == 2 {
        assert out[1..][0] == out[1] && out[1..][1..] == [];
        assert StartIndexes(out[1..]) == [];
      }
    case _ =>
  }

  /** Whatever arrives, started blocks are numbered 0, 1, 2, ... without a gap or a repetition. */
  lemma {:induction false} IndexesAreConsecutive(s: State, es: seq<Event>, thinking: bool)
    requires Ordered(s)
    ensures
      var indexes := StartIndexes(Output(s, es, thinking));
      && After(s, es, thinking).nextIndex == s.nextIndex + |indexes|
      && forall k | 0 <= k < |indexes| :: indexes[k] == s.nextIndex + k
    decreases |es|
  {
    if es != [] {
      var (s1, out) := Transform(s, es[0], thinking);
      TransformOrdered(s, es[0], thinking);
      StepIndexes(s, es[0], thinking);
      IndexesAreConsecutive(s1, es[1..], thinking);
      StartIndexesAppend(out, Output(s1, es[1..], thinking));
    }
  }
}
