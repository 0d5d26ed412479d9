/**
 * What the policy preserves: which upstream block each downstream block belongs to, the deltas
 * and their order, the identity of tool blocks, independence from dropped thinking, and whole
 * streams that need no repair.
 */
module NativePolicyMeaning {
  import opened Text
  import opened StreamContract
  import opened NativePolicy
  import opened NativePolicyContract
  import opened NativePolicyStreams

  // ----- ownership and content -----

  /** The upstream block behind downstream block n, n+1, ..., in the order in which those are started. */
  ghost function Owners(s: State, es: seq<Event>, thinking: bool): seq<int>
    requires Ordered(s)
    decreases |es|
  {
    if es == [] then []
    else
      TransformOrdered(s, es[0], thinking);
      var s1 := Transform(s, es[0], thinking).0;
      (if s1.nextIndex > s.nextIndex && (es[0].BlockStart? || es[0].BlockDelta?) then [es[0].index] else [])
      + Owners(s1, es[1..], thinking)
  }

  function OwnerOf(owners: seq<int>, x: int): Option<int> {
    if 0 <= x < |owners| then Some(owners[x]) else None
  }

  /** The deltas of a downstream stream, each labelled with the owner of its block. */
  function OwnedDeltas(owners: seq<int>, es: seq<Event>): seq<(Option<int>, Delta)> {
    if es == [] then []
    else
      (if es[0].BlockDelta? then [(OwnerOf(owners, es[0].index), es[0].delta)] else [])
      + OwnedDeltas(owners, es[1..])
  }

  /** A kept delta that is forwarded under its own index: of an unknown type, or a thinking one of an unseen block. */
  predicate Forwards(u: Upstream, i: int, d: Delta) {
    DeltaKind(d.kind).None? || (DeltaKind(d.kind).value == "thinking" && i !in u.blocks)
  }

  /**
   * The deltas of the upstream that the thinking policy keeps, in order, each labelled with its
   * block; a forwarded one with whichever block owns the number that is its index.
   */
  ghost function KeptDeltas(u: Upstream, es: seq<Event>, owners: seq<int>, thinking: bool): seq<(Option<int>, Delta)>
    decreases |es|
  {
    if es == [] then []
    else KeptOf(u, es[0], owners, thinking) + KeptDeltas(Read(u, es[0], thinking), es[1..], owners, thinking)
  }

  function KeptOf(u: Upstream, e: Event, owners: seq<int>, thinking: bool): seq<(Option<int>, Delta)> {
    if e.BlockDelta? && Kept(u, e.index, e.delta.kind, thinking) then
      [(if Forwards(u, e.index, e.delta) then OwnerOf(owners, e.index) else Some(e.index), e.delta)]
    else []
  }

  ghost predicate ForwardsNoDelta(u: Upstream, es: seq<Event>, thinking: bool)
    decreases |es|
  {
    es != [] ==>
      && (es[0].BlockDelta? && Kept(u, es[0].index, es[0].delta.kind, thinking) ==>
            !Forwards(u, es[0].index, es[0].delta))
      && ForwardsNoDelta(Read(u, es[0], thinking), es[1..], thinking)
  }

  /** The content of block i in the upstream: the kept deltas of its index, joined. */
  ghost function UpstreamContent(u: Upstream, es: seq<Event>, i: int, thinking: bool): string
    decreases |es|
  {
    if es == [] then ""
    else
      (if es[0].BlockDelta? && es[0].index == i && Kept(u, i, es[0].delta.kind, thinking) then es[0].delta.content
       else "")
      + UpstreamContent(Read(u, es[0], thinking), es[1..], i, thinking)
  }

  /** The content of block i, its deltas joined. */
  function Content(ds: seq<(Option<int>, Delta)>, i: int): string {
    if ds == [] then "" else (if ds[0].0 == Some(i) then ds[0].1.content else "") + Content(ds[1..], i)
  }

  lemma {:induction false} OwnedDeltasAppend(owners: seq<int>, a: seq<Event>, b: seq<Event>)
    ensures OwnedDeltas(owners, a + b) == OwnedDeltas(owners, a) + OwnedDeltas(owners, b)
  {
    if a == [] {
      AppendNone(b);
      AppendNone(OwnedDeltas(owners, b));
    } else {
      AppendTail(a, b);
      OwnedDeltasAppend(owners, a[1..], b);
      Assoc(if a[0].BlockDelta? then [(OwnerOf(owners, a[0].index), a[0].delta)] else [], OwnedDeltas(owners, a[1..]),
            OwnedDeltas(owners, b));
    }
  }

  lemma {:induction false} ClosesCarryNoDeltas(owners: seq<int>, order: seq<int>, segs: map<int, Segment>, current: int)
    requires forall k | k in order :: k in segs
    ensures OwnedDeltas(owners, CloseEvents(order, segs, current)) == []
  {
    if order != [] {
      var first := if order[0] != current && segs[order[0]].open then [BlockStop(segs[order[0]].downIndex)] else [];
      assert OwnedDeltas(owners, first) == [];
      ClosesCarryNoDeltas(owners, order[1..], segs, current);
      OwnedDeltasAppend(owners, first, CloseEvents(order[1..], segs, current));
    }
  }

  lemma OwnedSingle(owners: seq<int>, e: Event)
    ensures OwnedDeltas(owners, [e]) == if e.BlockDelta? then [(OwnerOf(owners, e.index), e.delta)] else []
  {
    assert [e][1..] == [];
  }

  /** Every segment in the table belongs to its key. */
  ghost predicate OwnersKnown(s: State, owners: seq<int>) {
    && s.nextIndex <= |owners|
    && forall k | k in s.segs :: 0 <= s.segs[k].downIndex < s.nextIndex && owners[s.segs[k].downIndex] == k
  }

  lemma OwnersKnownStep(s: State, e: Event, owners: seq<int>, thinking: bool)
    requires Ordered(s) && OwnersKnown(s, owners) && NewOwner(s, e, owners, thinking)
    ensures OwnersKnown(Transform(s, e, thinking).0, owners)
  {
  }

  ghost predicate NewOwner(s: State, e: Event, owners: seq<int>, thinking: bool)
    requires Ordered(s)
  {
    var s' := Transform(s, e, thinking).0;
    s'.nextIndex > s.nextIndex ==>
      s'.nextIndex <= |owners| && (e.BlockStart? || e.BlockDelta?) && owners[s.nextIndex] == e.index
  }

  lemma KeptDelta(s: State, u: Upstream, i: int, d: Delta, owners: seq<int>, thinking: bool)
    requires Tracks(s, u) && OwnersKnown(s, owners) && Kept(u, i, d.kind, thinking)
    requires NewOwner(s, BlockDelta(i, d), owners, thinking)
    ensures OwnedDeltas(owners, Transform(s, BlockDelta(i, d), thinking).1) ==
              KeptOf(u, BlockDelta(i, d), owners, thinking)
  {
    if Begins(u, i, d, thinking) {
      ReopenShape(s, i, d, thinking);
      var out := Transform(s, BlockDelta(i, d), thinking).1;
      assert out == [out[0]] + [out[1]];
      OwnedDeltasAppend(owners, [out[0]], [out[1]]);
      OwnedSingle(owners, out[0]);
      OwnedSingle(owners, out[1]);
    } else {
      OwnedSingle(owners, BlockDelta(if Forwards(u, i, d) then i else s.segs[i].downIndex, d));
    }
  }

  lemma StepDeltas(s: State, u: Upstream, e: Event, owners: seq<int>, thinking: bool)
    requires Tracks(s, u) && OwnersKnown(s, owners) && NewOwner(s, e, owners, thinking)
    ensures OwnedDeltas(owners, Transform(s, e, thinking).1) == KeptOf(u, e, owners, thinking)
  {
    match e
    case BlockStart(i, b) =>
      var closes := CloseEvents(s.order, s.segs, i);
      ClosesCarryNoDeltas(owners, s.order, s.segs, i);
      OwnedDeltasAppend(owners, closes, [BlockStart(s.nextIndex, b)]);
      OwnedSingle(owners, BlockStart(s.nextIndex, b));
    case BlockDelta(i, d) =>
      if Kept(u, i, d.kind, thinking) {
        KeptDelta(s, u, i, d, owners, thinking);
      }
    case BlockStop(i) =>
      OwnedSingle(owners, BlockStop(if i in s.segs then s.segs[i].downIndex else i));
    case _ => OwnedSingle(owners, e);
  }

  lemma {:induction false} OwnersCount(s: State, es: seq<Event>, thinking: bool)
    requires Ordered(s)
    ensures |Owners(s, es, thinking)| == After(s, es, thinking).nextIndex - s.nextIndex
    decreases |es|
  {
    if es != [] {
      TransformOrdered(s, es[0], thinking);
      StepIndexes(s, es[0], thinking);
      OwnersCount(Transform(s, es[0], thinking).0, es[1..], thinking);
    }
  }

  /** `owners` lists, from the next number on, the owners of the blocks that are still to be started. */
  ghost predicate Owns(s: State, es: seq<Event>, owners: seq<int>, thinking: bool)
    requires Ordered(s)
  {
    var all := Owners(s, es, thinking);
    s.nextIndex + |all| == |owners| && owners[s.nextIndex..] == all
  }

  lemma OwnsAll(es: seq<Event>, thinking: bool)
    ensures Owns(FRESH, es, Owners(FRESH, es, thinking), thinking)
  {
    assert Owners(FRESH, es, thinking)[0..] == Owners(FRESH, es, thinking);
  }

  lemma OwnsStep(s: State, e: Event, rest: seq<Event>, owners: seq<int>, thinking: bool)
    requires Ordered(s) && Owns(s, [e] + rest, owners, thinking)
    ensures var s1 := Transform(s, e, thinking).0;
            Ordered(s1) && NewOwner(s, e, owners, thinking) && Owns(s1, rest, owners, thinking)
  {
    var es := [e] + rest;
    assert es[0] == e && es[1..] == rest;
    var s1 := Transform(s, e, thinking).0;
    TransformOrdered(s, e, thinking);
    StepIndexes(s, e, thinking);
    var all := Owners(s, es, thinking);
    var head := all[..s1.nextIndex - s.nextIndex];
    assert all == head + Owners(s1, rest, thinking);
    TailOfTail(owners, s.nextIndex, all, head, Owners(s1, rest, thinking));
    if s1.nextIndex > s.nextIndex {
      assert owners[s.nextIndex] == all[0] == head[0];
    }
  }

  lemma TailOfTail(owners: seq<int>, n: nat, all: seq<int>, head: seq<int>, tail: seq<int>)
    requires n <= |owners| && owners[n..] == all && all == head + tail
    ensures n + |head| <= |owners| && owners[n + |head|..] == tail
    ensures all != [] ==> owners[n] == all[0]
  {
    assert owners[n + |head|..] == all[|head|..] == tail;
  }

  lemma {:induction false} DeltasAreKept(s: State, u: Upstream, es: seq<Event>, owners: seq<int>, thinking: bool)
    requires Tracks(s, u) && OwnersKnown(s, owners) && Owns(s, es, owners, thinking)
    ensures OwnedDeltas(owners, Output(s, es, thinking)) == KeptDeltas(u, es, owners, thinking)
    decreases |es|
  {
    if es != [] {
      var e, rest := es[0], es[1..];
      var (s1, out) := Transform(s, e, thinking);
      assert es == [e] + rest;
      TracksStep(s, u, e, thinking);
      OwnsStep(s, e, rest, owners, thinking);
      StepDeltas(s, u, e, owners, thinking);
      OwnersKnownStep(s, e, owners, thinking);
      DeltasAreKept(s1, Read(u, e, thinking), rest, owners, thinking);
      OwnedDeltasAppend(owners, out, Output(s1, rest, thinking));
    }
  }

  lemma {:induction false} ContentOfKept(u: Upstream, es: seq<Event>, owners: seq<int>, i: int, thinking: bool)
    requires ForwardsNoDelta(u, es, thinking)
    ensures Content(KeptDeltas(u, es, owners, thinking), i) == UpstreamContent(u, es, i, thinking)
    decreases |es|
  {
    if es != [] {
      var first, rest := KeptOf(u, es[0], owners, thinking),
                         KeptDeltas(Read(u, es[0], thinking), es[1..], owners, thinking);
      ContentOfKept(Read(u, es[0], thinking), es[1..], owners, i, thinking);
      AppendNone(rest);
      AppendNone(Content(rest, i));
      if first != [] {
        AppendTail(first, rest);
        AppendNone(rest);
        assert first[1..] == [];
      }
    }
  }

  /**
   * For every upstream stream: the kept deltas come out once each and in order, each in a
   * downstream block that belongs to its upstream block, but for those that are forwarded, which
   * come out in whichever block has the number of their index. Where none is forwarded, the
   * downstream blocks of an upstream block join to its content.
   */
  lemma ContentIsPreserved(es: seq<Event>, thinking: bool)
    ensures
      var owners, out := Owners(FRESH, es, thinking), Output(FRESH, es, thinking);
      && |owners| == |StartIndexes(out)|
      && OwnedDeltas(owners, out) == KeptDeltas(NOTHING, es, owners, thinking)
      && (ForwardsNoDelta(NOTHING, es, thinking) ==>
            forall i :: Content(OwnedDeltas(owners, out), i) == UpstreamContent(NOTHING, es, i, thinking))
  {
    var owners := Owners(FRESH, es, thinking);
    OwnersCount(FRESH, es, thinking);
    IndexesAreConsecutive(FRESH, es, thinking);
    OwnsAll(es, thinking);
    DeltasAreKept(FRESH, NOTHING, es, owners, thinking);
    if ForwardsNoDelta(NOTHING, es, thinking) {
      forall i ensures Content(KeptDeltas(NOTHING, es, owners, thinking), i) ==
                         UpstreamContent(NOTHING, es, i, thinking) {
        ContentOfKept(NOTHING, es, owners, i, thinking);
      }
    }
  }

  // ----- identity of tool blocks -----

  /** The start blocks of a downstream stream, each labelled with the owner. */
  function OwnedStarts(owners: seq<int>, es: seq<Event>): seq<(Option<int>, Block)> {
    if es == [] then []
    else
      (if es[0].BlockStart? then [(OwnerOf(owners, es[0].index), es[0].block)] else [])
      + OwnedStarts(owners, es[1..])
  }

  lemma {:induction false} OwnedStartsAppend(owners: seq<int>, a: seq<Event>, b: seq<Event>)
    ensures OwnedStarts(owners, a + b) == OwnedStarts(owners, a) + OwnedStarts(owners, b)
  {
    if a == [] {
      AppendNone(b);
      AppendNone(OwnedStarts(owners, b));
    } else {
      AppendTail(a, b);
      OwnedStartsAppend(owners, a[1..], b);
      Assoc(if a[0].BlockStart? then [(OwnerOf(owners, a[0].index), a[0].block)] else [], OwnedStarts(owners, a[1..]),
            OwnedStarts(owners, b));
    }
  }

  lemma {:induction false} StopsStartNothing(owners: seq<int>, es: seq<Event>)
    requires forall e | e in es :: !e.BlockStart?
    ensures OwnedStarts(owners, es) == []
  {
    if es != [] {
      assert es[0] in es;
      StopsStartNothing(owners, es[1..]);
    }
  }

  predicate KeepsStart(e: Event, i: int, thinking: bool) {
    e.BlockStart? && e.index == i && !ShouldDrop(e.block.kind, thinking)
  }

  /** What each block has announced last: its latest start, or what was made up when it began without one. */
  function Announce(known: map<int, Block>, u: Upstream, e: Event, thinking: bool): map<int, Block> {
    match e
    case BlockStart(i, b) => if KeepsStart(e, i, thinking) then known[i := b] else known
    case BlockDelta(i, d) =>
      if Begins(u, i, d, thinking) && i !in known then known[i := SyntheticStart(DeltaKind(d.kind).value, i, None)]
      else known
    case _ => known
  }

  /** A kept start is announced as it came; a delta that begins a segment resumes what its block has announced. */
  function StartOf(known: map<int, Block>, u: Upstream, e: Event, thinking: bool): seq<(Option<int>, Block)> {
    match e
    case BlockStart(i, b) => if KeepsStart(e, i, thinking) then [(Some(i), b)] else []
    case BlockDelta(i, d) =>
      if Begins(u, i, d, thinking) then
        var announced := if i in known then Some(known[i]) else None;
        [(Some(i), SyntheticStart(DeltaKind(d.kind).value, i, announced))]
      else []
    case _ => []
  }

  ghost function AnnounceAll(known: map<int, Block>, u: Upstream, es: seq<Event>, thinking: bool): map<int, Block>
    decreases |es|
  {
    if es == [] then known
    else AnnounceAll(Announce(known, u, es[0], thinking), Read(u, es[0], thinking), es[1..], thinking)
  }

  ghost function StartsOf(known: map<int, Block>, u: Upstream, es: seq<Event>, thinking: bool)
    : seq<(Option<int>, Block)>
    decreases |es|
  {
    if es == [] then []
    else
      StartOf(known, u, es[0], thinking)
      + StartsOf(Announce(known, u, es[0], thinking), Read(u, es[0], thinking), es[1..], thinking)
  }

  ghost predicate StartsKnown(s: State, known: map<int, Block>) {
    s.segs.Keys == known.Keys && forall k | k in s.segs :: s.segs[k].lastStart == known[k]
  }

  lemma StartsKnownStep(s: State, u: Upstream, known: map<int, Block>, e: Event, thinking: bool)
    requires Tracks(s, u) && StartsKnown(s, known)
    ensures StartsKnown(Transform(s, e, thinking).0, Announce(known, u, e, thinking))
  {
    if e.BlockDelta? && Begins(u, e.index, e.delta, thinking) {
      ReopenShape(s, e.index, e.delta, thinking);
    }
  }

  lemma StepStarts(s: State, u: Upstream, known: map<int, Block>, e: Event, owners: seq<int>, thinking: bool)
    requires Tracks(s, u) && StartsKnown(s, known) && NewOwner(s, e, owners, thinking)
    ensures OwnedStarts(owners, Transform(s, e, thinking).1) == StartOf(known, u, e, thinking)
  {
    match e
    case BlockStart(i, b) =>
      if KeepsStart(e, i, thinking) {
        KeptStart(s, i, b, owners, thinking);
      }
    case BlockDelta(i, d) =>
      if Begins(u, i, d, thinking) {
        ReopenShape(s, i, d, thinking);
        TwoEvents(owners, Transform(s, e, thinking).1);
      } else {
        StopsStartNothing(owners, Transform(s, e, thinking).1);
      }
    case _ =>
      StopsStartNothing(owners, Transform(s, e, thinking).1);
  }

  lemma KeptStart(s: State, i: int, b: Block, owners: seq<int>, thinking: bool)
    requires Ordered(s) && !ShouldDrop(b.kind, thinking) && NewOwner(s, BlockStart(i, b), owners, thinking)
    ensures OwnedStarts(owners, Transform(s, BlockStart(i, b), thinking).1) == [(Some(i), b)]
  {
    var closes, start := CloseEvents(s.order, s.segs, i), BlockStart(s.nextIndex, b);
    ClosesAreStops(s.order, s.segs, i);
    StopsStartNothing(owners, closes);
    OwnedStartsAppend(owners, closes, [start]);
    assert [start][1..] == [];
    assert OwnedStarts(owners, [start]) == [(Some(i), b)];
  }

  lemma TwoEvents(owners: seq<int>, out: seq<Event>)
    requires |out| == 2 && out[0].BlockStart? && out[1].BlockDelta?
    ensures OwnedStarts(owners, out) == [(OwnerOf(owners, out[0].index), out[0].block)]
  {
    assert out[1..] == [out[1]] && out[1..][1..] == [];
    assert OwnedStarts(owners, out[1..]) == [];
  }

  /** The part `es` of a stream that goes on with `rest`. */
  lemma {:induction false} ManyStarts(s: State, u: Upstream, known: map<int, Block>, es: seq<Event>, rest: seq<Event>,
                                      owners: seq<int>, thinking: bool)
    requires Tracks(s, u) && StartsKnown(s, known) && Owns(s, es + rest, owners, thinking)
    ensures OwnedStarts(owners, Output(s, es, thinking)) == StartsOf(known, u, es, thinking)
    ensures var s1 := After(s, es, thinking);
            && Tracks(s1, ReadAll(u, es, thinking)) && StartsKnown(s1, AnnounceAll(known, u, es, thinking))
            && Owns(s1, rest, owners, thinking)
    decreases |es|
  {
    if es == [] {
      AppendNone(rest);
    } else {
      var e, more := es[0], es[1..];
      var (s1, out) := Transform(s, e, thinking);
      assert es + rest == [e] + (more + rest);
      OwnsStep(s, e, more + rest, owners, thinking);
      TracksStep(s, u, e, thinking);
      StepStarts(s, u, known, e, owners, thinking);
      StartsKnownStep(s, u, known, e, thinking);
      ManyStarts(s1, Read(u, e, thinking), Announce(known, u, e, thinking), more, rest, owners, thinking);
      OwnedStartsAppend(owners, out, Output(s1, more, thinking));
    }
  }

  /**
   * For every upstream stream: the blocks that are started downstream are, in order, the kept
   * starts as they came, and one for each delta that begins a segment, which repeats what its block
   * has announced last.
   */
  lemma ToolIdentityIsKept(es: seq<Event>, thinking: bool)
    ensures OwnedStarts(Owners(FRESH, es, thinking), Output(FRESH, es, thinking)) ==
              StartsOf(map[], NOTHING, es, thinking)
  {
    OwnsAll(es, thinking);
    AppendNone(es);
    ManyStarts(FRESH, NOTHING, map[], es, [], Owners(FRESH, es, thinking), thinking);
  }

  /** How many downstream tool blocks carry upstream block i. */
  function ToolSegments(starts: seq<(Option<int>, Block)>, i: int): nat {
    if starts == [] then 0 else (if IsToolOf(starts[0], i) then 1 else 0) + ToolSegments(starts[1..], i)
  }

  predicate IsToolOf(start: (Option<int>, Block), i: int) {
    start.0 == Some(i) && start.1.kind == "tool_use"
  }

  ghost predicate AllNamed(starts: seq<(Option<int>, Block)>, i: int, id: Option<string>, name: Option<string>) {
    forall p | p in starts && IsToolOf(p, i) :: p.1.id == id && p.1.name == name
  }

  /** All tool segments of block i have one id and one name. */
  ghost predicate SameTool(starts: seq<(Option<int>, Block)>, i: int) {
    exists id, name :: AllNamed(starts, i, id, name)
  }

  predicate FullyNamed(b: Block) {
    b.id.Some? && b.id.value != "" && b.name.Some?
  }

  /** The id of a resumed segment is the announced one exactly when that is a non-empty string. */
  lemma ResumedIdIsAnnouncedIff(b: Block, i: int)
    requires b.kind == "tool_use"
    ensures var r := SyntheticStart("tool_use", i, Some(b));
            && (r.id == b.id <==> b.id.Some? && b.id.value != "") && (r.name == b.name <==> b.name.Some?)
            && r.input == (if b.input.Some? then b.input else Some("{}"))
  {
  }

  /**
   * Text and thinking segments that a delta begins start empty, and a tool segment of no tool block with
   * a made-up id.
   */
  lemma MadeUpStarts(i: int, stored: Option<Block>)
    ensures SyntheticStart("text", i, stored) == Block("text", "", None, None, None)
    ensures SyntheticStart("thinking", i, stored) == Block("thinking", "", None, None, None)
    ensures stored.None? || stored.value.kind != "tool_use" ==>
              SyntheticStart("tool_use", i, stored) ==
                Block("tool_use", "", Some("toolu_or_" + IntToString(i)), Some(""), Some("{}"))
  {
  }

  /** Made-up ids name the upstream index, so those of different blocks differ. */
  lemma MadeUpIdsDiffer(i: int, j: int)
    ensures "toolu_or_" <= FallbackToolId(i)
    ensures FallbackToolId(i) == FallbackToolId(j) ==> i == j
  {
    if FallbackToolId(i) == FallbackToolId(j) {
      assert IntToString(i) == FallbackToolId(i)[9..] == FallbackToolId(j)[9..] == IntToString(j);
      IntsPrintApart(i, j);
    }
  }

  lemma IntsPrintApart(i: int, j: int)
    requires IntToString(i) == IntToString(j)
    ensures i == j
  {
    var m, n: nat := if i < 0 then -i else i, if j < 0 then -j else j;
    PrintedInDecimal(m);
    PrintedInDecimal(n);
    assert i < 0 ==> IntToString(i)[0] == '-';
    assert j < 0 ==> IntToString(j)[0] == '-';
    assert i < 0 ==> NatToString(m) == IntToString(i)[1..];
    assert j < 0 ==> NatToString(n) == IntToString(j)[1..];
  }

  /** Until the next start of block i, its tool segments all resume what it has announced. */
  lemma {:induction false} LaterAreResumed(known: map<int, Block>, u: Upstream, es: seq<Event>, i: int, b: Block,
                                           thinking: bool)
    requires i in known && SyntheticStart("tool_use", i, Some(known[i])) == b
    requires forall e | e in es :: !KeepsStart(e, i, thinking)
    ensures var starts := StartsOf(known, u, es, thinking);
            && AllNamed(starts, i, b.id, b.name)
            && (ToolSegments(starts, i) == 0 <==> forall p | p in starts :: !IsToolOf(p, i))
    decreases |es|
  {
    if es != [] {
      assert es[0] in es;
      var known1, u1 := Announce(known, u, es[0], thinking), Read(u, es[0], thinking);
      LaterAreResumed(known1, u1, es[1..], i, b, thinking);
      OneMoreNamed(StartOf(known, u, es[0], thinking), StartsOf(known1, u1, es[1..], thinking), i, b);
    }
  }

  lemma OneMoreNamed(first: seq<(Option<int>, Block)>, more: seq<(Option<int>, Block)>, i: int, b: Block)
    requires |first| <= 1 && (first != [] && IsToolOf(first[0], i) ==> first[0].1 == b)
    requires AllNamed(more, i, b.id, b.name)
    requires ToolSegments(more, i) == 0 <==> forall p | p in more :: !IsToolOf(p, i)
    ensures AllNamed(first + more, i, b.id, b.name)
    ensures ToolSegments(first + more, i) == 0 <==> forall p | p in first + more :: !IsToolOf(p, i)
  {
    var all := first + more;
    assert forall p :: p in all <==> p in first || p in more;
    if first == [] {
      AppendNone(more);
    } else {
      AppendTail(first, more);
      AppendNone(more);
      assert first[1..] == [] && first[0] in all;
    }
  }

  lemma FirstAgreesIff(more: seq<(Option<int>, Block)>, i: int, b: Block)
    requires b.kind == "tool_use"
    requires var r := SyntheticStart("tool_use", i, Some(b)); AllNamed(more, i, r.id, r.name)
    requires ToolSegments(more, i) == 0 <==> forall p | p in more :: !IsToolOf(p, i)
    ensures var starts := [(Some(i), b)] + more;
            SameTool(starts, i) <==> ToolSegments(starts, i) <= 1 || FullyNamed(b)
  {
    var starts := [(Some(i), b)] + more;
    ResumedIdIsAnnouncedIff(b, i);
    assert starts[0] in starts && starts[1..] == more;
    assert forall p :: p in starts <==> p == starts[0] || p in more;
    if ToolSegments(starts, i) <= 1 || FullyNamed(b) {
      assert AllNamed(starts, i, b.id, b.name);
    }
  }

  /**
   * In every upstream stream: from a start of a tool block to the next start of that index, however
   * often the block is closed and reopened, its downstream tool segments carry one id and one name
   * exactly if there is only one, or the start has a non-empty id and a name.
   */
  lemma SegmentsAgreeIff(before: seq<Event>, i: int, b: Block, after: seq<Event>, rest: seq<Event>, thinking: bool)
    requires KeepsStart(BlockStart(i, b), i, thinking) && b.kind == "tool_use"
    requires forall e | e in after :: !KeepsStart(e, i, thinking)
    ensures var part := [BlockStart(i, b)] + after;
            var owners := Owners(FRESH, before + (part + rest), thinking);
            var starts := OwnedStarts(owners, Output(After(FRESH, before, thinking), part, thinking));
            SameTool(starts, i) <==> ToolSegments(starts, i) <= 1 || FullyNamed(b)
  {
    var e, part := BlockStart(i, b), [BlockStart(i, b)] + after;
    var owners := Owners(FRESH, before + (part + rest), thinking);
    OwnsAll(before + (part + rest), thinking);
    ManyStarts(FRESH, NOTHING, map[], before, part + rest, owners, thinking);
    var u, known := ReadAll(NOTHING, before, thinking), AnnounceAll(map[], NOTHING, before, thinking);
    ManyStarts(After(FRESH, before, thinking), u, known, part, rest, owners, thinking);
    assert part[0] == e && part[1..] == after;
    var u1, known1 := Read(u, e, thinking), known[i := b];
    LaterAreResumed(known1, u1, after, i, SyntheticStart("tool_use", i, Some(b)), thinking);
    FirstAgreesIff(StartsOf(known1, u1, after, thinking), i, b);
  }

  /** A block that has not been started: whatever it announces, its tool segments carry the made-up id. */
  lemma {:induction false} MadeUpAgree(known: map<int, Block>, u: Upstream, es: seq<Event>, i: int, thinking: bool)
    requires i in known ==> SyntheticStart("tool_use", i, Some(known[i])) == SyntheticStart("tool_use", i, None)
    requires forall e | e in es :: !KeepsStart(e, i, thinking)
    ensures var b := SyntheticStart("tool_use", i, None); AllNamed(StartsOf(known, u, es, thinking), i, b.id, b.name)
    decreases |es|
  {
    if es != [] {
      assert es[0] in es;
      MadeUpAgree(Announce(known, u, es[0], thinking), Read(u, es[0], thinking), es[1..], i, thinking);
    }
  }

  /** And up to the first start of an index, its tool segments always agree. */
  lemma UnstartedSegmentsAgree(es: seq<Event>, i: int, rest: seq<Event>, thinking: bool)
    requires forall e | e in es :: !KeepsStart(e, i, thinking)
    ensures SameTool(OwnedStarts(Owners(FRESH, es + rest, thinking), Output(FRESH, es, thinking)), i)
  {
    OwnsAll(es + rest, thinking);
    ManyStarts(FRESH, NOTHING, map[], es, rest, Owners(FRESH, es + rest, thinking), thinking);
    MadeUpAgree(map[], NOTHING, es, i, thinking);
  }

  // ----- what a start closes -----

  /** The upstream indexes in the order in which they began: with a kept start, or a delta that begins a segment. */
  ghost function Begun(es: seq<Event>, thinking: bool): seq<int> {
    if es == [] then []
    else
      var init, e := es[..|es| - 1], es[|es| - 1];
      var before, u := Begun(init, thinking), ReadAll(NOTHING, init, thinking);
      before
      + (if e.BlockStart? && KeepsStart(e, e.index, thinking) && e.index !in before then [e.index]
         else if e.BlockDelta? && Begins(u, e.index, e.delta, thinking) && e.index !in before then [e.index]
         else [])
  }

  lemma {:induction false} OrderIsBegun(es: seq<Event>, thinking: bool)
    ensures Tracks(After(FRESH, es, thinking), ReadAll(NOTHING, es, thinking))
    ensures After(FRESH, es, thinking).order == Begun(es, thinking)
    decreases |es|
  {
    if es != [] {
      var init, e := es[..|es| - 1], es[|es| - 1];
      assert es == init + [e];
      var s, u := After(FRESH, init, thinking), ReadAll(NOTHING, init, thinking);
      OrderIsBegun(init, thinking);
      OutputSnoc(FRESH, init, e, thinking);
      ReadAppend(NOTHING, init, [e], thinking);
      ReadMore(u, e, [], thinking);
      AppendNone([e]);
      TracksStep(s, u, e, thinking);
      BeginsLast(s, u, e, thinking);
    }
  }

  lemma BeginsLast(s: State, u: Upstream, e: Event, thinking: bool)
    requires Tracks(s, u)
    ensures Transform(s, e, thinking).0.order ==
              s.order
              + (if e.BlockStart? && KeepsStart(e, e.index, thinking) && e.index !in s.order then [e.index]
                 else if e.BlockDelta? && Begins(u, e.index, e.delta, thinking) && e.index !in s.order then [e.index]
                 else [])
  {
    AppendNone(s.order);
    if e.BlockDelta? && Begins(u, e.index, e.delta, thinking) {
      ReopenShape(s, e.index, e.delta, thinking);
    }
  }

  /** The stops of the live blocks among these, but for block i. */
  function StopsAmong(order: seq<int>, u: Upstream, i: int): seq<Event> {
    if order == [] then []
    else
      var k := order[|order| - 1];
      StopsAmong(order[..|order| - 1], u, i) + if k != i && IsLive(u, k) then [BlockStop(u.blocks[k].segment)] else []
  }

  lemma {:induction false} CloseSnoc(order: seq<int>, k: int, segs: map<int, Segment>, i: int)
    requires k in segs && forall j | j in order :: j in segs
    ensures CloseEvents(order + [k], segs, i) ==
              CloseEvents(order, segs, i) + if k != i && segs[k].open then [BlockStop(segs[k].downIndex)] else []
  {
    if order == [] {
      assert [] + [k] == [k] && [k][1..] == [];
    } else {
      AppendTail(order, [k]);
      CloseSnoc(order[1..], k, segs, i);
    }
  }

  lemma {:induction false} ClosesAreStopsAmong(s: State, u: Upstream, order: seq<int>, i: int)
    requires Tracks(s, u) && forall k | k in order :: k in s.segs
    ensures CloseEvents(order, s.segs, i) == StopsAmong(order, u, i)
    decreases |order|
  {
    if order != [] {
      var init, k := order[..|order| - 1], order[|order| - 1];
      assert order == init + [k] && k in order;
      assert forall j | j in init :: j in order;
      ClosesAreStopsAmong(s, u, init, i);
      CloseSnoc(init, k, s.segs, i);
    }
  }

  /**
   * After any events, a kept start first stops the live blocks of the other indexes, in the order in
   * which these began, each under the number of its segment, and then starts its own.
   */
  lemma StartsCloseInOrder(before: seq<Event>, i: int, b: Block, thinking: bool)
    requires KeepsStart(BlockStart(i, b), i, thinking)
    ensures var u := ReadAll(NOTHING, before, thinking);
            Output(FRESH, before + [BlockStart(i, b)], thinking) ==
              Output(FRESH, before, thinking) + (StopsAmong(Begun(before, thinking), u, i) + [BlockStart(u.next, b)])
  {
    var s, u := After(FRESH, before, thinking), ReadAll(NOTHING, before, thinking);
    OrderIsBegun(before, thinking);
    OutputSnoc(FRESH, before, BlockStart(i, b), thinking);
    ClosesAreStopsAmong(s, u, s.order, i);
  }

  // ----- streams that need no repair -----

  /** Blocks 0, 1, 2, ... one after the other: `next` is the next index, `open` tells if block next - 1 is open. */
  predicate TurnOf(next: int, open: bool, e: Event) {
    match e
    case BlockStart(i, _) => !open && i == next
    case BlockDelta(i, _) => open && i == next - 1
    case BlockStop(i) => open && i == next - 1
    case _ => true
  }

  predicate InTurn(next: int, open: bool, es: seq<Event>)
    decreases |es|
  {
    es != [] ==>
      && TurnOf(next, open, es[0])
      && InTurn(if es[0].BlockStart? then next + 1 else next, es[0].BlockStart? || (open && !es[0].BlockStop?), es[1..])
  }

  ghost predicate Untouched(s: State, next: int, open: bool) {
    && Ordered(s) && 0 <= next == s.nextIndex && (open ==> next > 0) && s.dropped == {} && s.pending == {}
    && (forall k :: k in s.segs <==> 0 <= k < next)
    && (forall k | k in s.segs :: s.segs[k].downIndex == k && (s.segs[k].open <==> open && k == next - 1))
  }

  lemma {:induction false} NothingToClose(order: seq<int>, segs: map<int, Segment>, current: int)
    requires forall k | k in order :: k in segs && !segs[k].open
    ensures CloseEvents(order, segs, current) == []
  {
    if order != [] {
      NothingToClose(order[1..], segs, current);
    }
  }

  lemma InTurnStep(s: State, next: int, open: bool, e: Event)
    requires Untouched(s, next, open) && TurnOf(next, open, e)
    ensures Transform(s, e, true).1 == [e]
    ensures var s1 := Transform(s, e, true).0;
            Untouched(s1, if e.BlockStart? then next + 1 else next, e.BlockStart? || (open && !e.BlockStop?))
  {
    TransformOrdered(s, e, true);
    match e
    case BlockStart(i, b) =>
      NothingToClose(s.order, s.segs, i);
      assert Overlapped(s.segs, i) == {};
      assert Transform(s, e, true).1 == [] + [BlockStart(s.nextIndex, b)];
    case BlockDelta(i, d) =>
      assert i in s.segs && s.segs[i].open;
    case BlockStop(i) =>
      assert i in s.segs && s.segs[i].open;
    case _ =>
  }

  /** With thinking on, a stream whose blocks come in turn is forwarded event for event. */
  lemma {:induction false} InTurnIsUnchanged(s: State, next: int, open: bool, es: seq<Event>)
    requires Untouched(s, next, open) && InTurn(next, open, es)
    ensures Output(s, es, true) == es
    decreases |es|
  {
    if es != [] {
      var e := es[0];
      InTurnStep(s, next, open, e);
      var s1 := Transform(s, e, true).0;
      InTurnIsUnchanged(s1, if e.BlockStart? then next + 1 else next, e.BlockStart? || (open && !e.BlockStop?),
                        es[1..]);
      assert [e] + es[1..] == es;
    }
  }

  lemma ConservativeOnOrderlyStreams(es: seq<Event>)
    requires InTurn(0, false, es)
    ensures Output(FRESH, es, true) == es
  {
    InTurnIsUnchanged(FRESH, 0, false, es);
  }
}
