/**
 * The block policy for native Anthropic streams (core/anthropic/native_sse_block_policy.py):
 * content blocks of an upstream that may overlap them are renumbered, closed, reopened or dropped.
 *
 * `Transform` is the value-level reading of one call; the class at the end updates the same
 * state in place and is proved to agree with it.
 */
module NativePolicy {
  import opened Text
  import opened StreamContract

  /** The current downstream segment of one upstream block, and the start event it came from. */
  datatype Segment = Segment(blockType: string, downIndex: int, open: bool, lastStart: Block)

  /** `order` lists the keys of `segs` in the order in which they were first added. */
  datatype State = State(nextIndex: nat, order: seq<int>, segs: map<int, Segment>, dropped: set<int>, pending: set<int>)

  const FRESH := State(0, [], map[], {}, {})

  function DeltaKind(deltaType: string): Option<string> {
    if deltaType in {"thinking_delta", "signature_delta"} then Some("thinking")
    else if deltaType == "text_delta" then Some("text")
    else if deltaType == "input_json_delta" then Some("tool_use")
    else None
  }

  function FallbackToolId(upstream: int): string {
    "toolu_or_" + IntToString(upstream)
  }

  function SyntheticStart(kind: string, upstream: int, stored: Option<Block>): Block {
    if kind == "tool_use" then
      if stored.Some? && stored.value.kind == "tool_use" then
        var b := stored.value;
        Block("tool_use", "",
              Some(if b.id.Some? && b.id.value != "" then b.id.value else FallbackToolId(upstream)),
              Some(if b.name.Some? then b.name.value else ""),
              Some(if b.input.Some? then b.input.value else "{}"))
      else
        Block("tool_use", "", Some(FallbackToolId(upstream)), Some(""), Some("{}"))
    else if kind == "thinking" then Block("thinking", "", None, None, None)
    else Block("text", "", None, None, None)
  }

  predicate ShouldDrop(kind: string, thinking: bool) {
    if StartsWith(kind, "redacted_thinking") then !thinking
    else !thinking && Contains(kind, "thinking")
  }

  /** The stops for every open block other than `current`, in dictionary order. */
  function CloseEvents(order: seq<int>, segs: map<int, Segment>, current: int): seq<Event>
    requires forall k | k in order :: k in segs
  {
    if order == [] then []
    else
      (if order[0] != current && segs[order[0]].open then [BlockStop(segs[order[0]].downIndex)] else [])
      + CloseEvents(order[1..], segs, current)
  }

  function Overlapped(segs: map<int, Segment>, current: int): set<int> {
    set k | k in segs && k != current && segs[k].open
  }

  function CloseOthers(s: State, current: int): State {
    s.(segs := map k | k in s.segs :: if k == current then s.segs[k] else s.segs[k].(open := false),
       pending := s.pending + Overlapped(s.segs, current))
  }

  function Allocate(s: State, upstream: int, blockType: string, lastStart: Block): State {
    s.(nextIndex := s.nextIndex + 1,
       order := if upstream in s.segs then s.order else s.order + [upstream],
       segs := s.segs[upstream := Segment(blockType, s.nextIndex, true, lastStart)])
  }

  /** One call of `transform_native_sse_block_event`; dropping an event gives no output. */
  function Transform(s: State, e: Event, thinking: bool): (State, seq<Event>)
    requires Ordered(s)
  {
    match e
    case BlockStart(i, b) =>
      if ShouldDrop(b.kind, thinking) then (s.(dropped := s.dropped + {i}), [])
      else
        (Allocate(CloseOthers(s, i), i, b.kind, b),
         CloseEvents(s.order, s.segs, i) + [BlockStart(s.nextIndex, b)])
    case BlockDelta(i, d) =>
      if i in s.dropped || ShouldDrop(d.kind, thinking) then (s, [])
      else
        (match DeltaKind(d.kind)
         case None => (s, [e])
         case Some(kind) =>
           if i in s.segs && s.segs[i].open then
             (s, [BlockDelta(s.segs[i].downIndex, d)])
           else if i in s.segs then
             var carry := s.segs[i].lastStart;
             (Allocate(s.(pending := s.pending - {i}), i, kind, carry),
              [BlockStart(s.nextIndex, SyntheticStart(kind, i, Some(carry))), BlockDelta(s.nextIndex, d)])
           else if kind != "thinking" then
             var block := SyntheticStart(kind, i, None);
             (Allocate(s, i, kind, block), [BlockStart(s.nextIndex, block), BlockDelta(s.nextIndex, d)])
           else (s, [e]))
    case BlockStop(i) =>
      if i in s.dropped then (s, [])
      else if i in s.pending then (s.(pending := s.pending - {i}), [])
      else if i in s.segs && s.segs[i].open then
        (s.(segs := s.segs[i := s.segs[i].(open := false)]), [BlockStop(s.segs[i].downIndex)])
      else if i in s.segs || !thinking then (s, [])
      else (s, [e])
    case _ => (s, [e])
  }

  /** The dictionary order lists the keys, each once. */
  ghost predicate Ordered(s: State) {
    && (forall k :: k in s.order <==> k in s.segs)
    && (forall a, b | 0 <= a < b < |s.order| :: s.order[a] != s.order[b])
  }

  lemma TransformOrdered(s: State, e: Event, thinking: bool)
    requires Ordered(s)
    ensures Ordered(Transform(s, e, thinking).0)
  {
  }

  ghost function After(s: State, es: seq<Event>, thinking: bool): (s': State)
    requires Ordered(s)
    ensures Ordered(s')
    decreases |es|
  {
    if es == [] then s
    else
      TransformOrdered(s, es[0], thinking);
      After(Transform(s, es[0], thinking).0, es[1..], thinking)
  }

  ghost function Output(s: State, es: seq<Event>, thinking: bool): seq<Event>
    requires Ordered(s)
    decreases |es|
  {
    if es == [] then []
    else
      TransformOrdered(s, es[0], thinking);
      Transform(s, es[0], thinking).1 + Output(Transform(s, es[0], thinking).0, es[1..], thinking)
  }

  /** `t` is `s` after the closing loop has visited the keys in `done`. */
  ghost predicate ClosedPart(s: State, t: State, done: set<int>, current: int) {
    && t.nextIndex == s.nextIndex && t.order == s.order && t.dropped == s.dropped
    && t.segs.Keys == s.segs.Keys
    && (forall k | k in s.segs :: t.segs[k] ==
          if k != current && k in done then s.segs[k].(open := false) else s.segs[k])
    && t.pending == s.pending + Overlapped(s.segs, current) * done
  }

  function CloseKey(t: State, k: int, current: int): State
    requires k in t.segs
  {
    if k != current && t.segs[k].open
    then t.(segs := t.segs[k := t.segs[k].(open := false)], pending := t.pending + {k}) else t
  }

  lemma OneMoreClosed(s: State, t: State, done: set<int>, k: int, current: int)
    requires ClosedPart(s, t, done, current) && k in s.segs && k !in done
    ensures ClosedPart(s, CloseKey(t, k, current), done + {k}, current) && t.segs[k] == s.segs[k]
  {
  }

  lemma AllClosed(s: State, t: State, done: set<int>, current: int)
    requires ClosedPart(s, t, done, current)
    requires Ordered(s) && forall m | 0 <= m < |s.order| :: s.order[m] in done
    ensures t == CloseOthers(s, current)
  {
    assert forall k | k in s.segs :: k in done;
    assert t.segs == CloseOthers(s, current).segs;
    assert Overlapped(s.segs, current) * done == Overlapped(s.segs, current);
  }

  lemma CloseOne(items: seq<int>, n: nat, segs: map<int, Segment>, current: int, out: seq<Event>)
    requires n < |items| && forall k | k in items :: k in segs
    ensures forall k | k in items[n..] || k in items[n + 1..] :: k in segs
    ensures out + CloseEvents(items[n..], segs, current) ==
              (if items[n] != current && segs[items[n]].open then out + [BlockStop(segs[items[n]].downIndex)] else out)
              + CloseEvents(items[n + 1..], segs, current)
  {
    assert items[n..][0] == items[n] && items[n..][1..] == items[n + 1..];
  }

  /** The state object of the source; its dictionary is a map together with the order of insertion. */
  class NativeSseBlockPolicyState {
    var nextIndex: nat
    var order: seq<int>
    var byUpstream: map<int, Segment>
    var droppedIndexes: set<int>
    var pendingSuppressedStops: set<int>

    ghost function View(): State
      reads this
    {
      State(nextIndex, order, byUpstream, droppedIndexes, pendingSuppressedStops)
    }

    ghost predicate Valid()
      reads this
    {
      Ordered(View())
    }

    constructor ()
      ensures Valid() && View() == FRESH
    {
      nextIndex, order, byUpstream := 0, [], map[];
      droppedIndexes, pendingSuppressedStops := {}, {};
    }

    method SyntheticCloseOtherOpenBlocks(current: int) returns (out: seq<Event>)
      requires Valid()
      modifies this
      ensures Valid() && View() == CloseOthers(old(View()), current)
      ensures out == CloseEvents(old(order), old(byUpstream), current)
    {
      out := [];
      ghost var s, done: set<int> := View(), {};
      var items := order;
      assert forall k | k in items :: k in s.segs;
      var n := 0;
      while n < |items|
        invariant 0 <= n <= |items|
        invariant ClosedPart(s, View(), done, current)
        invariant forall m | 0 <= m < |items| :: items[m] in done <==> m < n
        invariant out + CloseEvents(items[n..], s.segs, current) == CloseEvents(items, s.segs, current)
      {
        var upstream := items[n];
        OneMoreClosed(s, View(), done, upstream, current);
        ghost var t := CloseKey(View(), upstream, current);
        CloseOne(items, n, s.segs, current, out);
        if upstream != current && byUpstream[upstream].open {
          out := out + [BlockStop(byUpstream[upstream].downIndex)];
          byUpstream := byUpstream[upstream := byUpstream[upstream].(open := false)];
          pendingSuppressedStops := pendingSuppressedStops + {upstream};
        }
        assert View() == t;
        done := done + {upstream};
        n := n + 1;
      }
      AllClosed(s, View(), done, current);
    }

    method AllocateNewSegment(upstream: int, blockType: string, lastStart: Block) returns (newIdx: int)
      requires Valid()
      modifies this
      ensures Valid() && View() == Allocate(old(View()), upstream, blockType, lastStart)
      ensures newIdx == old(nextIndex)
    {
      newIdx := nextIndex;
      nextIndex := nextIndex + 1;
      if upstream !in byUpstream {
        order := order + [upstream];
      }
      byUpstream := byUpstream[upstream := Segment(blockType, newIdx, true, lastStart)];
    }

    method TransformEvent(e: Event, thinking: bool) returns (out: seq<Event>)
      requires Valid()
      modifies this
      ensures Valid() && (View(), out) == Transform(old(View()), e, thinking)
    {
      match e
      case BlockStart(i, b) =>
        if ShouldDrop(b.kind, thinking) {
          droppedIndexes := droppedIndexes + {i};
          return [];
        }
        var prefix := SyntheticCloseOtherOpenBlocks(i);
        var newIdx := AllocateNewSegment(i, b.kind, b);
        return prefix + [BlockStart(newIdx, b)];
      case BlockDelta(i, d) =>
        if i in droppedIndexes || ShouldDrop(d.kind, thinking) {
          return [];
        }
        var kind := DeltaKind(d.kind);
        if kind.None? {
          return [e];
        }
        if i in byUpstream && byUpstream[i].open {
          return [BlockDelta(byUpstream[i].downIndex, d)];
        }
        if i in byUpstream {
          pendingSuppressedStops := pendingSuppressedStops - {i};
          var carry := byUpstream[i].lastStart;
          var newIdx := AllocateNewSegment(i, kind.value, carry);
          return [BlockStart(newIdx, SyntheticStart(kind.value, i, Some(carry))), BlockDelta(newIdx, d)];
        }
        if kind.value != "thinking" {
          var block := SyntheticStart(kind.value, i, None);
          var newIdx := AllocateNewSegment(i, kind.value, block);
          return [BlockStart(newIdx, block), BlockDelta(newIdx, d)];
        }
        return [e];
      case BlockStop(i) =>
        if i in droppedIndexes {
          return [];
        }
        if i in pendingSuppressedStops {
          pendingSuppressedStops := pendingSuppressedStops - {i};
          return [];
        }
        if i in byUpstream && byUpstream[i].open {
          var x := byUpstream[i].downIndex;
          byUpstream := byUpstream[i := byUpstream[i].(open := false)];
          return [BlockStop(x)];
        }
        if i in byUpstream || !thinking {
          return [];
        }
        return [e];
      case _ =>
        return [e];
    }
  }

  lemma NextOutput(s: State, es: seq<Event>, n: nat, thinking: bool, out: seq<Event>)
    requires Ordered(s) && n < |es|
    ensures var (s', more) := Transform(s, es[n], thinking);
            Ordered(s') && out + Output(s, es[n..], thinking) == (out + more) + Output(s', es[n + 1..], thinking)
  {
    var rest := es[n..];
    assert rest[0] == es[n] && rest[1..] == es[n + 1..];
    TransformOrdered(s, es[n], thinking);
    var (s', more) := Transform(s, es[n], thinking);
    Assoc(out, more, Output(s', es[n + 1..], thinking));
  }

  /** A provider's event loop over a whole upstream stream. */
  method TransformStream(es: seq<Event>, thinking: bool) returns (out: seq<Event>)
    ensures out == Output(FRESH, es, thinking)
  {
    var state := new NativeSseBlockPolicyState();
    out := [];
    for n := 0 to |es|
      invariant state.Valid()
      invariant out + Output(state.View(), es[n..], thinking) == Output(FRESH, es, thinking)
    {
      NextOutput(state.View(), es, n, thinking, out);
      var event := state.TransformEvent(es[n], thinking);
      out := out + event;
    }
  }
}
