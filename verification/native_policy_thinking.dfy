/**
 * Thinking that is switched off: what the client is not shown, what it still is, and the one way in
 * which a thinking block reaches it all the same. All of it is said by where the word stands.
 */
module NativePolicyThinking {
  import opened Text
  import opened StreamContract
  import opened NativePolicy
  import opened NativePolicyContract
  import opened NativePolicyStreams

  predicate NamesThinking(kind: string) {
    exists k | 0 <= k <= |kind| :: OccursAt(kind, "thinking", k)
  }

  /** What is dropped, for the two branches of the source at once. */
  lemma DropsIff(kind: string, thinking: bool)
    ensures ShouldDrop(kind, thinking) <==> !thinking && NamesThinking(kind)
  {
    if StartsWith(kind, "redacted_thinking") {
      assert kind[9..17] == kind[..17][9..17] == "redacted_thinking"[9..17] == "thinking";
      assert OccursAt(kind, "thinking", 9);
    }
  }

  // ----- which events are of thinking -----

  predicate IsThinkingStart(e: Event, i: int) {
    e.BlockStart? && e.index == i && NamesThinking(e.block.kind)
  }

  predicate ThinkingStarted(before: seq<Event>, i: int) {
    exists k | 0 <= k < |before| :: IsThinkingStart(before[k], i)
  }

  /** An event of a thinking block: its start, a thinking delta, or any delta or stop of its index after the start. */
  predicate OfThinking(before: seq<Event>, e: Event) {
    match e
    case BlockStart(i, b) => NamesThinking(b.kind)
    case BlockDelta(i, d) => NamesThinking(d.kind) || ThinkingStarted(before, i)
    case BlockStop(i) => ThinkingStarted(before, i)
    case _ => false
  }

  lemma DropsThinking(e: Event)
    ensures e.BlockStart? ==> (ShouldDrop(e.block.kind, false) <==> NamesThinking(e.block.kind))
    ensures e.BlockDelta? ==> (ShouldDrop(e.delta.kind, false) <==> NamesThinking(e.delta.kind))
  {
    if e.BlockStart? {
      DropsIff(e.block.kind, false);
    } else if e.BlockDelta? {
      DropsIff(e.delta.kind, false);
    }
  }

  lemma OneMoreStart(before: seq<Event>, e: Event)
    ensures forall i :: ThinkingStarted(before + [e], i) <==> IsThinkingStart(e, i) || ThinkingStarted(before, i)
  {
    var all := before + [e];
    assert all[|before|] == e;
    forall i ensures ThinkingStarted(all, i) <==> IsThinkingStart(e, i) || ThinkingStarted(before, i) {
      if ThinkingStarted(before, i) {
        var k :| 0 <= k < |before| && IsThinkingStart(before[k], i);
        assert IsThinkingStart(all[k], i);
      }
    }
  }

  // ----- erasure -----

  function EraseThinking(before: seq<Event>, es: seq<Event>): seq<Event>
    decreases |es|
  {
    if es == [] then []
    else (if OfThinking(before, es[0]) then [] else [es[0]]) + EraseThinking(before + [es[0]], es[1..])
  }

  /** The two runs differ only in the set of dropped indexes. */
  ghost predicate SameButDropped(s: State, t: State, before: seq<Event>) {
    && t == s.(dropped := {})
    && forall i :: i in s.dropped <==> ThinkingStarted(before, i)
  }

  lemma {:induction false} ErasedRuns(s: State, t: State, before: seq<Event>, es: seq<Event>)
    requires Ordered(s) && Ordered(t) && SameButDropped(s, t, before)
    ensures Output(s, es, false) == Output(t, EraseThinking(before, es), false)
    ensures SameButDropped(After(s, es, false), After(t, EraseThinking(before, es), false), before + es)
    decreases |es|
  {
    if es == [] {
      assert before + es == before;
    } else {
      var e, rest, before1 := es[0], es[1..], before + [es[0]];
      var s1, out := Transform(s, e, false).0, Transform(s, e, false).1;
      TransformOrdered(s, e, false);
      TransformOrdered(t, e, false);
      ErasedStep(s, t, before, e);
      assert before1 + rest == before + es;
      if OfThinking(before, e) {
        ErasedRuns(s1, t, before1, rest);
        assert EraseThinking(before, es) == EraseThinking(before1, rest);
      } else {
        var t1 := Transform(t, e, false).0;
        ErasedRuns(s1, t1, before1, rest);
        var erased := EraseThinking(before, es);
        assert erased == [e] + EraseThinking(before1, rest);
        assert erased[0] == e && erased[1..] == EraseThinking(before1, rest);
      }
    }
  }

  lemma ErasedStep(s: State, t: State, before: seq<Event>, e: Event)
    requires Ordered(s) && Ordered(t) && SameButDropped(s, t, before)
    ensures var s1, t1 := Transform(s, e, false).0, if OfThinking(before, e) then t else Transform(t, e, false).0;
            SameButDropped(s1, t1, before + [e])
    ensures Transform(s, e, false).1 == if OfThinking(before, e) then [] else Transform(t, e, false).1
  {
    DropsThinking(e);
    OneMoreStart(before, e);
  }

  /** With thinking off, the client sees what it would have seen had the upstream never thought. */
  lemma ThinkingOffIsErasure(es: seq<Event>)
    ensures Output(FRESH, es, false) == Output(FRESH, EraseThinking([], es), false)
  {
    ErasedRuns(FRESH, FRESH, [], es);
  }

  // ----- what is shown, and what is not -----

  /** The dropped indexes are those that a thinking start has named, while thinking is off. */
  ghost predicate DroppedIff(s: State, before: seq<Event>, thinking: bool) {
    forall i :: i in s.dropped <==> !thinking && ThinkingStarted(before, i)
  }

  lemma {:induction false} DroppedAfter(es: seq<Event>, thinking: bool)
    ensures DroppedIff(After(FRESH, es, thinking), es, thinking)
    decreases |es|
  {
    if es != [] {
      var init, e := es[..|es| - 1], es[|es| - 1];
      assert es == init + [e];
      DroppedAfter(init, thinking);
      OutputSnoc(FRESH, init, e, thinking);
      OneMoreStart(init, e);
      if e.BlockStart? {
        DropsIff(e.block.kind, thinking);
      }
    }
  }

  /** The last of these events carries the payload of e, whatever its index. */
  predicate Carries(out: seq<Event>, e: Event) {
    && out != []
    && var last := out[|out| - 1];
       match e
       case BlockStart(_, b) => last.BlockStart? && last.block == b
       case BlockDelta(_, d) => last.BlockDelta? && last.delta == d
       case _ => last == e
  }

  /**
   * For every upstream stream: with thinking off an event of thinking sends nothing. Any other start
   * or delta sends something, itself last, and so does every start and delta with thinking on.
   */
  lemma ShownIff(before: seq<Event>, e: Event, thinking: bool) returns (out: seq<Event>)
    ensures Output(FRESH, before + [e], thinking) == Output(FRESH, before, thinking) + out
    ensures !thinking && OfThinking(before, e) ==> out == []
    ensures !e.BlockStop? && !(!thinking && OfThinking(before, e)) ==> Carries(out, e)
  {
    out := Transform(After(FRESH, before, thinking), e, thinking).1;
    OutputSnoc(FRESH, before, e, thinking);
    DroppedAfter(before, thinking);
    match e
    case BlockStart(i, b) => DropsIff(b.kind, thinking);
    case BlockDelta(i, d) => DropsIff(d.kind, thinking);
    case _ =>
  }

  /** A delta that wakes a closed or overlapped block as a thinking block, though its type does not say so. */
  ghost predicate WakesThinking(before: seq<Event>, e: Event) {
    && e.BlockDelta? && e.delta.kind == "signature_delta"
    && var u := ReadAll(NOTHING, before, false);
       e.index in u.blocks && e.index !in u.live && !ThinkingStarted(before, e.index)
  }

  predicate ShowsThinking(e: Event) {
    (e.BlockStart? && NamesThinking(e.block.kind)) || (e.BlockDelta? && NamesThinking(e.delta.kind))
  }

  lemma PlainKinds()
    ensures !NamesThinking("text") && !NamesThinking("tool_use") && !NamesThinking("signature_delta")
    ensures NamesThinking("thinking") && NamesThinking("thinking_delta")
  {
    var s := "signature_delta";
    forall k | 0 <= k <= |s| ensures !OccursAt(s, "thinking", k) {
      if 0 <= k <= |s| - 8 {
        assert s[k..k + 8][0] == s[k] && s[k..k + 8][1] == s[k + 1];
      }
    }
    assert !OccursAt("tool_use", "thinking", 0) by { assert "tool_use"[0..8][1] == 'o'; }
    assert OccursAt("thinking", "thinking", 0) && OccursAt("thinking_delta", "thinking", 0) by {
      assert "thinking"[0..8] == "thinking" && "thinking_delta"[0..8] == "thinking";
    }
  }

  /** With thinking off, one event shows thinking exactly if it wakes a block by its signature, and then in a start. */
  lemma StepShows(before: seq<Event>, e: Event)
    ensures var out := Transform(After(FRESH, before, false), e, false).1;
            && (forall x | x in out && x.BlockDelta? :: !NamesThinking(x.delta.kind))
            && ((exists x :: x in out && ShowsThinking(x)) <==> WakesThinking(before, e))
  {
    var s, u := After(FRESH, before, false), ReadAll(NOTHING, before, false);
    var out := Transform(s, e, false).1;
    TracksAll(FRESH, NOTHING, before, false);
    DroppedAfter(before, false);
    PlainKinds();
    match e
    case BlockStart(i, b) =>
      DropsIff(b.kind, false);
      ClosesAreStops(s.order, s.segs, i);
    case BlockDelta(i, d) =>
      DropsIff(d.kind, false);
      if Begins(u, i, d, false) {
        ReopenShape(s, i, d, false);
        assert out[0] in out;
      }
    case _ =>
  }

  lemma {:induction false} TracksAll(s: State, u: Upstream, es: seq<Event>, thinking: bool)
    requires Tracks(s, u)
    ensures Tracks(After(s, es, thinking), ReadAll(u, es, thinking))
    decreases |es|
  {
    if es != [] {
      TracksStep(s, u, es[0], thinking);
      TracksAll(Transform(s, es[0], thinking).0, Read(u, es[0], thinking), es[1..], thinking);
    }
  }

  /**
   * For every upstream stream, with thinking off: no delta is sent whose type names thinking. A start
   * whose type does is sent exactly if some signature delta wakes a block that is closed or
   * overlapped, and that no thinking start has named.
   */
  lemma {:induction false} ThinkingIsShownIff(es: seq<Event>)
    ensures forall x | x in Output(FRESH, es, false) && x.BlockDelta? :: !NamesThinking(x.delta.kind)
    ensures (exists x :: x in Output(FRESH, es, false) && ShowsThinking(x)) <==>
            exists k :: 0 <= k < |es| && WakesThinking(es[..k], es[k])
    decreases |es|
  {
    if es != [] {
      var init, e := es[..|es| - 1], es[|es| - 1];
      assert es == init + [e];
      ThinkingIsShownIff(init);
      StepShows(init, e);
      OutputSnoc(FRESH, init, e, false);
      ShownSnoc(init, e, Output(FRESH, init, false), Transform(After(FRESH, init, false), e, false).1);
    }
  }

  lemma ShownSnoc(init: seq<Event>, e: Event, sent: seq<Event>, out: seq<Event>)
    requires (exists x :: x in sent && ShowsThinking(x)) <==>
             exists k :: 0 <= k < |init| && WakesThinking(init[..k], init[k])
    requires (exists x :: x in out && ShowsThinking(x)) <==> WakesThinking(init, e)
    ensures (exists x :: x in sent + out && ShowsThinking(x)) <==>
            exists k :: 0 <= k < |init + [e]| && WakesThinking((init + [e])[..k], (init + [e])[k])
  {
    var es := init + [e];
    assert es[..|init|] == init && es[|init|] == e;
    assert forall k | 0 <= k < |init| :: es[..k] == init[..k] && es[k] == init[k];
    assert forall x :: x in sent + out <==> x in sent || x in out;
  }

  /** With thinking off, a text block that is stopped and then signed is shown again as a thinking block. */
  lemma SignedTextIsShownAsThinking(i: int, d: Delta)
    requires d.kind == "signature_delta"
    ensures var es := [BlockStart(i, TEXT), BlockStop(i), BlockDelta(i, d)];
            exists x :: x in Output(FRESH, es, false) && ShowsThinking(x)
  {
    var a, b, e := BlockStart(i, TEXT), BlockStop(i), BlockDelta(i, d);
    var es := [a, b, e];
    assert es[..2] == [a] + [b] && es[2] == e;
    PlainKinds();
    DropsIff(TEXT.kind, false);
    var u1 := Read(NOTHING, a, false);
    assert i in u1.blocks && i in u1.live && i !in u1.overlapped && i !in u1.dropped;
    var u2 := Read(u1, b, false);
    AppendNone([b]);
    ReadMore(NOTHING, a, [b], false);
    ReadMore(u1, b, [], false);
    assert ReadAll(NOTHING, [a] + [b], false) == u2 && i in u2.blocks && i !in u2.live;
    assert !ThinkingStarted(es[..2], i);
    assert WakesThinking(es[..2], es[2]);
    ThinkingIsShownIff(es);
  }
}
