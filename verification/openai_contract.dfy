/**
 * Every response of an OpenAI-compatible provider meets the stream contract: for any chunks, any
 * textual tool calls found in them, and a failure after any of them.
 */
module OpenAIContract {
  import opened Text
  import opened StreamContract
  import opened SseBuilder
  import opened OpenAIStream
  import ThinkParser

  // ----- the builder and the checker -----

  datatype Holder = Thinking | Speaking | Tool(k: int)

  function HolderKind(w: Holder): string {
    match w case Thinking => "thinking" case Speaking => "text" case Tool(_) => "tool_use"
  }

  /** The builder regards block x as open on behalf of `w`. */
  predicate Holds(b: Builder, w: Holder, x: int) {
    match w
    case Thinking => b.thinkingStarted && x == b.thinkingIndex
    case Speaking => b.textStarted && x == b.textIndex
    case Tool(k) => k in b.tools && b.tools[k].started && x == b.tools[k].blockIndex
  }

  ghost predicate Ordered(b: Builder) {
    && (forall k :: k in b.order <==> k in b.tools)
    && (forall i, j | 0 <= i < j < |b.order| :: b.order[i] != b.order[j])
  }

  /** Text and thinking are never both open, and a started tool stays open until everything is closed. */
  ghost predicate Mirrors(c: Check, b: Builder) {
    && Ordered(b)
    && 0 <= b.nextIndex
    && !(b.thinkingStarted && b.textStarted)
    && (forall x :: x in c.seen <==> 0 <= x < b.nextIndex)
    && (forall w, x :: Holds(b, w, x) ==> 0 <= x < b.nextIndex && x in c.open && c.open[x] == HolderKind(w))
    && (forall w, w', x :: Holds(b, w, x) && Holds(b, w', x) ==> w == w')
    && (forall x | x in c.open :: x in c.seen && exists w :: Holds(b, w, x))
  }

  predicate StartedAt(tools: map<int, ToolCall>, k: int, x: int) {
    k in tools && tools[k].started && tools[k].blockIndex == x
  }

  /** The contents of the deltas sent to block x. */
  function DeltasAt(es: seq<Event>, x: int): seq<string> {
    if es == [] then []
    else (if es[0].BlockDelta? && es[0].index == x then [es[0].delta.content] else []) + DeltasAt(es[1..], x)
  }

  /** The contents of the deltas of one type, joined. */
  function DeltasOf(es: seq<Event>, kind: string): string {
    if es == [] then ""
    else (if es[0].BlockDelta? && es[0].delta.kind == kind then es[0].delta.content else "") + DeltasOf(es[1..], kind)
  }

  lemma {:induction false} DeltasAtAppend(a: seq<Event>, b: seq<Event>, x: int)
    ensures DeltasAt(a + b, x) == DeltasAt(a, x) + DeltasAt(b, x)
  {
    if a == [] {
      AppendNone(b);
      AppendNone(DeltasAt(b, x));
    } else {
      AppendTail(a, b);
      DeltasAtAppend(a[1..], b, x);
      Assoc(if a[0].BlockDelta? && a[0].index == x then [a[0].delta.content] else [], DeltasAt(a[1..], x),
            DeltasAt(b, x));
    }
  }

  lemma {:induction false} DeltasOfAppend(a: seq<Event>, b: seq<Event>, kind: string)
    ensures DeltasOf(a + b, kind) == DeltasOf(a, kind) + DeltasOf(b, kind)
  {
    if a == [] {
      AppendNone(b);
      AppendNone(DeltasOf(b, kind));
    } else {
      AppendTail(a, b);
      DeltasOfAppend(a[1..], b, kind);
      Assoc(if a[0].BlockDelta? && a[0].delta.kind == kind then a[0].delta.content else "", DeltasOf(a[1..], kind),
            DeltasOf(b, kind));
    }
  }

  lemma DeltasSingle(e: Event, x: int, kind: string)
    ensures DeltasAt([e], x) == if e.BlockDelta? && e.index == x then [e.delta.content] else []
    ensures DeltasOf([e], kind) == if e.BlockDelta? && e.delta.kind == kind then e.delta.content else ""
  {
    assert [e][1..] == [];
  }

  /** Of three events only the middle one can be a delta. */
  lemma MiddleDelta(s: Event, t: Event, u: Event, x: int, kind: string)
    requires !s.BlockDelta? && !u.BlockDelta?
    ensures DeltasAt([s, t, u], x) == DeltasAt([t], x) && DeltasOf([s, t, u], kind) == DeltasOf([t], kind)
  {
    DeltasSingle(s, x, kind);
    DeltasSingle(u, x, kind);
    DeltasAtAppend([s], [t], x);
    DeltasAtAppend([s] + [t], [u], x);
    DeltasOfAppend([s], [t], kind);
    DeltasOfAppend([s] + [t], [u], kind);
    AppendNone(DeltasAt([t], x));
    AppendNone(DeltasOf([t], kind));
    assert [s] + [t] + [u] == [s, t, u];
  }

  /** The arguments the builder records as sent to tool k, and the block they went to. */
  function Sent(b: Builder, k: int): seq<string> {
    ToolOr(b, k).contents
  }

  function Slot(b: Builder, k: int): int {
    ToolOr(b, k).blockIndex
  }

  /**
   * For tool k: once it is started it stays so, in one block that is handed out at the start, and
   * the builder records as its arguments what was sent to that block.
   */
  ghost predicate ToolSent(b: Builder, out: seq<Event>, b': Builder, k: int) {
    if IsStarted(b, k)
    then IsStarted(b', k) && Slot(b', k) == Slot(b, k) && Sent(b', k) == Sent(b, k) + DeltasAt(out, Slot(b, k))
    else if IsStarted(b', k)
    then b.nextIndex <= Slot(b', k) < b'.nextIndex && Sent(b', k) == Sent(b, k) + DeltasAt(out, Slot(b', k))
    else Sent(b', k) == Sent(b, k)
  }

  ghost predicate ChannelsSent(b: Builder, out: seq<Event>, b': Builder) {
    && Concat(b'.text) == Concat(b.text) + DeltasOf(out, "text_delta")
    && Concat(b'.reasoning) == Concat(b.reasoning) + DeltasOf(out, "thinking_delta")
  }

  ghost predicate NoneFrom(out: seq<Event>, n: int) {
    forall x | x >= n :: DeltasAt(out, x) == []
  }

  /** What the builder records as sent is what was sent: text, reasoning, and the arguments of every tool. */
  ghost predicate Delivers(b: Builder, out: seq<Event>, b': Builder) {
    && b.nextIndex <= b'.nextIndex
    && ChannelsSent(b, out, b') && NoneFrom(out, b'.nextIndex)
    && forall k :: ToolSent(b, out, b', k)
  }

  /** From `b`, the checker accepts `out` and then mirrors `b'`, and `b'` records what was sent. */
  ghost predicate Reaches(c: Check, b: Builder, out: seq<Event>, b': Builder) {
    exists c' :: Run(c, out) == Some(c') && Mirrors(c', b') && Delivers(b, out, b')
  }

  lemma Chain(c: Check, b: Builder, out1: seq<Event>, b1: Builder, out2: seq<Event>, b2: Builder)
    requires Reaches(c, b, out1, b1) && Reaches(Run(c, out1).value, b1, out2, b2)
    ensures Reaches(c, b, out1 + out2, b2)
  {
    RunAppend(c, out1, out2);
    DeliversChain(b, out1, b1, out2, b2);
  }

  lemma DeliversChain(b: Builder, out1: seq<Event>, b1: Builder, out2: seq<Event>, b2: Builder)
    requires Delivers(b, out1, b1) && Delivers(b1, out2, b2)
    ensures Delivers(b, out1 + out2, b2)
  {
    ChannelsChain(b, out1, b1, out2, b2);
    forall x | x >= b2.nextIndex ensures DeltasAt(out1 + out2, x) == [] {
      DeltasAtAppend(out1, out2, x);
      AppendNone(DeltasAt(out1, x));
    }
    forall k ensures ToolSent(b, out1 + out2, b2, k) {
      assert ToolSent(b, out1, b1, k) && ToolSent(b1, out2, b2, k);
      ToolSentTwice(b, out1, b1, out2, b2, k);
    }
  }

  lemma ChannelsChain(b: Builder, out1: seq<Event>, b1: Builder, out2: seq<Event>, b2: Builder)
    requires ChannelsSent(b, out1, b1) && ChannelsSent(b1, out2, b2)
    ensures ChannelsSent(b, out1 + out2, b2)
  {
    DeltasOfAppend(out1, out2, "text_delta");
    DeltasOfAppend(out1, out2, "thinking_delta");
    Assoc(Concat(b.text), DeltasOf(out1, "text_delta"), DeltasOf(out2, "text_delta"));
    Assoc(Concat(b.reasoning), DeltasOf(out1, "thinking_delta"), DeltasOf(out2, "thinking_delta"));
  }

  lemma ToolSentTwice(b: Builder, out1: seq<Event>, b1: Builder, out2: seq<Event>, b2: Builder, k: int)
    requires ToolSent(b, out1, b1, k) && ToolSent(b1, out2, b2, k)
    requires b.nextIndex <= b1.nextIndex <= b2.nextIndex && NoneFrom(out1, b1.nextIndex)
    ensures ToolSent(b, out1 + out2, b2, k)
  {
    var x := Slot(b2, k);
    DeltasAtAppend(out1, out2, x);
    Assoc(Sent(b, k), DeltasAt(out1, x), DeltasAt(out2, x));
    if !IsStarted(b1, k) && IsStarted(b2, k) {
      assert DeltasAt(out1, x) == [];
      AppendNone(DeltasAt(out2, x));
    }
  }

  /** An event that is not a delta, or none, leaves what was sent as it is. */
  lemma NothingSent(b: Builder, out: seq<Event>, b': Builder)
    requires out == [] || (|out| == 1 && !out[0].BlockDelta?)
    requires b.nextIndex <= b'.nextIndex && b'.text == b.text && b'.reasoning == b.reasoning
    requires forall k :: ToolOr(b', k).contents == ToolOr(b, k).contents
    requires forall k | IsStarted(b, k) :: IsStarted(b', k) && Slot(b', k) == Slot(b, k)
    requires forall k | IsStarted(b', k) && !IsStarted(b, k) :: b.nextIndex <= Slot(b', k) < b'.nextIndex
    ensures Delivers(b, out, b')
  {
    forall x
      ensures DeltasAt(out, x) == [] && DeltasOf(out, "text_delta") == "" && DeltasOf(out, "thinking_delta") == "" {
      if out != [] {
        assert out == [out[0]];
        DeltasSingle(out[0], x, "text_delta");
        DeltasSingle(out[0], x, "thinking_delta");
      }
    }
    AppendNone(Concat(b.text));
    AppendNone(Concat(b.reasoning));
    assert DeltasOf(out, "text_delta") == "" && DeltasAt(out, 0) == [];
    forall k ensures ToolSent(b, out, b', k) {
      AppendNone(Sent(b, k));
    }
  }

  lemma Stay(c: Check, b: Builder)
    requires Mirrors(c, b)
    ensures Reaches(c, b, [], b)
  {
    NothingSent(b, [], b);
  }

  /** Nothing that the mirror sees has changed. */
  lemma SameHolders(c: Check, b: Builder, b': Builder)
    requires Mirrors(c, b) && Ordered(b') && b'.nextIndex == b.nextIndex
    requires b'.thinkingStarted == b.thinkingStarted && b'.textStarted == b.textStarted
    requires forall w, x :: Holds(b', w, x) <==> Holds(b, w, x)
    ensures Mirrors(c, b')
  {
    forall x | x in c.open ensures exists w :: Holds(b', w, x) {
      var w :| Holds(b, w, x);
      assert Holds(b', w, x);
    }
  }

  /** A start under the next index is accepted. */
  lemma StartAccepted(c: Check, b: Builder, kind: string, block: Block)
    requires Mirrors(c, b) && block.kind == kind && block.text == "" && kind in {"text", "thinking", "tool_use"}
    ensures Run(c, [BlockStart(b.nextIndex, block)]) ==
              Some(Check(c.open[b.nextIndex := kind], c.seen + {b.nextIndex}))
  {
    RunOne(c, BlockStart(b.nextIndex, block));
    assert StorageKind(block) == kind;
  }

  lemma StartMirrored(c: Check, b: Builder, b': Builder, w: Holder)
    requires Mirrors(c, b) && Ordered(b') && b'.nextIndex == b.nextIndex + 1
    requires !(b'.thinkingStarted && b'.textStarted)
    requires forall x :: !Holds(b, w, x)
    requires forall w', x :: Holds(b', w', x) <==> Holds(b, w', x) || (w' == w && x == b.nextIndex)
    ensures Mirrors(Check(c.open[b.nextIndex := HolderKind(w)], c.seen + {b.nextIndex}), b')
  {
    var n := b.nextIndex;
    forall x | x in c.open || x == n ensures exists w' :: Holds(b', w', x) {
      if x == n {
        assert Holds(b', w, x);
      } else {
        var w' :| Holds(b, w', x);
        assert Holds(b', w', x);
      }
    }
  }

  lemma StartHolder(c: Check, b: Builder, b': Builder, w: Holder, block: Block)
    requires Mirrors(c, b) && Ordered(b') && b'.nextIndex == b.nextIndex + 1
    requires Delivers(b, [BlockStart(b.nextIndex, block)], b')
    requires !(b'.thinkingStarted && b'.textStarted)
    requires block.kind == HolderKind(w) && block.text == ""
    requires forall x :: !Holds(b, w, x)
    requires forall w', x :: Holds(b', w', x) <==> Holds(b, w', x) || (w' == w && x == b.nextIndex)
    ensures Reaches(c, b, [BlockStart(b.nextIndex, block)], b')
  {
    StartAccepted(c, b, HolderKind(w), block);
    StartMirrored(c, b, b', w);
  }

  lemma StopMirrored(c: Check, b: Builder, b': Builder, w: Holder, x: int)
    requires Mirrors(c, b) && Ordered(b') && b'.nextIndex == b.nextIndex && Holds(b, w, x)
    requires !(b'.thinkingStarted && b'.textStarted)
    requires forall w', y :: Holds(b', w', y) <==> Holds(b, w', y) && w' != w
    ensures Mirrors(c.(open := c.open - {x}), b')
  {
    forall y | y in c.open && y != x ensures exists w' :: Holds(b', w', y) {
      var w' :| Holds(b, w', y);
      assert Holds(b', w', y);
    }
  }

  lemma StopHolder(c: Check, b: Builder, b': Builder, w: Holder, x: int)
    requires Mirrors(c, b) && Ordered(b') && b'.nextIndex == b.nextIndex && Holds(b, w, x)
    requires Delivers(b, [BlockStop(x)], b')
    requires !(b'.thinkingStarted && b'.textStarted)
    requires forall w', y :: Holds(b', w', y) <==> Holds(b, w', y) && w' != w
    ensures Reaches(c, b, [BlockStop(x)], b')
  {
    RunOne(c, BlockStop(x));
    StopMirrored(c, b, b', w, x);
  }

  lemma DeltaHolder(c: Check, b: Builder, b': Builder, w: Holder, x: int, d: Delta)
    requires Mirrors(c, b) && Holds(b, w, x) && DeltaFits(HolderKind(w), d.kind)
    requires Ordered(b') && b'.nextIndex == b.nextIndex && Delivers(b, [BlockDelta(x, d)], b')
    requires b'.thinkingStarted == b.thinkingStarted && b'.textStarted == b.textStarted
    requires forall w', y :: Holds(b', w', y) <==> Holds(b, w', y)
    ensures Reaches(c, b, [BlockDelta(x, d)], b')
  {
    RunOne(c, BlockDelta(x, d));
    SameHolders(c, b, b');
  }

  lemma ConcatSnoc(parts: seq<string>, part: string)
    ensures Concat(parts + [part]) == Concat(parts) + part
  {
    ConcatAppend(parts, [part]);
    assert Concat([part]) == part + Concat([part][1..]) && [part][1..] == [];
  }

  /** A delta of holder `w` is recorded as sent by `w` alone. */
  lemma DeltaSent(c: Check, b: Builder, b': Builder, w: Holder, x: int, d: Delta)
    requires Mirrors(c, b) && Holds(b, w, x) && b'.nextIndex == b.nextIndex
    requires d.kind ==
               if w.Thinking? then "thinking_delta" else if w.Speaking? then "text_delta" else "input_json_delta"
    requires b'.text == if w.Speaking? then b.text + [d.content] else b.text
    requires b'.reasoning == if w.Thinking? then b.reasoning + [d.content] else b.reasoning
    requires forall k :: IsStarted(b', k) == IsStarted(b, k) && Slot(b', k) == Slot(b, k)
    requires forall k :: ToolOr(b', k).contents ==
               if w == Tool(k) then ToolOr(b, k).contents + [d.content] else ToolOr(b, k).contents
    ensures Delivers(b, [BlockDelta(x, d)], b')
  {
    var out := [BlockDelta(x, d)];
    ConcatSnoc(b.text, d.content);
    ConcatSnoc(b.reasoning, d.content);
    DeltasSingle(out[0], x, "text_delta");
    DeltasSingle(out[0], x, "thinking_delta");
    AppendNone(Concat(b.text));
    AppendNone(Concat(b.reasoning));
    forall y | y >= b'.nextIndex ensures DeltasAt(out, y) == [] {
      DeltasSingle(out[0], y, "");
    }
    forall k ensures ToolSent(b, out, b', k) {
      SentToHolder(c, b, b', w, x, d, k);
    }
  }

  lemma SentToHolder(c: Check, b: Builder, b': Builder, w: Holder, x: int, d: Delta, k: int)
    requires Mirrors(c, b) && Holds(b, w, x)
    requires IsStarted(b', k) == IsStarted(b, k) && Slot(b', k) == Slot(b, k)
    requires Sent(b', k) == if w == Tool(k) then Sent(b, k) + [d.content] else Sent(b, k)
    ensures ToolSent(b, [BlockDelta(x, d)], b', k)
  {
    DeltasSingle(BlockDelta(x, d), Slot(b', k), "");
    AppendNone(Sent(b, k));
    if w != Tool(k) && IsStarted(b, k) {
      assert Holds(b, Tool(k), Slot(b, k));
    }
  }

  /** A block that is started, filled and stopped at once leaves no trace but its index. */
  lemma WholeBlock(c: Check, b: Builder, block: Block, d: Delta)
    requires Mirrors(c, b)
    requires block.kind == "tool_use" && d.kind == "input_json_delta"
    ensures Reaches(c, b, [BlockStart(b.nextIndex, block), BlockDelta(b.nextIndex, d), BlockStop(b.nextIndex)],
                    b.(nextIndex := b.nextIndex + 1))
  {
    var n := b.nextIndex;
    var s, t, u := BlockStart(n, block), BlockDelta(n, d), BlockStop(n);
    assert StorageKind(block) == block.kind;
    var c1 := Check(c.open[n := block.kind], c.seen + {n});
    assert Step(c, s) == Some(c1) && Step(c1, t) == Some(c1);
    assert c1.open - {n} == c.open;
    assert [s, t, u][1..] == [t, u] && [t, u][1..] == [u];
    RunOne(c1, u);
    assert Run(c, [s, t, u]) == Some(c1.(open := c.open));
    var b' := b.(nextIndex := n + 1);
    WholeBlockMirrored(c, b);
    forall k | IsStarted(b, k) ensures Slot(b, k) != n {
      assert Holds(b, Tool(k), Slot(b, k));
    }
    WholeBlockSent(b, b', block, d);
  }

  lemma WholeBlockMirrored(c: Check, b: Builder)
    requires Mirrors(c, b)
    ensures Mirrors(Check(c.open, c.seen + {b.nextIndex}), b.(nextIndex := b.nextIndex + 1))
  {
    var b' := b.(nextIndex := b.nextIndex + 1);
    assert forall w, x :: Holds(b', w, x) <==> Holds(b, w, x);
    forall x | x in c.open ensures exists w :: Holds(b', w, x) {
      var w :| Holds(b, w, x);
      assert Holds(b', w, x);
    }
  }

  lemma WholeBlockSent(b: Builder, b': Builder, block: Block, d: Delta)
    requires b' == b.(nextIndex := b.nextIndex + 1) && d.kind == "input_json_delta"
    requires forall k | IsStarted(b, k) :: Slot(b, k) != b.nextIndex
    ensures Delivers(b, [BlockStart(b.nextIndex, block), BlockDelta(b.nextIndex, d), BlockStop(b.nextIndex)], b')
  {
    var n := b.nextIndex;
    var s, t, u := BlockStart(n, block), BlockDelta(n, d), BlockStop(n);
    var out := [s, t, u];
    forall x ensures DeltasAt(out, x) == if x == n then [d.content] else [] {
      MiddleDelta(s, t, u, x, "");
      DeltasSingle(t, x, "");
    }
    MiddleDelta(s, t, u, n, "text_delta");
    MiddleDelta(s, t, u, n, "thinking_delta");
    DeltasSingle(t, n, "text_delta");
    DeltasSingle(t, n, "thinking_delta");
    AppendNone(Concat(b.text));
    AppendNone(Concat(b.reasoning));
    forall k ensures ToolSent(b, out, b', k) {
      assert ToolOr(b', k) == ToolOr(b, k);
      AppendNone(Sent(b, k));
    }
  }

  // ----- text and thinking blocks -----

  lemma StopThinkingReaches(c: Check, b: Builder)
    requires Mirrors(c, b) && b.thinkingStarted
    ensures Reaches(c, b, StopThinkingBlock(b).1, StopThinkingBlock(b).0)
  {
    NothingSent(b, StopThinkingBlock(b).1, StopThinkingBlock(b).0);
    StopHolder(c, b, StopThinkingBlock(b).0, Thinking, b.thinkingIndex);
  }

  lemma StopTextReaches(c: Check, b: Builder)
    requires Mirrors(c, b) && b.textStarted
    ensures Reaches(c, b, StopTextBlock(b).1, StopTextBlock(b).0)
  {
    NothingSent(b, StopTextBlock(b).1, StopTextBlock(b).0);
    StopHolder(c, b, StopTextBlock(b).0, Speaking, b.textIndex);
  }

  lemma EnsureThinkingReaches(c: Check, b: Builder)
    requires Mirrors(c, b)
    ensures Reaches(c, b, EnsureThinkingBlock(b).1, EnsureThinkingBlock(b).0)
  {
    var (b1, out1) := if b.textStarted then StopTextBlock(b) else (b, []);
    if b.textStarted {
      StopTextReaches(c, b);
    } else {
      Stay(c, b);
    }
    var c1 := Run(c, out1).value;
    var (b2, out2) := if !b1.thinkingStarted then StartThinkingBlock(b1) else (b1, []);
    if !b1.thinkingStarted {
      NothingSent(b1, out2, b2);
      StartHolder(c1, b1, b2, Thinking, THINKING_BLOCK);
    } else {
      Stay(c1, b1);
    }
    Chain(c, b, out1, b1, out2, b2);
  }

  lemma EnsureTextReaches(c: Check, b: Builder)
    requires Mirrors(c, b)
    ensures Reaches(c, b, EnsureTextBlock(b).1, EnsureTextBlock(b).0)
  {
    var (b1, out1) := if b.thinkingStarted then StopThinkingBlock(b) else (b, []);
    if b.thinkingStarted {
      StopThinkingReaches(c, b);
    } else {
      Stay(c, b);
    }
    var c1 := Run(c, out1).value;
    var (b2, out2) := if !b1.textStarted then StartTextBlock(b1) else (b1, []);
    if !b1.textStarted {
      NothingSent(b1, out2, b2);
      StartHolder(c1, b1, b2, Speaking, TEXT_BLOCK);
    } else {
      Stay(c1, b1);
    }
    Chain(c, b, out1, b1, out2, b2);
  }

  lemma CloseContentReaches(c: Check, b: Builder)
    requires Mirrors(c, b)
    ensures Reaches(c, b, CloseContentBlocks(b).1, CloseContentBlocks(b).0)
  {
    var (b1, out1) := if b.thinkingStarted then StopThinkingBlock(b) else (b, []);
    if b.thinkingStarted {
      StopThinkingReaches(c, b);
    } else {
      Stay(c, b);
    }
    var c1 := Run(c, out1).value;
    var (b2, out2) := if b1.textStarted then StopTextBlock(b1) else (b1, []);
    if b1.textStarted {
      StopTextReaches(c1, b1);
    } else {
      Stay(c1, b1);
    }
    Chain(c, b, out1, b1, out2, b2);
  }

  lemma ThinkReaches(c: Check, b: Builder, content: string)
    requires Mirrors(c, b)
    ensures Reaches(c, b, Think(b, content).1, Think(b, content).0)
  {
    var (b1, out1) := EnsureThinkingBlock(b);
    EnsureThinkingReaches(c, b);
    var (b2, out2) := EmitThinkingDelta(b1, content);
    DeltaSent(Run(c, out1).value, b1, b2, Thinking, b1.thinkingIndex, Delta("thinking_delta", content));
    DeltaHolder(Run(c, out1).value, b1, b2, Thinking, b1.thinkingIndex, Delta("thinking_delta", content));
    Chain(c, b, out1, b1, out2, b2);
  }

  lemma SayReaches(c: Check, b: Builder, content: string)
    requires Mirrors(c, b)
    ensures Reaches(c, b, Say(b, content).1, Say(b, content).0)
  {
    var (b1, out1) := EnsureTextBlock(b);
    EnsureTextReaches(c, b);
    var (b2, out2) := EmitTextDelta(b1, content);
    DeltaSent(Run(c, out1).value, b1, b2, Speaking, b1.textIndex, Delta("text_delta", content));
    DeltaHolder(Run(c, out1).value, b1, b2, Speaking, b1.textIndex, Delta("text_delta", content));
    Chain(c, b, out1, b1, out2, b2);
  }

  lemma HeuristicToolReaches(c: Check, b: Builder, tool: ToolUse, codec: Codec)
    requires Mirrors(c, b)
    ensures Reaches(c, b, HeuristicToolUse(b, tool, codec).1, HeuristicToolUse(b, tool, codec).0)
  {
    var (b1, out1) := CloseContentBlocks(b);
    CloseContentReaches(c, b);
    var block, d := ToolBlock(tool.id, tool.name), Delta("input_json_delta", InputJson(tool, codec));
    WholeBlock(Run(c, out1).value, b1, block, d);
    Chain(c, b, out1, b1, [BlockStart(b1.nextIndex, block), BlockDelta(b1.nextIndex, d), BlockStop(b1.nextIndex)],
          b1.(nextIndex := b1.nextIndex + 1));
  }

  lemma {:induction false} HeuristicToolsReach(c: Check, b: Builder, tools: seq<ToolUse>, codec: Codec)
    requires Mirrors(c, b)
    ensures Reaches(c, b, HeuristicToolUses(b, tools, codec).1, HeuristicToolUses(b, tools, codec).0)
    decreases |tools|
  {
    if tools == [] {
      Stay(c, b);
    } else {
      var (b1, out1) := HeuristicToolUse(b, tools[0], codec);
      HeuristicToolReaches(c, b, tools[0], codec);
      HeuristicToolsReach(Run(c, out1).value, b1, tools[1..], codec);
      Chain(c, b, out1, b1, HeuristicToolUses(b1, tools[1..], codec).1, HeuristicToolUses(b1, tools[1..], codec).0);
    }
  }

  // ----- tool blocks -----

  /**
   * Buffered task arguments belong to a started tool and do not parse; and an index has been
   * handed out once text or thinking has been started.
   */
  ghost predicate Sane(b: Builder, codec: Codec) {
    && (forall k | k in b.tools && b.tools[k].taskArgBuffer != "" ::
          b.tools[k].started && codec.loads(b.tools[k].taskArgBuffer).None?)
    && (b.textIndex != -1 || b.thinkingIndex != -1 ==> b.nextIndex > 0)
  }

  lemma PutToolReaches(c: Check, b: Builder, k: int, t: ToolCall)
    requires Mirrors(c, b) && t.contents == ToolOr(b, k).contents
    requires t.started == ToolOr(b, k).started && t.blockIndex == ToolOr(b, k).blockIndex
    ensures Reaches(c, b, [], PutTool(b, k, t))
  {
    var b' := PutTool(b, k, t);
    forall w, x ensures Holds(b', w, x) <==> Holds(b, w, x) {
    }
    SameHolders(c, b, b');
    NothingSent(b, [], b');
  }

  lemma EmitToolDeltaReaches(c: Check, b: Builder, k: int, json: string)
    requires Mirrors(c, b) && IsStarted(b, k)
    ensures Reaches(c, b, EmitToolDelta(b, k, json).1, EmitToolDelta(b, k, json).0)
  {
    var b' := EmitToolDelta(b, k, json).0;
    forall w, x ensures Holds(b', w, x) <==> Holds(b, w, x) {
    }
    assert Holds(b, Tool(k), b.tools[k].blockIndex);
    DeltaSent(c, b, b', Tool(k), b.tools[k].blockIndex, Delta("input_json_delta", json));
    DeltaHolder(c, b, b', Tool(k), b.tools[k].blockIndex, Delta("input_json_delta", json));
  }

  lemma StartToolReaches(c: Check, b: Builder, k: int, id: string, name: string)
    requires Mirrors(c, b) && !IsStarted(b, k)
    ensures Reaches(c, b, StartToolBlock(b, k, id, name).1, StartToolBlock(b, k, id, name).0)
  {
    var b' := StartToolBlock(b, k, id, name).0;
    forall w, x ensures Holds(b', w, x) <==> Holds(b, w, x) || (w == Tool(k) && x == b.nextIndex) {
    }
    NothingSent(b, StartToolBlock(b, k, id, name).1, b');
    StartHolder(c, b, b', Tool(k), ToolBlock(id, name));
  }

  /** A quiet step before an emitting one. */
  lemma ChainQuiet(c: Check, b: Builder, b1: Builder, out: seq<Event>, b2: Builder)
    requires Reaches(c, b, [], b1) && Reaches(c, b1, out, b2)
    ensures Reaches(c, b, out, b2)
  {
    Chain(c, b, [], b1, out, b2);
    assert [] + out == out;
  }

  lemma BufferReaches(c: Check, b: Builder, k: int, args: string, codec: Codec)
    requires Mirrors(c, b) && Sane(b, codec) && IsStarted(b, k)
    ensures var (b1, r) := BufferTaskArgs(b, k, args, codec);
            Reaches(c, b, [], b1) && IsStarted(b1, k) && (r != Raised ==> Sane(b1, codec))
  {
    if b.tools[k].taskArgsEmitted {
      Stay(c, b);
    } else {
      var t := b.tools[k].(taskArgBuffer := b.tools[k].taskArgBuffer + args);
      PutToolReaches(c, b, k, t);
      PutToolReaches(c, b, k, t.(taskArgsEmitted := true, taskArgBuffer := ""));
    }
  }

  lemma SameBuffersSane(b: Builder, b': Builder, codec: Codec)
    requires Sane(b, codec) && b'.textIndex == b.textIndex && b'.thinkingIndex == b.thinkingIndex
             && b'.nextIndex >= b.nextIndex
    requires forall k ::
               ToolOr(b', k).taskArgBuffer == ToolOr(b, k).taskArgBuffer && (IsStarted(b, k) ==> IsStarted(b', k))
    ensures Sane(b', codec)
  {
    forall k | k in b'.tools && b'.tools[k].taskArgBuffer != ""
      ensures b'.tools[k].started && codec.loads(b'.tools[k].taskArgBuffer).None?
    {
      assert ToolOr(b', k).taskArgBuffer == ToolOr(b, k).taskArgBuffer;
    }
  }

  lemma SendReaches(c: Check, b: Builder, k: int, json: string, codec: Codec)
    requires Mirrors(c, b) && Sane(b, codec) && IsStarted(b, k)
    ensures var (b1, out) := EmitToolDelta(b, k, json);
            Reaches(c, b, out, b1) && IsStarted(b1, k) && Sane(b1, codec)
  {
    EmitToolDeltaReaches(c, b, k, json);
    SameBuffersSane(b, EmitToolDelta(b, k, json).0, codec);
  }

  lemma EmitToolArgReaches(c: Check, b: Builder, k: int, args: string, codec: Codec)
    requires Mirrors(c, b) && Sane(b, codec) && IsStarted(b, k)
    ensures var r := EmitToolArgDelta(b, k, args, codec);
            Reaches(c, b, r.out, r.b) && IsStarted(r.b, k) && (!r.raised ==> Sane(r.b, codec))
  {
    if args == "" {
      Stay(c, b);
    } else if b.tools[k].name == "Task" {
      var (b1, r) := BufferTaskArgs(b, k, args, codec);
      BufferReaches(c, b, k, args, codec);
      if r.Ready? {
        SendReaches(c, b1, k, r.json, codec);
        ChainQuiet(c, b, b1, EmitToolDelta(b1, k, r.json).1, EmitToolDelta(b1, k, r.json).0);
      }
    } else {
      SendReaches(c, b, k, args, codec);
    }
  }

  lemma PutQuietly(c: Check, b: Builder, k: int, t: ToolCall, codec: Codec)
    requires Mirrors(c, b) && Sane(b, codec) && t.contents == ToolOr(b, k).contents
             && t.taskArgBuffer == ToolOr(b, k).taskArgBuffer
    requires t.started == ToolOr(b, k).started && t.blockIndex == ToolOr(b, k).blockIndex
    ensures Reaches(c, b, [], PutTool(b, k, t)) && Sane(PutTool(b, k, t), codec)
  {
    PutToolReaches(c, b, k, t);
    SameBuffersSane(b, PutTool(b, k, t), codec);
  }

  lemma RecordedReaches(c: Check, b: Builder, k: int, tc: ToolDelta, codec: Codec)
    requires Mirrors(c, b) && Sane(b, codec)
    ensures Reaches(c, b, [], Recorded(b, k, tc)) && Sane(Recorded(b, k, tc), codec)
  {
    var b1 := if tc.id.Some? then SetStreamToolId(b, k, tc.id.value) else b;
    if tc.id.Some? && tc.id.value != "" {
      PutQuietly(c, b, k, ToolOr(b, k).(toolId := tc.id.value), codec);
    } else {
      Stay(c, b);
    }
    if tc.name.Some? {
      var t := ToolOr(b1, k).(name := MergeName(ToolOr(b1, k).name, tc.name.value));
      PutQuietly(c, b1, k, t, codec);
      ChainQuiet(c, b, b1, [], PutTool(b1, k, t));
    }
  }

  lemma OpenedReaches(c: Check, b: Builder, k: int, tc: ToolDelta, codec: Codec)
    requires Mirrors(c, b) && Sane(b, codec)
    ensures var r := Opened(b, k, tc, codec);
            && Reaches(c, b, r.out, r.b) && (!r.raised ==> Sane(r.b, codec))
            && (IsStarted(r.b, k) || (r.b == b && IsBlank(ToolOr(b, k).name)))
  {
    var name := ToolOr(b, k).name;
    if IsStarted(b, k) || IsBlank(name) {
      Stay(c, b);
    } else {
      var (b1, out) := StartToolBlock(b, k, ResolvedId(b, k, tc), Strip(name));
      StartToolReaches(c, b, k, ResolvedId(b, k, tc), Strip(name));
      SameBuffersSane(b, b1, codec);
      var pre := b1.tools[k].preStartArgs;
      if pre != "" {
        SendPre(c, b, b1, out, k, codec);
      }
    }
  }

  lemma SendPre(c: Check, b: Builder, b1: Builder, out: seq<Event>, k: int, codec: Codec)
    requires Reaches(c, b, out, b1) && Sane(b1, codec) && IsStarted(b1, k)
    ensures var b2 := PutTool(b1, k, b1.tools[k].(preStartArgs := ""));
            var r := EmitToolArgDelta(b2, k, b1.tools[k].preStartArgs, codec);
            Reaches(c, b, out + r.out, r.b) && IsStarted(r.b, k) && (!r.raised ==> Sane(r.b, codec))
  {
    var c1 := Run(c, out).value;
    var t := b1.tools[k].(preStartArgs := "");
    var b2 := PutTool(b1, k, t);
    PutQuietly(c1, b1, k, t, codec);
    EmitToolArgReaches(c1, b2, k, b1.tools[k].preStartArgs, codec);
    var r := EmitToolArgDelta(b2, k, b1.tools[k].preStartArgs, codec);
    ChainQuiet(c1, b1, b2, r.out, r.b);
    Chain(c, b, out, b1, r.out, r.b);
  }

  lemma ArguedReaches(c: Check, b: Builder, k: int, name: string, args: string, codec: Codec)
    requires Mirrors(c, b) && Sane(b, codec) && (IsStarted(b, k) || IsBlank(name))
    ensures var r := Argued(b, k, name, args, codec);
            Reaches(c, b, r.out, r.b) && (!r.raised ==> Sane(r.b, codec))
  {
    if args == "" {
      Stay(c, b);
    } else if !IsStarted(b, k) {
      var t := ToolOr(b, k);
      PutToolReaches(c, b, k, t.(preStartArgs := t.preStartArgs + args));
    } else {
      EmitToolArgReaches(c, b, k, args, codec);
    }
  }

  lemma ToolCallReaches(c: Check, b: Builder, tc: ToolDelta, codec: Codec)
    requires Mirrors(c, b) && Sane(b, codec)
    ensures var r := ProcessToolCall(b, tc, codec);
            Reaches(c, b, r.out, r.b) && (!r.raised ==> Sane(r.b, codec))
  {
    var k := Resolve(b, tc);
    var b1 := Recorded(b, k, tc);
    RecordedReaches(c, b, k, tc, codec);
    OpenedReaches(c, b1, k, tc, codec);
    var r := Opened(b1, k, tc, codec);
    ChainQuiet(c, b, b1, r.out, r.b);
    if !r.raised {
      var c1 := Run(c, r.out).value;
      ArguedReaches(c1, r.b, k, ToolOr(b1, k).name, tc.arguments, codec);
      var q := Argued(r.b, k, ToolOr(b1, k).name, tc.arguments, codec);
      Chain(c, b, r.out, r.b, q.out, q.b);
    }
  }

  lemma {:induction false} ToolCallsReach(c: Check, b: Builder, tcs: seq<ToolDelta>, codec: Codec)
    requires Mirrors(c, b) && Sane(b, codec)
    ensures var r := ProcessToolCalls(b, tcs, codec);
            Reaches(c, b, r.out, r.b) && (!r.raised ==> Sane(r.b, codec))
    decreases |tcs|
  {
    if tcs == [] {
      Stay(c, b);
    } else {
      ToolCallReaches(c, b, tcs[0], codec);
      var r := ProcessToolCall(b, tcs[0], codec);
      if !r.raised {
        ToolCallsReach(Run(c, r.out).value, r.b, tcs[1..], codec);
        var q := ProcessToolCalls(r.b, tcs[1..], codec);
        Chain(c, b, r.out, r.b, q.out, q.b);
      }
    }
  }

  // ----- chunks -----

  lemma ThinkSane(b: Builder, content: string, codec: Codec)
    requires Sane(b, codec) && 0 <= b.nextIndex
    ensures Sane(Think(b, content).0, codec) && Sane(Say(b, content).0, codec)
    ensures Say(b, content).0.nextIndex > 0 || b.textIndex == -1
  {
  }

  lemma {:induction false} HeuristicSane(b: Builder, tools: seq<ToolUse>, codec: Codec)
    requires Sane(b, codec) && 0 <= b.nextIndex
    ensures Sane(HeuristicToolUses(b, tools, codec).0, codec)
    decreases |tools|
  {
    if tools != [] {
      HeuristicSane(HeuristicToolUse(b, tools[0], codec).0, tools[1..], codec);
    }
  }

  lemma PartReaches(c: Check, s: Stream, part: ThinkParser.Chunk, cfg: Config)
    requires Mirrors(c, s.b) && Sane(s.b, cfg.codec)
    ensures Reaches(c, s.b, Part(s, part, cfg).1, Part(s, part, cfg).0.b) && Sane(Part(s, part, cfg).0.b, cfg.codec)
  {
    if part.kind.THINKING? {
      if cfg.thinking {
        ThinkReaches(c, s.b, part.content);
        ThinkSane(s.b, part.content, cfg.codec);
      } else {
        Stay(c, s.b);
      }
    } else {
      var (filtered, tools) := cfg.heuristic.feed(s.fed + [part.content]);
      SayFilteredReaches(c, s.b, filtered, tools, cfg.codec);
    }
  }

  lemma SayFilteredReaches(c: Check, b: Builder, filtered: string, tools: seq<ToolUse>, codec: Codec)
    requires Mirrors(c, b) && Sane(b, codec)
    ensures Reaches(c, b, SayFiltered(b, filtered, tools, codec).1, SayFiltered(b, filtered, tools, codec).0)
    ensures Sane(SayFiltered(b, filtered, tools, codec).0, codec)
  {
    var (b1, out1) := if filtered != "" then Say(b, filtered) else (b, []);
    if filtered != "" {
      SayReaches(c, b, filtered);
      ThinkSane(b, filtered, codec);
    } else {
      Stay(c, b);
    }
    HeuristicToolsReach(Run(c, out1).value, b1, tools, codec);
    HeuristicSane(b1, tools, codec);
    Chain(c, b, out1, b1, HeuristicToolUses(b1, tools, codec).1, HeuristicToolUses(b1, tools, codec).0);
  }

  lemma {:induction false} PartsReach(c: Check, s: Stream, parts: seq<ThinkParser.Chunk>, cfg: Config)
    requires Mirrors(c, s.b) && Sane(s.b, cfg.codec)
    ensures Reaches(c, s.b, Parts(s, parts, cfg).1, Parts(s, parts, cfg).0.b)
            && Sane(Parts(s, parts, cfg).0.b, cfg.codec)
    decreases |parts|
  {
    if parts == [] {
      Stay(c, s.b);
    } else {
      PartReaches(c, s, parts[0], cfg);
      var (s1, out1) := Part(s, parts[0], cfg);
      PartsReach(Run(c, out1).value, s1, parts[1..], cfg);
      Chain(c, s.b, out1, s1.b, Parts(s1, parts[1..], cfg).1, Parts(s1, parts[1..], cfg).0.b);
    }
  }

  lemma ReasonReaches(c: Check, b: Builder, reasoning: string, thinking: bool, codec: Codec)
    requires Mirrors(c, b) && Sane(b, codec)
    ensures Reaches(c, b, Reason(b, reasoning, thinking).1, Reason(b, reasoning, thinking).0)
    ensures Sane(Reason(b, reasoning, thinking).0, codec)
  {
    if thinking && reasoning != "" {
      ThinkReaches(c, b, reasoning);
      ThinkSane(b, reasoning, codec);
    } else {
      Stay(c, b);
    }
  }

  lemma CallToolsReaches(c: Check, b: Builder, tcs: seq<ToolDelta>, codec: Codec)
    requires Mirrors(c, b) && Sane(b, codec)
    ensures var r := CallTools(b, tcs, codec);
            Reaches(c, b, r.out, r.b) && (!r.raised ==> Sane(r.b, codec))
  {
    if tcs == [] {
      Stay(c, b);
    } else {
      var (b1, out1) := CloseContentBlocks(b);
      CloseContentReaches(c, b);
      ToolCallsReach(Run(c, out1).value, b1, tcs, codec);
      var r := ProcessToolCalls(b1, tcs, codec);
      Chain(c, b, out1, b1, r.out, r.b);
    }
  }

  lemma OneChunkReaches(c: Check, s: Stream, chunk: Chunk, cfg: Config)
    requires Mirrors(c, s.b) && Sane(s.b, cfg.codec)
    ensures var r := OneChunk(s, chunk, cfg);
            Reaches(c, s.b, r.out, r.s.b) && (!r.raised ==> Sane(r.s.b, cfg.codec))
  {
    match chunk
    case Idle(_) => Stay(c, s.b);
    case Turn(_, _, reasoning, content, toolCalls, _) =>
      var (b1, out1) := Reason(s.b, reasoning, cfg.thinking);
      ReasonReaches(c, s.b, reasoning, cfg.thinking, cfg.codec);
      var s1, c1 := s.(b := b1), Run(c, out1).value;
      var (s2, out2) := FeedContent(s1, content, cfg);
      if content == "" {
        Stay(c1, b1);
      } else {
        var (parser, parts) := ThinkParser.Feed(s1.parser, content);
        PartsReach(c1, s1.(parser := parser), parts, cfg);
      }
      Chain(c, s.b, out1, b1, out2, s2.b);
      var r := CallTools(s2.b, toolCalls, cfg.codec);
      CallToolsReaches(Run(c, out1 + out2).value, s2.b, toolCalls, cfg.codec);
      Chain(c, s.b, out1 + out2, s2.b, r.out, r.b);
  }

  lemma {:induction false} LoopReaches(c: Check, s: Stream, chunks: seq<Chunk>, cfg: Config)
    requires Mirrors(c, s.b) && Sane(s.b, cfg.codec)
    ensures var r := Loop(s, chunks, cfg);
            Reaches(c, s.b, r.out, r.s.b) && (!r.raised ==> Sane(r.s.b, cfg.codec))
    decreases |chunks|
  {
    if chunks == [] {
      Stay(c, s.b);
    } else {
      OneChunkReaches(c, s, chunks[0], cfg);
      var r := OneChunk(s, chunks[0], cfg);
      if !r.raised {
        LoopReaches(Run(c, r.out).value, r.s, chunks[1..], cfg);
        var q := Loop(r.s, chunks[1..], cfg);
        Chain(c, s.b, r.out, r.s.b, q.out, q.s.b);
      }
    }
  }

  // ----- endings -----

  lemma FlushParserReaches(c: Check, s: Stream, cfg: Config)
    requires Mirrors(c, s.b) && Sane(s.b, cfg.codec)
    ensures Reaches(c, s.b, FlushParser(s, cfg).1, FlushParser(s, cfg).0) && Sane(FlushParser(s, cfg).0, cfg.codec)
  {
    var flushed := ThinkParser.Flush(s.parser);
    if flushed.Some? && flushed.value.kind.TEXT? {
      ThinkSane(s.b, flushed.value.content, cfg.codec);
      SayReaches(c, s.b, flushed.value.content);
    } else if flushed.Some? && cfg.thinking {
      ThinkSane(s.b, flushed.value.content, cfg.codec);
      ThinkReaches(c, s.b, flushed.value.content);
    } else {
      Stay(c, s.b);
    }
  }

  /** After padding, at least one block has been started. */
  lemma PadReaches(c: Check, b: Builder, codec: Codec)
    requires Mirrors(c, b) && Sane(b, codec)
    ensures Reaches(c, b, Pad(b).1, Pad(b).0) && Sane(Pad(b).0, codec) && Pad(b).0.nextIndex > 0
  {
    Stay(c, b);
    SayReaches(c, b, " ");
    ThinkSane(b, " ", codec);
    if HasEmittedToolBlock(b) {
      var k :| k in b.tools && b.tools[k].started;
      assert Holds(b, Tool(k), b.tools[k].blockIndex);
    }
  }

  function Emptied(b: Builder, k: int): Builder
    requires k in b.tools
  {
    PutTool(b, k, b.tools[k].(taskArgsEmitted := true, taskArgBuffer := ""))
  }

  /** Flushing one buffer, which does not parse. */
  lemma FlushTurn(b: Builder, keys: seq<int>, codec: Codec)
    requires Sane(b, codec) && keys != [] && keys[0] in b.tools && NeedsFlush(b.tools[keys[0]])
    ensures Sane(Emptied(b, keys[0]), codec)
    ensures FlushTaskArgBuffers(b, keys, codec) ==
              if Escapes(b, keys[0], codec) then None
              else
                match FlushTaskArgBuffers(Emptied(b, keys[0]), keys[1..], codec)
                case None => None
                case Some((b', results)) => Some((b', [(keys[0], "{}")] + results))
  {
    var k := keys[0];
    assert Emptied(b, k) == b.(tools := b.tools[k := b.tools[k].(taskArgsEmitted := true, taskArgBuffer := "")]);
  }

  /** A buffer that the final flush must parse, and whose exception it does not catch. */
  ghost predicate Escapes(b: Builder, k: int, codec: Codec) {
    k in b.tools && NeedsFlush(b.tools[k]) && codec.escapes(b.tools[k].taskArgBuffer)
  }

  ghost predicate AnyEscapes(b: Builder, keys: seq<int>, codec: Codec) {
    exists k :: k in keys && Escapes(b, k, codec)
  }

  lemma EscapesFirst(b: Builder, b1: Builder, k: int, rest: seq<int>, codec: Codec)
    requires k !in rest && forall j | j != k :: Escapes(b1, j, codec) <==> Escapes(b, j, codec)
    ensures AnyEscapes(b, [k] + rest, codec) <==> Escapes(b, k, codec) || AnyEscapes(b1, rest, codec)
  {
    assert forall j :: j in [k] + rest <==> j == k || j in rest;
    if j :| j in rest && Escapes(b1, j, codec) {
      assert Escapes(b, j, codec);
    }
    if j :| j in [k] + rest && Escapes(b, j, codec) && j != k {
      assert Escapes(b1, j, codec);
    }
  }

  /** What a flush leaves: the tools as they were, and an empty object for each of some that were not sent. */
  ghost predicate FlushedTo(c: Check, b: Builder, keys: seq<int>, b': Builder, results: seq<(int, string)>,
                            codec: Codec) {
    && Reaches(c, b, [], b') && Sane(b', codec) && b'.tools.Keys == b.tools.Keys && b'.nextIndex == b.nextIndex
    && (forall k | k in b.tools :: b'.tools[k].started == b.tools[k].started)
    && (forall p | p in results :: p.1 == "{}" && p.0 in keys && p.0 in b.tools && NeedsFlush(b.tools[p.0]))
  }

  lemma FlushedFirst(c: Check, b: Builder, k: int, rest: seq<int>, b': Builder, results: seq<(int, string)>,
                     codec: Codec)
    requires Mirrors(c, b) && k in b.tools && NeedsFlush(b.tools[k])
    requires Reaches(c, b, [], Emptied(b, k)) && FlushedTo(c, Emptied(b, k), rest, b', results, codec)
    ensures FlushedTo(c, b, [k] + rest, b', [(k, "{}")] + results, codec)
  {
    ChainQuiet(c, b, Emptied(b, k), [], b');
  }

  /**
   * What is still buffered at the end does not parse. The flush replaces it by an empty object, and
   * raises exactly if the exception for one of the buffers is not caught.
   */
  lemma {:induction false} FlushRaisesIff(c: Check, b: Builder, keys: seq<int>, codec: Codec)
    requires Mirrors(c, b) && Sane(b, codec) && Distinct(keys)
    ensures var r := FlushTaskArgBuffers(b, keys, codec);
            && (r.None? <==> AnyEscapes(b, keys, codec))
            && (r.Some? ==> FlushedTo(c, b, keys, r.value.0, r.value.1, codec))
    decreases |keys|
  {
    if keys == [] {
      Stay(c, b);
    } else {
      var k, rest := keys[0], keys[1..];
      assert keys == [k] + rest && k !in rest;
      if k in b.tools && NeedsFlush(b.tools[k]) {
        var b1 := Emptied(b, k);
        FlushTurn(b, keys, codec);
        EscapesFirst(b, b1, k, rest, codec);
        PutToolReaches(c, b, k, b1.tools[k]);
        FlushRaisesIff(c, b1, rest, codec);
        var r1 := FlushTaskArgBuffers(b1, rest, codec);
        if r1.Some? && !Escapes(b, k, codec) {
          FlushedFirst(c, b, k, rest, r1.value.0, r1.value.1, codec);
        }
      } else {
        EscapesFirst(b, b, k, rest, codec);
        FlushRaisesIff(c, b, rest, codec);
      }
    }
  }

  lemma {:induction false} ToolDeltasReach(c: Check, b: Builder, results: seq<(int, string)>)
    requires Mirrors(c, b) && forall p | p in results :: IsStarted(b, p.0)
    ensures Reaches(c, b, ToolDeltas(b, results).1, ToolDeltas(b, results).0)
    ensures ToolDeltas(b, results).0.nextIndex == b.nextIndex
    decreases |results|
  {
    if results == [] {
      Stay(c, b);
    } else {
      var k, json := results[0].0, results[0].1;
      assert results[0] in results;
      EmitToolDeltaReaches(c, b, k, json);
      var (b1, out) := EmitToolDelta(b, k, json);
      ToolDeltasReach(Run(c, out).value, b1, results[1..]);
      Chain(c, b, out, b1, ToolDeltas(b1, results[1..]).1, ToolDeltas(b1, results[1..]).0);
    }
  }

  /** Text, thinking and textual tool calls leave the native tools as they are. */
  lemma {:induction false} HeuristicKeepsTools(b: Builder, tools: seq<ToolUse>, codec: Codec)
    ensures HeuristicToolUses(b, tools, codec).0.tools == b.tools
            && HeuristicToolUses(b, tools, codec).0.order == b.order
    decreases |tools|
  {
    if tools != [] {
      HeuristicKeepsTools(HeuristicToolUse(b, tools[0], codec).0, tools[1..], codec);
    }
  }

  function Padded(s: Stream, cfg: Config): Builder {
    Pad(HeuristicToolUses(FlushParser(s, cfg).0, cfg.heuristic.flush(s.fed), cfg.codec).0).0
  }

  function BeforeFlush(s: Stream, cfg: Config): seq<Event> {
    var (b1, out1) := FlushParser(s, cfg);
    var (b2, out2) := HeuristicToolUses(b1, cfg.heuristic.flush(s.fed), cfg.codec);
    out1 + out2 + Pad(b2).1
  }

  /** Up to the flush of buffered arguments, a normal ending leaves the native tools as they are. */
  lemma PaddedReaches(c: Check, s: Stream, cfg: Config)
    requires Mirrors(c, s.b) && Sane(s.b, cfg.codec)
    ensures var b3 := Padded(s, cfg);
            && Reaches(c, s.b, BeforeFlush(s, cfg), b3) && b3.nextIndex > 0
            && Ordered(b3) && Sane(b3, cfg.codec) && b3.tools == s.b.tools
  {
    var codec, tools := cfg.codec, cfg.heuristic.flush(s.fed);
    var (b1, out1) := FlushParser(s, cfg);
    FlushParserReaches(c, s, cfg);
    var (b2, out2) := HeuristicToolUses(b1, tools, codec);
    HeuristicKeepsTools(b1, tools, codec);
    HeuristicToolsReach(Run(c, out1).value, b1, tools, codec);
    HeuristicSane(b1, tools, codec);
    Chain(c, s.b, out1, b1, out2, b2);
    PadAfter(c, s.b, out1 + out2, b2, codec);
  }

  lemma PadAfter(c: Check, b: Builder, out: seq<Event>, b2: Builder, codec: Codec)
    requires Mirrors(c, b) && Reaches(c, b, out, b2) && Sane(b2, codec)
    ensures var (b3, more) := Pad(b2);
            && Reaches(c, b, out + more, b3) && b3.nextIndex > 0
            && Ordered(b3) && Sane(b3, codec) && b3.tools == b2.tools
  {
    var (b3, more) := Pad(b2);
    PadReaches(Run(c, out).value, b2, codec);
    Chain(c, b, out, b2, more, b3);
  }

  /** A buffer whose exception the final flush does not catch. */
  ghost predicate FlushRaises(b: Builder, codec: Codec) {
    exists k :: Escapes(b, k, codec)
  }

  lemma BeforeCloseReaches(c: Check, s: Stream, cfg: Config)
    requires Mirrors(c, s.b) && Sane(s.b, cfg.codec)
    ensures var r := BeforeClose(s, cfg);
            Reaches(c, s.b, r.out, r.b) && r.b.nextIndex > 0 && (r.raised <==> FlushRaises(s.b, cfg.codec))
  {
    var b3, codec := Padded(s, cfg), cfg.codec;
    PaddedReaches(c, s, cfg);
    var c3 := Run(c, BeforeFlush(s, cfg)).value;
    FlushRaisesIff(c3, b3, b3.order, codec);
    SameEscapes(s.b, b3, codec);
    var r := FlushTaskArgBuffers(b3, b3.order, codec);
    if r.Some? {
      var (b4, results) := r.value;
      ToolDeltasReach(c3, b4, results);
      var (b5, out5) := ToolDeltas(b4, results);
      ChainQuiet(c3, b3, b4, out5, b5);
      Chain(c, s.b, BeforeFlush(s, cfg), b3, out5, b5);
    }
  }

  lemma SameEscapes(b: Builder, b': Builder, codec: Codec)
    requires Ordered(b') && b'.tools == b.tools
    ensures AnyEscapes(b', b'.order, codec) <==> FlushRaises(b, codec)
  {
    forall k ensures k in b'.order && Escapes(b', k, codec) <==> Escapes(b, k, codec) {
    }
  }

  /** Block x was started for a tool among `keys`. */
  ghost predicate StartedAmong(tools: map<int, ToolCall>, keys: seq<int>, x: int) {
    exists k :: k in keys && StartedAt(tools, k, x)
  }

  lemma AmongRest(tools: map<int, ToolCall>, k: int, rest: seq<int>, x: int)
    requires StartedAmong(tools, [k] + rest, x) && !StartedAt(tools, k, x)
    ensures StartedAmong(tools, rest, x)
  {
    var j :| j in [k] + rest && StartedAt(tools, j, x);
    assert j in rest;
  }

  lemma {:induction false} ToolStopsClose(c: Check, tools: map<int, ToolCall>, keys: seq<int>)
    requires Distinct(keys)
    requires forall j, k, x | j in keys && k in keys && StartedAt(tools, j, x) && StartedAt(tools, k, x) :: j == k
    requires forall k, x | k in keys && StartedAt(tools, k, x) :: x in c.open
    requires forall x | x in c.open :: StartedAmong(tools, keys, x)
    ensures Run(c, ToolStops(tools, keys)) == Some(c.(open := map[]))
    decreases |keys|
  {
    if keys == [] {
      forall x ensures x !in c.open {
        assert !StartedAmong(tools, keys, x);
      }
      assert c.open == map[];
    } else {
      var k, rest := keys[0], keys[1..];
      assert keys == [k] + rest && k !in rest;
      if k in tools && tools[k].started {
        var x := tools[k].blockIndex;
        assert StartedAt(tools, k, x);
        var c1 := c.(open := c.open - {x});
        forall y | y in c1.open ensures StartedAmong(tools, rest, y) {
          AmongRest(tools, k, rest, y);
        }
        ToolStopsClose(c1, tools, rest);
        RunOne(c, BlockStop(x));
        RunAppend(c, [BlockStop(x)], ToolStops(tools, rest));
      } else {
        forall y | y in c.open ensures StartedAmong(tools, rest, y) {
          AmongRest(tools, k, rest, y);
        }
        ToolStopsClose(c, tools, rest);
        AppendNone(ToolStops(tools, rest));
      }
    }
  }

  /** Closing everything leaves the checker with no open block. */
  lemma CloseAllCloses(c: Check, b: Builder)
    requires Mirrors(c, b)
    ensures Run(c, CloseAllBlocks(b).1) == Some(c.(open := map[]))
  {
    var (b1, out1) := CloseContentBlocks(b);
    CloseContentReaches(c, b);
    var c1 := Run(c, out1).value;
    assert forall k, x :: StartedAt(b1.tools, k, x) <==> Holds(b1, Tool(k), x);
    forall j, k, x | StartedAt(b1.tools, j, x) && StartedAt(b1.tools, k, x) ensures j == k {
      assert Holds(b1, Tool(j), x) && Holds(b1, Tool(k), x);
    }
    forall x | x in c1.open ensures StartedAmong(b1.tools, b1.order, x) {
      var w :| Holds(b1, w, x);
      assert StartedAt(b1.tools, w.k, x);
    }
    ToolStopsClose(c1, b1.tools, b1.order);
    RunAppend(c, out1, ToolStops(b1.tools, b1.order));
    CloseContentSeen(c, b);
  }

  lemma CloseContentSeen(c: Check, b: Builder)
    requires Mirrors(c, b)
    ensures Run(c, CloseContentBlocks(b).1).Some? && Run(c, CloseContentBlocks(b).1).value.seen == c.seen
  {
    CloseContentReaches(c, b);
    var c1 := Run(c, CloseContentBlocks(b).1).value;
    assert forall x :: x in c1.seen <==> x in c.seen;
  }

  lemma TailPasses(c: Check, reason: string, tokens: int)
    ensures Run(c, Tail(reason, tokens)) == Some(c)
  {
    RunSnoc(c, [MessageDelta(reason, tokens)], MessageStop);
    RunOne(c, MessageDelta(reason, tokens));
    assert [MessageDelta(reason, tokens)] + [MessageStop] == Tail(reason, tokens);
  }

  lemma FailureEndingCloses(c: Check, b: Builder, message: string)
    requires Mirrors(c, b)
    ensures var r := Run(c, FailureEnding(b, message));
            r.Some? && r.value.open == map[] && r.value.seen != {}
  {
    var (b1, out1) := CloseAllBlocks(b);
    CloseAllCloses(c, b);
    var c1 := c.(open := map[]);
    var n := b1.nextIndex;
    var middle := if HasEmittedToolBlock(b1) then [Error(message)] else ErrorBlock(n, message);
    if HasEmittedToolBlock(b1) {
      RunOne(c1, Error(message));
      var k :| k in b.tools && b.tools[k].started;
      assert Holds(b, Tool(k), b.tools[k].blockIndex);
      assert b.tools[k].blockIndex in c1.seen;
    } else {
      ErrorBlockPasses(c1, n, message);
      assert n in c1.seen + {n};
    }
    RunAppend(c, out1, middle);
    var c2 := Run(c1, middle).value;
    TailPasses(c2, "end_turn", 1);
    RunAppend(c, out1 + middle, Tail("end_turn", 1));
  }

  lemma ErrorBlockPasses(c: Check, n: int, message: string)
    requires n !in c.open && n !in c.seen
    ensures Run(c, ErrorBlock(n, message)) == Some(Check(c.open, c.seen + {n}))
  {
    var s, t, u := BlockStart(n, TEXT_BLOCK), BlockDelta(n, Delta("text_delta", message)), BlockStop(n);
    var c1 := Check(c.open[n := "text"], c.seen + {n});
    assert Step(c, s) == Some(c1) && Step(c1, t) == Some(c1);
    assert c1.open - {n} == c.open;
    assert [s, t, u][1..] == [t, u] && [t, u][1..] == [u];
    RunOne(c1, u);
  }

  lemma NormalEndingCloses(c: Check, b: Builder, reason: string, tokens: int)
    requires Mirrors(c, b) && b.nextIndex > 0
    ensures var r := Run(c, CloseAllBlocks(b).1 + Tail(reason, tokens));
            r.Some? && r.value.open == map[] && r.value.seen != {}
  {
    CloseAllCloses(c, b);
    var c1 := c.(open := map[]);
    TailPasses(c1, reason, tokens);
    RunAppend(c, CloseAllBlocks(b).1, Tail(reason, tokens));
    assert 0 in c1.seen;
  }

  // ----- error events -----

  ghost predicate NoErrors(es: seq<Event>) {
    forall e | e in es :: !e.Error?
  }

  /** Nothing but starts, deltas and stops of blocks. */
  ghost predicate OnlyBlocks(es: seq<Event>) {
    forall e | e in es :: e.BlockStart? || e.BlockDelta? || e.BlockStop?
  }

  lemma {:induction false} ToolStopsSendsBlocks(tools: map<int, ToolCall>, keys: seq<int>)
    ensures OnlyBlocks(ToolStops(tools, keys))
  {
    if keys != [] {
      ToolStopsSendsBlocks(tools, keys[1..]);
    }
  }

  lemma {:induction false} HeuristicSendsBlocks(b: Builder, tools: seq<ToolUse>, codec: Codec)
    ensures OnlyBlocks(HeuristicToolUses(b, tools, codec).1)
    decreases |tools|
  {
    if tools != [] {
      HeuristicSendsBlocks(HeuristicToolUse(b, tools[0], codec).0, tools[1..], codec);
    }
  }

  lemma {:induction false} PartsSendsBlocks(s: Stream, parts: seq<ThinkParser.Chunk>, cfg: Config)
    ensures OnlyBlocks(Parts(s, parts, cfg).1)
    decreases |parts|
  {
    if parts != [] {
      var (s1, out1) := Part(s, parts[0], cfg);
      PartsSendsBlocks(s1, parts[1..], cfg);
      if parts[0].kind.TEXT? {
        var (filtered, tools) := cfg.heuristic.feed(s.fed + [parts[0].content]);
        var (b1, out) := if filtered != "" then Say(s.b, filtered) else (s.b, []);
        HeuristicSendsBlocks(b1, tools, cfg.codec);
        assert OnlyBlocks(out1);
      } else {
        assert OnlyBlocks(out1);
      }
    }
  }

  lemma ArgSendsBlocks(b: Builder, k: int, args: string, codec: Codec)
    ensures OnlyBlocks(EmitToolArgDelta(b, k, args, codec).out)
  {
  }

  lemma OpenedSendsBlocks(b: Builder, k: int, tc: ToolDelta, codec: Codec)
    ensures OnlyBlocks(Opened(b, k, tc, codec).out)
  {
    var b1 := StartToolBlock(b, k, ResolvedId(b, k, tc), Strip(ToolOr(b, k).name)).0;
    ArgSendsBlocks(PutTool(b1, k, b1.tools[k].(preStartArgs := "")), k, b1.tools[k].preStartArgs, codec);
  }

  lemma ArguedSendsBlocks(b: Builder, k: int, name: string, args: string, codec: Codec)
    ensures OnlyBlocks(Argued(b, k, name, args, codec).out)
  {
    ArgSendsBlocks(b, k, args, codec);
    ArgSendsBlocks(EnsureToolState(b, k), k, args, codec);
  }

  lemma ToolCallSendsBlocks(b: Builder, tc: ToolDelta, codec: Codec)
    ensures OnlyBlocks(ProcessToolCall(b, tc, codec).out)
  {
    var k := Resolve(b, tc);
    var b1 := Recorded(b, k, tc);
    OpenedSendsBlocks(b1, k, tc, codec);
    ArguedSendsBlocks(Opened(b1, k, tc, codec).b, k, ToolOr(b1, k).name, tc.arguments, codec);
  }

  lemma {:induction false} ToolCallsSendsBlocks(b: Builder, tcs: seq<ToolDelta>, codec: Codec)
    ensures OnlyBlocks(ProcessToolCalls(b, tcs, codec).out)
    decreases |tcs|
  {
    if tcs != [] {
      ToolCallSendsBlocks(b, tcs[0], codec);
      ToolCallsSendsBlocks(ProcessToolCall(b, tcs[0], codec).b, tcs[1..], codec);
    }
  }

  lemma OneChunkSendsBlocks(s: Stream, chunk: Chunk, cfg: Config)
    ensures OnlyBlocks(OneChunk(s, chunk, cfg).out)
  {
    if chunk.Turn? {
      var (b1, out1) := Reason(s.b, chunk.reasoning, cfg.thinking);
      var s1 := s.(b := b1);
      var (s2, out2) := FeedContent(s1, chunk.content, cfg);
      if chunk.content != "" {
        var (parser, parts) := ThinkParser.Feed(s1.parser, chunk.content);
        PartsSendsBlocks(s1.(parser := parser), parts, cfg);
      }
      ToolCallsSendsBlocks(CloseContentBlocks(s2.b).0, chunk.toolCalls, cfg.codec);
      assert OnlyBlocks(out1) && OnlyBlocks(out2) && OnlyBlocks(CallTools(s2.b, chunk.toolCalls, cfg.codec).out);
    }
  }

  lemma {:induction false} LoopSendsBlocks(s: Stream, chunks: seq<Chunk>, cfg: Config)
    ensures OnlyBlocks(Loop(s, chunks, cfg).out)
    decreases |chunks|
  {
    if chunks != [] {
      OneChunkSendsBlocks(s, chunks[0], cfg);
      LoopSendsBlocks(OneChunk(s, chunks[0], cfg).s, chunks[1..], cfg);
    }
  }

  lemma {:induction false} ToolDeltasSendsBlocks(b: Builder, results: seq<(int, string)>)
    ensures OnlyBlocks(ToolDeltas(b, results).1)
    decreases |results|
  {
    if results != [] && results[0].0 in b.tools {
      ToolDeltasSendsBlocks(EmitToolDelta(b, results[0].0, results[0].1).0, results[1..]);
    }
  }

  lemma BeforeCloseSendsBlocks(s: Stream, cfg: Config)
    ensures OnlyBlocks(BeforeClose(s, cfg).out)
  {
    var (b1, out1) := FlushParser(s, cfg);
    var (b2, out2) := HeuristicToolUses(b1, cfg.heuristic.flush(s.fed), cfg.codec);
    HeuristicSendsBlocks(b1, cfg.heuristic.flush(s.fed), cfg.codec);
    var (b3, out3) := Pad(b2);
    assert OnlyBlocks(out1) && OnlyBlocks(out2) && OnlyBlocks(out3);
    var r := FlushTaskArgBuffers(b3, b3.order, cfg.codec);
    if r.Some? {
      ToolDeltasSendsBlocks(r.value.0, r.value.1);
    }
  }

  // ----- the theorem -----

  /** A response fails after a tool block was opened: then it carries a top-level error event. */
  predicate EndsInErrorEvent(chunks: seq<Chunk>, fails: bool, cfg: Config) {
    var r := Loop(FRESH, chunks, cfg);
    (r.raised || fails) && HasEmittedToolBlock(r.s.b)
  }

  /** Without a count of tokens from the upstream, the tokenizer must take what has been sent. */
  ghost predicate EstimateRaises(b: Builder, chunks: seq<Chunk>, cfg: Config) {
    Usage(chunks).None? && cfg.encoder.Encoding? && Unencodable(b, cfg.encoder.encode)
  }

  /**
   * The end of a response that did not fail raises: the flush of buffered arguments, or the estimate
   * of output tokens.
   */
  ghost predicate EndRaises(chunks: seq<Chunk>, fails: bool, cfg: Config) {
    var r := Loop(FRESH, chunks, cfg);
    && !r.raised && !fails
    && (FlushRaises(r.s.b, cfg.codec) || EstimateRaises(BeforeClose(r.s, cfg).b, chunks, cfg))
  }

  lemma EmptyMirrors(codec: Codec)
    ensures Mirrors(START, EMPTY) && Sane(EMPTY, codec)
  {
  }

  lemma Assemble(before: seq<Event>, c: Check, rest: seq<Event>, allowError: bool)
    requires Run(START, before) == Some(c) && NoErrors(before) && |before| > 0 && before[0].MessageStart?
    requires |rest| > 0 && rest[|rest| - 1] == MessageStop
    requires var r := Run(c, rest); r.Some? && r.value.open == map[] && r.value.seen != {}
    ensures Satisfies(before + rest, allowError) <==> (allowError || NoErrors(rest))
  {
    var out := before + rest;
    RunAppend(START, before, rest);
    assert out[0].MessageStart? && out[|out| - 1] == MessageStop;
    if !NoErrors(rest) {
      var e :| e in rest && e.Error?;
      assert e in out;
    }
  }

  lemma CloseAllSendsBlocks(b: Builder)
    ensures OnlyBlocks(CloseAllBlocks(b).1)
  {
    ToolStopsSendsBlocks(CloseContentBlocks(b).0.tools, CloseContentBlocks(b).0.order);
  }

  /** The estimate after the closing stops, in terms of what has been sent. */
  lemma EndingShape(c: Check, b: Builder, chunks: seq<Chunk>, cfg: Config)
    requires Mirrors(c, b)
    ensures EstimateRaises(b, chunks, cfg) <==> Tokens(CloseAllBlocks(b).0, chunks, cfg).None?
    ensures Ending(b, chunks, cfg) ==
              if EstimateRaises(b, chunks, cfg) then CloseAllBlocks(b).1
              else CloseAllBlocks(b).1
                   + Tail(MapStopReason(FinishReason(chunks)), Tokens(CloseAllBlocks(b).0, chunks, cfg).value)
  {
    EstimateRaisesIff(CloseAllBlocks(b).0, cfg.encoder);
  }

  lemma NormalEndingShape(b: Builder, reason: string, tokens: int)
    ensures var e := CloseAllBlocks(b).1 + Tail(reason, tokens);
            |e| > 0 && e[|e| - 1] == MessageStop && NoErrors(e)
  {
    CloseAllSendsBlocks(b);
  }

  lemma NormalResponse(before: seq<Event>, c: Check, b: Builder, q: Emitted, reason: string, tokens: int,
                       allowError: bool)
    requires Run(START, before) == Some(c) && NoErrors(before) && |before| > 0 && before[0].MessageStart?
    requires Reaches(c, b, q.out, q.b) && q.b.nextIndex > 0 && NoErrors(q.out)
    ensures Satisfies(before + (q.out + (CloseAllBlocks(q.b).1 + Tail(reason, tokens))), allowError)
  {
    var ending := CloseAllBlocks(q.b).1 + Tail(reason, tokens);
    RunAppend(c, q.out, ending);
    NormalEndingCloses(Run(c, q.out).value, q.b, reason, tokens);
    NormalEndingShape(q.b, reason, tokens);
    Assemble(before, c, q.out + ending, allowError);
  }

  lemma BlocksAreNoErrors(es: seq<Event>)
    requires OnlyBlocks(es)
    ensures NoErrors(es)
  {
  }

  /** Without a tail the stream does not end with the stop of its message. */
  lemma CutResponse(start: Event, out: seq<Event>, rest: seq<Event>, allowError: bool)
    requires start.MessageStart? && OnlyBlocks(out) && OnlyBlocks(rest)
    ensures !Satisfies([start] + out + rest, allowError)
  {
    var all := [start] + out + rest;
    var last := all[|all| - 1];
    assert last == start || last in out || last in rest;
  }

  lemma LoopStarts(start: Event, chunks: seq<Chunk>, cfg: Config) returns (c: Check)
    requires start.MessageStart?
    ensures var r := Loop(FRESH, chunks, cfg); var before := [start] + r.out;
            && Run(START, before) == Some(c) && NoErrors(before) && before[0] == start && OnlyBlocks(r.out)
            && Mirrors(c, r.s.b) && (!r.raised ==> Sane(r.s.b, cfg.codec))
  {
    var r := Loop(FRESH, chunks, cfg);
    EmptyMirrors(cfg.codec);
    LoopReaches(START, FRESH, chunks, cfg);
    LoopSendsBlocks(FRESH, chunks, cfg);
    BlocksAreNoErrors(r.out);
    RunOne(START, start);
    RunAppend(START, [start], r.out);
    c := Run(START, r.out).value;
  }

  /**
   * What follows the chunks of a response that does not fail, given what is emitted before the
   * closing stops.
   */
  lemma NormalEnd(start: Event, sent: seq<Event>, c: Check, b: Builder, q: Emitted, chunks: seq<Chunk>, cfg: Config,
                  allowError: bool)
    requires start.MessageStart? && Run(START, [start] + sent) == Some(c) && OnlyBlocks(sent)
    requires Reaches(c, b, q.out, q.b) && q.b.nextIndex > 0 && OnlyBlocks(q.out)
    ensures Satisfies([start] + sent + (q.out + if q.raised then [] else Ending(q.b, chunks, cfg)), allowError)
            <==> !q.raised && !EstimateRaises(q.b, chunks, cfg)
  {
    EndingShape(Run(c, q.out).value, q.b, chunks, cfg);
    if q.raised {
      CutResponse(start, sent, q.out + [], allowError);
    } else if EstimateRaises(q.b, chunks, cfg) {
      CloseAllSendsBlocks(q.b);
      CutResponse(start, sent, q.out + CloseAllBlocks(q.b).1, allowError);
    } else {
      BlocksAreNoErrors(sent);
      BlocksAreNoErrors(q.out);
      NormalResponse([start] + sent, c, b, q, MapStopReason(FinishReason(chunks)),
                     Tokens(CloseAllBlocks(q.b).0, chunks, cfg).value, allowError);
    }
  }

  /**
   * For any chunks, any textual tool calls, and a failure after any chunk or inside one: the whole
   * response meets the stream contract exactly if its end does not raise, and an error event is
   * allowed or it does not fail after a tool block was opened.
   */
  lemma ResponseMeetsContract(id: string, model: string, chunks: seq<Chunk>, fails: bool, message: string, cfg: Config,
                              allowError: bool)
    ensures Satisfies(Response(MessageStart(id, model), chunks, fails, message, cfg), allowError)
            <==> !EndRaises(chunks, fails, cfg) && (allowError || !EndsInErrorEvent(chunks, fails, cfg))
  {
    var start := MessageStart(id, model);
    var c := LoopStarts(start, chunks, cfg);
    var r := Loop(FRESH, chunks, cfg);
    if r.raised || fails {
      FailureEndingCloses(c, r.s.b, message);
      FailureErrors(r.s.b, message);
      Assemble([start] + r.out, c, FailureEnding(r.s.b, message), allowError);
    } else {
      BeforeCloseReaches(c, r.s, cfg);
      BeforeCloseSendsBlocks(r.s, cfg);
      NormalEnd(start, r.out, c, r.s.b, BeforeClose(r.s, cfg), chunks, cfg, allowError);
    }
  }

  lemma FailureErrors(b: Builder, message: string)
    ensures NoErrors(FailureEnding(b, message)) <==> !HasEmittedToolBlock(b)
    ensures var e := FailureEnding(b, message); |e| > 0 && e[|e| - 1] == MessageStop
  {
    var (b1, out1) := CloseAllBlocks(b);
    CloseAllSendsBlocks(b);
    var e := FailureEnding(b, message);
    if HasEmittedToolBlock(b1) {
      assert e[|out1|] == Error(message);
    }
  }
}
