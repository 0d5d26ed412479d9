/**
 * What every message of a history is converted to, read off its blocks alone: the user's texts
 * between tool results, the assistant's texts and thoughts, its tool calls, and what is deferred.
 */
module ConversionReading {
  import opened Text
  import opened Conversion
  import opened ConversionDeferred

  // ----- what blocks hold -----

  /** The texts of an assistant message, with its thoughts among them where these are replayed in tags. */
  function Texts(blocks: seq<Block>, tagged: bool): seq<string> {
    if blocks == [] then []
    else
      var last := blocks[|blocks| - 1];
      Texts(blocks[..|blocks| - 1], tagged)
      + (if last.TextBlock? then [last.text]
         else if last.ThinkingBlock? && tagged then ["<think>\n" + last.thinking + "\n</think>"]
         else [])
  }

  function Thoughts(blocks: seq<Block>): seq<string> {
    if blocks == [] then []
    else
      var last := blocks[|blocks| - 1];
      Thoughts(blocks[..|blocks| - 1]) + if last.ThinkingBlock? then [last.thinking] else []
  }

  /** The tool uses among the blocks, or the others. */
  function Calls(blocks: seq<Block>, calls: bool): seq<Block> {
    if blocks == [] then []
    else
      var last := blocks[|blocks| - 1];
      Calls(blocks[..|blocks| - 1], calls) + if last.ToolUse? == calls then [last] else []
  }

  // ----- assistant messages -----

  /** Texts, and for a provider that takes reasoning the message's own or else its thoughts. */
  function AssistantReads(blocks: seq<Block>, reasoning: Option<string>, replay: Replay): Converted {
    var content, thoughts := Join(Texts(blocks, replay == ThinkTags), "\n\n"), Join(Thoughts(blocks), "\n");
    Assistant(if content == "" then " " else content, [],
              if replay != ReasoningContent then None
              else if reasoning.Some? then reasoning
              else if thoughts == "" then None else Some(thoughts))
  }

  /** The first k blocks come before the first tool use. */
  predicate CallsFrom(blocks: seq<Block>, k: nat) {
    k < |blocks| && blocks[k].ToolUse? && forall i | 0 <= i < k :: !blocks[i].ToolUse?
  }

  /**
   * A message with tool uses, the first of them at k: what precedes them, and all of them; a lone space
   * is left out.
   */
  function CallingReads(blocks: seq<Block>, k: nat, reasoning: Option<string>, replay: Replay): Converted
    requires k <= |blocks|
  {
    var first := if k == 0 then Assistant("", [], if replay == ReasoningContent then reasoning else None)
                 else AssistantReads(blocks[..k], reasoning, replay);
    Assistant(if first.content == " " then "" else first.content, Calls(blocks, true), first.reasoning)
  }

  /** What the message defers: the other blocks after the first tool use. */
  function DeferredReads(blocks: seq<Block>, k: nat, reasoning: Option<string>, replay: Replay): Converted
    requires k <= |blocks|
  {
    AssistantReads(Calls(blocks[k..], false), reasoning, replay)
  }

  // ----- user messages -----

  function PlainTexts(blocks: seq<Block>): seq<string> {
    Texts(blocks, false)
  }

  function FirstResult(blocks: seq<Block>): (k: nat)
    ensures k <= |blocks| && (k < |blocks| ==> blocks[k].ToolResult?)
    ensures forall i | 0 <= i < k :: !blocks[i].ToolResult?
  {
    if blocks == [] || blocks[0].ToolResult? then 0 else 1 + FirstResult(blocks[1..])
  }

  function SpokenAs(texts: seq<string>): seq<Converted> {
    if texts == [] then [] else [Other("user", Join(texts, "\n"))]
  }

  /** The texts before each tool result, joined, and the result; and so on after it. */
  function UserReads(blocks: seq<Block>): seq<Converted>
    decreases |blocks|
  {
    var k := FirstResult(blocks);
    SpokenAs(PlainTexts(blocks[..k]))
    + if k == |blocks| then [] else [Tool(blocks[k].useId, blocks[k].result)] + UserReads(blocks[k + 1..])
  }

  // ----- histories -----

  function OwnReasoning(m: Message): Option<string> {
    if m.reasoning.Some? && m.reasoning.value != "" then m.reasoning else None
  }

  function FirstCall(blocks: seq<Block>): (k: nat)
    ensures k == |blocks| || CallsFrom(blocks, k)
    ensures k == |blocks| ==> forall i | 0 <= i < k :: !blocks[i].ToolUse?
  {
    if blocks == [] || blocks[0].ToolUse? then 0 else 1 + FirstCall(blocks[1..])
  }

  /** What a message is converted to, without what it defers. */
  function Reads(m: Message, replay: Replay): seq<Converted> {
    var reasoning := OwnReasoning(m);
    match m.content
    case Value(text) => [Other(m.role, text)]
    case Str(text) =>
      if m.role != "assistant" || reasoning.None? || replay == Disabled then [Other(m.role, text)]
      else if replay == ReasoningContent then [Assistant(text, [], reasoning)]
      else
        var tagged := "<think>\n" + reasoning.value + "\n</think>";
        [Assistant(if text == "" then tagged else tagged + "\n\n" + text, [], None)]
    case Blocks(blocks) =>
      if m.role == "user" then UserReads(blocks)
      else if m.role != "assistant" then []
      else if FirstCall(blocks) == |blocks| then [AssistantReads(blocks, reasoning, replay)]
      else [CallingReads(blocks, FirstCall(blocks), reasoning, replay)]
  }

  function AllRead(messages: seq<Message>, replay: Replay): seq<Converted> {
    if messages == [] then [] else Reads(messages[0], replay) + AllRead(messages[1..], replay)
  }

  /** The messages that are not deferred. */
  function Direct(out: seq<Out>): seq<Converted> {
    if out == [] then [] else (if out[0].deferredOf.None? then [out[0].msg] else []) + Direct(out[1..])
  }

  lemma {:induction false} DirectAppend(a: seq<Out>, b: seq<Out>)
    ensures Direct(a + b) == Direct(a) + Direct(b)
  {
    if a == [] {
      AppendNone(b);
      AppendNone(Direct(b));
    } else {
      AppendTail(a, b);
      DirectAppend(a[1..], b);
      Assoc(if a[0].deferredOf.None? then [a[0].msg] else [], Direct(a[1..]), Direct(b));
    }
  }

  lemma DirectOne(x: Out)
    ensures Direct([x]) == if x.deferredOf.None? then [x.msg] else []
  {
    assert [x][1..] == [];
  }

  // ----- the conversion of blocks -----

  lemma {:induction false} PartsSnoc(blocks: seq<Block>, b: Block, replay: Replay)
    ensures ContentParts(blocks + [b], replay) == ContentParts(blocks, replay) + PartOf(b, replay)
    ensures ThinkingParts(blocks + [b]) == ThinkingParts(blocks) + if b.ThinkingBlock? then [b.thinking] else []
    ensures ToolUses(blocks + [b]) == ToolUses(blocks) + if b.ToolUse? then [b] else []
    ensures WithoutToolUses(blocks + [b]) == WithoutToolUses(blocks) + if b.ToolUse? then [] else [b]
  {
    if blocks == [] {
      OneBlock(b, replay);
    } else {
      var first, rest := blocks[0], blocks[1..];
      AppendTail(blocks, [b]);
      PartsSnoc(rest, b, replay);
      Assoc(PartOf(first, replay), ContentParts(rest, replay), PartOf(b, replay));
      Assoc(if first.ThinkingBlock? then [first.thinking] else [], ThinkingParts(rest),
            if b.ThinkingBlock? then [b.thinking] else []);
      Assoc(if first.ToolUse? then [first] else [], ToolUses(rest), if b.ToolUse? then [b] else []);
      Assoc(if first.ToolUse? then [] else [first], WithoutToolUses(rest), if b.ToolUse? then [] else [b]);
    }
  }

  lemma OneBlock(b: Block, replay: Replay)
    ensures ContentParts([] + [b], replay) == [] + PartOf(b, replay)
    ensures ThinkingParts([] + [b]) == [] + if b.ThinkingBlock? then [b.thinking] else []
    ensures ToolUses([] + [b]) == [] + if b.ToolUse? then [b] else []
    ensures WithoutToolUses([] + [b]) == [] + if b.ToolUse? then [] else [b]
  {
    assert [] + [b] == [b] && [b][1..] == [];
  }

  lemma {:induction false} BlocksHold(blocks: seq<Block>, replay: Replay)
    ensures ContentParts(blocks, replay) == Texts(blocks, replay == ThinkTags)
    ensures ThinkingParts(blocks) == Thoughts(blocks)
    ensures ToolUses(blocks) == Calls(blocks, true) && WithoutToolUses(blocks) == Calls(blocks, false)
    decreases |blocks|
  {
    if blocks != [] {
      var init, last := blocks[..|blocks| - 1], blocks[|blocks| - 1];
      assert blocks == init + [last];
      BlocksHold(init, replay);
      PartsSnoc(init, last, replay);
    }
  }

  lemma {:induction false} NoCalls(blocks: seq<Block>)
    requires forall b | b in blocks :: !b.ToolUse?
    ensures ToolUses(blocks) == []
  {
    if blocks != [] {
      assert blocks[0] in blocks;
      NoCalls(blocks[1..]);
    }
  }

  lemma AssistantIsRead(blocks: seq<Block>, reasoning: Option<string>, replay: Replay)
    requires forall b | b in blocks :: !b.ToolUse?
    ensures AssistantMessage(blocks, reasoning, replay) == AssistantReads(blocks, reasoning, replay)
  {
    BlocksHold(blocks, replay);
    NoCalls(blocks);
  }

  lemma {:induction false} SameFirst(blocks: seq<Block>)
    ensures FirstToolUse(blocks) == FirstCall(blocks)
  {
  }

  lemma SplitIsRead(blocks: seq<Block>, reasoning: Option<string>, replay: Replay)
    ensures var k := FirstToolUse(blocks);
            && SplitMessage(blocks, reasoning, replay) == CallingReads(blocks, k, reasoning, replay)
            && AssistantMessage(DeferredBlocks(blocks), reasoning, replay) ==
                 DeferredReads(blocks, k, reasoning, replay)
  {
    var k := FirstToolUse(blocks);
    BlocksHold(blocks, replay);
    BlocksHold(blocks[k..], replay);
    AssistantIsRead(blocks[..k], reasoning, replay);
    NotCalls(blocks[k..]);
    AssistantIsRead(DeferredBlocks(blocks), reasoning, replay);
  }

  lemma {:induction false} NotCalls(blocks: seq<Block>)
    ensures forall b | b in WithoutToolUses(blocks) :: !b.ToolUse?
  {
    if blocks != [] {
      NotCalls(blocks[1..]);
    }
  }

  // ----- the conversion of user messages -----

  /** The reading of what is left when `texts` have been met since the last result. */
  function ReadsFrom(texts: seq<string>, blocks: seq<Block>): seq<Converted> {
    var k := FirstResult(blocks);
    SpokenAs(texts + PlainTexts(blocks[..k]))
    + if k == |blocks| then [] else [Tool(blocks[k].useId, blocks[k].result)] + UserReads(blocks[k + 1..])
  }

  lemma {:induction false} TextsFirst(b: Block, blocks: seq<Block>)
    ensures PlainTexts([b] + blocks) == (if b.TextBlock? then [b.text] else []) + PlainTexts(blocks)
    decreases |blocks|
  {
    var all := [b] + blocks;
    if blocks == [] {
      assert all[..|all| - 1] == [];
    } else {
      var init, last := blocks[..|blocks| - 1], blocks[|blocks| - 1];
      TextsFirst(b, init);
      assert all[..|all| - 1] == [b] + init;
      Assoc(if b.TextBlock? then [b.text] else [], PlainTexts(init), if last.TextBlock? then [last.text] else []);
    }
  }

  lemma ReadsTurn(texts: seq<string>, b: Block, rest: seq<Block>)
    ensures ReadsFrom(texts, [b] + rest) ==
              if b.ToolResult? then SpokenAs(texts) + [Tool(b.useId, b.result)] + ReadsFrom([], rest)
              else ReadsFrom(if b.TextBlock? then texts + [b.text] else texts, rest)
  {
    var all := [b] + rest;
    assert all[1..] == rest;
    if b.ToolResult? {
      assert FirstResult(all) == 0 && all[..0] == [] && all[0 + 1..] == rest;
      AppendNone(texts);
      EmptyTexts(rest);
      Assoc(SpokenAs(texts), [Tool(b.useId, b.result)], UserReads(rest));
    } else {
      var k := FirstResult(rest);
      assert FirstResult(all) == k + 1 && all[..k + 1] == [b] + rest[..k];
      if k < |rest| {
        assert all[k + 1 + 1..] == rest[k + 1..];
      }
      TextsFirst(b, rest[..k]);
      AppendNone(texts);
      AppendNone(PlainTexts(rest[..k]));
      if b.TextBlock? {
        Assoc(texts, [b.text], PlainTexts(rest[..k]));
      }
    }
  }

  lemma EmptyTexts(blocks: seq<Block>)
    ensures ReadsFrom([], blocks) == UserReads(blocks)
  {
    AppendNone(PlainTexts(blocks[..FirstResult(blocks)]));
  }

  lemma FlushedIsRead(s: Scan)
    ensures Direct(Flushed(s)) == Direct(s.out) + SpokenAs(s.texts)
  {
    AppendNone(Direct(s.out));
    if s.texts != [] {
      var x := Out(Other("user", Join(s.texts, "\n")), None);
      DirectAppend(s.out, [x]);
      DirectOne(x);
    }
  }

  lemma ResultIsRead(s: Scan, b: Block, pending: Option<Pending>)
    requires b.ToolResult?
    ensures var s' := ScanBlock(s, b, pending);
            s'.texts == [] && Direct(s'.out) == Direct(s.out) + SpokenAs(s.texts) + [Tool(b.useId, b.result)]
  {
    var tool := Out(Tool(b.useId, b.result), None);
    FlushedIsRead(s);
    DirectAppend(Flushed(s), [tool]);
    DirectOne(tool);
    if pending.Some? {
      var more := Out(pending.value.deferred, Some(pending.value.owner));
      DirectAppend(Flushed(s) + [tool], [more]);
      DirectOne(more);
      AppendNone(Direct(Flushed(s) + [tool]));
    }
  }

  lemma {:induction false} ScanIsRead(s: Scan, blocks: seq<Block>, pending: Option<Pending>)
    ensures Direct(Flushed(ScanAll(s, blocks, pending))) == Direct(s.out) + ReadsFrom(s.texts, blocks)
    decreases |blocks|
  {
    if blocks == [] {
      FlushedIsRead(s);
      assert PlainTexts(blocks[..FirstResult(blocks)]) == [];
      AppendNone(s.texts);
      AppendNone(SpokenAs(s.texts));
    } else {
      var b, rest, s' := blocks[0], blocks[1..], ScanBlock(s, blocks[0], pending);
      assert blocks == [b] + rest;
      ScanIsRead(s', rest, pending);
      ReadsTurn(s.texts, b, rest);
      if b.ToolResult? {
        ResultIsRead(s, b, pending);
        Assoc(Direct(s.out), SpokenAs(s.texts), [Tool(b.useId, b.result)]);
        Assoc(Direct(s.out), SpokenAs(s.texts) + [Tool(b.useId, b.result)], ReadsFrom([], rest));
      }
    }
  }

  lemma UserIsRead(blocks: seq<Block>, pending: Option<Pending>)
    ensures Direct(Flushed(ScanAll(StartScan(pending), blocks, pending))) == UserReads(blocks)
  {
    ScanIsRead(StartScan(pending), blocks, pending);
    EmptyTexts(blocks);
    AppendNone(UserReads(blocks));
  }

  // ----- the conversion of histories -----

  lemma SettledIsRead(st: State)
    ensures Direct(Settled(st).out) == Direct(st.out)
  {
    if st.pending.Some? {
      var x := Out(st.pending.value.deferred, Some(st.pending.value.owner));
      DirectAppend(st.out, [x]);
      DirectOne(x);
      AppendNone(Direct(st.out));
    }
  }

  lemma PlainIsRead(m: Message, replay: Replay)
    requires !m.content.Blocks?
    ensures [PlainMessage(m, replay)] == Reads(m, replay)
  {
    if m.content.Str? && m.role == "assistant" && OwnReasoning(m).Some? && replay == ThinkTags {
      var tagged, text := "<think>\n" + OwnReasoning(m).value + "\n</think>", m.content.text;
      assert Join([tagged], "\n\n") == tagged;
      assert [tagged, text][1..] == [text] && Join([tagged, text], "\n\n") == tagged + "\n\n" + Join([text], "\n\n");
      assert [tagged] + [text] == [tagged, text];
      AppendNone([tagged]);
    }
  }

  lemma StepIsRead(st: State, i: nat, m: Message, replay: Replay)
    ensures Direct(StepMessage(st, i, m, replay).out) == Direct(st.out) + Reads(m, replay)
  {
    SettledIsRead(st);
    if !m.content.Blocks? {
      var st1, x := if m.role == "user" then Settled(st) else st, Out(PlainMessage(m, replay), None);
      PlainIsRead(m, replay);
      DirectAppend(st1.out, [x]);
      DirectOne(x);
    } else if m.role == "assistant" {
      AssistantStepIsRead(st, i, m, replay);
    } else if m.role == "user" {
      UserStepIsRead(st, m.content.blocks);
    } else {
      AppendNone(Direct(st.out));
    }
  }

  lemma UserStepIsRead(st: State, blocks: seq<Block>)
    ensures Direct(UserStep(st, blocks).out) == Direct(st.out) + UserReads(blocks)
  {
    SettledIsRead(st);
    UserIsRead(blocks, None);
    UserIsRead(blocks, st.pending);
    DirectAppend(Settled(st).out, UserMessages(blocks, None));
    DirectAppend(st.out, Flushed(ScanAll(StartScan(st.pending), blocks, st.pending)));
  }

  lemma AssistantStepIsRead(st: State, i: nat, m: Message, replay: Replay)
    requires m.role == "assistant" && m.content.Blocks?
    ensures Direct(AssistantStep(st, i, m, replay).out) == Direct(st.out) + Reads(m, replay)
  {
    var blocks, reasoning := m.content.blocks, OwnReasoning(m);
    SettledIsRead(st);
    SameFirst(blocks);
    if FirstCall(blocks) == |blocks| {
      AssistantIsRead(blocks, reasoning, replay);
      StepSends(st, i, m, replay, AssistantReads(blocks, reasoning, replay));
    } else {
      SplitIsRead(blocks, reasoning, replay);
      StepSends(st, i, m, replay, CallingReads(blocks, FirstCall(blocks), reasoning, replay));
    }
  }

  lemma StepSends(st: State, i: nat, m: Message, replay: Replay, msg: Converted)
    requires m.role == "assistant" && m.content.Blocks? && Reads(m, replay) == [msg]
    requires var blocks := m.content.blocks;
             msg == if FirstToolUse(blocks) < |blocks| then SplitMessage(blocks, OwnReasoning(m), replay)
                    else AssistantMessage(blocks, OwnReasoning(m), replay)
    ensures Direct(AssistantStep(st, i, m, replay).out) == Direct(Settled(st).out) + Reads(m, replay)
  {
    OneMoreIsRead(Settled(st).out, msg);
  }

  lemma OneMoreIsRead(out: seq<Out>, msg: Converted)
    ensures Direct(out + [Out(msg, None)]) == Direct(out) + [msg]
  {
    DirectAppend(out, [Out(msg, None)]);
    DirectOne(Out(msg, None));
  }

  lemma {:induction false} RunIsRead(st: State, i: nat, messages: seq<Message>, replay: Replay)
    ensures Direct(Run(st, i, messages, replay).out) == Direct(st.out) + AllRead(messages, replay)
    decreases |messages|
  {
    if messages == [] {
      AppendNone(Direct(st.out));
    } else {
      StepIsRead(st, i, messages[0], replay);
      RunIsRead(StepMessage(st, i, messages[0], replay), i + 1, messages[1..], replay);
      Assoc(Direct(st.out), Reads(messages[0], replay), AllRead(messages[1..], replay));
    }
  }

  /**
   * A whole history: but for what is deferred, each message is converted to what its blocks read as,
   * in order.
   */
  lemma HistoryIsRead(messages: seq<Message>, replay: Replay)
    ensures Direct(Convert(messages, replay)) == AllRead(messages, replay)
  {
    RunIsRead(EMPTY, 0, messages, replay);
    SettledIsRead(Run(EMPTY, 0, messages, replay));
    AppendNone(AllRead(messages, replay));
  }

  /** What is deferred is what follows the first tool use of its message, without tool uses. */
  lemma DeferredIsRead(messages: seq<Message>, replay: Replay, k: nat)
    requires k < |Convert(messages, replay)| && Convert(messages, replay)[k].deferredOf.Some?
    ensures var x := Convert(messages, replay)[k]; var o := x.deferredOf.value;
            && o < |messages| && messages[o].role == "assistant" && messages[o].content.Blocks?
            && var blocks := messages[o].content.blocks;
            && CallsFrom(blocks, FirstCall(blocks)) && Calls(blocks[FirstCall(blocks)..], false) != []
            && x.msg == DeferredReads(blocks, FirstCall(blocks), OwnReasoning(messages[o]), replay)
  {
    EmissionsAreDeferred(messages, replay, k);
    var o := Convert(messages, replay)[k].deferredOf.value;
    var blocks := messages[o].content.blocks;
    SameFirst(blocks);
    SplitIsRead(blocks, OwnReasoning(messages[o]), replay);
    BlocksHold(blocks[FirstToolUse(blocks)..], replay);
  }

  /** The calls that a message waits for: those with an id that is not blank. */
  lemma CallIdsIff(m: Message, x: string)
    requires m.content.Blocks?
    ensures x in CallIds(m) <==>
            exists k :: 0 <= k < |m.content.blocks| && IsCall(m.content.blocks[k], x)
  {
    UsesAre(m.content.blocks);
    var uses := ToolUses(m.content.blocks);
    if x in CallIds(m) {
      var b :| b in uses && b.ToolUse? && b.id.Some? && !IsBlank(b.id.value) && b.id.value == x;
      assert b in m.content.blocks;
      var k :| 0 <= k < |m.content.blocks| && m.content.blocks[k] == b;
      assert IsCall(m.content.blocks[k], x);
    }
  }

  predicate IsCall(b: Block, x: string) {
    b.ToolUse? && b.id == Some(x) && exists i | 0 <= i < |x| :: !IsSpace(x[i])
  }

  lemma {:induction false} UsesAre(blocks: seq<Block>)
    ensures forall b :: b in ToolUses(blocks) <==> b in blocks && b.ToolUse?
  {
    if blocks != [] {
      UsesAre(blocks[1..]);
      assert blocks == [blocks[0]] + blocks[1..];
    }
  }
}
