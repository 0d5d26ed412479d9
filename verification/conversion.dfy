/**
 * Conversion of Anthropic histories to OpenAI chat messages (core/anthropic/conversion.py).
 *
 * OpenAI cannot carry assistant content after tool calls in one message, so that content is
 * deferred until the results of the calls have been replayed.
 */
module Conversion {
  import opened Text
  import ReasoningReplay

  datatype Block =
    | TextBlock(text: string)
    | ThinkingBlock(thinking: string)
    | RedactedBlock
    | ToolUse(id: Option<string>, name: string, arguments: string)
    | ToolResult(useId: Option<string>, result: string)
    | Image
    | ServerTool(kind: string)
    | OtherBlock(kind: string)

  /** `Value` is content that is neither a string nor a list, with its text. */
  datatype Content = Str(text: string) | Blocks(blocks: seq<Block>) | Value(text: string)

  datatype Message = Message(role: string, content: Content, reasoning: Option<string>)

  datatype Replay = Disabled | ThinkTags | ReasoningContent

  datatype Converted =
    | Assistant(content: string, toolCalls: seq<Block>, reasoning: Option<string>)
    | Tool(useId: Option<string>, content: string)
    | Other(role: string, content: string)

  /** A converted message; `deferredOf` is the position of the message whose deferred blocks it carries. */
  datatype Out = Out(msg: Converted, deferredOf: Option<nat>)

  // ----- assistant messages -----

  function PartOf(b: Block, replay: Replay): seq<string> {
    match b
    case TextBlock(text) => [text]
    case ThinkingBlock(thinking) => if replay.ThinkTags? then [ReasoningReplay.ThinkTagContent(thinking)] else []
    case _ => []
  }

  function ContentParts(blocks: seq<Block>, replay: Replay): seq<string> {
    if blocks == [] then [] else PartOf(blocks[0], replay) + ContentParts(blocks[1..], replay)
  }

  function ThinkingParts(blocks: seq<Block>): seq<string> {
    if blocks == [] then []
    else (if blocks[0].ThinkingBlock? then [blocks[0].thinking] else []) + ThinkingParts(blocks[1..])
  }

  function ToolUses(blocks: seq<Block>): seq<Block> {
    if blocks == [] then [] else (if blocks[0].ToolUse? then [blocks[0]] else []) + ToolUses(blocks[1..])
  }

  function OrNone(s: string): Option<string> {
    if s == "" then None else Some(s)
  }

  function Assembled(contentParts: seq<string>, thinkingParts: seq<string>, toolCalls: seq<Block>,
                     reasoning: Option<string>, replay: Replay): Converted {
    var content := Join(contentParts, "\n\n");
    Assistant(if content == "" && toolCalls == [] then " " else content, toolCalls,
              if !replay.ReasoningContent? then None
              else if reasoning.Some? then reasoning
              else OrNone(Join(thinkingParts, "\n")))
  }

  /** `_convert_assistant_message`, for blocks that are not forbidden. */
  function AssistantMessage(blocks: seq<Block>, reasoning: Option<string>, replay: Replay): Converted {
    Assembled(ContentParts(blocks, replay), ThinkingParts(blocks), ToolUses(blocks), reasoning, replay)
  }

  predicate Forbidden(b: Block) {
    b.Image? || b.ServerTool?
  }

  ghost predicate AnyForbidden(blocks: seq<Block>) {
    exists i :: 0 <= i < |blocks| && (blocks[i].Image? || blocks[i].ServerTool?)
  }

  function FirstToolUse(blocks: seq<Block>): (k: nat)
    ensures k <= |blocks| && (k < |blocks| ==> blocks[k].ToolUse?)
    ensures forall i | 0 <= i < k :: !blocks[i].ToolUse?
  {
    if blocks == [] || blocks[0].ToolUse? then 0 else 1 + FirstToolUse(blocks[1..])
  }

  function WithoutToolUses(blocks: seq<Block>): seq<Block> {
    if blocks == [] then [] else (if blocks[0].ToolUse? then [] else [blocks[0]]) + WithoutToolUses(blocks[1..])
  }

  /** The blocks after the first tool use, other than tool uses. */
  function DeferredBlocks(blocks: seq<Block>): seq<Block> {
    WithoutToolUses(blocks[FirstToolUse(blocks)..])
  }

  function IdsOf(uses: seq<Block>): set<string> {
    set b | b in uses && b.ToolUse? && b.id.Some? && !IsBlank(b.id.value) :: b.id.value
  }

  /** The assistant message with the tool calls of `blocks`, and before them what came before the first. */
  function SplitMessage(blocks: seq<Block>, reasoning: Option<string>, replay: Replay): Converted {
    var pre := blocks[..FirstToolUse(blocks)];
    var msg := if pre == [] then Assistant("", [], if replay.ReasoningContent? then reasoning else None)
               else AssistantMessage(pre, reasoning, replay);
    msg.(toolCalls := ToolUses(blocks), content := if msg.content == " " then "" else msg.content)
  }

  // ----- user messages -----

  datatype Pending = Pending(owner: nat, remaining: set<string>, deferred: Converted)

  /** The loop over a user message's blocks; `texts` have not been flushed yet. */
  datatype Scan = Scan(out: seq<Out>, texts: seq<string>, remaining: set<string>, cleared: bool)

  function FlushTexts(out: seq<Out>, texts: seq<string>): seq<Out> {
    if texts == [] then out else out + [Out(Other("user", Join(texts, "\n")), None)]
  }

  function Flushed(s: Scan): seq<Out> {
    FlushTexts(s.out, s.texts)
  }

  function ResultId(b: Block): string
    requires b.ToolResult?
  {
    if b.useId.Some? then b.useId.value else ""
  }

  /** One block; if `pending` is given, its deferred message follows every result that leaves none remaining. */
  function ScanBlock(s: Scan, b: Block, pending: Option<Pending>): Scan {
    match b
    case TextBlock(text) => s.(texts := s.texts + [text])
    case ToolResult(useId, result) =>
      var out := Flushed(s) + [Out(Tool(useId, result), None)];
      var remaining := s.remaining - {ResultId(b)};
      if pending.Some? && remaining == {} then
        Scan(out + [Out(pending.value.deferred, Some(pending.value.owner))], [], remaining, true)
      else Scan(out, [], remaining, s.cleared)
    case _ => s
  }

  function ScanAll(s: Scan, blocks: seq<Block>, pending: Option<Pending>): Scan
    decreases |blocks|
  {
    if blocks == [] then s else ScanAll(ScanBlock(s, blocks[0], pending), blocks[1..], pending)
  }

  function StartScan(pending: Option<Pending>): Scan {
    Scan([], [], if pending.Some? then pending.value.remaining else {}, false)
  }

  function UserMessages(blocks: seq<Block>, pending: Option<Pending>): seq<Out> {
    Flushed(ScanAll(StartScan(pending), blocks, pending))
  }

  // ----- histories -----

  datatype State = State(out: seq<Out>, pending: Option<Pending>)

  const EMPTY := State([], None)

  /** The deferred message is emitted and forgotten. */
  function Settled(st: State): State {
    if st.pending.None? then st
    else State(st.out + [Out(st.pending.value.deferred, Some(st.pending.value.owner))], None)
  }

  function Cleaned(reasoning: Option<string>): Option<string> {
    if reasoning == Some("") then None else reasoning
  }

  function PlainMessage(m: Message, replay: Replay): Converted {
    match m.content
    case Str(text) =>
      var reasoning := Cleaned(m.reasoning);
      if m.role == "assistant" && reasoning.Some? && replay.ReasoningContent? then Assistant(text, [], reasoning)
      else if m.role == "assistant" && reasoning.Some? && replay.ThinkTags? then
        Assistant(Join([ReasoningReplay.ThinkTagContent(reasoning.value)] + (if text == "" then [] else [text]),
                       "\n\n"), [], None)
      else Other(m.role, text)
    case Value(text) => Other(m.role, text)
    case Blocks(_) => Other(m.role, "")
  }

  /** The pending entry that an assistant message with tool uses leaves, if anything is deferred. */
  function NewPending(i: nat, blocks: seq<Block>, reasoning: Option<string>, replay: Replay): Option<Pending> {
    if DeferredBlocks(blocks) == [] then None
    else Some(Pending(i, IdsOf(ToolUses(blocks)), AssistantMessage(DeferredBlocks(blocks), reasoning, replay)))
  }

  function AssistantStep(st: State, i: nat, m: Message, replay: Replay): State
    requires m.content.Blocks?
  {
    var st1, blocks, reasoning := Settled(st), m.content.blocks, Cleaned(m.reasoning);
    if FirstToolUse(blocks) < |blocks| then
      State(st1.out + [Out(SplitMessage(blocks, reasoning, replay), None)], NewPending(i, blocks, reasoning, replay))
    else State(st1.out + [Out(AssistantMessage(blocks, reasoning, replay), None)], None)
  }

  function UserStep(st: State, blocks: seq<Block>): State {
    if st.pending.None? then State(st.out + UserMessages(blocks, None), None)
    else if st.pending.value.remaining == {} then
      State(Settled(st).out + UserMessages(blocks, None), None)
    else
      var s := ScanAll(StartScan(st.pending), blocks, st.pending);
      State(st.out + Flushed(s), if s.cleared then None else Some(st.pending.value.(remaining := s.remaining)))
  }

  function StepMessage(st: State, i: nat, m: Message, replay: Replay): State {
    if m.role == "assistant" && m.content.Blocks? then AssistantStep(st, i, m, replay)
    else if !m.content.Blocks? then
      var st1 := if m.role == "user" then Settled(st) else st;
      st1.(out := st1.out + [Out(PlainMessage(m, replay), None)])
    else if m.role == "user" then UserStep(st, m.content.blocks)
    else st
  }

  function Run(st: State, i: nat, messages: seq<Message>, replay: Replay): State
    decreases |messages|
  {
    if messages == [] then st else Run(StepMessage(st, i, messages[0], replay), i + 1, messages[1..], replay)
  }

  function Convert(messages: seq<Message>, replay: Replay): seq<Out> {
    Settled(Run(EMPTY, 0, messages, replay)).out
  }

  /** A message that the conversion refuses. */
  ghost predicate Refused(m: Message) {
    m.content.Blocks?
      && ((m.role == "assistant" && AnyForbidden(m.content.blocks)) || (m.role == "user" && Image in m.content.blocks))
  }

  ghost predicate AnyRefused(messages: seq<Message>) {
    exists i :: 0 <= i < |messages| && Refused(messages[i])
  }

  // ----- order of tool calls and results -----

  function CallsIn(out: seq<Out>): seq<Block> {
    if out == [] then [] else (if out[0].msg.Assistant? then out[0].msg.toolCalls else []) + CallsIn(out[1..])
  }

  function ResultsIn(out: seq<Out>): seq<Converted> {
    if out == [] then [] else (if out[0].msg.Tool? then [out[0].msg] else []) + ResultsIn(out[1..])
  }

  function AllUses(messages: seq<Message>): seq<Block> {
    if messages == [] then []
    else
      (if messages[0].role == "assistant" && messages[0].content.Blocks? then ToolUses(messages[0].content.blocks)
       else [])
      + AllUses(messages[1..])
  }

  function ResultsOf(blocks: seq<Block>): seq<Converted> {
    if blocks == [] then []
    else (if blocks[0].ToolResult? then [Tool(blocks[0].useId, blocks[0].result)] else []) + ResultsOf(blocks[1..])
  }

  function AllResults(messages: seq<Message>): seq<Converted> {
    if messages == [] then []
    else
      (if messages[0].role == "user" && messages[0].content.Blocks? then ResultsOf(messages[0].content.blocks)
       else [])
      + AllResults(messages[1..])
  }

  lemma {:induction false} CallsAppend(a: seq<Out>, b: seq<Out>)
    ensures CallsIn(a + b) == CallsIn(a) + CallsIn(b)
  {
    if a == [] {
      AppendNone(b);
      AppendNone(CallsIn(b));
    } else {
      AppendTail(a, b);
      CallsAppend(a[1..], b);
      Assoc(if a[0].msg.Assistant? then a[0].msg.toolCalls else [], CallsIn(a[1..]), CallsIn(b));
    }
  }

  lemma {:induction false} ResultsAppend(a: seq<Out>, b: seq<Out>)
    ensures ResultsIn(a + b) == ResultsIn(a) + ResultsIn(b)
  {
    if a == [] {
      AppendNone(b);
      AppendNone(ResultsIn(b));
    } else {
      AppendTail(a, b);
      ResultsAppend(a[1..], b);
      Assoc(if a[0].msg.Tool? then [a[0].msg] else [], ResultsIn(a[1..]), ResultsIn(b));
    }
  }

  lemma InAppend(a: seq<Out>, b: seq<Out>)
    ensures CallsIn(a + b) == CallsIn(a) + CallsIn(b) && ResultsIn(a + b) == ResultsIn(a) + ResultsIn(b)
  {
    CallsAppend(a, b);
    ResultsAppend(a, b);
  }

  lemma InOne(o: Out)
    ensures CallsIn([o]) == if o.msg.Assistant? then o.msg.toolCalls else []
    ensures ResultsIn([o]) == if o.msg.Tool? then [o.msg] else []
  {
    assert [o][1..] == [];
  }

  lemma {:induction false} NoUsesLeft(blocks: seq<Block>)
    ensures ToolUses(WithoutToolUses(blocks)) == []
  {
    if blocks != [] {
      NoUsesLeft(blocks[1..]);
      var rest := WithoutToolUses(blocks[1..]);
      if blocks[0].ToolUse? {
        assert WithoutToolUses(blocks) == rest;
      } else {
        assert WithoutToolUses(blocks) == [blocks[0]] + rest && ([blocks[0]] + rest)[1..] == rest;
      }
    }
  }

  /** The deferred message of a pending entry is an assistant message without tool calls. */
  predicate CallFree(pending: Option<Pending>) {
    pending.Some? ==> pending.value.deferred.Assistant? && pending.value.deferred.toolCalls == []
  }

  lemma ScanBlockKeeps(s: Scan, b: Block, pending: Option<Pending>)
    requires CallFree(pending)
    ensures CallsIn(ScanBlock(s, b, pending).out) == CallsIn(s.out)
    ensures ResultsIn(ScanBlock(s, b, pending).out) ==
              ResultsIn(s.out) + if b.ToolResult? then [Tool(b.useId, b.result)] else []
  {
    if b.ToolResult? {
      FlushedKeeps(s);
      var tool := Out(Tool(b.useId, b.result), None);
      InAppend(Flushed(s), [tool]);
      InOne(tool);
      if pending.Some? {
        var deferred := Out(pending.value.deferred, Some(pending.value.owner));
        InAppend(Flushed(s) + [tool], [deferred]);
        InOne(deferred);
      }
    }
  }

  lemma FlushedKeeps(s: Scan)
    ensures CallsIn(Flushed(s)) == CallsIn(s.out) && ResultsIn(Flushed(s)) == ResultsIn(s.out)
  {
    if s.texts != [] {
      var text := Out(Other("user", Join(s.texts, "\n")), None);
      InAppend(s.out, [text]);
      InOne(text);
    }
  }

  lemma {:induction false} ScanKeeps(s: Scan, blocks: seq<Block>, pending: Option<Pending>)
    requires CallFree(pending)
    ensures CallsIn(Flushed(ScanAll(s, blocks, pending))) == CallsIn(s.out)
    ensures ResultsIn(Flushed(ScanAll(s, blocks, pending))) == ResultsIn(s.out) + ResultsOf(blocks)
    decreases |blocks|
  {
    if blocks == [] {
      FlushedKeeps(s);
    } else {
      ScanBlockKeeps(s, blocks[0], pending);
      ScanKeeps(ScanBlock(s, blocks[0], pending), blocks[1..], pending);
      Assoc(ResultsIn(s.out), if blocks[0].ToolResult? then [Tool(blocks[0].useId, blocks[0].result)] else [],
            ResultsOf(blocks[1..]));
    }
  }

  lemma SettledKeeps(st: State)
    requires CallFree(st.pending)
    ensures CallsIn(Settled(st).out) == CallsIn(st.out) && ResultsIn(Settled(st).out) == ResultsIn(st.out)
  {
    if st.pending.Some? {
      var deferred := Out(st.pending.value.deferred, Some(st.pending.value.owner));
      InAppend(st.out, [deferred]);
      InOne(deferred);
    }
  }

  lemma AssistantKeeps(st: State, i: nat, m: Message, replay: Replay)
    requires CallFree(st.pending) && m.content.Blocks?
    ensures var st' := AssistantStep(st, i, m, replay);
            && CallFree(st'.pending)
            && CallsIn(st'.out) == CallsIn(st.out) + ToolUses(m.content.blocks)
            && ResultsIn(st'.out) == ResultsIn(st.out)
  {
    var blocks, reasoning := m.content.blocks, Cleaned(m.reasoning);
    SettledKeeps(st);
    NoUsesLeft(blocks[FirstToolUse(blocks)..]);
    var o := Out(if FirstToolUse(blocks) < |blocks| then SplitMessage(blocks, reasoning, replay)
                 else AssistantMessage(blocks, reasoning, replay), None);
    InAppend(Settled(st).out, [o]);
    InOne(o);
  }

  lemma UserKeeps(st: State, blocks: seq<Block>)
    requires CallFree(st.pending)
    ensures var st' := UserStep(st, blocks);
            && CallFree(st'.pending)
            && CallsIn(st'.out) == CallsIn(st.out) && ResultsIn(st'.out) == ResultsIn(st.out) + ResultsOf(blocks)
  {
    SettledKeeps(st);
    ScanKeeps(StartScan(None), blocks, None);
    ScanKeeps(StartScan(st.pending), blocks, st.pending);
    InAppend(Settled(st).out, UserMessages(blocks, None));
    InAppend(st.out, Flushed(ScanAll(StartScan(st.pending), blocks, st.pending)));
    assert [] + ResultsOf(blocks) == ResultsOf(blocks);
  }

  lemma PlainKeeps(st: State, i: nat, m: Message, replay: Replay)
    requires CallFree(st.pending) && !m.content.Blocks?
    ensures var st' := StepMessage(st, i, m, replay);
            CallFree(st'.pending) && CallsIn(st'.out) == CallsIn(st.out) && ResultsIn(st'.out) == ResultsIn(st.out)
  {
    var st1, o := if m.role == "user" then Settled(st) else st, Out(PlainMessage(m, replay), None);
    SettledKeeps(st);
    InAppend(st1.out, [o]);
    InOne(o);
    AppendNone(CallsIn(st1.out));
    AppendNone(ResultsIn(st1.out));
  }

  lemma OneMessage(m: Message)
    ensures AllUses([m]) == if m.role == "assistant" && m.content.Blocks? then ToolUses(m.content.blocks) else []
    ensures AllResults([m]) == if m.role == "user" && m.content.Blocks? then ResultsOf(m.content.blocks) else []
  {
    assert [m][1..] == [];
    AppendNone(if m.role == "assistant" && m.content.Blocks? then ToolUses(m.content.blocks) else []);
    AppendNone(if m.role == "user" && m.content.Blocks? then ResultsOf(m.content.blocks) else []);
  }

  lemma StepOrder(st: State, i: nat, m: Message, replay: Replay)
    requires CallFree(st.pending)
    ensures var st' := StepMessage(st, i, m, replay);
            && CallFree(st'.pending)
            && CallsIn(st'.out) == CallsIn(st.out) + AllUses([m])
            && ResultsIn(st'.out) == ResultsIn(st.out) + AllResults([m])
  {
    OneMessage(m);
    AppendNone(CallsIn(st.out));
    AppendNone(ResultsIn(st.out));
    if m.role == "assistant" && m.content.Blocks? {
      AssistantKeeps(st, i, m, replay);
    } else if !m.content.Blocks? {
      PlainKeeps(st, i, m, replay);
    } else if m.role == "user" {
      UserKeeps(st, m.content.blocks);
    }
  }

  lemma AllFirst(messages: seq<Message>)
    requires messages != []
    ensures AllUses(messages) == AllUses([messages[0]]) + AllUses(messages[1..])
    ensures AllResults(messages) == AllResults([messages[0]]) + AllResults(messages[1..])
  {
    UsesFirst(messages);
    ResultsFirst(messages);
  }

  lemma UsesFirst(messages: seq<Message>)
    requires messages != []
    ensures AllUses(messages) == AllUses([messages[0]]) + AllUses(messages[1..])
  {
    var m := messages[0];
    assert [m][1..] == [];
    var first := if m.role == "assistant" && m.content.Blocks? then ToolUses(m.content.blocks) else [];
    assert AllUses([m]) == first + [] == first;
  }

  lemma ResultsFirst(messages: seq<Message>)
    requires messages != []
    ensures AllResults(messages) == AllResults([messages[0]]) + AllResults(messages[1..])
  {
    var m := messages[0];
    assert [m][1..] == [];
    var first := if m.role == "user" && m.content.Blocks? then ResultsOf(m.content.blocks) else [];
    assert AllResults([m]) == first + [] == first;
  }

  lemma {:induction false} RunOrder(st: State, i: nat, messages: seq<Message>, replay: Replay)
    requires CallFree(st.pending)
    ensures var st' := Run(st, i, messages, replay);
            && CallFree(st'.pending)
            && CallsIn(st'.out) == CallsIn(st.out) + AllUses(messages)
            && ResultsIn(st'.out) == ResultsIn(st.out) + AllResults(messages)
    decreases |messages|
  {
    if messages != [] {
      StepOrder(st, i, messages[0], replay);
      RunOrder(StepMessage(st, i, messages[0], replay), i + 1, messages[1..], replay);
      AllFirst(messages);
      Assoc(CallsIn(st.out), AllUses([messages[0]]), AllUses(messages[1..]));
      Assoc(ResultsIn(st.out), AllResults([messages[0]]), AllResults(messages[1..]));
    }
  }

  /** All tool uses become tool calls, and all tool results tool messages, each once and in order. */
  lemma ToolOrderIsKept(messages: seq<Message>, replay: Replay)
    ensures CallsIn(Convert(messages, replay)) == AllUses(messages)
    ensures ResultsIn(Convert(messages, replay)) == AllResults(messages)
  {
    RunOrder(EMPTY, 0, messages, replay);
    SettledKeeps(Run(EMPTY, 0, messages, replay));
  }
}
