/**
 * The converter's loops (core/anthropic/conversion.py), with its lists and its pending object
 * updated in place.  None stands for `OpenAIConversionError`.
 */
module Converter {
  import opened Text
  import opened Conversion
  import ReasoningReplay

  class PendingAfterTools {
    const owner: nat
    const deferred: seq<Block>
    const reasoning: Option<string>
    const replay: Replay
    var remainingToolIds: set<string>
    var deferredEmitted: bool

    constructor (owner: nat, remaining: set<string>, deferred: seq<Block>, reasoning: Option<string>, replay: Replay)
      ensures this.owner == owner && this.deferred == deferred && this.reasoning == reasoning && this.replay == replay
      ensures remainingToolIds == remaining && !deferredEmitted
    {
      this.owner, this.deferred, this.reasoning, this.replay := owner, deferred, reasoning, replay;
      remainingToolIds, deferredEmitted := remaining, false;
    }

    predicate NeedsDeferred()
      reads this
    {
      deferred != [] && !deferredEmitted
    }

    function View(): Pending
      reads this
    {
      Pending(owner, remainingToolIds, AssistantMessage(deferred, reasoning, replay))
    }

    /** What is deferred has passed the check for forbidden blocks. */
    ghost predicate Valid() {
      deferred != [] && !AnyForbidden(deferred)
    }
  }

  lemma NextPart(blocks: seq<Block>, n: nat, replay: Replay, parts: seq<string>)
    requires n < |blocks|
    ensures parts + ContentParts(blocks[n..], replay) ==
              (parts + PartOf(blocks[n], replay)) + ContentParts(blocks[n + 1..], replay)
    ensures parts + [] == parts
  {
    assert blocks[n..][0] == blocks[n] && blocks[n..][1..] == blocks[n + 1..];
  }

  lemma NextThinking(blocks: seq<Block>, n: nat, thinking: seq<string>)
    requires n < |blocks|
    ensures var b := blocks[n];
            thinking + ThinkingParts(blocks[n..]) ==
                (if b.ThinkingBlock? then thinking + [b.thinking] else thinking) + ThinkingParts(blocks[n + 1..])
  {
    assert blocks[n..][0] == blocks[n] && blocks[n..][1..] == blocks[n + 1..];
  }

  lemma NextCall(blocks: seq<Block>, n: nat, calls: seq<Block>)
    requires n < |blocks|
    ensures var b := blocks[n];
            calls + ToolUses(blocks[n..]) == (if b.ToolUse? then calls + [b] else calls) + ToolUses(blocks[n + 1..])
  {
    assert blocks[n..][0] == blocks[n] && blocks[n..][1..] == blocks[n + 1..];
  }

  method ConvertAssistantMessage(blocks: seq<Block>, reasoning: Option<string>, replay: Replay)
    returns (r: Option<Converted>)
    ensures r.None? <==> AnyForbidden(blocks)
    ensures r.Some? ==> r.value == AssistantMessage(blocks, reasoning, replay)
  {
    var contentParts, thinkingParts, toolCalls := [], [], [];
    assert blocks[0..] == blocks;
    for n := 0 to |blocks|
      invariant forall i | 0 <= i < n :: !Forbidden(blocks[i])
      invariant contentParts + ContentParts(blocks[n..], replay) == ContentParts(blocks, replay)
      invariant replay.ReasoningContent? && reasoning.None? ==>
                  thinkingParts + ThinkingParts(blocks[n..]) == ThinkingParts(blocks)
      invariant toolCalls + ToolUses(blocks[n..]) == ToolUses(blocks)
    {
      var b := blocks[n];
      NextPart(blocks, n, replay, contentParts);
      NextThinking(blocks, n, thinkingParts);
      NextCall(blocks, n, toolCalls);
      match b {
        case TextBlock(text) =>
          contentParts := contentParts + [text];
        case ThinkingBlock(thinking) =>
          if replay.ThinkTags? {
            contentParts := contentParts + [ReasoningReplay.ThinkTagContent(thinking)];
          } else if replay.ReasoningContent? && reasoning.None? {
            thinkingParts := thinkingParts + [thinking];
          }
        case ToolUse(_, _, _) =>
          toolCalls := toolCalls + [b];
        case _ =>
          if Forbidden(b) {
            return None;
          }
      }
    }
    r := Some(Assembled(contentParts, thinkingParts, toolCalls, reasoning, replay));
    assert contentParts + [] == contentParts && thinkingParts + [] == thinkingParts && toolCalls + [] == toolCalls;
  }

  /** What is left to scan at block n, and whether an image has been met. */
  lemma ScanFrom(s: Scan, blocks: seq<Block>, n: nat, pending: Option<Pending>)
    requires n <= |blocks|
    ensures n == |blocks| ==> ScanAll(s, blocks[n..], pending) == s && blocks[..n] == blocks
    ensures n < |blocks| ==>
      && ScanAll(s, blocks[n..], pending) == ScanAll(ScanBlock(s, blocks[n], pending), blocks[n + 1..], pending)
      && (Image in blocks[..n + 1] <==> Image in blocks[..n] || blocks[n] == Image)
  {
    if n < |blocks| {
      assert blocks[n..][0] == blocks[n] && blocks[n..][1..] == blocks[n + 1..];
      assert blocks[..n + 1] == blocks[..n] + [blocks[n]];
    }
  }

  method ConvertUserMessage(blocks: seq<Block>) returns (r: Option<seq<Out>>)
    ensures r.None? <==> Image in blocks
    ensures r.Some? ==> r.value == UserMessages(blocks, None)
  {
    var result, texts: seq<string> := [], [];
    assert blocks[0..] == blocks;
    for n := 0 to |blocks|
      invariant Image !in blocks[..n]
      invariant ScanAll(Scan(result, texts, {}, false), blocks[n..], None) == ScanAll(StartScan(None), blocks, None)
    {
      var b := blocks[n];
      ScanFrom(Scan(result, texts, {}, false), blocks, n, None);
      match b {
        case TextBlock(text) =>
          texts := texts + [text];
        case Image =>
          assert blocks[n] in blocks;
          return None;
        case ToolResult(useId, content) =>
          assert {} - {ResultId(b)} == {};
          result := FlushText(result, texts);
          texts := [];
          result := result + [Out(Tool(useId, content), None)];
        case _ =>
      }
    }
    ScanFrom(Scan(result, texts, {}, false), blocks, |blocks|, None);
    result := FlushText(result, texts);
    return Some(result);
  }

  method FlushText(result: seq<Out>, texts: seq<string>) returns (result': seq<Out>)
    ensures result' == FlushTexts(result, texts)
  {
    result' := result;
    if texts != [] {
      result' := result' + [Out(Other("user", Join(texts, "\n")), None)];
    }
  }

  method DeferredPostToolToMessages(pending: PendingAfterTools) returns (out: seq<Out>)
    requires pending.Valid()
    ensures out == [Out(pending.View().deferred, Some(pending.owner))]
  {
    var msg := ConvertAssistantMessage(pending.deferred, pending.reasoning, pending.replay);
    return [Out(msg.value, Some(pending.owner))];
  }

  /** One tool result, followed by the deferred message if no call is left without a result. */
  method AnswerCall(b: Block, pending: PendingAfterTools) returns (out: seq<Out>, completes: bool)
    requires b.ToolResult? && pending.Valid()
    modifies pending
    ensures pending.remainingToolIds == old(pending.remainingToolIds) - {ResultId(b)}
    ensures completes == (pending.remainingToolIds == {})
            && pending.deferredEmitted == (old(pending.deferredEmitted) || completes)
    ensures out == [Out(Tool(b.useId, b.result), None)]
                   + if completes then [Out(old(pending.View()).deferred, Some(pending.owner))] else []
  {
    out := [Out(Tool(b.useId, b.result), None)];
    pending.remainingToolIds := pending.remainingToolIds - {ResultId(b)};
    completes := pending.remainingToolIds == {};
    if completes {
      var deferred := DeferredPostToolToMessages(pending);
      out := out + deferred;
      pending.deferredEmitted := true;
    }
  }

  method ConvertUserMessageWithInjection(blocks: seq<Block>, pending: PendingAfterTools)
    returns (r: Option<seq<Out>>, cleared: bool)
    requires pending.Valid() && pending.NeedsDeferred() && pending.remainingToolIds != {}
    modifies pending
    ensures r.None? <==> Image in blocks
    ensures r.Some? ==>
      var s := ScanAll(StartScan(Some(old(pending.View()))), blocks, Some(old(pending.View())));
      && r.value == Flushed(s) && cleared == s.cleared
      && pending.remainingToolIds == s.remaining && pending.deferredEmitted == s.cleared
  {
    ghost var p := Some(pending.View());
    var result, texts: seq<string> := [], [];
    cleared := false;
    assert blocks[0..] == blocks;
    for n := 0 to |blocks|
      invariant Image !in blocks[..n] && pending.deferredEmitted == cleared
      invariant ScanAll(Scan(result, texts, pending.remainingToolIds, cleared), blocks[n..], p) ==
                  ScanAll(StartScan(p), blocks, p)
    {
      var b := blocks[n];
      ScanFrom(Scan(result, texts, pending.remainingToolIds, cleared), blocks, n, p);
      ghost var before := Scan(result, texts, pending.remainingToolIds, cleared);
      match b {
        case TextBlock(text) =>
          texts := texts + [text];
        case Image =>
          assert blocks[n] in blocks;
          return None, cleared;
        case ToolResult(_, _) =>
          result := FlushText(result, texts);
          texts := [];
          var answer, completes := AnswerCall(b, pending);
          result := result + answer;
          cleared := cleared || completes;
        case _ =>
      }
      assert ScanBlock(before, b, p) == Scan(result, texts, pending.remainingToolIds, cleared);
    }
    ScanFrom(Scan(result, texts, pending.remainingToolIds, cleared), blocks, |blocks|, p);
    result := FlushText(result, texts);
    return Some(result), cleared;
  }

  /** The message with the tool calls, and the object that carries what is deferred. */
  method ConvertAssistantMessageWithSplit(i: nat, blocks: seq<Block>, reasoning: Option<string>, replay: Replay)
    returns (msg: Converted, pending: PendingAfterTools?)
    requires FirstToolUse(blocks) < |blocks| && !AnyForbidden(blocks)
    ensures msg == SplitMessage(blocks, reasoning, replay)
    ensures (pending == null) == NewPending(i, blocks, reasoning, replay).None?
    ensures pending != null ==> fresh(pending) && pending.Valid() && pending.NeedsDeferred()
                                && Some(pending.View()) == NewPending(i, blocks, reasoning, replay)
  {
    var first := FirstToolUse(blocks);
    var pre, toolCalls, deferred := blocks[..first], ToolUses(blocks), DeferredBlocks(blocks);
    if pre == [] {
      msg := Assistant("", [], if replay.ReasoningContent? then reasoning else None);
    } else {
      var converted := ConvertAssistantMessage(pre, reasoning, replay);
      assert forall k | 0 <= k < first :: pre[k] == blocks[k];
      msg := converted.value;
    }
    msg := Assistant(msg.content, toolCalls, msg.reasoning);
    if msg.content == " " {
      msg := Assistant("", msg.toolCalls, msg.reasoning);
    }
    pending := null;
    if deferred != [] {
      StillAllowed(blocks[first..], blocks);
      pending := new PendingAfterTools(i, IdsOf(toolCalls), deferred, reasoning, replay);
    }
  }

  lemma {:induction false} StillAllowed(part: seq<Block>, blocks: seq<Block>)
    requires !AnyForbidden(blocks) && forall b | b in part :: b in blocks
    ensures !AnyForbidden(WithoutToolUses(part))
    ensures forall b | b in WithoutToolUses(part) :: b in blocks
  {
    if part != [] {
      assert part == [part[0]] + part[1..];
      StillAllowed(part[1..], blocks);
      var kept := WithoutToolUses(part);
      forall k | 0 <= k < |kept| ensures !Forbidden(kept[k]) {
        assert kept[k] in blocks;
      }
    }
  }

  // ----- histories -----

  /** The state that the list and the pending object stand for. */
  function StateOf(result: seq<Out>, pending: PendingAfterTools?): State
    reads pending
  {
    State(result, if pending == null then None else Some(pending.View()))
  }

  ghost predicate Ready(pending: PendingAfterTools?)
    reads pending
  {
    pending != null ==> pending.Valid() && pending.NeedsDeferred()
  }

  method EmitDeferred(result: seq<Out>, pending: PendingAfterTools?) returns (result': seq<Out>)
    requires Ready(pending)
    modifies pending
    ensures result' == Settled(old(StateOf(result, pending))).out
  {
    result' := result;
    if pending != null && pending.NeedsDeferred() {
      var deferred := DeferredPostToolToMessages(pending);
      result' := result' + deferred;
      pending.deferredEmitted := true;
    }
  }

  method ConvertAssistant(result: seq<Out>, pending: PendingAfterTools?, i: nat, m: Message, replay: Replay)
    returns (r: Option<seq<Out>>, pending': PendingAfterTools?)
    requires Ready(pending) && m.role == "assistant" && m.content.Blocks?
    modifies pending
    ensures r.None? <==> AnyForbidden(m.content.blocks)
    ensures r.Some? ==>
              Ready(pending')
                && StateOf(r.value, pending') == AssistantStep(old(StateOf(result, pending)), i, m, replay)
    ensures pending' == null || fresh(pending')
  {
    var blocks, reasoning := m.content.blocks, Cleaned(m.reasoning);
    var settled := EmitDeferred(result, pending);
    pending' := null;
    if FirstToolUse(blocks) < |blocks| {
      for n := 0 to |blocks|
        invariant forall k | 0 <= k < n :: !Forbidden(blocks[k])
      {
        if !blocks[n].ToolUse? && Forbidden(blocks[n]) {
          return None, null;
        }
      }
      var msg;
      msg, pending' := ConvertAssistantMessageWithSplit(i, blocks, reasoning, replay);
      return Some(settled + [Out(msg, None)]), pending';
    }
    var msg := ConvertAssistantMessage(blocks, reasoning, replay);
    if msg.None? {
      return None, null;
    }
    return Some(settled + [Out(msg.value, None)]), null;
  }

  method ConvertUser(result: seq<Out>, pending: PendingAfterTools?, blocks: seq<Block>)
    returns (r: Option<seq<Out>>, pending': PendingAfterTools?)
    requires Ready(pending)
    modifies pending
    ensures r.None? <==> Image in blocks
    ensures r.Some? ==> Ready(pending') && StateOf(r.value, pending') == UserStep(old(StateOf(result, pending)), blocks)
    ensures pending' == null || pending' == pending
  {
    if pending != null && pending.NeedsDeferred() && pending.remainingToolIds != {} {
      var pieces, cleared := ConvertUserMessageWithInjection(blocks, pending);
      if pieces.None? {
        return None, null;
      }
      return Some(result + pieces.value), if cleared then null else pending;
    }
    var settled := EmitDeferred(result, pending);
    var messages := ConvertUserMessage(blocks);
    if messages.None? {
      return None, null;
    }
    return Some(settled + messages.value), null;
  }

  /** One turn of the loop over the messages. */
  method ConvertOne(result: seq<Out>, pending: PendingAfterTools?, i: nat, m: Message, replay: Replay)
    returns (r: Option<seq<Out>>, pending': PendingAfterTools?)
    requires Ready(pending)
    modifies pending
    ensures r.None? <==> Refused(m)
    ensures r.Some? ==>
              Ready(pending') && StateOf(r.value, pending') == StepMessage(old(StateOf(result, pending)), i, m, replay)
    ensures pending' == null || pending' == pending || fresh(pending')
  {
    if m.role == "assistant" && m.content.Blocks? {
      r, pending' := ConvertAssistant(result, pending, i, m, replay);
    } else if !m.content.Blocks? {
      var settled := result;
      pending' := pending;
      if m.role == "user" {
        settled := EmitDeferred(result, pending);
        pending' := null;
      }
      r := Some(settled + [Out(PlainMessage(m, replay), None)]);
    } else if m.role == "user" {
      r, pending' := ConvertUser(result, pending, m.content.blocks);
    } else {
      r, pending' := Some(result), pending;
    }
  }

  function Plain(out: seq<Out>): seq<Converted> {
    seq(|out|, k requires 0 <= k < |out| => out[k].msg)
  }

  /** `convert_messages`: it refuses exactly the histories that hold a refused message. */
  method ConvertMessages(messages: seq<Message>, replay: Replay) returns (r: Option<seq<Converted>>)
    ensures r.None? <==> AnyRefused(messages)
    ensures r.Some? ==> r.value == Plain(Convert(messages, replay))
  {
    var result := [];
    var pending: PendingAfterTools? := null;
    assert messages[0..] == messages;
    for n := 0 to |messages|
      invariant pending == null || fresh(pending)
      invariant Ready(pending)
      invariant forall k | 0 <= k < n :: !Refused(messages[k])
      invariant Run(StateOf(result, pending), n, messages[n..], replay) == Run(EMPTY, 0, messages, replay)
    {
      NextMessage(StateOf(result, pending), messages, n, replay);
      var step;
      step, pending := ConvertOne(result, pending, n, messages[n], replay);
      if step.None? {
        return None;
      }
      result := step.value;
    }
    result := EmitDeferred(result, pending);
    return Some(Plain(result));
  }

  lemma NextMessage(st: State, messages: seq<Message>, n: nat, replay: Replay)
    requires n < |messages|
    ensures Run(st, n, messages[n..], replay) ==
              Run(StepMessage(st, n, messages[n], replay), n + 1, messages[n + 1..], replay)
  {
    assert messages[n..][0] == messages[n] && messages[n..][1..] == messages[n + 1..];
  }
}
