/**
 * The builder of Anthropic streams (core/anthropic/sse.py).
 *
 * `Builder` is the builder's state as a value, with one function for every operation; the class
 * below updates the same state in place.
 */
module SseBuilder {
  import opened Text
  import opened StreamContract

  /** A decoded JSON value: an object with its entries as texts, or anything else. */
  datatype Json = Dictionary(entries: seq<(string, string)>) | Scalar(text: string)

  /**
   * `json.loads` (None where it raises) and `json.dumps` of an object. Where `loads` raises,
   * `escapes` tells whether it is an exception that the final flush does not catch, such as that
   * for a text nested too deeply.
   */
  datatype Codec = Codec(loads: string -> Option<Json>, escapes: string -> bool,
                         dumps: seq<(string, string)> -> string)

  function Get(entries: seq<(string, string)>, key: string): Option<string> {
    if entries == [] then None
    else if entries[0].0 == key then Some(entries[0].1)
    else Get(entries[1..], key)
  }

  function Set(entries: seq<(string, string)>, key: string, value: string): seq<(string, string)> {
    if entries == [] then [(key, value)]
    else if entries[0].0 == key then [(key, value)] + entries[1..]
    else [entries[0]] + Set(entries[1..], key, value)
  }

  const BACKGROUND := "run_in_background"

  /** `_normalize_task_run_in_background`. */
  function Foreground(entries: seq<(string, string)>): seq<(string, string)> {
    if Get(entries, BACKGROUND) == Some("false") then entries else Set(entries, BACKGROUND, "false")
  }

  lemma {:induction false} SetGet(entries: seq<(string, string)>, key: string, value: string, other: string)
    ensures Get(Set(entries, key, value), other) == if other == key then Some(value) else Get(entries, other)
  {
    if entries != [] && entries[0].0 != key {
      SetGet(entries[1..], key, value, other);
    } else if entries != [] {
      assert ([(key, value)] + entries[1..])[1..] == entries[1..];
    }
  }

  /** A task never runs in the background, and no other argument of it changes. */
  lemma ForegroundMeaning(entries: seq<(string, string)>, key: string)
    ensures Get(Foreground(entries), key) == if key == "run_in_background" then Some("false") else Get(entries, key)
  {
    SetGet(entries, BACKGROUND, "false", key);
  }

  /** `contents` are the argument deltas emitted so far. */
  datatype ToolCall = ToolCall(blockIndex: int, toolId: string, name: string, contents: seq<string>, started: bool,
                               taskArgBuffer: string, taskArgsEmitted: bool, preStartArgs: string)

  const NEW_TOOL := ToolCall(-1, "", "", [], false, "", false, "")

  /** `order` lists the keys of `tools` in the order in which they were first added. */
  datatype Builder = Builder(nextIndex: int, thinkingIndex: int, textIndex: int, thinkingStarted: bool,
                             textStarted: bool, order: seq<int>, tools: map<int, ToolCall>, text: seq<string>,
                             reasoning: seq<string>)

  const EMPTY := Builder(0, -1, -1, false, false, [], map[], [], [])

  // ----- block manager -----

  function PutTool(b: Builder, k: int, t: ToolCall): Builder {
    b.(order := if k in b.tools then b.order else b.order + [k], tools := b.tools[k := t])
  }

  function ToolOr(b: Builder, k: int): ToolCall {
    if k in b.tools then b.tools[k] else NEW_TOOL
  }

  function EnsureToolState(b: Builder, k: int): Builder {
    PutTool(b, k, ToolOr(b, k))
  }

  function SetStreamToolId(b: Builder, k: int, id: string): Builder {
    if id == "" then b else PutTool(b, k, ToolOr(b, k).(toolId := id))
  }

  /** Name fragments replace a prefix, extend, or are ignored as a prefix of what is known. */
  function MergeName(prev: string, name: string): string {
    if prev == "" || StartsWith(name, prev) then name
    else if StartsWith(prev, name) then prev
    else prev + name
  }

  function RegisterToolName(b: Builder, k: int, name: string): Builder {
    PutTool(b, k, ToolOr(b, k).(name := MergeName(ToolOr(b, k).name, name)))
  }

  datatype Buffered = Waiting | Ready(json: string) | Raised

  /** A buffer that parses to something other than an object makes the normalisation raise. */
  function BufferTaskArgs(b: Builder, k: int, args: string, codec: Codec): (Builder, Buffered) {
    if k !in b.tools || b.tools[k].taskArgsEmitted then (b, Waiting)
    else
      var t := b.tools[k].(taskArgBuffer := b.tools[k].taskArgBuffer + args);
      match codec.loads(t.taskArgBuffer)
      case None => (PutTool(b, k, t), Waiting)
      case Some(Scalar(_)) => (PutTool(b, k, t), Raised)
      case Some(Dictionary(entries)) =>
        (PutTool(b, k, t.(taskArgsEmitted := true, taskArgBuffer := "")), Ready(codec.dumps(Foreground(entries))))
  }

  function HasEmittedToolBlock(b: Builder): bool {
    exists k | k in b.tools :: b.tools[k].started
  }

  predicate NeedsFlush(t: ToolCall) {
    t.taskArgBuffer != "" && !t.taskArgsEmitted
  }

  /**
   * The flush of the buffers of the keys in `keys`; None where an exception escapes: that of a parsed
   * buffer that is not an object, or one that is not caught.
   */
  function FlushTaskArgBuffers(b: Builder, keys: seq<int>, codec: Codec): Option<(Builder, seq<(int, string)>)>
    decreases |keys|
  {
    if keys == [] then Some((b, []))
    else
      var k, rest := keys[0], keys[1..];
      if k !in b.tools || !NeedsFlush(b.tools[k]) then FlushTaskArgBuffers(b, rest, codec)
      else
        var b' := b.(tools := b.tools[k := b.tools[k].(taskArgsEmitted := true, taskArgBuffer := "")]);
        var out := match codec.loads(b.tools[k].taskArgBuffer)
                   case None => (if codec.escapes(b.tools[k].taskArgBuffer) then None else Some("{}"))
                   case Some(Scalar(_)) => None
                   case Some(Dictionary(entries)) => Some(codec.dumps(Foreground(entries)));
        if out.None? then None
        else
          match FlushTaskArgBuffers(b', rest, codec)
          case None => None
          case Some((b'', results)) => Some((b'', [(k, out.value)] + results))
  }

  /** `all` is the whole flush, if `sent` has been returned so far and `rest` is what is left of it. */
  ghost predicate FlushedAfter(all: Option<(Builder, seq<(int, string)>)>, sent: seq<(int, string)>,
                               rest: Option<(Builder, seq<(int, string)>)>) {
    all == if rest.None? then None else Some((rest.value.0, sent + rest.value.1))
  }

  lemma FlushStep(all: Option<(Builder, seq<(int, string)>)>, sent: seq<(int, string)>, one: (int, string),
                  rest: Option<(Builder, seq<(int, string)>)>)
    ensures FlushedAfter(all, sent, if rest.None? then None else Some((rest.value.0, [one] + rest.value.1))) ==>
              FlushedAfter(all, sent + [one], rest)
  {
    if rest.Some? {
      assert sent + ([one] + rest.value.1) == sent + [one] + rest.value.1;
    }
  }

  // ----- the estimate of output tokens -----

  /** The tokenizer, if it could be loaded: the number of tokens of a text, or None where it raises. */
  datatype Encoder = Missing | Encoding(encode: string -> Option<nat>)

  function PlusIf(a: Option<nat>, b: Option<nat>): Option<nat> {
    if a.Some? && b.Some? then Some(a.value + b.value) else None
  }

  function ToolTokens(t: ToolCall, encode: string -> Option<nat>): Option<nat> {
    PlusIf(PlusIf(encode(t.name), encode(Concat(t.contents))), Some(15))
  }

  function AllToolTokens(tools: map<int, ToolCall>, keys: seq<int>, encode: string -> Option<nat>): Option<nat> {
    if keys == [] then Some(0)
    else if keys[|keys| - 1] !in tools then AllToolTokens(tools, keys[..|keys| - 1], encode)
    else PlusIf(AllToolTokens(tools, keys[..|keys| - 1], encode), ToolTokens(tools[keys[|keys| - 1]], encode))
  }

  function StartedCount(tools: map<int, ToolCall>, keys: seq<int>): nat {
    if keys == [] then 0
    else
      StartedCount(tools, keys[..|keys| - 1])
      + if keys[|keys| - 1] in tools && tools[keys[|keys| - 1]].started then 1 else 0
  }

  /** `estimate_output_tokens`; None where the tokenizer raises. */
  function EstimateOutputTokens(b: Builder, encoder: Encoder): Option<nat> {
    var text, reasoning, started := Concat(b.text), Concat(b.reasoning), StartedCount(b.tools, b.order);
    match encoder
    case Missing => Some(|text| / 4 + |reasoning| / 4 + started * 50)
    case Encoding(encode) =>
      var blocks := (if reasoning != "" then 1 else 0) + (if text != "" then 1 else 0) + started;
      PlusIf(PlusIf(PlusIf(encode(text), encode(reasoning)), AllToolTokens(b.tools, b.order, encode)), Some(blocks * 4))
  }

  ghost predicate UnencodableTool(t: ToolCall, encode: string -> Option<nat>) {
    encode(t.name).None? || encode(Concat(t.contents)).None?
  }

  /** The tokenizer raises for the text, the reasoning, or the name or the arguments of a tool. */
  ghost predicate Unencodable(b: Builder, encode: string -> Option<nat>) {
    || encode(Concat(b.text)).None? || encode(Concat(b.reasoning)).None?
    || exists k :: k in b.tools && UnencodableTool(b.tools[k], encode)
  }

  lemma {:induction false} AllToolTokensIff(tools: map<int, ToolCall>, keys: seq<int>, encode: string -> Option<nat>)
    ensures AllToolTokens(tools, keys, encode).None? <==>
              exists k :: k in keys && k in tools && UnencodableTool(tools[k], encode)
  {
    if keys != [] {
      var init, last := keys[..|keys| - 1], keys[|keys| - 1];
      AllToolTokensIff(tools, init, encode);
      assert keys == init + [last];
      assert forall k :: k in keys <==> k in init || k == last;
      if k :| k in init && k in tools && UnencodableTool(tools[k], encode) {
        assert k in keys;
      }
    }
  }

  /** The estimate raises exactly if the tokenizer was loaded and raises for one of the texts sent. */
  lemma EstimateRaisesIff(b: Builder, encoder: Encoder)
    requires forall k :: k in b.order <==> k in b.tools
    ensures EstimateOutputTokens(b, encoder).None? <==> encoder.Encoding? && Unencodable(b, encoder.encode)
  {
    if encoder.Encoding? {
      AllToolTokensIff(b.tools, b.order, encoder.encode);
      assert (exists k :: k in b.order && k in b.tools && UnencodableTool(b.tools[k], encoder.encode))
             <==> (exists k :: k in b.tools && UnencodableTool(b.tools[k], encoder.encode));
    }
  }

  // ----- emitting -----

  const TEXT_BLOCK := Block("text", "", None, None, None)
  const THINKING_BLOCK := Block("thinking", "", None, None, None)

  function ToolBlock(id: string, name: string): Block {
    Block("tool_use", "", Some(id), Some(name), Some("{}"))
  }

  function StartThinkingBlock(b: Builder): (Builder, seq<Event>) {
    (b.(nextIndex := b.nextIndex + 1, thinkingIndex := b.nextIndex, thinkingStarted := true),
     [BlockStart(b.nextIndex, THINKING_BLOCK)])
  }

  function EmitThinkingDelta(b: Builder, content: string): (Builder, seq<Event>) {
    (b.(reasoning := b.reasoning + [content]), [BlockDelta(b.thinkingIndex, Delta("thinking_delta", content))])
  }

  function StopThinkingBlock(b: Builder): (Builder, seq<Event>) {
    (b.(thinkingStarted := false), [BlockStop(b.thinkingIndex)])
  }

  function StartTextBlock(b: Builder): (Builder, seq<Event>) {
    (b.(nextIndex := b.nextIndex + 1, textIndex := b.nextIndex, textStarted := true),
     [BlockStart(b.nextIndex, TEXT_BLOCK)])
  }

  function EmitTextDelta(b: Builder, content: string): (Builder, seq<Event>) {
    (b.(text := b.text + [content]), [BlockDelta(b.textIndex, Delta("text_delta", content))])
  }

  function StopTextBlock(b: Builder): (Builder, seq<Event>) {
    (b.(textStarted := false), [BlockStop(b.textIndex)])
  }

  function StartToolBlock(b: Builder, k: int, id: string, name: string): (Builder, seq<Event>) {
    var t := if k in b.tools then b.tools[k].(blockIndex := b.nextIndex, toolId := id, started := true)
             else NEW_TOOL.(blockIndex := b.nextIndex, toolId := id, name := name, started := true);
    (PutTool(b.(nextIndex := b.nextIndex + 1), k, t), [BlockStart(b.nextIndex, ToolBlock(id, name))])
  }

  function EmitToolDelta(b: Builder, k: int, json: string): (Builder, seq<Event>)
    requires k in b.tools
  {
    (b.(tools := b.tools[k := b.tools[k].(contents := b.tools[k].contents + [json])]),
     [BlockDelta(b.tools[k].blockIndex, Delta("input_json_delta", json))])
  }

  function EnsureThinkingBlock(b: Builder): (Builder, seq<Event>) {
    var (b1, out1) := if b.textStarted then StopTextBlock(b) else (b, []);
    var (b2, out2) := if !b1.thinkingStarted then StartThinkingBlock(b1) else (b1, []);
    (b2, out1 + out2)
  }

  function EnsureTextBlock(b: Builder): (Builder, seq<Event>) {
    var (b1, out1) := if b.thinkingStarted then StopThinkingBlock(b) else (b, []);
    var (b2, out2) := if !b1.textStarted then StartTextBlock(b1) else (b1, []);
    (b2, out1 + out2)
  }

  function CloseContentBlocks(b: Builder): (Builder, seq<Event>) {
    var (b1, out1) := if b.thinkingStarted then StopThinkingBlock(b) else (b, []);
    var (b2, out2) := if b1.textStarted then StopTextBlock(b1) else (b1, []);
    (b2, out1 + out2)
  }

  /** The stops of the started tools among `keys`; the tools stay marked as started. */
  function ToolStops(tools: map<int, ToolCall>, keys: seq<int>): seq<Event> {
    if keys == [] then []
    else
      (if keys[0] in tools && tools[keys[0]].started then [BlockStop(tools[keys[0]].blockIndex)] else [])
      + ToolStops(tools, keys[1..])
  }

  function CloseAllBlocks(b: Builder): (Builder, seq<Event>) {
    var (b1, out1) := CloseContentBlocks(b);
    (b1, out1 + ToolStops(b1.tools, b1.order))
  }

  /** A text block with the message, complete in itself. */
  function ErrorBlock(index: int, message: string): seq<Event> {
    [BlockStart(index, TEXT_BLOCK), BlockDelta(index, Delta("text_delta", message)), BlockStop(index)]
  }

  function EmitError(b: Builder, message: string): (Builder, seq<Event>) {
    (b.(nextIndex := b.nextIndex + 1), ErrorBlock(b.nextIndex, message))
  }

  lemma {:induction false} NoneTo(tools: map<int, ToolCall>, keys: seq<int>, n: nat, encode: string -> Option<nat>)
    requires n <= |keys| && AllToolTokens(tools, keys[..n], encode).None?
    ensures AllToolTokens(tools, keys, encode).None?
    decreases |keys| - n
  {
    if n == |keys| {
      assert keys[..n] == keys;
    } else {
      assert keys[..n + 1][..n] == keys[..n];
      NoneTo(tools, keys, n + 1, encode);
    }
  }

  class SSEBuilder {
    var nextIndex: int
    var thinkingIndex: int
    var textIndex: int
    var thinkingStarted: bool
    var textStarted: bool
    var order: seq<int>
    var tools: map<int, ToolCall>
    var textParts: seq<string>
    var reasoningParts: seq<string>

    function View(): Builder
      reads this
    {
      Builder(nextIndex, thinkingIndex, textIndex, thinkingStarted, textStarted, order, tools, textParts,
              reasoningParts)
    }

    constructor ()
      ensures View() == EMPTY
    {
      nextIndex, thinkingIndex, textIndex := 0, -1, -1;
      thinkingStarted, textStarted := false, false;
      order, tools := [], map[];
      textParts, reasoningParts := [], [];
    }

    method AllocateIndex() returns (index: int)
      modifies this
      ensures index == old(nextIndex) && View() == old(View()).(nextIndex := old(nextIndex) + 1)
    {
      index := nextIndex;
      nextIndex := nextIndex + 1;
    }

    method Put(k: int, t: ToolCall)
      modifies this
      ensures View() == PutTool(old(View()), k, t)
    {
      if k !in tools {
        order := order + [k];
      }
      tools := tools[k := t];
    }

    method EnsureTool(k: int)
      modifies this
      ensures View() == EnsureToolState(old(View()), k)
    {
      if k !in tools {
        Put(k, NEW_TOOL);
      } else {
        Put(k, tools[k]);
      }
    }

    method SetToolId(k: int, id: string)
      modifies this
      ensures View() == SetStreamToolId(old(View()), k, id)
    {
      if id == "" {
        return;
      }
      EnsureTool(k);
      Put(k, tools[k].(toolId := id));
    }

    method RegisterName(k: int, name: string)
      modifies this
      ensures View() == RegisterToolName(old(View()), k, name)
    {
      if k !in tools {
        Put(k, NEW_TOOL.(name := name));
        return;
      }
      var prev := tools[k].name;
      if prev == "" || StartsWith(name, prev) {
        Put(k, tools[k].(name := name));
      } else if !StartsWith(prev, name) {
        Put(k, tools[k].(name := prev + name));
      } else {
        assert tools[k := tools[k]] == tools;
      }
    }

    method BufferArgs(k: int, args: string, codec: Codec) returns (r: Buffered)
      modifies this
      ensures View() == BufferTaskArgs(old(View()), k, args, codec).0
      ensures r == BufferTaskArgs(old(View()), k, args, codec).1
    {
      if k !in tools || tools[k].taskArgsEmitted {
        return Waiting;
      }
      Put(k, tools[k].(taskArgBuffer := tools[k].taskArgBuffer + args));
      match codec.loads(tools[k].taskArgBuffer)
      case None =>
        return Waiting;
      case Some(Scalar(_)) =>
        return Raised;
      case Some(Dictionary(entries)) =>
        Put(k, tools[k].(taskArgsEmitted := true, taskArgBuffer := ""));
        return Ready(codec.dumps(Foreground(entries)));
    }

    /** None is an exception; it leaves the builder half flushed. */
    method FlushTaskArgs(codec: Codec) returns (results: Option<seq<(int, string)>>)
      modifies this
      ensures var r := FlushTaskArgBuffers(old(View()), old(order), codec);
              if r.None? then results.None? else results == Some(r.value.1) && View() == r.value.0
    {
      var sent: seq<(int, string)> := [];
      ghost var all := FlushTaskArgBuffers(View(), order, codec);
      assert order[0..] == order && (all.Some? ==> sent + all.value.1 == all.value.1);
      for n := 0 to |order|
        invariant order == old(order)
        invariant FlushedAfter(all, sent, FlushTaskArgBuffers(View(), order[n..], codec))
      {
        var k := order[n];
        assert order[n..][0] == k && order[n..][1..] == order[n + 1..];
        ghost var b, before := View(), sent;
        if k in tools && NeedsFlush(tools[k]) {
          var out := "{}";
          match codec.loads(tools[k].taskArgBuffer) {
            case None =>
              if codec.escapes(tools[k].taskArgBuffer) {
                return None;
              }
            case Some(Scalar(_)) =>
              return None;
            case Some(Dictionary(entries)) =>
              out := codec.dumps(Foreground(entries));
          }
          tools := tools[k := tools[k].(taskArgsEmitted := true, taskArgBuffer := "")];
          sent := sent + [(k, out)];
          FlushStep(all, before, (k, out), FlushTaskArgBuffers(View(), order[n + 1..], codec));
          assert b.(tools := tools) == View();
        }
      }
      assert sent + [] == sent;
      return Some(sent);
    }

    /** The loop over the tools, which ends at the first text for which the tokenizer raises. */
    method CountTools(encode: string -> Option<nat>) returns (tokens: Option<nat>, started: nat)
      ensures tokens == AllToolTokens(tools, order, encode)
      ensures tokens.Some? ==> started == StartedCount(tools, order)
    {
      tokens, started := Some(0), 0;
      for n := 0 to |order|
        invariant tokens == AllToolTokens(tools, order[..n], encode) && tokens.Some?
        invariant started == StartedCount(tools, order[..n])
      {
        var k := order[n];
        var keys := order[..n + 1];
        assert keys[..|keys| - 1] == order[..n] && keys[|keys| - 1] == k;
        if k in tools {
          tokens := PlusIf(tokens, ToolTokens(tools[k], encode));
          if tokens.None? {
            NoneTo(tools, order, n + 1, encode);
            return;
          }
          if tools[k].started {
            started := started + 1;
          }
        }
      }
      assert order[..|order|] == order;
    }

    method EstimateTokens(encoder: Encoder) returns (tokens: Option<nat>)
      ensures tokens == EstimateOutputTokens(View(), encoder)
    {
      var text, reasoning := Concat(textParts), Concat(reasoningParts);
      match encoder
      case Missing =>
        return Some(|text| / 4 + |reasoning| / 4 + StartedCount(tools, order) * 50);
      case Encoding(encode) =>
        var sum := PlusIf(encode(text), encode(reasoning));
        if sum.None? {
          return None;
        }
        var counted, started := CountTools(encode);
        if counted.None? {
          return None;
        }
        var blocks := (if reasoning != "" then 1 else 0) + (if text != "" then 1 else 0) + started;
        return Some(sum.value + counted.value + blocks * 4);
    }

    method StartThinking() returns (out: seq<Event>)
      modifies this
      ensures View() == StartThinkingBlock(old(View())).0 && out == StartThinkingBlock(old(View())).1
    {
      thinkingIndex := AllocateIndex();
      thinkingStarted := true;
      return [BlockStart(thinkingIndex, THINKING_BLOCK)];
    }

    method ThinkingDelta(content: string) returns (out: seq<Event>)
      modifies this
      ensures View() == EmitThinkingDelta(old(View()), content).0 && out == EmitThinkingDelta(old(View()), content).1
    {
      reasoningParts := reasoningParts + [content];
      return [BlockDelta(thinkingIndex, Delta("thinking_delta", content))];
    }

    method StopThinking() returns (out: seq<Event>)
      modifies this
      ensures View() == StopThinkingBlock(old(View())).0 && out == StopThinkingBlock(old(View())).1
    {
      thinkingStarted := false;
      return [BlockStop(thinkingIndex)];
    }

    method StartText() returns (out: seq<Event>)
      modifies this
      ensures View() == StartTextBlock(old(View())).0 && out == StartTextBlock(old(View())).1
    {
      textIndex := AllocateIndex();
      textStarted := true;
      return [BlockStart(textIndex, TEXT_BLOCK)];
    }

    method TextDelta(content: string) returns (out: seq<Event>)
      modifies this
      ensures View() == EmitTextDelta(old(View()), content).0 && out == EmitTextDelta(old(View()), content).1
    {
      textParts := textParts + [content];
      return [BlockDelta(textIndex, Delta("text_delta", content))];
    }

    method StopText() returns (out: seq<Event>)
      modifies this
      ensures View() == StopTextBlock(old(View())).0 && out == StopTextBlock(old(View())).1
    {
      textStarted := false;
      return [BlockStop(textIndex)];
    }

    method StartTool(k: int, id: string, name: string) returns (out: seq<Event>)
      modifies this
      ensures View() == StartToolBlock(old(View()), k, id, name).0 && out == StartToolBlock(old(View()), k, id, name).1
    {
      var index := AllocateIndex();
      if k in tools {
        Put(k, tools[k].(blockIndex := index, toolId := id, started := true));
      } else {
        Put(k, NEW_TOOL.(blockIndex := index, toolId := id, name := name, started := true));
      }
      return [BlockStart(index, ToolBlock(id, name))];
    }

    method ToolDelta(k: int, json: string) returns (out: seq<Event>)
      requires k in tools
      modifies this
      ensures View() == EmitToolDelta(old(View()), k, json).0 && out == EmitToolDelta(old(View()), k, json).1
    {
      tools := tools[k := tools[k].(contents := tools[k].contents + [json])];
      return [BlockDelta(tools[k].blockIndex, Delta("input_json_delta", json))];
    }

    method EnsureThinking() returns (out: seq<Event>)
      modifies this
      ensures View() == EnsureThinkingBlock(old(View())).0 && out == EnsureThinkingBlock(old(View())).1
    {
      out := [];
      if textStarted {
        out := StopText();
      }
      if !thinkingStarted {
        var more := StartThinking();
        out := out + more;
      }
    }

    method EnsureText() returns (out: seq<Event>)
      modifies this
      ensures View() == EnsureTextBlock(old(View())).0 && out == EnsureTextBlock(old(View())).1
    {
      out := [];
      if thinkingStarted {
        out := StopThinking();
      }
      if !textStarted {
        var more := StartText();
        out := out + more;
      }
    }

    method CloseContent() returns (out: seq<Event>)
      modifies this
      ensures View() == CloseContentBlocks(old(View())).0 && out == CloseContentBlocks(old(View())).1
    {
      out := [];
      if thinkingStarted {
        out := StopThinking();
      }
      if textStarted {
        var more := StopText();
        out := out + more;
      }
    }

    method CloseAll() returns (out: seq<Event>)
      modifies this
      ensures View() == CloseAllBlocks(old(View())).0 && out == CloseAllBlocks(old(View())).1
    {
      out := CloseContent();
      ghost var content := out;
      for n := 0 to |order|
        invariant View() == CloseAllBlocks(old(View())).0
        invariant out + ToolStops(tools, order[n..]) == content + ToolStops(tools, order)
      {
        var k := order[n];
        assert order[n..][0] == k && order[n..][1..] == order[n + 1..];
        if k in tools && tools[k].started {
          out := out + [BlockStop(tools[k].blockIndex)];
        }
      }
    }

    method EmitErrorBlock(message: string) returns (out: seq<Event>)
      modifies this
      ensures View() == EmitError(old(View()), message).0 && out == EmitError(old(View()), message).1
    {
      var index := AllocateIndex();
      return [BlockStart(index, TEXT_BLOCK), BlockDelta(index, Delta("text_delta", message)), BlockStop(index)];
    }
  }
}
