/**
 * The stream that an OpenAI-compatible provider produces from chat completion chunks
 * (providers/openai_compat.py): reasoning, text that may hide thinking tags and textual tool calls,
 * native tool calls in fragments, and a failure at any point.
 */
module OpenAIStream {
  import opened Text
  import opened StreamContract
  import opened SseBuilder
  import ThinkParser

  /** A tool use found in plain text. */
  datatype ToolUse = ToolUse(id: string, name: string, input: Json)

  /**
   * The heuristic tool parser as an arbitrary deterministic producer: what it returns for the last
   * part it was fed, and on flush, given all the parts fed to it.
   */
  datatype Heuristic = Heuristic(feed: seq<string> -> (string, seq<ToolUse>), flush: seq<string> -> seq<ToolUse>)

  /** A native tool call fragment; `freshId` is the generated id, used if no other is known. */
  datatype ToolDelta = ToolDelta(index: int, id: Option<string>, name: Option<string>, arguments: string,
                                 freshId: string)

  /**
   * A chunk may carry usage, with or without an integer count of tokens. One without choices or
   * delta carries nothing else. A chunk that `breaks` raises an exception
   * after what is given of it has been handled: its rest is malformed, or could not be parsed.
   */
  datatype Chunk =
    | Idle(usage: Option<Option<int>>)
    | Turn(usage: Option<Option<int>>, finishReason: Option<string>, reasoning: string, content: string,
           toolCalls: seq<ToolDelta>, breaks: bool)

  datatype Config = Config(thinking: bool, codec: Codec, heuristic: Heuristic, encoder: Encoder)

  /** The result of a step: the builder, what was emitted, and whether an exception was raised. */
  datatype Emitted = Emitted(b: Builder, out: seq<Event>, raised: bool)

  // ----- tool calls -----

  function EmitToolArgDelta(b: Builder, k: int, args: string, codec: Codec): Emitted {
    if args == "" || k !in b.tools then Emitted(b, [], false)
    else if b.tools[k].name == "Task" then
      var (b1, r) := BufferTaskArgs(b, k, args, codec);
      match r
      case Waiting => Emitted(b1, [], false)
      case Raised => Emitted(b1, [], true)
      case Ready(json) => Emitted(EmitToolDelta(b1, k, json).0, EmitToolDelta(b1, k, json).1, false)
    else
      Emitted(EmitToolDelta(b, k, args).0, EmitToolDelta(b, k, args).1, false)
  }

  function Resolve(b: Builder, tc: ToolDelta): int {
    if tc.index < 0 then |b.tools| else tc.index
  }

  function IsStarted(b: Builder, k: int): bool {
    k in b.tools && b.tools[k].started
  }

  /** Records the id and the name fragment of a tool call. */
  function Recorded(b: Builder, k: int, tc: ToolDelta): Builder {
    var b1 := if tc.id.Some? then SetStreamToolId(b, k, tc.id.value) else b;
    if tc.name.Some? then RegisterToolName(b1, k, tc.name.value) else b1
  }

  function ResolvedId(b: Builder, k: int, tc: ToolDelta): string {
    if ToolOr(b, k).toolId != "" then ToolOr(b, k).toolId
    else if tc.id.Some? && tc.id.value != "" then tc.id.value
    else tc.freshId
  }

  /** Opens the tool's block once its name is known, and sends the arguments that came before. */
  function Opened(b: Builder, k: int, tc: ToolDelta, codec: Codec): Emitted {
    var name := ToolOr(b, k).name;
    if IsStarted(b, k) || IsBlank(name) then Emitted(b, [], false)
    else
      var (b1, out) := StartToolBlock(b, k, ResolvedId(b, k, tc), Strip(name));
      var pre := b1.tools[k].preStartArgs;
      if pre == "" then Emitted(b1, out, false)
      else
        var b2 := PutTool(b1, k, b1.tools[k].(preStartArgs := ""));
        var r := EmitToolArgDelta(b2, k, pre, codec);
        Emitted(r.b, out + r.out, r.raised)
  }

  /** Sends the arguments of the fragment, or keeps them while the tool has no name. */
  function Argued(b: Builder, k: int, name: string, args: string, codec: Codec): Emitted {
    if args == "" then Emitted(b, [], false)
    else if !IsStarted(b, k) && IsBlank(name) then
      var t := ToolOr(b, k);
      Emitted(PutTool(b, k, t.(preStartArgs := t.preStartArgs + args)), [], false)
    else
      EmitToolArgDelta(if IsStarted(b, k) then b else EnsureToolState(b, k), k, args, codec)
  }

  function ProcessToolCall(b: Builder, tc: ToolDelta, codec: Codec): Emitted {
    var k := Resolve(b, tc);
    var b1 := Recorded(b, k, tc);
    var r := Opened(b1, k, tc, codec);
    if r.raised then r
    else
      var q := Argued(r.b, k, ToolOr(b1, k).name, tc.arguments, codec);
      Emitted(q.b, r.out + q.out, q.raised)
  }

  function ProcessToolCalls(b: Builder, tcs: seq<ToolDelta>, codec: Codec): Emitted
    decreases |tcs|
  {
    if tcs == [] then Emitted(b, [], false)
    else
      var r := ProcessToolCall(b, tcs[0], codec);
      if r.raised then r
      else
        var q := ProcessToolCalls(r.b, tcs[1..], codec);
        Emitted(q.b, r.out + q.out, q.raised)
  }

  // ----- text and thinking -----

  function InputJson(tool: ToolUse, codec: Codec): string {
    match tool.input
    case Dictionary(entries) => codec.dumps(if tool.name == "Task" then Foreground(entries) else entries)
    case Scalar(text) => text
  }

  function HeuristicToolUse(b: Builder, tool: ToolUse, codec: Codec): (Builder, seq<Event>) {
    var (b1, out) := CloseContentBlocks(b);
    (b1.(nextIndex := b1.nextIndex + 1),
     out + [BlockStart(b1.nextIndex, ToolBlock(tool.id, tool.name)),
            BlockDelta(b1.nextIndex, Delta("input_json_delta", InputJson(tool, codec))),
            BlockStop(b1.nextIndex)])
  }

  function HeuristicToolUses(b: Builder, tools: seq<ToolUse>, codec: Codec): (Builder, seq<Event>)
    decreases |tools|
  {
    if tools == [] then (b, [])
    else
      var (b1, out) := HeuristicToolUse(b, tools[0], codec);
      (HeuristicToolUses(b1, tools[1..], codec).0, out + HeuristicToolUses(b1, tools[1..], codec).1)
  }

  function Think(b: Builder, content: string): (Builder, seq<Event>) {
    var (b1, out) := EnsureThinkingBlock(b);
    (EmitThinkingDelta(b1, content).0, out + EmitThinkingDelta(b1, content).1)
  }

  function Say(b: Builder, content: string): (Builder, seq<Event>) {
    var (b1, out) := EnsureTextBlock(b);
    (EmitTextDelta(b1, content).0, out + EmitTextDelta(b1, content).1)
  }

  /** The builder together with the think-tag parser and the parts fed to the heuristic parser. */
  datatype Stream = Stream(b: Builder, parser: ThinkParser.State, fed: seq<string>)

  const FRESH := Stream(EMPTY, ThinkParser.FRESH, [])

  function SayFiltered(b: Builder, filtered: string, tools: seq<ToolUse>, codec: Codec): (Builder, seq<Event>) {
    var (b1, out) := if filtered != "" then Say(b, filtered) else (b, []);
    (HeuristicToolUses(b1, tools, codec).0, out + HeuristicToolUses(b1, tools, codec).1)
  }

  function Part(s: Stream, part: ThinkParser.Chunk, cfg: Config): (Stream, seq<Event>) {
    match part.kind
    case THINKING =>
      if cfg.thinking then (s.(b := Think(s.b, part.content).0), Think(s.b, part.content).1) else (s, [])
    case TEXT =>
      var fed := s.fed + [part.content];
      var (filtered, tools) := cfg.heuristic.feed(fed);
      var (b1, out) := SayFiltered(s.b, filtered, tools, cfg.codec);
      (s.(b := b1, fed := fed), out)
  }

  function Parts(s: Stream, parts: seq<ThinkParser.Chunk>, cfg: Config): (Stream, seq<Event>)
    decreases |parts|
  {
    if parts == [] then (s, [])
    else
      var (s1, out) := Part(s, parts[0], cfg);
      (Parts(s1, parts[1..], cfg).0, out + Parts(s1, parts[1..], cfg).1)
  }

  // ----- the loop over chunks -----

  datatype Looped = Looped(s: Stream, out: seq<Event>, raised: bool)

  function Reason(b: Builder, reasoning: string, thinking: bool): (Builder, seq<Event>) {
    if thinking && reasoning != "" then Think(b, reasoning) else (b, [])
  }

  function FeedContent(s: Stream, content: string, cfg: Config): (Stream, seq<Event>) {
    if content == "" then (s, [])
    else
      var (parser, parts) := ThinkParser.Feed(s.parser, content);
      Parts(s.(parser := parser), parts, cfg)
  }

  function CallTools(b: Builder, tcs: seq<ToolDelta>, codec: Codec): Emitted {
    if tcs == [] then Emitted(b, [], false)
    else
      var (b1, out) := CloseContentBlocks(b);
      var r := ProcessToolCalls(b1, tcs, codec);
      Emitted(r.b, out + r.out, r.raised)
  }

  function OneChunk(s: Stream, chunk: Chunk, cfg: Config): Looped {
    match chunk
    case Idle(_) => Looped(s, [], false)
    case Turn(_, _, reasoning, content, toolCalls, breaks) =>
      var (b1, out1) := Reason(s.b, reasoning, cfg.thinking);
      var (s2, out2) := FeedContent(s.(b := b1), content, cfg);
      var r := CallTools(s2.b, toolCalls, cfg.codec);
      Looped(s2.(b := r.b), out1 + out2 + r.out, r.raised || breaks)
  }

  function Loop(s: Stream, chunks: seq<Chunk>, cfg: Config): Looped
    decreases |chunks|
  {
    if chunks == [] then Looped(s, [], false)
    else
      var r := OneChunk(s, chunks[0], cfg);
      if r.raised then r
      else
        var q := Loop(r.s, chunks[1..], cfg);
        Looped(q.s, r.out + q.out, q.raised)
  }

  // ----- the two endings -----

  function Tail(stopReason: string, tokens: int): seq<Event> {
    [MessageDelta(stopReason, tokens), MessageStop]
  }

  function FailureEnding(b: Builder, message: string): seq<Event> {
    var (b1, out) := CloseAllBlocks(b);
    out + (if HasEmittedToolBlock(b1) then [Error(message)] else EmitError(b1, message).1) + Tail("end_turn", 1)
  }

  function FlushParser(s: Stream, cfg: Config): (Builder, seq<Event>) {
    match ThinkParser.Flush(s.parser)
    case None => (s.b, [])
    case Some(part) =>
      if part.kind.TEXT? then Say(s.b, part.content)
      else if cfg.thinking then Think(s.b, part.content)
      else (s.b, [])
  }

  /** A message without content, or with reasoning only, gets a text block with a space. */
  function Pad(b: Builder): (Builder, seq<Event>) {
    if b.textIndex == -1 && b.thinkingIndex == -1 && !HasEmittedToolBlock(b) then Say(b, " ")
    else if !HasEmittedToolBlock(b) && IsBlank(Concat(b.text)) && !IsBlank(Concat(b.reasoning)) then Say(b, " ")
    else (b, [])
  }

  function ToolDeltas(b: Builder, results: seq<(int, string)>): (Builder, seq<Event>)
    decreases |results|
  {
    if results == [] || results[0].0 !in b.tools then (b, [])
    else
      var (b1, out) := EmitToolDelta(b, results[0].0, results[0].1);
      (ToolDeltas(b1, results[1..]).0, out + ToolDeltas(b1, results[1..]).1)
  }

  /** Everything that is emitted before the closing stops of a normal ending. */
  function BeforeClose(s: Stream, cfg: Config): Emitted {
    var (b1, out1) := FlushParser(s, cfg);
    var (b2, out2) := HeuristicToolUses(b1, cfg.heuristic.flush(s.fed), cfg.codec);
    var (b3, out3) := Pad(b2);
    match FlushTaskArgBuffers(b3, b3.order, cfg.codec)
    case None => Emitted(b3, out1 + out2 + out3, true)
    case Some((b4, results)) =>
      Emitted(ToolDeltas(b4, results).0, out1 + out2 + out3 + ToolDeltas(b4, results).1, false)
  }

  const STOP_REASONS := map["stop" := "end_turn", "length" := "max_tokens", "tool_calls" := "tool_use",
                            "content_filter" := "end_turn"]

  function MapStopReason(reason: Option<string>): string {
    if reason.Some? && reason.value in STOP_REASONS then STOP_REASONS[reason.value] else "end_turn"
  }

  /** The last finish reason, and the count in the last usage, that the chunks carry. */
  function FinishReason(chunks: seq<Chunk>): Option<string> {
    if chunks == [] then None
    else
      var last := chunks[|chunks| - 1];
      if last.Turn? && last.finishReason.Some? && last.finishReason.value != "" then last.finishReason
      else FinishReason(chunks[..|chunks| - 1])
  }

  function Usage(chunks: seq<Chunk>): Option<int> {
    if chunks == [] then None
    else if chunks[|chunks| - 1].usage.Some? then chunks[|chunks| - 1].usage.value
    else Usage(chunks[..|chunks| - 1])
  }

  /** The output tokens that are reported at the end; None where the estimate raises. */
  function Tokens(b: Builder, chunks: seq<Chunk>, cfg: Config): Option<int> {
    if Usage(chunks).Some? then Usage(chunks)
    else
      match EstimateOutputTokens(b, cfg.encoder)
      case None => None
      case Some(n) => Some(n)
  }

  /** The closing stops and the tail of a normal ending; an exception of the estimate cuts off the tail. */
  function Ending(b: Builder, chunks: seq<Chunk>, cfg: Config): seq<Event> {
    var (b1, out) := CloseAllBlocks(b);
    match Tokens(b1, chunks, cfg)
    case None => out
    case Some(n) => out + Tail(MapStopReason(FinishReason(chunks)), n)
  }

  /**
   * The events of a whole response: the upstream delivers `chunks` and then either ends or, if
   * `fails`, raises. An exception of the final flush or of the estimate ends the output without a tail.
   */
  function Response(start: Event, chunks: seq<Chunk>, fails: bool, message: string, cfg: Config): seq<Event> {
    var r := Loop(FRESH, chunks, cfg);
    [start] + r.out +
    if r.raised || fails then FailureEnding(r.s.b, message)
    else
      var q := BeforeClose(r.s, cfg);
      q.out + if q.raised then [] else Ending(q.b, chunks, cfg)
  }

  /** The response as a sequence of its parts. */
  lemma ResponseShape(start: Event, chunks: seq<Chunk>, fails: bool, message: string, cfg: Config)
    ensures var r := Loop(FRESH, chunks, cfg); var out := Response(start, chunks, fails, message, cfg);
            if r.raised || fails then out == [start] + r.out + FailureEnding(r.s.b, message)
            else
              var q := BeforeClose(r.s, cfg);
              out == [start] + r.out + q.out + (if q.raised then [] else Ending(q.b, chunks, cfg))
  {
    var r := Loop(FRESH, chunks, cfg);
    if !(r.raised || fails) {
      var q := BeforeClose(r.s, cfg);
      Assoc([start] + r.out, q.out, if q.raised then [] else Ending(q.b, chunks, cfg));
    }
  }
}
