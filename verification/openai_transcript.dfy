/**
 * What a whole response says, and in which order, as a function of what the upstream said: every
 * thought, text, tool block, tool argument, error and ending, without block indexes and stops, which
 * are the business of the stream contract.
 */
module OpenAITranscript {
  import opened Text
  import opened StreamContract
  import opened SseBuilder
  import opened OpenAIStream
  import opened OpenAIContract
  import opened OpenAIArguments
  import opened OpenAIIdentity
  import OpenAIText
  import ThinkParser

  // ----- what a stream says -----

  datatype Said =
    | Begun(id: string, model: string)
    | Thought(text: string)
    | Spoke(text: string)
    | Used(block: Block)
    | Input(json: string)
    | Failed(message: string)
    | Ended(reason: string, tokens: int)
    | Stopped

  function Says(e: Event): seq<Said> {
    match e
    case MessageStart(id, model) => [Begun(id, model)]
    case BlockStart(_, b) =>
      if b == Block("text", "", None, None, None) || b == Block("thinking", "", None, None, None) then [] else [Used(b)]
    case BlockDelta(_, d) =>
      if d.kind == "thinking_delta" then [Thought(d.content)]
      else if d.kind == "text_delta" then [Spoke(d.content)]
      else [Input(d.content)]
    case MessageDelta(reason, tokens) => [Ended(reason, tokens)]
    case MessageStop => [Stopped]
    case Error(message) => [Failed(message)]
    case _ => []
  }

  function Transcript(es: seq<Event>): seq<Said> {
    if es == [] then [] else Says(es[0]) + Transcript(es[1..])
  }

  lemma {:induction false} TranscriptAppend(a: seq<Event>, b: seq<Event>)
    ensures Transcript(a + b) == Transcript(a) + Transcript(b)
  {
    if a == [] {
      AppendNone(b);
      AppendNone(Transcript(b));
    } else {
      AppendTail(a, b);
      TranscriptAppend(a[1..], b);
      Assoc(Says(a[0]), Transcript(a[1..]), Transcript(b));
    }
  }

  lemma TranscriptOne(e: Event)
    ensures Transcript([e]) == Says(e)
  {
    assert [e][1..] == [];
    AppendNone(Says(e));
  }

  /** Only stops, and starts of empty text and thinking blocks. */
  predicate Silent(es: seq<Event>) {
    forall e | e in es :: Says(e) == []
  }

  lemma {:induction false} SilentSaysNothing(es: seq<Event>)
    requires Silent(es)
    ensures Transcript(es) == []
  {
    if es != [] {
      assert es[0] in es;
      SilentSaysNothing(es[1..]);
    }
  }

  lemma SilentThenOne(out: seq<Event>, e: Event)
    requires Silent(out)
    ensures Transcript(out + [e]) == Says(e)
  {
    SilentSaysNothing(out);
    TranscriptAppend(out, [e]);
    TranscriptOne(e);
    AppendNone(Says(e));
  }

  // ----- what the upstream says -----

  /** The arguments of a textual tool call; a subagent is made to run in the foreground. */
  function InputOf(tool: ToolUse, codec: Codec): string {
    match tool.input
    case Scalar(text) => text
    case Dictionary(entries) =>
      if tool.name != "Task" then codec.dumps(entries) else codec.dumps(Foreground(entries))
  }

  function ToolsSay(tools: seq<ToolUse>, codec: Codec): seq<Said> {
    if tools == [] then []
    else
      var tool := tools[0];
      [Used(Block("tool_use", "", Some(tool.id), Some(tool.name), Some("{}"))), Input(InputOf(tool, codec))]
      + ToolsSay(tools[1..], codec)
  }

  /** A part of a content delta; `fed` are the text parts before it. */
  function PartSays(fed: seq<string>, part: ThinkParser.Chunk, cfg: Config): seq<Said> {
    match part.kind
    case THINKING => if cfg.thinking then [Thought(part.content)] else []
    case TEXT =>
      var (passed, tools) := cfg.heuristic.feed(fed + [part.content]);
      (if passed != "" then [Spoke(passed)] else []) + ToolsSay(tools, cfg.codec)
  }

  function FedBy(fed: seq<string>, part: ThinkParser.Chunk): seq<string> {
    if part.kind.TEXT? then fed + [part.content] else fed
  }

  function PartsSay(fed: seq<string>, parts: seq<ThinkParser.Chunk>, cfg: Config): seq<Said>
    decreases |parts|
  {
    if parts == [] then [] else PartSays(fed, parts[0], cfg) + PartsSay(FedBy(fed, parts[0]), parts[1..], cfg)
  }

  function FedByAll(fed: seq<string>, parts: seq<ThinkParser.Chunk>): seq<string>
    decreases |parts|
  {
    if parts == [] then fed else FedByAll(FedBy(fed, parts[0]), parts[1..])
  }

  function Inputs(deltas: seq<string>): seq<Said> {
    seq(|deltas|, i requires 0 <= i < |deltas| => Input(deltas[i]))
  }

  /** What the fragments have given rise to for tool k. */
  function Given(calls: seq<ToolDelta>, k: int, codec: Codec): seq<string> {
    Delivered(Pieces(calls, k), codec)
  }

  /** A fragment may announce its tool, and adds to what its tool is sent. */
  ghost function CallSays(calls: seq<ToolDelta>, tc: ToolDelta, codec: Codec): seq<Said> {
    var k, all := Target(calls, tc), calls + [tc];
    GivenGrows(calls, tc, k, codec);
    (if Opening(calls, k).None? && Opening(all, k).Some? then [Used(Opening(all, k).value)] else [])
    + Inputs(Given(all, k, codec)[|Given(calls, k, codec)|..])
  }

  ghost function CallsSay(calls: seq<ToolDelta>, tcs: seq<ToolDelta>, codec: Codec): seq<Said>
    decreases |tcs|
  {
    if tcs == [] then [] else CallSays(calls, tcs[0], codec) + CallsSay(calls + [tcs[0]], tcs[1..], codec)
  }

  function PartsOf(parser: ThinkParser.State, chunk: Chunk): (ThinkParser.State, seq<ThinkParser.Chunk>) {
    if chunk.Turn? && chunk.content != "" then ThinkParser.Feed(parser, chunk.content) else (parser, [])
  }

  /** A chunk: its reasoning, its content, its native tool calls. */
  ghost function ChunkSays(parser: ThinkParser.State, fed: seq<string>, calls: seq<ToolDelta>, chunk: Chunk,
                           cfg: Config): seq<Said>
  {
    ContentSays(parser, fed, chunk, cfg) + CallsSay(calls, CallsOf([chunk]), cfg.codec)
  }

  function ContentSays(parser: ThinkParser.State, fed: seq<string>, chunk: Chunk, cfg: Config): seq<Said> {
    (if chunk.Turn? && cfg.thinking && chunk.reasoning != "" then [Thought(chunk.reasoning)] else [])
    + PartsSay(fed, PartsOf(parser, chunk).1, cfg)
  }

  ghost function ChunksSay(parser: ThinkParser.State, fed: seq<string>, calls: seq<ToolDelta>, chunks: seq<Chunk>,
                           cfg: Config): seq<Said>
    decreases |chunks|
  {
    if chunks == [] then []
    else
      var (parser', parts) := PartsOf(parser, chunks[0]);
      ChunkSays(parser, fed, calls, chunks[0], cfg)
      + ChunksSay(parser', FedByAll(fed, parts), calls + CallsOf([chunks[0]]), chunks[1..], cfg)
  }

  // ----- content -----

  lemma ThinkSays(b: Builder, content: string)
    ensures Transcript(Think(b, content).1) == [Thought(content)]
  {
    var (b1, out) := EnsureThinkingBlock(b);
    assert Silent(out);
    SilentThenOne(out, BlockDelta(b1.thinkingIndex, Delta("thinking_delta", content)));
  }

  lemma SaySays(b: Builder, content: string)
    ensures Transcript(Say(b, content).1) == [Spoke(content)]
  {
    var (b1, out) := EnsureTextBlock(b);
    assert Silent(out);
    SilentThenOne(out, BlockDelta(b1.textIndex, Delta("text_delta", content)));
  }

  lemma ToolSays(b: Builder, tool: ToolUse, codec: Codec)
    ensures Transcript(HeuristicToolUse(b, tool, codec).1) ==
              [Used(Block("tool_use", "", Some(tool.id), Some(tool.name), Some("{}"))), Input(InputOf(tool, codec))]
  {
    var (b1, out) := CloseContentBlocks(b);
    var n := b1.nextIndex;
    var s, t, u := BlockStart(n, ToolBlock(tool.id, tool.name)),
                   BlockDelta(n, Delta("input_json_delta", InputJson(tool, codec))), BlockStop(n);
    assert Silent(out);
    SilentSaysNothing(out);
    TranscriptAppend(out, [s, t, u]);
    assert [s, t, u] == [s] + [t] + [u];
    TranscriptOne(s);
    TranscriptOne(t);
    TranscriptOne(u);
    TranscriptAppend([s], [t]);
    TranscriptAppend([s] + [t], [u]);
  }

  lemma {:induction false} FoundToolsSay(b: Builder, tools: seq<ToolUse>, codec: Codec)
    ensures Transcript(HeuristicToolUses(b, tools, codec).1) == ToolsSay(tools, codec)
    decreases |tools|
  {
    if tools != [] {
      var (b1, out) := HeuristicToolUse(b, tools[0], codec);
      ToolSays(b, tools[0], codec);
      FoundToolsSay(b1, tools[1..], codec);
      TranscriptAppend(out, HeuristicToolUses(b1, tools[1..], codec).1);
    }
  }

  lemma PartIsSaid(s: Stream, part: ThinkParser.Chunk, cfg: Config)
    ensures var (s1, out) := Part(s, part, cfg);
            && Transcript(out) == PartSays(s.fed, part, cfg)
            && s1.fed == FedBy(s.fed, part) && s1.parser == s.parser
  {
    if part.kind.TEXT? {
      var fed := s.fed + [part.content];
      var (passed, tools) := cfg.heuristic.feed(fed);
      var (b1, out) := if passed != "" then Say(s.b, passed) else (s.b, []);
      SaySays(s.b, passed);
      FoundToolsSay(b1, tools, cfg.codec);
      TranscriptAppend(out, HeuristicToolUses(b1, tools, cfg.codec).1);
    } else {
      ThinkSays(s.b, part.content);
    }
  }

  lemma {:induction false} PartsAreSaid(s: Stream, parts: seq<ThinkParser.Chunk>, cfg: Config)
    ensures var (s1, out) := Parts(s, parts, cfg);
            && Transcript(out) == PartsSay(s.fed, parts, cfg)
            && s1.fed == FedByAll(s.fed, parts) && s1.parser == s.parser
    decreases |parts|
  {
    if parts != [] {
      var (s1, out) := Part(s, parts[0], cfg);
      PartIsSaid(s, parts[0], cfg);
      PartsAreSaid(s1, parts[1..], cfg);
      TranscriptAppend(out, Parts(s1, parts[1..], cfg).1);
    }
  }

  /** Everything of a chunk but its native tool calls. */
  lemma ContentIsSaid(s: Stream, chunk: Chunk, cfg: Config)
    requires chunk.Turn?
    ensures var (b1, out1) := Reason(s.b, chunk.reasoning, cfg.thinking);
            var (s2, out2) := FeedContent(s.(b := b1), chunk.content, cfg);
            && Transcript(out1 + out2) == ContentSays(s.parser, s.fed, chunk, cfg)
            && s2.parser == PartsOf(s.parser, chunk).0 && s2.fed == FedByAll(s.fed, PartsOf(s.parser, chunk).1)
  {
    var (b1, out1) := Reason(s.b, chunk.reasoning, cfg.thinking);
    var (s2, out2) := FeedContent(s.(b := b1), chunk.content, cfg);
    ThinkSays(s.b, chunk.reasoning);
    var (parser, parts) := PartsOf(s.parser, chunk);
    PartsAreSaid(Stream(b1, parser, s.fed), parts, cfg);
    TranscriptAppend(out1, out2);
  }

  // ----- native tool calls -----

  lemma GivenGrows(calls: seq<ToolDelta>, tc: ToolDelta, k: int, codec: Codec)
    ensures Given(calls, k, codec) <= Given(calls + [tc], k, codec)
  {
    Shorter(calls, tc, k);
    var ps, qs := Pieces(calls, k), Pieces(calls + [tc], k);
    if Target(calls, tc) == k {
      assert qs[..|ps|] == ps;
      DeliveredGrows(qs, |ps|, codec);
    }
  }

  lemma {:induction false} DeliveredGrows(ps: seq<Piece>, n: nat, codec: Codec)
    requires n <= |ps|
    ensures Delivered(ps[..n], codec) <= Delivered(ps, codec)
    decreases |ps|
  {
    if n < |ps| {
      var init := ps[..|ps| - 1];
      assert init[..n] == ps[..n];
      DeliveredGrows(init, n, codec);
    } else {
      assert ps[..n] == ps;
    }
  }

  lemma InputsAppend(a: seq<string>, b: seq<string>)
    ensures Inputs(a + b) == Inputs(a) + Inputs(b)
  {
  }

  /** What `EmitToolArgDelta` and `Argued` say is what they record. */
  lemma ArgIsSaid(b: Builder, k: int, args: string, codec: Codec) returns (sent: seq<string>)
    ensures var r := EmitToolArgDelta(b, k, args, codec);
            Transcript(r.out) == Inputs(sent) && ToolOr(r.b, k).contents == ToolOr(b, k).contents + sent
  {
    var r := EmitToolArgDelta(b, k, args, codec);
    AppendNone(ToolOr(b, k).contents);
    if r.out == [] {
      sent := [];
    } else {
      sent := [r.out[0].delta.content];
      assert r.out == [r.out[0]];
      TranscriptOne(r.out[0]);
    }
  }

  lemma ArguedIsSaid(b: Builder, k: int, name: string, args: string, codec: Codec) returns (sent: seq<string>)
    ensures var r := Argued(b, k, name, args, codec);
            Transcript(r.out) == Inputs(sent) && ToolOr(r.b, k).contents == ToolOr(b, k).contents + sent
  {
    AppendNone(ToolOr(b, k).contents);
    if args == "" || (!IsStarted(b, k) && IsBlank(name)) {
      sent := [];
    } else {
      sent := ArgIsSaid(if IsStarted(b, k) then b else EnsureToolState(b, k), k, args, codec);
    }
  }

  lemma OpenedIsSaid(b: Builder, k: int, tc: ToolDelta, codec: Codec) returns (sent: seq<string>)
    ensures var r := Opened(b, k, tc, codec);
            && ToolOr(r.b, k).contents == ToolOr(b, k).contents + sent
            && Transcript(r.out) ==
                 (if IsStarted(b, k) || IsBlank(ToolOr(b, k).name) then []
                  else [Used(ToolBlock(ResolvedId(b, k, tc), Strip(ToolOr(b, k).name)))])
                 + Inputs(sent)
  {
    var name := ToolOr(b, k).name;
    AppendNone(ToolOr(b, k).contents);
    sent := [];
    if !IsStarted(b, k) && !IsBlank(name) {
      var block := ToolBlock(ResolvedId(b, k, tc), Strip(name));
      var (b1, out) := StartToolBlock(b, k, ResolvedId(b, k, tc), Strip(name));
      assert out == [BlockStart(b.nextIndex, block)];
      TranscriptOne(out[0]);
      AppendNone([Used(block)]);
      if b1.tools[k].preStartArgs != "" {
        var b2 := PutTool(b1, k, b1.tools[k].(preStartArgs := ""));
        sent := ArgIsSaid(b2, k, b1.tools[k].preStartArgs, codec);
        TranscriptAppend(out, EmitToolArgDelta(b2, k, b1.tools[k].preStartArgs, codec).out);
      }
    }
  }

  /** What one fragment says, in the builder's terms. */
  lemma CallIsSaid(b: Builder, tc: ToolDelta, codec: Codec) returns (sent: seq<string>)
    ensures var k := Resolve(b, tc); var r := ProcessToolCall(b, tc, codec); var b1 := Recorded(b, k, tc);
            && ToolOr(r.b, k).contents == ToolOr(b, k).contents + sent
            && Transcript(r.out) ==
                 (if IsStarted(b1, k) || IsBlank(ToolOr(b1, k).name) then []
                  else [Used(ToolBlock(ResolvedId(b1, k, tc), Strip(ToolOr(b1, k).name)))])
                 + Inputs(sent)
  {
    var k := Resolve(b, tc);
    var b1 := Recorded(b, k, tc);
    RecordedTool(b, k, tc);
    var r := Opened(b1, k, tc, codec);
    sent := OpenedIsSaid(b1, k, tc, codec);
    if !r.raised {
      var more := ArguedIsSaid(r.b, k, ToolOr(b1, k).name, tc.arguments, codec);
      var q := Argued(r.b, k, ToolOr(b1, k).name, tc.arguments, codec);
      TranscriptAppend(r.out, q.out);
      InputsAppend(sent, more);
      Assoc(ToolOr(b1, k).contents, sent, more);
      Assoc(if IsStarted(b1, k) || IsBlank(ToolOr(b1, k).name) then []
            else [Used(ToolBlock(ResolvedId(b1, k, tc), Strip(ToolOr(b1, k).name)))], Inputs(sent), Inputs(more));
      sent := sent + more;
    }
  }

  /** What a tool was sent is what its fragments have given rise to, or the first of it after an exception. */
  lemma ContentsGiven(b: Builder, calls: seq<ToolDelta>, k: int, settled: bool, codec: Codec)
    requires ToldOf(b, calls, k, settled, codec)
    ensures ToolOr(b, k).contents <= Given(calls, k, codec)
    ensures settled ==> ToolOr(b, k).contents == Given(calls, k, codec)
  {
    var t, ps := ToolOr(b, k), Pieces(calls, k);
    if t.started && !settled {
      var n :| ToldUpTo(t, ps, n, codec);
      DeliveredGrows(ps, n, codec);
    }
  }

  /** What one fragment says, in the fragments' terms; after an exception, the first of it. */
  lemma FragmentIsSaid(b: Builder, sent: seq<Event>, calls: seq<ToolDelta>, tc: ToolDelta, codec: Codec)
    requires Stands(b, sent, calls, true, codec)
    ensures var r := ProcessToolCall(b, tc, codec);
            && Transcript(r.out) <= CallSays(calls, tc, codec)
            && (!r.raised ==> Transcript(r.out) == CallSays(calls, tc, codec))
  {
    var k, r, all := Resolve(b, tc), ProcessToolCall(b, tc, codec), calls + [tc];
    var deltas := CallIsSaid(b, tc, codec);
    OwnTold(b, calls, tc, codec);
    ContentsGiven(b, calls, k, true, codec);
    ContentsGiven(r.b, all, k, !r.raised, codec);
    GivenGrows(calls, tc, k, codec);
    AnnouncedSo(b, sent, calls, tc, codec);
    var more := Given(all, k, codec)[|Given(calls, k, codec)|..];
    TakenOff(Given(calls, k, codec), deltas, ToolOr(r.b, k).contents, Given(all, k, codec));
    PrefixInputs(deltas, more);
  }

  lemma TakenOff(old_: seq<string>, deltas: seq<string>, sent: seq<string>, all: seq<string>)
    requires sent == old_ + deltas && sent <= all && old_ <= all
    ensures deltas <= all[|old_|..] && (sent == all ==> deltas == all[|old_|..])
  {
    assert deltas == sent[|old_|..];
  }

  lemma PrefixInputs(deltas: seq<string>, more: seq<string>)
    requires deltas <= more
    ensures forall first: seq<Said> :: first + Inputs(deltas) <= first + Inputs(more)
  {
    forall first: seq<Said> ensures first + Inputs(deltas) <= first + Inputs(more) {
      assert Inputs(deltas) <= Inputs(more);
    }
  }

  /** The announcement that a fragment gives rise to. */
  lemma AnnouncedSo(b: Builder, sent: seq<Event>, calls: seq<ToolDelta>, tc: ToolDelta, codec: Codec)
    requires Stands(b, sent, calls, true, codec)
    ensures var k, all := Resolve(b, tc), calls + [tc]; var b1 := Recorded(b, k, tc);
            && k == Target(calls, tc)
            && (Opening(calls, k).None? && Opening(all, k).Some? <==>
                  !(IsStarted(b1, k) || IsBlank(ToolOr(b1, k).name)))
            && (!(IsStarted(b1, k) || IsBlank(ToolOr(b1, k).name)) ==>
                  Opening(all, k) == Some(ToolBlock(ResolvedId(b1, k, tc), Strip(ToolOr(b1, k).name))))
  {
    var k := Resolve(b, tc);
    assert |b.tools| == |b.tools.Keys|;
    Shorter(calls, tc, k);
    assert ToolIntroduced(b, sent, calls, k) && ToldOf(b, calls, k, true, codec);
    RecordedShape(b, k, tc);
  }

  lemma PrefixThen<T>(a: seq<T>, b: seq<T>, c: seq<T>)
    requires a <= b
    ensures a <= b + c
  {
  }

  lemma {:induction false} FragmentsAreSaid(b: Builder, sent: seq<Event>, calls: seq<ToolDelta>, tcs: seq<ToolDelta>,
                                            codec: Codec)
    requires Stands(b, sent, calls, true, codec)
    ensures var r := ProcessToolCalls(b, tcs, codec);
            && Transcript(r.out) <= CallsSay(calls, tcs, codec)
            && (!r.raised ==> Transcript(r.out) == CallsSay(calls, tcs, codec))
    decreases |tcs|
  {
    if tcs != [] {
      FragmentIsSaid(b, sent, calls, tcs[0], codec);
      FragmentStands(b, sent, calls, tcs[0], codec);
      FirstFragment(b, tcs, codec);
      var r := ProcessToolCall(b, tcs[0], codec);
      var rest := CallsSay(calls + [tcs[0]], tcs[1..], codec);
      if r.raised {
        PrefixThen(Transcript(r.out), CallSays(calls, tcs[0], codec), rest);
      } else {
        FragmentsAreSaid(r.b, sent + r.out, calls + [tcs[0]], tcs[1..], codec);
        var q := ProcessToolCalls(r.b, tcs[1..], codec);
        TranscriptAppend(r.out, q.out);
        PrefixJoin(Transcript(r.out), Transcript(q.out), rest);
      }
    }
  }

  // ----- chunks -----

  lemma CallsOfTurn(chunk: Chunk)
    ensures CallsOf([chunk]) == if chunk.Turn? then chunk.toolCalls else []
  {
    assert [chunk][1..] == [];
    AppendNone(if chunk.Turn? then chunk.toolCalls else []);
  }

  /** What a chunk says; one in which an exception is raised says its content and the first of its tool calls. */
  lemma ChunkIsSaid(s: Stream, sent: seq<Event>, calls: seq<ToolDelta>, chunk: Chunk, cfg: Config)
    requires Stands(s.b, sent, calls, true, cfg.codec)
    ensures var r := OneChunk(s, chunk, cfg); var all := ChunkSays(s.parser, s.fed, calls, chunk, cfg);
            && ContentSays(s.parser, s.fed, chunk, cfg) <= Transcript(r.out) <= all
            && (!r.raised ==> Transcript(r.out) == all)
            && r.s.parser == PartsOf(s.parser, chunk).0 && r.s.fed == FedByAll(s.fed, PartsOf(s.parser, chunk).1)
  {
    var r := OneChunk(s, chunk, cfg);
    var content := ContentSays(s.parser, s.fed, chunk, cfg);
    CallsOfTurn(chunk);
    if chunk.Turn? {
      var b, out, stops := BeforeTools(s, sent, calls, chunk, cfg);
      ContentIsSaid(s, chunk, cfg);
      SilentSaysNothing(stops);
      TranscriptAppend(ContentOut(s, chunk, cfg), stops);
      AppendNone(content);
      FragmentsAreSaid(b, sent + out, calls, chunk.toolCalls, cfg.codec);
      var q := ProcessToolCalls(b, chunk.toolCalls, cfg.codec);
      TranscriptAppend(out, q.out);
      PrefixJoin(content, Transcript(q.out), CallsSay(calls, chunk.toolCalls, cfg.codec));
    }
  }

  /** The same chunks without the native tool calls of the last one. */
  function WithoutLastCalls(chunks: seq<Chunk>): seq<Chunk> {
    if chunks == [] then []
    else
      var last := chunks[|chunks| - 1];
      chunks[..|chunks| - 1] + [if last.Turn? then last.(toolCalls := []) else last]
  }

  /**
   * What the loop says: all that its chunks say. If an exception cuts it short, what the chunks say
   * up to it, down to somewhere among the native tool calls of the last one.
   */
  lemma {:induction false} LoopIsSaid(s: Stream, sent: seq<Event>, calls: seq<ToolDelta>, chunks: seq<Chunk>,
                                      cfg: Config)
    requires Stands(s.b, sent, calls, true, cfg.codec)
    ensures var r, handled := Loop(s, chunks, cfg), OpenAIText.Handled(s, chunks, cfg);
            && ChunksSay(s.parser, s.fed, calls, WithoutLastCalls(handled), cfg) <= Transcript(r.out)
            && Transcript(r.out) <= ChunksSay(s.parser, s.fed, calls, handled, cfg)
            && (!r.raised ==> Transcript(r.out) == ChunksSay(s.parser, s.fed, calls, handled, cfg))
    decreases |chunks|
  {
    if chunks != [] {
      var chunk, r := chunks[0], OneChunk(s, chunks[0], cfg);
      var handled := OpenAIText.Handled(s, chunks, cfg);
      ChunkIsSaid(s, sent, calls, chunk, cfg);
      if r.raised {
        LastSays(s.parser, s.fed, calls, chunk, cfg);
        assert WithoutLastCalls([chunk]) == [if chunk.Turn? then chunk.(toolCalls := []) else chunk];
      } else {
        var done := ChunkStands(s, sent, calls, chunk, cfg);
        LoopIsSaid(r.s, sent + r.out, calls + CallsOf([chunk]), chunks[1..], cfg);
        var q, rest := Loop(r.s, chunks[1..], cfg), OpenAIText.Handled(r.s, chunks[1..], cfg);
        TranscriptAppend(r.out, q.out);
        assert handled == [chunk] + rest && handled[1..] == rest;
        PrefixJoin(Transcript(r.out), Transcript(q.out),
                   ChunksSay(r.s.parser, r.s.fed, calls + CallsOf([chunk]), rest, cfg));
        FirstSays(s.parser, s.fed, calls, chunk, rest, Transcript(q.out), cfg);
      }
    }
  }

  lemma LastSays(parser: ThinkParser.State, fed: seq<string>, calls: seq<ToolDelta>, chunk: Chunk, cfg: Config)
    ensures ChunksSay(parser, fed, calls, [chunk], cfg) == ChunkSays(parser, fed, calls, chunk, cfg)
    ensures var less := if chunk.Turn? then chunk.(toolCalls := []) else chunk;
            ChunksSay(parser, fed, calls, [less], cfg) == ContentSays(parser, fed, chunk, cfg)
  {
    var less := if chunk.Turn? then chunk.(toolCalls := []) else chunk;
    CallsOfTurn(less);
    assert [chunk][1..] == [] && [less][1..] == [];
    AppendNone(ChunkSays(parser, fed, calls, chunk, cfg));
    AppendNone(ChunkSays(parser, fed, calls, less, cfg));
    AppendNone(ContentSays(parser, fed, chunk, cfg));
  }

  lemma FirstSays(parser: ThinkParser.State, fed: seq<string>, calls: seq<ToolDelta>, chunk: Chunk, rest: seq<Chunk>,
                  said: seq<Said>, cfg: Config)
    requires var (parser', parts) := PartsOf(parser, chunk);
             ChunksSay(parser', FedByAll(fed, parts), calls + CallsOf([chunk]), WithoutLastCalls(rest), cfg) <= said
    ensures ChunksSay(parser, fed, calls, WithoutLastCalls([chunk] + rest), cfg) <=
              ChunkSays(parser, fed, calls, chunk, cfg) + said
  {
    var says := ChunkSays(parser, fed, calls, chunk, cfg);
    if rest == [] {
      LastSays(parser, fed, calls, chunk, cfg);
      OnlyChunk(chunk);
      AppendNone([chunk]);
      PrefixThen(ContentSays(parser, fed, chunk, cfg), says, said);
    } else {
      var (parser', parts) := PartsOf(parser, chunk);
      var less := WithoutLastCalls(rest);
      NotLastChunk(chunk, rest);
      OneThenSays(parser, fed, calls, chunk, less, cfg);
      PrefixJoin(says, ChunksSay(parser', FedByAll(fed, parts), calls + CallsOf([chunk]), less, cfg), said);
    }
  }

  lemma OnlyChunk(chunk: Chunk)
    ensures WithoutLastCalls([chunk]) == [if chunk.Turn? then chunk.(toolCalls := []) else chunk]
  {
  }

  lemma NotLastChunk(chunk: Chunk, rest: seq<Chunk>)
    requires rest != []
    ensures WithoutLastCalls([chunk] + rest) == [chunk] + WithoutLastCalls(rest)
  {
  }

  lemma OneThenSays(parser: ThinkParser.State, fed: seq<string>, calls: seq<ToolDelta>, chunk: Chunk,
                    rest: seq<Chunk>, cfg: Config)
    ensures var (parser', parts) := PartsOf(parser, chunk);
            ChunksSay(parser, fed, calls, [chunk] + rest, cfg) ==
              ChunkSays(parser, fed, calls, chunk, cfg)
              + ChunksSay(parser', FedByAll(fed, parts), calls + CallsOf([chunk]), rest, cfg)
  {
    assert ([chunk] + rest)[1..] == rest;
  }
}
