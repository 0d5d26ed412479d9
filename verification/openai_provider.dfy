/**
 * The streaming loop of an OpenAI-compatible provider (providers/openai_compat.py), updating the
 * builder and the think-tag parser in place.
 */
module OpenAIProvider {
  import opened Text
  import opened StreamContract
  import opened SseBuilder
  import opened OpenAIStream
  import opened OpenAIContract
  import ThinkParser

  method EmitArgDelta(sse: SSEBuilder, k: int, args: string, codec: Codec) returns (out: seq<Event>, raised: bool)
    modifies sse
    ensures Emitted(sse.View(), out, raised) == EmitToolArgDelta(old(sse.View()), k, args, codec)
  {
    if args == "" || k !in sse.tools {
      return [], false;
    }
    if sse.tools[k].name == "Task" {
      var r := sse.BufferArgs(k, args, codec);
      match r {
        case Waiting =>
          return [], false;
        case Raised =>
          return [], true;
        case Ready(json) =>
          out := sse.ToolDelta(k, json);
          return out, false;
      }
    }
    out := sse.ToolDelta(k, args);
    return out, false;
  }

  method RecordCall(sse: SSEBuilder, k: int, tc: ToolDelta)
    modifies sse
    ensures sse.View() == Recorded(old(sse.View()), k, tc)
  {
    if tc.id.Some? {
      sse.SetToolId(k, tc.id.value);
    }
    if tc.name.Some? {
      sse.RegisterName(k, tc.name.value);
    }
  }

  method OpenCall(sse: SSEBuilder, k: int, tc: ToolDelta, codec: Codec) returns (out: seq<Event>, raised: bool)
    modifies sse
    ensures Emitted(sse.View(), out, raised) == Opened(old(sse.View()), k, tc, codec)
  {
    ghost var b := sse.View();
    var name := if k in sse.tools then sse.tools[k].name else "";
    if (k in sse.tools && sse.tools[k].started) || IsBlank(name) {
      return [], false;
    }
    var id := ResolvedId(sse.View(), k, tc);
    out := sse.StartTool(k, id, Strip(name));
    ghost var b1 := sse.View();
    assert (b1, out) == StartToolBlock(b, k, id, Strip(name));
    raised := false;
    var pre := sse.tools[k].preStartArgs;
    if pre != "" {
      sse.Put(k, sse.tools[k].(preStartArgs := ""));
      var more;
      more, raised := EmitArgDelta(sse, k, pre, codec);
      out := out + more;
    }
  }

  method ArgueCall(sse: SSEBuilder, k: int, name: string, args: string, codec: Codec)
    returns (out: seq<Event>, raised: bool)
    modifies sse
    ensures Emitted(sse.View(), out, raised) == Argued(old(sse.View()), k, name, args, codec)
  {
    if args == "" {
      return [], false;
    }
    if k !in sse.tools || !sse.tools[k].started {
      ghost var b := sse.View();
      sse.EnsureTool(k);
      if IsBlank(name) {
        sse.Put(k, sse.tools[k].(preStartArgs := sse.tools[k].preStartArgs + args));
        assert sse.View() == PutTool(b, k, ToolOr(b, k).(preStartArgs := ToolOr(b, k).preStartArgs + args)) by {
          assert b.tools[k := ToolOr(b, k)][k := sse.tools[k]] == b.tools[k := sse.tools[k]];
        }
        return [], false;
      }
    }
    out, raised := EmitArgDelta(sse, k, args, codec);
  }

  method ProcessCall(sse: SSEBuilder, tc: ToolDelta, codec: Codec) returns (out: seq<Event>, raised: bool)
    modifies sse
    ensures Emitted(sse.View(), out, raised) == ProcessToolCall(old(sse.View()), tc, codec)
  {
    var k := if tc.index < 0 then |sse.tools| else tc.index;
    RecordCall(sse, k, tc);
    var name := if k in sse.tools then sse.tools[k].name else "";
    out, raised := OpenCall(sse, k, tc, codec);
    if !raised {
      var more;
      more, raised := ArgueCall(sse, k, name, tc.arguments, codec);
      out := out + more;
    }
  }

  method CallEach(sse: SSEBuilder, tcs: seq<ToolDelta>, codec: Codec) returns (out: seq<Event>, raised: bool)
    modifies sse
    ensures Emitted(sse.View(), out, raised) == CallTools(old(sse.View()), tcs, codec)
  {
    out, raised := [], false;
    if tcs == [] {
      return;
    }
    out := sse.CloseContent();
    ghost var closed, all := out, ProcessToolCalls(sse.View(), tcs, codec);
    assert tcs[0..] == tcs;
    for n := 0 to |tcs|
      invariant !raised && CallsLeft(all, closed, out, ProcessToolCalls(sse.View(), tcs[n..], codec))
    {
      NextCall(all, closed, out, sse.View(), tcs, n, codec);
      var more;
      more, raised := ProcessCall(sse, tcs[n], codec);
      out := out + more;
      if raised {
        return;
      }
    }
    AppendNone(out);
  }

  ghost predicate CallsLeft(all: Emitted, closed: seq<Event>, out: seq<Event>, rest: Emitted) {
    all.b == rest.b && all.raised == rest.raised && closed + all.out == out + rest.out
  }

  lemma NextCall(all: Emitted, closed: seq<Event>, out: seq<Event>, b: Builder, tcs: seq<ToolDelta>, n: nat,
                 codec: Codec)
    requires n < |tcs| && CallsLeft(all, closed, out, ProcessToolCalls(b, tcs[n..], codec))
    ensures var r := ProcessToolCall(b, tcs[n], codec);
            if r.raised then CallsLeft(all, closed, out, r)
            else CallsLeft(all, closed, out + r.out, ProcessToolCalls(r.b, tcs[n + 1..], codec))
  {
    assert tcs[n..][0] == tcs[n] && tcs[n..][1..] == tcs[n + 1..];
    var r := ProcessToolCall(b, tcs[n], codec);
    if !r.raised {
      Assoc(out, r.out, ProcessToolCalls(r.b, tcs[n + 1..], codec).out);
    }
  }

  method Thought(sse: SSEBuilder, content: string) returns (out: seq<Event>)
    modifies sse
    ensures sse.View() == Think(old(sse.View()), content).0 && out == Think(old(sse.View()), content).1
  {
    out := sse.EnsureThinking();
    var more := sse.ThinkingDelta(content);
    out := out + more;
  }

  method Said(sse: SSEBuilder, content: string) returns (out: seq<Event>)
    modifies sse
    ensures sse.View() == Say(old(sse.View()), content).0 && out == Say(old(sse.View()), content).1
  {
    out := sse.EnsureText();
    var more := sse.TextDelta(content);
    out := out + more;
  }

  method UseTools(sse: SSEBuilder, tools: seq<ToolUse>, codec: Codec) returns (out: seq<Event>)
    modifies sse
    ensures sse.View() == HeuristicToolUses(old(sse.View()), tools, codec).0
    ensures out == HeuristicToolUses(old(sse.View()), tools, codec).1
  {
    out := [];
    ghost var b := sse.View();
    for n := 0 to |tools|
      invariant HeuristicToolUses(b, tools, codec).0 == HeuristicToolUses(sse.View(), tools[n..], codec).0
      invariant HeuristicToolUses(b, tools, codec).1 == out + HeuristicToolUses(sse.View(), tools[n..], codec).1
    {
      assert tools[n..][0] == tools[n] && tools[n..][1..] == tools[n + 1..];
      var closed := sse.CloseContent();
      var index := sse.AllocateIndex();
      out := out + (closed + [BlockStart(index, ToolBlock(tools[n].id, tools[n].name)),
                              BlockDelta(index, Delta("input_json_delta", InputJson(tools[n], codec))),
                              BlockStop(index)]);
    }
  }

  /** `all` is a whole result, if `sent` has been emitted so far and `rest` is the result of what is left. */
  ghost predicate Continues<S>(all: (S, seq<Event>), sent: seq<Event>, rest: (S, seq<Event>)) {
    all == (rest.0, sent + rest.1)
  }

  lemma ContinuesStep<S>(all: (S, seq<Event>), sent: seq<Event>, more: seq<Event>, rest: (S, seq<Event>))
    ensures Continues(all, sent, (rest.0, more + rest.1)) ==> Continues(all, sent + more, rest)
  {
    assert sent + (more + rest.1) == sent + more + rest.1;
  }

  /** One part of a content delta; `fed` are the text parts that the heuristic parser has seen. */
  method HandlePart(sse: SSEBuilder, parser: ThinkParser.State, fed: seq<string>, part: ThinkParser.Chunk, cfg: Config)
    returns (out: seq<Event>, fed': seq<string>)
    modifies sse
    ensures Part(Stream(old(sse.View()), parser, fed), part, cfg) == (Stream(sse.View(), parser, fed'), out)
  {
    out, fed' := [], fed;
    if part.kind.THINKING? {
      if cfg.thinking {
        out := Thought(sse, part.content);
      }
    } else {
      fed' := fed + [part.content];
      var (filtered, tools) := cfg.heuristic.feed(fed');
      if filtered != "" {
        out := Said(sse, filtered);
      }
      var used := UseTools(sse, tools, cfg.codec);
      out := out + used;
    }
  }

  method HandleParts(sse: SSEBuilder, parser: ThinkParser.State, fed: seq<string>, parts: seq<ThinkParser.Chunk>,
                     cfg: Config)
    returns (out: seq<Event>, fed': seq<string>)
    modifies sse
    ensures Parts(Stream(old(sse.View()), parser, fed), parts, cfg) == (Stream(sse.View(), parser, fed'), out)
  {
    out, fed' := [], fed;
    ghost var all := Parts(Stream(sse.View(), parser, fed), parts, cfg);
    assert parts[0..] == parts && [] + all.1 == all.1;
    for n := 0 to |parts|
      invariant Continues(all, out, Parts(Stream(sse.View(), parser, fed'), parts[n..], cfg))
    {
      assert parts[n..][0] == parts[n] && parts[n..][1..] == parts[n + 1..];
      ghost var sent := out;
      var more;
      more, fed' := HandlePart(sse, parser, fed', parts[n], cfg);
      out := out + more;
      ContinuesStep(all, sent, more, Parts(Stream(sse.View(), parser, fed'), parts[n + 1..], cfg));
    }
    assert out + [] == out;
  }

  method HandleChunk(sse: SSEBuilder, think: ThinkParser.ThinkTagParser, fed: seq<string>, chunk: Chunk, cfg: Config)
    returns (out: seq<Event>, fed': seq<string>, raised: bool)
    modifies sse, think
    ensures OneChunk(Stream(old(sse.View()), old(think.View()), fed), chunk, cfg) ==
              Looped(Stream(sse.View(), think.View(), fed'), out, raised)
  {
    out, fed', raised := [], fed, false;
    if chunk.Idle? {
      return;
    }
    ghost var b := sse.View();
    if cfg.thinking && chunk.reasoning != "" {
      out := Thought(sse, chunk.reasoning);
    }
    assert (sse.View(), out) == Reason(b, chunk.reasoning, cfg.thinking);
    var more;
    more, fed' := HandleContent(sse, think, fed, chunk.content, cfg);
    out := out + more;
    more, raised := CallEach(sse, chunk.toolCalls, cfg.codec);
    out := out + more;
    raised := raised || chunk.breaks;
  }

  method HandleContent(sse: SSEBuilder, think: ThinkParser.ThinkTagParser, fed: seq<string>, content: string,
                       cfg: Config)
    returns (out: seq<Event>, fed': seq<string>)
    modifies sse, think
    ensures FeedContent(Stream(old(sse.View()), old(think.View()), fed), content, cfg) ==
              (Stream(sse.View(), think.View(), fed'), out)
  {
    out, fed' := [], fed;
    if content != "" {
      var parts := think.FeedContent(content);
      out, fed' := HandleParts(sse, think.View(), fed, parts, cfg);
    }
  }

  method FailureEnd(sse: SSEBuilder, message: string) returns (out: seq<Event>)
    modifies sse
    ensures out == FailureEnding(old(sse.View()), message)
  {
    out := sse.CloseAll();
    if HasEmittedToolBlock(sse.View()) {
      out := out + [Error(message)];
    } else {
      var more := sse.EmitErrorBlock(message);
      out := out + more;
    }
    out := out + Tail("end_turn", 1);
  }

  method SendDeltas(sse: SSEBuilder, results: seq<(int, string)>) returns (out: seq<Event>)
    modifies sse
    ensures (sse.View(), out) == ToolDeltas(old(sse.View()), results)
  {
    out := [];
    ghost var all := ToolDeltas(sse.View(), results);
    assert results[0..] == results && [] + all.1 == all.1;
    for n := 0 to |results|
      invariant Continues(all, out, ToolDeltas(sse.View(), results[n..]))
    {
      var (k, json) := results[n];
      assert results[n..][0] == (k, json) && results[n..][1..] == results[n + 1..];
      if k !in sse.tools {
        assert out + [] == out;
        return;
      }
      ghost var sent := out;
      var more := sse.ToolDelta(k, json);
      out := out + more;
      ContinuesStep(all, sent, more, ToolDeltas(sse.View(), results[n + 1..]));
    }
    assert out + [] == out;
  }

  /** What precedes the closing stops of a normal ending. */
  method Finish(sse: SSEBuilder, think: ThinkParser.ThinkTagParser, fed: seq<string>, cfg: Config)
    returns (out: seq<Event>, raised: bool)
    modifies sse, think
    ensures var q := BeforeClose(Stream(old(sse.View()), old(think.View()), fed), cfg);
            out == q.out && raised == q.raised && (!raised ==> sse.View() == q.b)
  {
    out := FlushThink(sse, think, fed, cfg);
    var used := UseTools(sse, cfg.heuristic.flush(fed), cfg.codec);
    var pad := AddPadding(sse);
    out := out + used + pad;
    var results := sse.FlushTaskArgs(cfg.codec);
    if results.None? {
      return out, true;
    }
    var sent := SendDeltas(sse, results.value);
    out := out + sent;
    raised := false;
  }

  method FlushThink(sse: SSEBuilder, think: ThinkParser.ThinkTagParser, fed: seq<string>, cfg: Config)
    returns (out: seq<Event>)
    modifies sse, think
    ensures (sse.View(), out) == FlushParser(Stream(old(sse.View()), old(think.View()), fed), cfg)
  {
    out := [];
    var remaining := think.FlushBuffer();
    if remaining.Some? {
      if remaining.value.kind.TEXT? {
        out := Said(sse, remaining.value.content);
      } else if cfg.thinking {
        out := Thought(sse, remaining.value.content);
      }
    }
  }

  method AddPadding(sse: SSEBuilder) returns (out: seq<Event>)
    modifies sse
    ensures (sse.View(), out) == Pad(old(sse.View()))
  {
    out := [];
    var started := HasEmittedToolBlock(sse.View());
    if sse.textIndex == -1 && sse.thinkingIndex == -1 && !started {
      out := Said(sse, " ");
    } else if !started && IsBlank(Concat(sse.textParts)) && !IsBlank(Concat(sse.reasoningParts)) {
      out := Said(sse, " ");
    }
  }

  /** The loop over the chunks; it stops at an exception. */
  method HandleChunks(sse: SSEBuilder, think: ThinkParser.ThinkTagParser, chunks: seq<Chunk>, cfg: Config)
    returns (out: seq<Event>, fed: seq<string>, finishReason: Option<string>, usage: Option<int>, raised: bool)
    modifies sse, think
    ensures Loop(Stream(old(sse.View()), old(think.View()), []), chunks, cfg) ==
              Looped(Stream(sse.View(), think.View(), fed), out, raised)
    ensures !raised ==> finishReason == FinishReason(chunks) && usage == Usage(chunks)
  {
    out, fed, finishReason, usage, raised := [], [], None, None, false;
    ghost var s := Stream(sse.View(), think.View(), []);
    LoopedStart(s, chunks, cfg);
    for n := 0 to |chunks|
      invariant !raised
      invariant finishReason == FinishReason(chunks[..n]) && usage == Usage(chunks[..n])
      invariant LoopedAfter(Loop(s, chunks, cfg), out, Loop(Stream(sse.View(), think.View(), fed), chunks[n..], cfg))
    {
      var chunk := chunks[n];
      NextChunk(Stream(sse.View(), think.View(), fed), chunks, n, cfg);
      LastOf(chunks, n);
      if chunk.usage.Some? {
        usage := chunk.usage.value;
      }
      if chunk.Turn? && chunk.finishReason.Some? && chunk.finishReason.value != "" {
        finishReason := chunk.finishReason;
      }
      var more;
      ghost var sent := out;
      more, fed, raised := HandleChunk(sse, think, fed, chunk, cfg);
      out := out + more;
      if raised {
        return;
      }
      LoopedStep(Loop(s, chunks, cfg), sent, more, Loop(Stream(sse.View(), think.View(), fed), chunks[n + 1..], cfg));
    }
    assert chunks[..|chunks|] == chunks;
    assert out + [] == out;
  }

  lemma NextChunk(s: Stream, chunks: seq<Chunk>, n: nat, cfg: Config)
    requires n < |chunks|
    ensures var r := OneChunk(s, chunks[n], cfg); var rest := Loop(r.s, chunks[n + 1..], cfg);
            Loop(s, chunks[n..], cfg) == if r.raised then r else rest.(out := r.out + rest.out)
  {
    assert chunks[n..][0] == chunks[n] && chunks[n..][1..] == chunks[n + 1..];
  }

  lemma LastOf(chunks: seq<Chunk>, n: nat)
    requires n < |chunks|
    ensures var c := chunks[n];
      && Usage(chunks[..n + 1]) == (if c.usage.Some? then c.usage.value else Usage(chunks[..n]))
      && FinishReason(chunks[..n + 1]) ==
           if c.Turn? && c.finishReason.Some? && c.finishReason.value != "" then c.finishReason
           else FinishReason(chunks[..n])
  {
    assert chunks[..n + 1][..n] == chunks[..n];
  }

  lemma LoopedStart(s: Stream, chunks: seq<Chunk>, cfg: Config)
    ensures chunks[0..] == chunks && LoopedAfter(Loop(s, chunks, cfg), [], Loop(s, chunks, cfg))
  {
    AppendNone(Loop(s, chunks, cfg).out);
  }

  ghost predicate LoopedAfter(all: Looped, sent: seq<Event>, rest: Looped) {
    all == rest.(out := sent + rest.out)
  }

  lemma LoopedStep(all: Looped, sent: seq<Event>, more: seq<Event>, rest: Looped)
    ensures LoopedAfter(all, sent, rest.(out := more + rest.out)) ==> LoopedAfter(all, sent + more, rest)
  {
    assert sent + (more + rest.out) == sent + more + rest.out;
  }

  /** The closing stops and the tail, which an exception of the estimate cuts off. */
  method EndMessage(sse: SSEBuilder, finishReason: Option<string>, usage: Option<int>, cfg: Config)
    returns (out: seq<Event>)
    modifies sse
    ensures forall chunks | finishReason == FinishReason(chunks) && usage == Usage(chunks) ::
              out == Ending(old(sse.View()), chunks, cfg)
  {
    out := sse.CloseAll();
    var tokens := usage;
    if tokens.None? {
      var estimate := sse.EstimateTokens(cfg.encoder);
      if estimate.None? {
        return;
      }
      tokens := Some(estimate.value);
    }
    out := out + Tail(MapStopReason(finishReason), tokens.value);
  }

  /**
   * The whole response. The upstream delivers `chunks` and then raises if `fails`. The output meets
   * the stream contract exactly if the end does not raise, and an error event is allowed or the
   * response does not fail after a tool block.
   */
  method StreamResponse(id: string, model: string, chunks: seq<Chunk>, fails: bool, message: string, cfg: Config)
    returns (out: seq<Event>)
    ensures out == Response(MessageStart(id, model), chunks, fails, message, cfg)
    ensures Satisfies(out, true) <==> !EndRaises(chunks, fails, cfg)
    ensures Satisfies(out, false) <==> !EndRaises(chunks, fails, cfg) && !EndsInErrorEvent(chunks, fails, cfg)
  {
    var start := MessageStart(id, model);
    ResponseMeetsContract(id, model, chunks, fails, message, cfg, true);
    ResponseMeetsContract(id, model, chunks, fails, message, cfg, false);
    ResponseShape(start, chunks, fails, message, cfg);
    var sse := new SSEBuilder();
    var think := new ThinkParser.ThinkTagParser();
    var sent, fed, finishReason, usage, raised := HandleChunks(sse, think, chunks, cfg);
    out := [start] + sent;
    if raised || fails {
      var ending := FailureEnd(sse, message);
      return out + ending;
    }
    var before;
    before, raised := Finish(sse, think, fed, cfg);
    out := out + before;
    AppendNone(out);
    if !raised {
      var ending := EndMessage(sse, finishReason, usage, cfg);
      out := out + ending;
    }
  }
}
