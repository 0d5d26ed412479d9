/**
 * How a response ends: the exceptions that its end can raise, in terms of what has been sent and
 * received, and inputs that raise them.
 */
module OpenAIEndings {
  import opened Text
  import opened StreamContract
  import opened SseBuilder
  import opened OpenAIStream
  import opened OpenAIContract
  import opened OpenAIArguments
  import OpenAIText
  import ThinkParser

  /**
   * The estimate raises exactly if the upstream has sent no count of tokens, and the tokenizer raises
   * for the text that was sent, for the thinking that was sent, or for the name or the arguments sent
   * of a native tool.
   */
  lemma EstimateRaisesIff(id: string, model: string, chunks: seq<Chunk>, message: string, cfg: Config)
    requires !Loop(FRESH, chunks, cfg).raised && cfg.encoder.Encoding?
    ensures var out, encode := Response(MessageStart(id, model), chunks, false, message, cfg), cfg.encoder.encode;
            var b := BeforeClose(Loop(FRESH, chunks, cfg).s, cfg).b;
            EstimateRaises(b, chunks, cfg) <==>
              && Usage(chunks).None?
              && (|| encode(DeltasOf(out, "text_delta")).None? || encode(DeltasOf(out, "thinking_delta")).None?
                  || exists k :: k in b.tools && UnencodableTool(b.tools[k], encode))
  {
    OpenAIText.SentNormally(MessageStart(id, model), chunks, message, cfg, ThinkParser.TEXT);
    OpenAIText.SentNormally(MessageStart(id, model), chunks, message, cfg, ThinkParser.THINKING);
  }

  /** The arguments that a tool received while its name was Task do not parse, and the exception escapes the flush. */
  ghost predicate TaskEscapes(calls: seq<ToolDelta>, k: int, codec: Codec) {
    var ps := Pieces(calls, k);
    Call(ps, codec).None? && TaskText(ps) != "" && codec.escapes(TaskText(ps))
  }

  lemma EscapesIff(b: Builder, calls: seq<ToolDelta>, k: int, codec: Codec)
    requires ToldOf(b, calls, k, true, codec)
    ensures Escapes(b, k, codec) <==> TaskEscapes(calls, k, codec)
  {
    var t, ps := ToolOr(b, k), Pieces(calls, k);
    if t.started {
      assert AllTold(t, ps, codec);
    }
  }

  lemma EscapesFor(chunks: seq<Chunk>, cfg: Config, k: int)
    requires !After(chunks, cfg).raised
    ensures Escapes(After(chunks, cfg).s.b, k, cfg.codec) <==> TaskEscapes(CallsOf(chunks), k, cfg.codec)
  {
    var handled := ToldAfter(chunks, cfg, k);
    EscapesIff(After(chunks, cfg).s.b, handled, k, cfg.codec);
  }

  /** The final flush raises exactly if this is so for some tool. */
  lemma FlushRaisesIff(chunks: seq<Chunk>, cfg: Config)
    requires !After(chunks, cfg).raised
    ensures FlushRaises(After(chunks, cfg).s.b, cfg.codec) <==>
              exists k :: TaskEscapes(CallsOf(chunks), k, cfg.codec)
  {
    var b := After(chunks, cfg).s.b;
    if k :| Escapes(b, k, cfg.codec) {
      EscapesFor(chunks, cfg, k);
    }
    if k :| TaskEscapes(CallsOf(chunks), k, cfg.codec) {
      EscapesFor(chunks, cfg, k);
      assert Escapes(b, k, cfg.codec);
    }
  }

  /** A flush that raises leaves a block open. */
  lemma FlushLeavesOpen(id: string, model: string, chunks: seq<Chunk>, message: string, cfg: Config)
    requires !After(chunks, cfg).raised && FlushRaises(After(chunks, cfg).s.b, cfg.codec)
    ensures var r := Run(START, Response(MessageStart(id, model), chunks, false, message, cfg));
            r.Some? && r.value.open != map[]
  {
    var s, start := After(chunks, cfg).s, MessageStart(id, model);
    var c := LoopStarts(start, chunks, cfg);
    var q := BeforeClose(s, cfg);
    PaddedReaches(c, s, cfg);
    BeforeCloseReaches(c, s, cfg);
    var k :| Escapes(s.b, k, cfg.codec);
    assert q.b == Padded(s, cfg) && Holds(q.b, Tool(k), q.b.tools[k].blockIndex);
    ResponseShape(start, chunks, false, message, cfg);
    RunAppend(START, [start] + After(chunks, cfg).out, q.out);
    AppendNone([start] + After(chunks, cfg).out + q.out);
    assert q.b.tools[k].blockIndex in Run(c, q.out).value.open;
  }

  // ----- chunks that raise -----

  /** The last of these pieces makes the text of a task parse, before any call, to something that is not an object. */
  ghost predicate NotObject(ps: seq<Piece>, codec: Codec) {
    && ps != [] && ps[|ps| - 1].task && Call(ps[..|ps| - 1], codec).None?
    && var json := codec.loads(TaskText(ps)); json.Some? && !json.value.Dictionary?
  }

  /** A fragment passes on a piece that does so. */
  ghost predicate CallRaises(calls: seq<ToolDelta>, tc: ToolDelta, codec: Codec) {
    var k := Target(calls, tc);
    var before, ps := |Pieces(calls, k)|, Pieces(calls + [tc], k);
    exists n :: before < n <= |ps| && NotObject(ps[..n], codec)
  }

  ghost predicate ChunkRaises(before: seq<Chunk>, chunk: Chunk, codec: Codec) {
    chunk.Turn? &&
    (chunk.breaks || exists j :: 0 <= j < |chunk.toolCalls|
                                 && CallRaises(CallsOf(before) + chunk.toolCalls[..j], chunk.toolCalls[j], codec))
  }

  lemma ArgRaisesIff(b: Builder, k: int, args: string, ps: seq<Piece>, codec: Codec)
    requires IsStarted(b, k) && AllTold(b.tools[k], ps, codec) && args != ""
    ensures EmitToolArgDelta(b, k, args, codec).raised <==>
              NotObject(ps + [Piece(args, b.tools[k].name == "Task")], codec)
  {
    var p := Piece(args, b.tools[k].name == "Task");
    assert (ps + [p])[..|ps|] == ps;
    OneMorePiece(ps, p, codec);
  }

  /** None of the new pieces raises, or the first that does. */
  ghost predicate NewRaises(ps: seq<Piece>, more: seq<Piece>, codec: Codec) {
    exists n :: |ps| < n <= |ps + more| && NotObject((ps + more)[..n], codec)
  }

  lemma NoneNew(ps: seq<Piece>, codec: Codec)
    ensures !NewRaises(ps, [], codec)
  {
  }

  lemma OneNew(ps: seq<Piece>, p: Piece, codec: Codec)
    ensures NewRaises(ps, [p], codec) <==> NotObject(ps + [p], codec)
  {
    assert (ps + [p])[..|ps| + 1] == ps + [p];
  }

  lemma OneThenNew(ps: seq<Piece>, p: Piece, more: seq<Piece>, codec: Codec)
    ensures NewRaises(ps, [p] + more, codec) <==> NotObject(ps + [p], codec) || NewRaises(ps + [p], more, codec)
  {
    var all := ps + ([p] + more);
    assert all == ps + [p] + more && all[..|ps| + 1] == ps + [p];
    if NotObject(ps + [p], codec) {
      assert NotObject(all[..|ps| + 1], codec);
    }
  }

  /** A fragment for a tool whose block is open. */
  lemma StartedRaisesIff(b: Builder, k: int, args: string, ps: seq<Piece>, codec: Codec)
    requires IsStarted(b, k) && !IsBlank(b.tools[k].name) && AllTold(b.tools[k], ps, codec)
    ensures Argued(b, k, b.tools[k].name, args, codec).raised <==> NewRaises(ps, PieceOf(args, b.tools[k].name), codec)
  {
    if args == "" {
      NoneNew(ps, codec);
    } else {
      ArgRaisesIff(b, k, args, ps, codec);
      OneNew(ps, Piece(args, b.tools[k].name == "Task"), codec);
    }
  }

  /** The fragment that opens the block. */
  lemma OpeningRaisesIff(b1: Builder, k: int, tc: ToolDelta, received: string, codec: Codec)
    requires k in b1.tools && !b1.tools[k].started && !IsBlank(b1.tools[k].name)
    requires var t := b1.tools[k];
             t.contents == [] && t.preStartArgs == received && t.taskArgBuffer == "" && !t.taskArgsEmitted
    ensures var r, name := Opened(b1, k, tc, codec), b1.tools[k].name;
            (r.raised || Argued(r.b, k, name, tc.arguments, codec).raised) <==>
              NewRaises([], PieceOf(received, name) + PieceOf(tc.arguments, name), codec)
  {
    var name := b1.tools[k].name;
    var b2 := StartToolBlock(b1, k, ResolvedId(b1, k, tc), Strip(name)).0;
    assert AllTold(b2.tools[k], [], codec);
    if received == "" {
      assert Opened(b1, k, tc, codec).b == b2;
      AppendNone(PieceOf(tc.arguments, name));
      StartedRaisesIff(b2, k, tc.arguments, [], codec);
    } else {
      var b3, p := PutTool(b2, k, b2.tools[k].(preStartArgs := "")), Piece(received, name == "Task");
      KeptFragment(b3, k, received, codec);
      ArgRaisesIff(b3, k, received, [], codec);
      OneThenNew([], p, PieceOf(tc.arguments, name), codec);
      AppendNone([p]);
      var r := EmitToolArgDelta(b3, k, received, codec);
      assert Opened(b1, k, tc, codec).b == r.b && Opened(b1, k, tc, codec).raised == r.raised;
      if !r.raised {
        StartedRaisesIff(r.b, k, tc.arguments, [p], codec);
      }
    }
  }

  lemma FragmentRaisesIff(b: Builder, calls: seq<ToolDelta>, tc: ToolDelta, codec: Codec)
    requires Knows(b, calls, true, codec)
    ensures ProcessToolCall(b, tc, codec).raised <==> CallRaises(calls, tc, codec)
  {
    var k := Resolve(b, tc);
    var b1, name, received := Recorded(b, k, tc), Named(calls, k), Received(calls, k);
    OwnTold(b, calls, tc, codec);
    Shorter(calls, tc, k);
    assert ToldOf(b, calls, k, true, codec);
    RecordedTool(b, k, tc);
    var t1, name' := ToolOr(b1, k), Named(calls + [tc], k);
    var ps, more := Pieces(calls, k), NewPieces(received, name, name', tc.arguments);
    if tc.name.Some? && !IsBlank(name) {
      MergeKeepsInk(name, tc.name.value);
    }
    if IsBlank(name') {
      BlankFragment(b1, k, tc, received, codec);
      NoneNew(ps, codec);
    } else if t1.started {
      AppendNone(PieceOf(tc.arguments, name'));
      StartedRaisesIff(b1, k, tc.arguments, ps, codec);
    } else {
      OpeningRaisesIff(b1, k, tc, received, codec);
    }
    assert NewRaises(ps, more, codec) <==> CallRaises(calls, tc, codec);
  }

  lemma {:induction false} FragmentsRaiseIff(b: Builder, calls: seq<ToolDelta>, tcs: seq<ToolDelta>, codec: Codec)
    requires Knows(b, calls, true, codec)
    ensures ProcessToolCalls(b, tcs, codec).raised <==>
              exists j :: 0 <= j < |tcs| && CallRaises(calls + tcs[..j], tcs[j], codec)
    decreases |tcs|
  {
    if tcs != [] {
      var tc, rest := tcs[0], tcs[1..];
      FragmentRaisesIff(b, calls, tc, codec);
      AppendNone(calls);
      assert calls + tcs[..0] == calls;
      var r := ProcessToolCall(b, tc, codec);
      if !r.raised {
        OneMore(b, calls, tc, codec);
        FragmentsRaiseIff(r.b, calls + [tc], rest, codec);
        LaterCalls(calls, tc, rest, codec);
        assert tcs == [tc] + rest;
      }
    }
  }

  lemma LaterCalls(calls: seq<ToolDelta>, tc: ToolDelta, rest: seq<ToolDelta>, codec: Codec)
    requires !CallRaises(calls, tc, codec)
    ensures var tcs := [tc] + rest;
            (exists j :: 0 <= j < |tcs| && CallRaises(calls + tcs[..j], tcs[j], codec)) <==>
            (exists j :: 0 <= j < |rest| && CallRaises(calls + [tc] + rest[..j], rest[j], codec))
  {
    var tcs := [tc] + rest;
    assert calls + tcs[..0] == calls;
    forall j | 0 <= j < |rest| ensures calls + tcs[..j + 1] == calls + [tc] + rest[..j] && tcs[j + 1] == rest[j] {
    }
    if j :| 0 <= j < |tcs| && CallRaises(calls + tcs[..j], tcs[j], codec) {
      assert j > 0 && CallRaises(calls + [tc] + rest[..j - 1], rest[j - 1], codec);
    }
    if j :| 0 <= j < |rest| && CallRaises(calls + [tc] + rest[..j], rest[j], codec) {
      assert CallRaises(calls + tcs[..j + 1], tcs[j + 1], codec);
    }
  }

  lemma ChunkRaisesIff(s: Stream, before: seq<Chunk>, chunk: Chunk, cfg: Config)
    requires Knows(s.b, CallsOf(before), true, cfg.codec)
    ensures OneChunk(s, chunk, cfg).raised <==> ChunkRaises(before, chunk, cfg.codec)
  {
    if chunk.Turn? {
      var b1 := Reason(s.b, chunk.reasoning, cfg.thinking).0;
      var s2 := FeedContent(s.(b := b1), chunk.content, cfg).0;
      if chunk.content != "" {
        var (parser, parts) := ThinkParser.Feed(s.parser, chunk.content);
        PartsKeepTools(Stream(b1, parser, s.fed), parts, cfg);
      }
      SameTools(s.b, s2.b, CallsOf(before), cfg.codec);
      if chunk.toolCalls != [] {
        var b3 := CloseContentBlocks(s2.b).0;
        SameTools(s2.b, b3, CallsOf(before), cfg.codec);
        FragmentsRaiseIff(b3, CallsOf(before), chunk.toolCalls, cfg.codec);
      }
    }
  }

  /**
   * The loop raises exactly if some chunk is malformed, or a fragment in it makes the arguments of a
   * subagent call parse to something that is not an object.
   */
  lemma LoopRaisesIff(chunks: seq<Chunk>, cfg: Config)
    ensures After(chunks, cfg).raised <==>
              exists i :: 0 <= i < |chunks| && ChunkRaises(chunks[..i], chunks[i], cfg.codec)
  {
    NothingKnown(cfg.codec);
    assert [] + chunks == chunks;
    RaisesFrom(FRESH, [], chunks, chunks, cfg);
  }

  lemma {:induction false} RaisesFrom(s: Stream, before: seq<Chunk>, chunks: seq<Chunk>, all: seq<Chunk>, cfg: Config)
    requires Knows(s.b, CallsOf(before), true, cfg.codec) && all == before + chunks
    ensures Loop(s, chunks, cfg).raised <==>
              exists i :: |before| <= i < |all| && ChunkRaises(all[..i], all[i], cfg.codec)
    decreases |chunks|
  {
    if chunks != [] {
      var chunk, r := chunks[0], OneChunk(s, chunks[0], cfg);
      assert all[..|before|] == before && all[|before|] == chunk;
      ChunkRaisesIff(s, before, chunk, cfg);
      if !r.raised {
        var done := ChunkTold(s, CallsOf(before), chunk, cfg);
        CallsOfSnoc(before, chunk);
        assert all == before + [chunk] + chunks[1..];
        RaisesFrom(r.s, before + [chunk], chunks[1..], all, cfg);
      }
    }
  }

  lemma {:induction false} CallsOfSnoc(before: seq<Chunk>, chunk: Chunk)
    ensures CallsOf(before + [chunk]) == CallsOf(before) + CallsOf([chunk])
  {
    if before == [] {
      AppendNone([chunk]);
      AppendNone(CallsOf([chunk]));
    } else {
      AppendTail(before, [chunk]);
      CallsOfSnoc(before[1..], chunk);
      Assoc(if before[0].Turn? then before[0].toolCalls else [], CallsOf(before[1..]), CallsOf([chunk]));
    }
  }

  // ----- inputs -----

  /** One chunk with native tool calls only. */
  function ToolChunk(tcs: seq<ToolDelta>): seq<Chunk> {
    [Turn(None, None, "", "", tcs, false)]
  }

  lemma ToolChunkRuns(tcs: seq<ToolDelta>, cfg: Config)
    requires tcs != []
    ensures var r, q := Loop(FRESH, ToolChunk(tcs), cfg), ProcessToolCalls(EMPTY, tcs, cfg.codec);
            r.s.b == q.b && r.raised == q.raised
    ensures CallsOf(ToolChunk(tcs)) == tcs && Usage(ToolChunk(tcs)).None?
  {
    var chunks := ToolChunk(tcs);
    assert chunks[1..] == [] && chunks[..|chunks| - 1] == [];
    AppendNone(tcs);
    var none: seq<Event> := [];
    AppendNone(none);
    assert CloseContentBlocks(EMPTY) == (EMPTY, none);
  }

  lemma OneCall(tc: ToolDelta, codec: Codec)
    ensures ProcessToolCalls(EMPTY, [tc], codec).b == ProcessToolCall(EMPTY, tc, codec).b
    ensures ProcessToolCalls(EMPTY, [tc], codec).raised == ProcessToolCall(EMPTY, tc, codec).raised
  {
    assert [tc][1..] == [];
  }

  /** The first fragment of a tool, with its id and its name. */
  lemma FirstFragment(k: int, id: string, name: string, args: string, newId: string, codec: Codec)
    requires 0 <= k && !IsBlank(name) && args != ""
    ensures var r := ProcessToolCall(EMPTY, ToolDelta(k, Some(id), Some(name), args, newId), codec);
            && k in r.b.tools && r.b.tools[k].name == name && r.b.tools[k].started
            && (name != "Task" ==> !r.raised && r.b.tools[k].contents == [args] && r.b.tools[k].taskArgBuffer == "")
            && (name == "Task" && codec.loads(args).None? ==>
                  !r.raised && r.b.tools[k].contents == [] && r.b.tools[k].taskArgBuffer == args
                  && !r.b.tools[k].taskArgsEmitted)
  {
    var tc := ToolDelta(k, Some(id), Some(name), args, newId);
    var b1 := Recorded(EMPTY, k, tc);
    assert ToolOr(b1, k).name == name && ToolOr(b1, k) == NEW_TOOL.(name := name, toolId := ToolOr(b1, k).toolId);
    var b2 := StartToolBlock(b1, k, ResolvedId(b1, k, tc), Strip(name)).0;
    assert Opened(b1, k, tc, codec).b == b2 && !Opened(b1, k, tc, codec).raised;
    FirstArgs(b2, k, args, codec);
  }

  lemma FirstArgs(b: Builder, k: int, args: string, codec: Codec)
    requires k in b.tools && b.tools[k].contents == [] && b.tools[k].taskArgBuffer == "" && !b.tools[k].taskArgsEmitted
    requires args != ""
    ensures var r, name := EmitToolArgDelta(b, k, args, codec), b.tools[k].name;
            && k in r.b.tools && r.b.tools[k].name == name && r.b.tools[k].started == b.tools[k].started
            && (name != "Task" ==> !r.raised && r.b.tools[k].contents == [args] && r.b.tools[k].taskArgBuffer == "")
            && (name == "Task" && codec.loads(args).None? ==>
                  !r.raised && r.b.tools[k].contents == [] && r.b.tools[k].taskArgBuffer == args
                  && !r.b.tools[k].taskArgsEmitted)
  {
    assert "" + args == args && [] + [args] == [args];
  }

  /** A response that ends without its tail meets no contract. */
  lemma CutOff(id: string, model: string, chunks: seq<Chunk>, message: string, cfg: Config)
    requires EndRaises(chunks, false, cfg)
    ensures !Satisfies(Response(MessageStart(id, model), chunks, false, message, cfg), true)
    ensures !Satisfies(Response(MessageStart(id, model), chunks, false, message, cfg), false)
  {
    ResponseMeetsContract(id, model, chunks, false, message, cfg, true);
    ResponseMeetsContract(id, model, chunks, false, message, cfg, false);
  }

  /**
   * One native tool call whose arguments the tokenizer refuses, such as those that contain the text
   * of a special token, and no count of tokens: the response is cut off.
   */
  lemma RefusedArgumentsCutTheEnd(id: string, model: string, toolId: string, name: string, args: string,
                                  newId: string, message: string, cfg: Config)
    requires !IsBlank(name) && name != "Task" && args != ""
    requires cfg.encoder.Encoding? && cfg.encoder.encode(args).None?
    ensures var chunks := ToolChunk([ToolDelta(0, Some(toolId), Some(name), args, newId)]);
            && EndRaises(chunks, false, cfg)
            && !Satisfies(Response(MessageStart(id, model), chunks, false, message, cfg), true)
  {
    var k := 0;
    var tc := ToolDelta(k, Some(toolId), Some(name), args, newId);
    var chunks := ToolChunk([tc]);
    ToolChunkRuns([tc], cfg);
    OneCall(tc, cfg.codec);
    FirstFragment(k, toolId, name, args, newId, cfg.codec);
    ArgumentsAreEstimated(chunks, k, args, cfg);
    CutOff(id, model, chunks, message, cfg);
  }

  lemma ArgumentsAreEstimated(chunks: seq<Chunk>, k: int, args: string, cfg: Config)
    requires var r := Loop(FRESH, chunks, cfg);
             && !r.raised && k in r.s.b.tools && r.s.b.tools[k].contents == [args] && r.s.b.tools[k].taskArgBuffer == ""
    requires Usage(chunks).None? && cfg.encoder.Encoding? && cfg.encoder.encode(args).None?
    ensures EndRaises(chunks, false, cfg)
  {
    var r := Loop(FRESH, chunks, cfg);
    EmptyMirrors(cfg.codec);
    LoopReaches(START, FRESH, chunks, cfg);
    var c := Run(START, r.out).value;
    BeforeCloseTold(c, r.s, cfg, k);
    var t := ToolOr(BeforeClose(r.s, cfg).b, k);
    assert t.contents == [args] + [] == [args];
    assert Concat([args]) == args + Concat([args][1..]) && [args][1..] == [];
    AppendNone(args);
    assert UnencodableTool(t, cfg.encoder.encode);
  }

  /** The same for reasoning that the tokenizer refuses. */
  lemma RefusedReasoningCutsTheEnd(id: string, model: string, reasoning: string, message: string, cfg: Config)
    requires cfg.thinking && reasoning != "" && cfg.encoder.Encoding? && cfg.encoder.encode(reasoning).None?
    ensures var chunks := [Turn(None, None, reasoning, "", [], false)];
            && EndRaises(chunks, false, cfg)
            && !Satisfies(Response(MessageStart(id, model), chunks, false, message, cfg), true)
  {
    var chunks := [Turn(None, None, reasoning, "", [], false)];
    ReasoningRuns(reasoning, cfg);
    ReasoningIsEstimated(chunks, reasoning, cfg);
    CutOff(id, model, chunks, message, cfg);
  }

  lemma ReasoningRuns(reasoning: string, cfg: Config)
    requires cfg.thinking && reasoning != ""
    ensures var chunks := [Turn(None, None, reasoning, "", [], false)]; var r := Loop(FRESH, chunks, cfg);
            !r.raised && Concat(r.s.b.reasoning) == reasoning && r.s.parser == ThinkParser.FRESH && Usage(chunks).None?
  {
    var chunks := [Turn(None, None, reasoning, "", [], false)];
    assert chunks[1..] == [] && chunks[..|chunks| - 1] == [];
    assert Loop(FRESH, chunks, cfg).s.b == Think(EMPTY, reasoning).0;
    ConcatSnoc([], reasoning);
    assert "" + reasoning == reasoning;
  }

  lemma ReasoningIsEstimated(chunks: seq<Chunk>, reasoning: string, cfg: Config)
    requires var r := Loop(FRESH, chunks, cfg);
             !r.raised && Concat(r.s.b.reasoning) == reasoning && r.s.parser == ThinkParser.FRESH
    requires Usage(chunks).None? && cfg.encoder.Encoding? && cfg.encoder.encode(reasoning).None?
    ensures EndRaises(chunks, false, cfg)
  {
    var s := Loop(FRESH, chunks, cfg).s;
    var b1 := OpenAIText.Unpadded(s, cfg);
    OpenAIText.FoundToolsKeepText(s.b, cfg.heuristic.flush(s.fed), cfg.codec);
    assert ThinkParser.Flush(s.parser).None?;
    OpenAIText.SaidOrThought(b1, " ", ThinkParser.THINKING);
    OpenAIText.EndKeepsChannels(s, b1, cfg);
  }

  /**
   * One subagent call whose arguments do not parse, with an exception that the flush does not catch:
   * the response is cut off, with the block of the call still open.
   */
  lemma DeepArgumentsCutTheEnd(id: string, model: string, toolId: string, args: string, newId: string, message: string,
                               cfg: Config)
    requires args != "" && cfg.codec.loads(args).None? && cfg.codec.escapes(args)
    ensures var chunks := ToolChunk([ToolDelta(0, Some(toolId), Some("Task"), args, newId)]);
            && EndRaises(chunks, false, cfg)
            && var out := Response(MessageStart(id, model), chunks, false, message, cfg);
               !Satisfies(out, true) && Run(START, out).Some? && Run(START, out).value.open != map[]
  {
    var k := 0;
    var tc := ToolDelta(k, Some(toolId), Some("Task"), args, newId);
    ToolChunkRuns([tc], cfg);
    OneCall(tc, cfg.codec);
    assert !IsSpace("Task"[0]);
    FirstFragment(k, toolId, "Task", args, newId, cfg.codec);
    assert Escapes(Loop(FRESH, ToolChunk([tc]), cfg).s.b, k, cfg.codec);
    FlushLeavesOpen(id, model, ToolChunk([tc]), message, cfg);
    CutOff(id, model, ToolChunk([tc]), message, cfg);
  }

  // ----- a tool that is named Task for a while -----

  /**
   * A tool whose first fragment names it Task and whose second makes that another name: the first
   * arguments are replaced by an empty object, which comes after the second.
   */
  lemma RenamedTaskIsTorn(id: string, model: string, toolId: string, x: string, y: string, newId: string,
                          message: string, cfg: Config)
    requires x != "" && y != "" && cfg.codec.loads(x).None? && !cfg.codec.escapes(x)
    ensures var chunks := ToolChunk([ToolDelta(0, Some(toolId), Some("Task"), x, newId),
                                     ToolDelta(0, None, Some("Output"), y, newId)]);
            && IsStarted(After(chunks, cfg).s.b, 0)
            && DeltasAt(Response(MessageStart(id, model), chunks, false, message, cfg),
                        Slot(After(chunks, cfg).s.b, 0)) == [y, "{}"]
  {
    var k := 0;
    var a, b := ToolDelta(k, Some(toolId), Some("Task"), x, newId), ToolDelta(k, None, Some("Output"), y, newId);
    var chunks := ToolChunk([a, b]);
    ToolChunkRuns([a, b], cfg);
    RenamedRuns(k, toolId, x, y, newId, cfg.codec);
    RenamedPieces(k, toolId, x, y, newId, cfg.codec);
    NothingElseEscapes(chunks, k, [a, b], cfg);
    TornInFull(id, model, chunks, message, cfg, k, Pieces([a, b], k), x, y);
  }

  /** What a started tool is sent by a response that ends normally. */
  lemma DeliveredInFull(id: string, model: string, chunks: seq<Chunk>, message: string, cfg: Config, k: int,
                        ps: seq<Piece>)
    requires !After(chunks, cfg).raised && IsStarted(After(chunks, cfg).s.b, k)
    requires !FlushRaises(After(chunks, cfg).s.b, cfg.codec) && ps == Pieces(CallsOf(chunks), k)
    ensures DeltasAt(Response(MessageStart(id, model), chunks, false, message, cfg), Slot(After(chunks, cfg).s.b, k)) ==
              Delivered(ps, cfg.codec) + (if Call(ps, cfg.codec).None? && TaskText(ps) != "" then ["{}"] else [])
  {
    var handled, n := ArgumentsAreAccounted(id, model, chunks, false, message, cfg, k);
    assert ps[..n] == ps;
  }

  lemma TornInFull(id: string, model: string, chunks: seq<Chunk>, message: string, cfg: Config, k: int,
                   ps: seq<Piece>, x: string, y: string)
    requires !After(chunks, cfg).raised && IsStarted(After(chunks, cfg).s.b, k)
    requires !FlushRaises(After(chunks, cfg).s.b, cfg.codec) && ps == Pieces(CallsOf(chunks), k)
    requires TaskText(ps) == x && x != "" && Call(ps, cfg.codec).None? && Delivered(ps, cfg.codec) == [y]
    ensures DeltasAt(Response(MessageStart(id, model), chunks, false, message, cfg), Slot(After(chunks, cfg).s.b, k)) ==
              [y, "{}"]
  {
    DeliveredInFull(id, model, chunks, message, cfg, k, ps);
    assert [y] + ["{}"] == [y, "{}"];
  }

  lemma RenamedRuns(k: int, toolId: string, x: string, y: string, newId: string, codec: Codec)
    requires 0 <= k && x != "" && y != "" && codec.loads(x).None?
    ensures var a := ToolDelta(k, Some(toolId), Some("Task"), x, newId);
            var b := ToolDelta(k, None, Some("Output"), y, newId);
            var r := ProcessToolCalls(EMPTY, [a, b], codec);
            !r.raised && IsStarted(r.b, k)
  {
    var a, b := ToolDelta(k, Some(toolId), Some("Task"), x, newId), ToolDelta(k, None, Some("Output"), y, newId);
    assert !IsSpace("Task"[0]);
    FirstFragment(k, toolId, "Task", x, newId, codec);
    var r := ProcessToolCall(EMPTY, a, codec);
    assert [a, b][1..] == [b] && [b][1..] == [];
    RenamedName();
    var b1 := Recorded(r.b, k, b);
    assert ToolOr(b1, k).name == "TaskOutput" && ToolOr(b1, k).started;
    var q := ProcessToolCall(r.b, b, codec);
    assert Opened(b1, k, b, codec) == Emitted(b1, [], false);
    assert !q.raised && IsStarted(q.b, k);
    assert ProcessToolCalls(r.b, [b], codec).b == q.b && !ProcessToolCalls(r.b, [b], codec).raised;
  }

  lemma RenamedName()
    ensures MergeName("", "Task") == "Task" && MergeName("Task", "Output") == "TaskOutput"
    ensures !IsBlank("Task") && !IsBlank("TaskOutput") && "TaskOutput" != "Task"
  {
    assert !IsSpace("Task"[0]) && !IsSpace("TaskOutput"[0]);
    assert "Output"[0] != "Task"[0];
    assert |"TaskOutput"| != |"Task"|;
  }

  lemma RenamedPieces(k: int, toolId: string, x: string, y: string, newId: string, codec: Codec)
    requires 0 <= k && x != "" && y != "" && codec.loads(x).None?
    ensures var a := ToolDelta(k, Some(toolId), Some("Task"), x, newId);
            var b := ToolDelta(k, None, Some("Output"), y, newId);
            var ps := Pieces([a, b], k);
            ps == [Piece(x, true), Piece(y, false)] && TaskText(ps) == x && Call(ps, codec).None?
            && Delivered(ps, codec) == [y]
  {
    var a, b := ToolDelta(k, Some(toolId), Some("Task"), x, newId), ToolDelta(k, None, Some("Output"), y, newId);
    RenamedName();
    assert Init([a, b]) == [a] && Init([a]) == [];
    assert Named([a], k) == "Task" && Named([a, b], k) == "TaskOutput";
    var p, q := Piece(x, true), Piece(y, false);
    JustOwn("", "", "Task", x);
    assert Pieces([a], k) == [] + [p] == [p];
    JustOwn(Received([a], k), "Task", "TaskOutput", y);
    assert Pieces([a, b], k) == [p] + [q] == [p, q];
    TwoPieces(x, y, codec);
  }

  lemma JustOwn(received: string, name: string, name': string, args: string)
    requires received == "" || !IsBlank(name)
    ensures NewPieces(received, name, name', args) == PieceOf(args, name')
  {
    assert [] + PieceOf(args, name') == PieceOf(args, name');
  }

  lemma TwoPieces(x: string, y: string, codec: Codec)
    requires codec.loads(x).None?
    ensures var ps := [Piece(x, true), Piece(y, false)];
            TaskText(ps) == x && Call(ps, codec).None? && Delivered(ps, codec) == [y]
  {
    var p, q := Piece(x, true), Piece(y, false);
    assert [] + [p] == [p] && [p] + [q] == [p, q] && "" + x == x && x + "" == x && [] + [y] == [y];
    OneMorePiece([], p, codec);
    OneMoreCall([], p, codec);
    OneMorePiece([p], q, codec);
    OneMoreCall([p], q, codec);
  }

  /** Where all fragments are for tool k, the flush raises only for its arguments. */
  lemma NothingElseEscapes(chunks: seq<Chunk>, k: int, calls: seq<ToolDelta>, cfg: Config)
    requires !Loop(FRESH, chunks, cfg).raised && CallsOf(chunks) == calls
    requires 0 <= k && forall tc | tc in calls :: tc.index == k
    requires !cfg.codec.escapes(TaskText(Pieces(calls, k)))
    ensures !FlushRaises(Loop(FRESH, chunks, cfg).s.b, cfg.codec)
  {
    FlushRaisesIff(chunks, cfg);
    forall j | j != k ensures Pieces(calls, j) == [] {
      OtherPieces(calls, k, j);
    }
  }

  lemma {:induction false} OtherPieces(calls: seq<ToolDelta>, k: int, j: int)
    requires 0 <= k && j != k && forall tc | tc in calls :: tc.index == k
    ensures Pieces(calls, j) == []
    decreases |calls|
  {
    if calls != [] {
      assert Last(calls) in calls;
      OtherPieces(Init(calls), k, j);
    }
  }
}
