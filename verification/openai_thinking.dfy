/**
 * Thinking is relayed: the thinking that a response sends is the reasoning of its chunks, each
 * followed by what the tags of its content release, in order.
 */
module OpenAIThinking {
  import opened Text
  import opened StreamContract
  import opened SseBuilder
  import opened OpenAIStream
  import opened OpenAIContract
  import opened OpenAIArguments
  import opened OpenAITranscript
  import opened OpenAIResponse
  import opened OpenAIText
  import ThinkParser

  const THINKING := ThinkParser.THINKING

  // ----- what the parser releases -----

  /** The thinking that the tags of each chunk's content release, chunk by chunk. */
  function Released(parser: ThinkParser.State, chunks: seq<Chunk>): (released: seq<string>)
    ensures |released| == |chunks|
    decreases |chunks|
  {
    if chunks == [] then []
    else
      var (parser', parts) := PartsOf(parser, chunks[0]);
      [Only(ThinkParser.AllLabels(parts), THINKING)] + Released(parser', chunks[1..])
  }

  function ParserAfter(parser: ThinkParser.State, chunks: seq<Chunk>): ThinkParser.State
    decreases |chunks|
  {
    if chunks == [] then parser else ParserAfter(PartsOf(parser, chunks[0]).0, chunks[1..])
  }

  lemma {:induction false} ParserIsParsed(parser: ThinkParser.State, fed: seq<string>, chunks: seq<Chunk>)
    ensures Parsed(parser, fed, chunks).0 == ParserAfter(parser, chunks)
    decreases |chunks|
  {
    if chunks != [] {
      var (parser', parts) := PartsOf(parser, chunks[0]);
      ParserIsParsed(parser', FedByAll(fed, parts), chunks[1..]);
    }
  }

  function HeldThinking(parser: ThinkParser.State): string {
    if parser.inside then parser.buffer else ""
  }

  lemma OneChunkReleases(parser: ThinkParser.State, chunk: Chunk, rest: string)
    requires ThinkParser.Held(parser)
    ensures var (parser', parts) := PartsOf(parser, chunk); var content := if chunk.Turn? then chunk.content else "";
            && ThinkParser.Held(parser')
            && ThinkParser.Labelling(parser.buffer + (content + rest), parser.inside) ==
                 ThinkParser.AllLabels(parts) + ThinkParser.Labelling(parser'.buffer + rest, parser'.inside)
  {
    var content := if chunk.Turn? then chunk.content else "";
    AppendNone(rest);
    if content == "" {
      AppendNone(ThinkParser.Labelling(parser.buffer + rest, parser.inside));
    } else {
      ThinkParser.FeedOneCorrect(parser, content, rest, "");
      AppendNone(parser.buffer + (content + rest));
      AppendNone(ThinkParser.Feed(parser, content).0.buffer + rest);
    }
  }

  /** What has been released and what is held are the thinking of all that has been received. */
  lemma {:induction false} ReleasedIsThinking(parser: ThinkParser.State, chunks: seq<Chunk>)
    requires ThinkParser.Held(parser)
    ensures var parser' := ParserAfter(parser, chunks);
            && ThinkParser.Held(parser') && |HeldThinking(parser')| <= 7
            && Concat(Released(parser, chunks)) + HeldThinking(parser') ==
                 Only(ThinkParser.Labelling(parser.buffer + Concat(Contents(chunks)), parser.inside), THINKING)
    decreases |chunks|
  {
    if chunks == [] {
      ThinkParser.FlushCorrect(parser);
      OnlyLabel(parser.buffer, ThinkParser.KindOf(parser.inside), THINKING);
      AppendNone(parser.buffer);
      AppendNone(HeldThinking(parser));
    } else {
      var (parser', parts) := PartsOf(parser, chunks[0]);
      var rest := Concat(Contents(chunks[1..]));
      OneChunkReleases(parser, chunks[0], rest);
      ReleasedIsThinking(parser', chunks[1..]);
      FirstContent(chunks);
      OnlyAppend(ThinkParser.AllLabels(parts), ThinkParser.Labelling(parser'.buffer + rest, parser'.inside), THINKING);
      var first, more := Only(ThinkParser.AllLabels(parts), THINKING), Released(parser', chunks[1..]);
      AppendTail([first], more);
      AppendNone(more);
      Assoc(first, Concat(more), HeldThinking(ParserAfter(parser', chunks[1..])));
    }
  }

  lemma {:induction false} ReleasedPrefix(parser: ThinkParser.State, chunks: seq<Chunk>, n: nat)
    requires n <= |chunks|
    ensures Released(parser, chunks)[..n] == Released(parser, chunks[..n])
    decreases |chunks|
  {
    if n > 0 {
      var parser' := PartsOf(parser, chunks[0]).0;
      assert chunks[..n][1..] == chunks[1..][..n - 1];
      ReleasedPrefix(parser', chunks[1..], n - 1);
    }
  }

  // ----- what is thought -----

  /** The reasoning of each chunk, followed by what its content releases. */
  function Weave(chunks: seq<Chunk>, released: seq<string>): string
    requires |released| == |chunks|
  {
    if chunks == [] then ""
    else (if chunks[0].Turn? then chunks[0].reasoning else "") + released[0] + Weave(chunks[1..], released[1..])
  }

  lemma {:induction false} ToolsThinkNothing(tools: seq<ToolUse>, codec: Codec)
    ensures ThoughtsOf(ToolsSay(tools, codec)) == ""
  {
    if tools != [] {
      ToolsThinkNothing(tools[1..], codec);
      var first := [Used(Block("tool_use", "", Some(tools[0].id), Some(tools[0].name), Some("{}"))),
                    Input(InputOf(tools[0], codec))];
      NoThoughts(first);
      ChannelsAppend(first, ToolsSay(tools[1..], codec));
    }
  }

  lemma {:induction false} NoThoughts(said: seq<Said>)
    requires forall x | x in said :: !x.Thought?
    ensures ThoughtsOf(said) == ""
  {
    if said != [] {
      assert said[0] in said;
      NoThoughts(said[1..]);
    }
  }

  lemma OneThought(text: string)
    ensures ThoughtsOf([Thought(text)]) == text
  {
    assert [Thought(text)][1..] == [];
    AppendNone(text);
  }

  lemma {:induction false} PartsThink(fed: seq<string>, parts: seq<ThinkParser.Chunk>, cfg: Config)
    ensures ThoughtsOf(PartsSay(fed, parts, cfg)) == Shown(ThinkParser.AllLabels(parts), THINKING, cfg)
    decreases |parts|
  {
    if parts != [] {
      var part := parts[0];
      PartThinks(fed, part, cfg);
      PartsThink(FedBy(fed, part), parts[1..], cfg);
      ChannelsAppend(PartSays(fed, part, cfg), PartsSay(FedBy(fed, part), parts[1..], cfg));
      ShownAppend(ThinkParser.Label(part.content, part.kind), ThinkParser.AllLabels(parts[1..]), THINKING, cfg);
    }
  }

  lemma PartThinks(fed: seq<string>, part: ThinkParser.Chunk, cfg: Config)
    ensures ThoughtsOf(PartSays(fed, part, cfg)) == Shown(ThinkParser.Label(part.content, part.kind), THINKING, cfg)
  {
    OnlyLabel(part.content, part.kind, THINKING);
    if part.kind.TEXT? {
      var (passed, tools) := cfg.heuristic.feed(fed + [part.content]);
      ToolsThinkNothing(tools, cfg.codec);
      var spoken := if passed != "" then [Spoke(passed)] else [];
      NoThoughts(spoken);
      ChannelsAppend(spoken, ToolsSay(tools, cfg.codec));
    } else {
      OneThought(part.content);
    }
  }

  lemma {:induction false} CallsThinkNothing(calls: seq<ToolDelta>, tcs: seq<ToolDelta>, codec: Codec)
    ensures ThoughtsOf(CallsSay(calls, tcs, codec)) == ""
    decreases |tcs|
  {
    if tcs != [] {
      CallsThinkNothing(calls + [tcs[0]], tcs[1..], codec);
      NoThoughts(CallSays(calls, tcs[0], codec));
      ChannelsAppend(CallSays(calls, tcs[0], codec), CallsSay(calls + [tcs[0]], tcs[1..], codec));
    }
  }

  lemma ContentThinks(parser: ThinkParser.State, fed: seq<string>, chunk: Chunk, cfg: Config)
    ensures ThoughtsOf(ContentSays(parser, fed, chunk, cfg)) ==
              if !cfg.thinking then ""
              else (if chunk.Turn? then chunk.reasoning else "")
                   + Only(ThinkParser.AllLabels(PartsOf(parser, chunk).1), THINKING)
  {
    var first := if chunk.Turn? && cfg.thinking && chunk.reasoning != "" then [Thought(chunk.reasoning)] else [];
    if first != [] {
      OneThought(chunk.reasoning);
    }
    PartsThink(fed, PartsOf(parser, chunk).1, cfg);
    ChannelsAppend(first, PartsSay(fed, PartsOf(parser, chunk).1, cfg));
  }

  lemma ChunkThinks(parser: ThinkParser.State, fed: seq<string>, calls: seq<ToolDelta>, chunk: Chunk, cfg: Config)
    ensures ThoughtsOf(ChunkSays(parser, fed, calls, chunk, cfg)) == ThoughtsOf(ContentSays(parser, fed, chunk, cfg))
  {
    CallsThinkNothing(calls, CallsOf([chunk]), cfg.codec);
    ChannelsAppend(ContentSays(parser, fed, chunk, cfg), CallsSay(calls, CallsOf([chunk]), cfg.codec));
    AppendNone(ThoughtsOf(ContentSays(parser, fed, chunk, cfg)));
  }

  lemma {:induction false} ChunksThink(parser: ThinkParser.State, fed: seq<string>, calls: seq<ToolDelta>,
                                       chunks: seq<Chunk>, cfg: Config)
    ensures ThoughtsOf(ChunksSay(parser, fed, calls, chunks, cfg)) ==
              if cfg.thinking then Weave(chunks, Released(parser, chunks)) else ""
    decreases |chunks|
  {
    if chunks != [] {
      var (parser', parts) := PartsOf(parser, chunks[0]);
      ChunkThinks(parser, fed, calls, chunks[0], cfg);
      ContentThinks(parser, fed, chunks[0], cfg);
      ChunksThink(parser', FedByAll(fed, parts), calls + CallsOf([chunks[0]]), chunks[1..], cfg);
      ChannelsAppend(ChunkSays(parser, fed, calls, chunks[0], cfg),
                     ChunksSay(parser', FedByAll(fed, parts), calls + CallsOf([chunks[0]]), chunks[1..], cfg));
      AppendTail([Only(ThinkParser.AllLabels(parts), THINKING)], Released(parser', chunks[1..]));
      AppendNone(Released(parser', chunks[1..]));
    }
  }

  // ----- whole responses -----

  predicate SameContent(a: Chunk, b: Chunk) {
    a.Turn? == b.Turn? && (a.Turn? ==> a.reasoning == b.reasoning && a.content == b.content)
  }

  /** Tool calls do not matter here. */
  lemma {:induction false} SameThinking(parser: ThinkParser.State, a: seq<Chunk>, b: seq<Chunk>)
    requires |a| == |b| && forall i | 0 <= i < |a| :: SameContent(a[i], b[i])
    ensures Released(parser, a) == Released(parser, b)
    ensures Weave(a, Released(parser, a)) == Weave(b, Released(parser, b))
    decreases |a|
  {
    if a != [] {
      var (parser', parts) := PartsOf(parser, a[0]);
      SameThinking(parser', a[1..], b[1..]);
      AppendTail([Only(ThinkParser.AllLabels(parts), THINKING)], Released(parser', a[1..]));
    }
  }

  lemma PrefixThoughts(a: seq<Said>, b: seq<Said>)
    requires a <= b
    ensures ThoughtsOf(a) <= ThoughtsOf(b)
  {
    assert b == a + b[|a|..];
    ChannelsAppend(a, b[|a|..]);
  }

  lemma FailureThinks(id: string, model: string, chunks: seq<Chunk>, fails: bool, message: string, cfg: Config)
    requires fails || After(chunks, cfg).raised
    ensures var handled := Handled(FRESH, chunks, cfg);
            DeltasOf(Response(MessageStart(id, model), chunks, fails, message, cfg), "thinking_delta") ==
              if cfg.thinking then Weave(handled, Released(ThinkParser.FRESH, handled)) else ""
  {
    var said, calls := FailureIsSaid(id, model, chunks, fails, message, cfg);
    BetweenThinks(ThinkParser.FRESH, [], [], Handled(FRESH, chunks, cfg), said, cfg);
    Framed(id, model, said,
           [if HasTool(calls) then Failed(message) else Spoke(message), Ended("end_turn", 1), Stopped]);
    ChannelsAreDeltas(Response(MessageStart(id, model), chunks, fails, message, cfg));
  }

  /** Where among the tool calls of the last chunk a response stops does not matter. */
  lemma BetweenThinks(parser: ThinkParser.State, fed: seq<string>, calls: seq<ToolDelta>, chunks: seq<Chunk>,
                      said: seq<Said>, cfg: Config)
    requires ChunksSay(parser, fed, calls, WithoutLastCalls(chunks), cfg) <= said
    requires said <= ChunksSay(parser, fed, calls, chunks, cfg)
    ensures ThoughtsOf(said) == if cfg.thinking then Weave(chunks, Released(parser, chunks)) else ""
  {
    LessThinks(parser, fed, calls, chunks, cfg);
    ChunksThink(parser, fed, calls, chunks, cfg);
    SandwichThinks(ChunksSay(parser, fed, calls, WithoutLastCalls(chunks), cfg), said,
                   ChunksSay(parser, fed, calls, chunks, cfg));
  }

  lemma LessThinks(parser: ThinkParser.State, fed: seq<string>, calls: seq<ToolDelta>, chunks: seq<Chunk>, cfg: Config)
    ensures ThoughtsOf(ChunksSay(parser, fed, calls, WithoutLastCalls(chunks), cfg)) ==
              if cfg.thinking then Weave(chunks, Released(parser, chunks)) else ""
  {
    var less := WithoutLastCalls(chunks);
    LessIsSame(chunks, less);
    ChunksThink(parser, fed, calls, less, cfg);
    SameThinking(parser, less, chunks);
  }

  lemma LessIsSame(chunks: seq<Chunk>, less: seq<Chunk>)
    requires less == WithoutLastCalls(chunks)
    ensures |less| == |chunks| && forall i | 0 <= i < |less| :: SameContent(less[i], chunks[i])
  {
  }

  lemma SandwichThinks(a: seq<Said>, said: seq<Said>, b: seq<Said>)
    requires a <= said <= b && ThoughtsOf(a) == ThoughtsOf(b)
    ensures ThoughtsOf(said) == ThoughtsOf(a)
  {
    PrefixThoughts(a, said);
    PrefixThoughts(said, b);
  }

  lemma Framed(id: string, model: string, said: seq<Said>, tail: seq<Said>)
    requires forall x | x in tail :: !x.Thought?
    ensures ThoughtsOf([Begun(id, model)] + said + tail) == ThoughtsOf(said)
  {
    NoThoughts([Begun(id, model)]);
    NoThoughts(tail);
    ChannelsAppend([Begun(id, model)], said);
    ChannelsAppend([Begun(id, model)] + said, tail);
    AppendNone(ThoughtsOf(said));
  }

  lemma BodyThinks(chunks: seq<Chunk>, cfg: Config)
    ensures var last := HeldThinking(ParserAfter(ThinkParser.FRESH, chunks));
            ThoughtsOf(Body(chunks, cfg)) ==
              if cfg.thinking then Weave(chunks, Released(ThinkParser.FRESH, chunks)) + last else ""
  {
    var (parser, fed) := Parsed(ThinkParser.FRESH, [], chunks);
    ParserIsParsed(ThinkParser.FRESH, [], chunks);
    ChunksThink(ThinkParser.FRESH, [], [], chunks, cfg);
    ToolsThinkNothing(cfg.heuristic.flush(fed), cfg.codec);
    HeldThinks(parser, cfg);
    ChannelsAppend(HeldSays(parser, cfg), ToolsSay(cfg.heuristic.flush(fed), cfg.codec));
    ChannelsAppend(ChunksSay(ThinkParser.FRESH, [], [], chunks, cfg),
                   HeldSays(parser, cfg) + ToolsSay(cfg.heuristic.flush(fed), cfg.codec));
  }

  lemma HeldThinks(parser: ThinkParser.State, cfg: Config)
    ensures ThoughtsOf(HeldSays(parser, cfg)) == if cfg.thinking then HeldThinking(parser) else ""
  {
    if parser.inside && cfg.thinking {
      OneThought(parser.buffer);
    } else {
      NoThoughts(HeldSays(parser, cfg));
    }
  }

  lemma ResponseThinks(id: string, model: string, chunks: seq<Chunk>, message: string, cfg: Config)
    requires !After(chunks, cfg).raised
    ensures var last := HeldThinking(ParserAfter(ThinkParser.FRESH, chunks));
            DeltasOf(Response(MessageStart(id, model), chunks, false, message, cfg), "thinking_delta") ==
              if cfg.thinking then Weave(chunks, Released(ThinkParser.FRESH, chunks)) + last else ""
  {
    var tools, reason, tokens := ResponseIsSaid(id, model, chunks, message, cfg);
    ContentIsThought(chunks, cfg);
    BodyThinks(chunks, cfg);
    Framed(id, model, Content(chunks, cfg),
           if CutByFlush(CallsOf(chunks), cfg.codec) || tokens.None? then []
           else [Ended(reason, tokens.value), Stopped]);
    ChannelsAreDeltas(Response(MessageStart(id, model), chunks, false, message, cfg));
  }

  lemma ContentIsThought(chunks: seq<Chunk>, cfg: Config)
    ensures ThoughtsOf(Content(chunks, cfg)) == ThoughtsOf(Body(chunks, cfg))
  {
    var calls, body := CallsOf(chunks), Body(chunks, cfg);
    AddedThinks(body, if Bare(HasTool(calls), SpokenOf(body), ThoughtsOf(body)) then [Spoke(" ")] else [],
                if CutByFlush(calls, cfg.codec) then []
                else Inputs(EmptyObjects(|AllUnfinished(calls, cfg.codec)|)));
  }

  lemma AddedThinks(body: seq<Said>, pad: seq<Said>, more: seq<Said>)
    requires forall x | x in pad || x in more :: !x.Thought?
    ensures ThoughtsOf(body + pad + more) == ThoughtsOf(body)
  {
    NoThoughts(pad);
    NoThoughts(more);
    ChannelsAppend(body, pad);
    ChannelsAppend(body + pad, more);
    AppendNone(ThoughtsOf(body));
  }

  /** `released` is what the tags in the contents of `chunks` release, but for at most seven characters. */
  ghost predicate ReleasedBy(chunks: seq<Chunk>, released: seq<string>) {
    exists held: string :: |held| <= 7 && Concat(released) + held == Only(OpenAIText.Reading(chunks), THINKING)
  }

  lemma ReleasedAfter(chunks: seq<Chunk>, n: nat)
    requires n <= |chunks|
    ensures ReleasedBy(chunks[..n], Released(ThinkParser.FRESH, chunks)[..n])
  {
    ReleasedIsThinking(ThinkParser.FRESH, chunks[..n]);
    ReleasedPrefix(ThinkParser.FRESH, chunks, n);
    AppendNone(Concat(Contents(chunks[..n])));
    var held := HeldThinking(ParserAfter(ThinkParser.FRESH, chunks[..n]));
    assert |held| <= 7;
  }

  /**
   * Every response, failing or not: its thinking deltas are, where thinking is shown, the reasoning
   * of each chunk followed by what its content releases of the thinking that the tags enclose, and
   * what is flushed at a normal end; and nothing where it is not shown. After any chunk, all but at
   * most seven characters of the enclosed thinking received so far have been released.
   */
  lemma ThinkingIsRelayed(id: string, model: string, chunks: seq<Chunk>, fails: bool, message: string, cfg: Config)
    returns (released: seq<string>, last: string)
    ensures var handled := Handled(FRESH, chunks, cfg);
            && |released| == |handled|
            && DeltasOf(Response(MessageStart(id, model), chunks, fails, message, cfg), "thinking_delta") ==
                 (if cfg.thinking then Weave(handled, released) + last else "")
            && (forall n | 0 <= n <= |handled| :: ReleasedBy(handled[..n], released[..n]))
            && (if fails || After(chunks, cfg).raised then last == ""
                else Concat(released) + last == Only(OpenAIText.Reading(chunks), THINKING))
  {
    var handled := Handled(FRESH, chunks, cfg);
    released := Released(ThinkParser.FRESH, handled);
    forall n | 0 <= n <= |handled| ensures ReleasedBy(handled[..n], released[..n]) {
      ReleasedAfter(handled, n);
    }
    if fails || After(chunks, cfg).raised {
      last := "";
      FailureThinks(id, model, chunks, fails, message, cfg);
      AppendNone(Weave(handled, released));
    } else {
      last := HeldThinking(ParserAfter(ThinkParser.FRESH, chunks));
      AllHandled(FRESH, chunks, cfg);
      ResponseThinks(id, model, chunks, message, cfg);
      ReleasedIsThinking(ThinkParser.FRESH, chunks);
      AppendNone(Concat(Contents(chunks)));
    }
  }

  function Reasonings(chunks: seq<Chunk>): string {
    if chunks == [] then "" else (if chunks[0].Turn? then chunks[0].reasoning else "") + Reasonings(chunks[1..])
  }

  lemma {:induction false} NothingReleased(chunks: seq<Chunk>, released: seq<string>)
    requires |released| == |chunks| && Concat(released) == ""
    ensures Weave(chunks, released) == Reasonings(chunks)
  {
    if chunks != [] {
      NothingReleased(chunks[1..], released[1..]);
      AppendNone(if chunks[0].Turn? then chunks[0].reasoning else "");
    }
  }

  /** Where the tags enclose nothing, the thinking is the reasoning of the chunks, joined. */
  lemma ReasoningIsRelayed(id: string, model: string, chunks: seq<Chunk>, fails: bool, message: string, cfg: Config)
    requires cfg.thinking && Only(OpenAIText.Reading(Handled(FRESH, chunks, cfg)), THINKING) == ""
    ensures DeltasOf(Response(MessageStart(id, model), chunks, fails, message, cfg), "thinking_delta") ==
              Reasonings(Handled(FRESH, chunks, cfg))
  {
    var handled := Handled(FRESH, chunks, cfg);
    var released, last := ThinkingIsRelayed(id, model, chunks, fails, message, cfg);
    assert handled[..|handled|] == handled && released[..|handled|] == released;
    assert ReleasedBy(handled[..|handled|], released[..|handled|]);
    AllHandled(FRESH, chunks, cfg);
    NothingReleased(handled, released);
    AppendNone(Weave(handled, released));
  }
}
