/**
 * Whole responses: everything that one says, in order, from what the upstream said alone; what is
 * thought, how it ends and what it reports.
 */
module OpenAIResponse {
  import opened Text
  import opened StreamContract
  import opened SseBuilder
  import opened OpenAIStream
  import opened OpenAIContract
  import opened OpenAIArguments
  import opened OpenAIIdentity
  import opened OpenAITranscript
  import OpenAIEndings
  import OpenAIText
  import ThinkParser

  // ----- channels of a transcript -----

  function SpokenOf(said: seq<Said>): string {
    if said == [] then "" else (if said[0].Spoke? then said[0].text else "") + SpokenOf(said[1..])
  }

  function ThoughtsOf(said: seq<Said>): string {
    if said == [] then "" else (if said[0].Thought? then said[0].text else "") + ThoughtsOf(said[1..])
  }

  lemma {:induction false} ChannelsAppend(a: seq<Said>, b: seq<Said>)
    ensures SpokenOf(a + b) == SpokenOf(a) + SpokenOf(b) && ThoughtsOf(a + b) == ThoughtsOf(a) + ThoughtsOf(b)
  {
    if a == [] {
      AppendNone(b);
      AppendNone(SpokenOf(b));
      AppendNone(ThoughtsOf(b));
    } else {
      AppendTail(a, b);
      ChannelsAppend(a[1..], b);
      Assoc(if a[0].Spoke? then a[0].text else "", SpokenOf(a[1..]), SpokenOf(b));
      Assoc(if a[0].Thought? then a[0].text else "", ThoughtsOf(a[1..]), ThoughtsOf(b));
    }
  }

  lemma EventChannels(e: Event)
    ensures SpokenOf(Says(e)) == if e.BlockDelta? && e.delta.kind == "text_delta" then e.delta.content else ""
    ensures ThoughtsOf(Says(e)) == if e.BlockDelta? && e.delta.kind == "thinking_delta" then e.delta.content else ""
  {
    if Says(e) != [] {
      assert Says(e)[1..] == [];
      AppendNone(if Says(e)[0].Spoke? then Says(e)[0].text else "");
      AppendNone(if Says(e)[0].Thought? then Says(e)[0].text else "");
    }
  }

  /** The channels of a transcript are the deltas of the stream. */
  lemma {:induction false} ChannelsAreDeltas(es: seq<Event>)
    ensures SpokenOf(Transcript(es)) == DeltasOf(es, "text_delta")
    ensures ThoughtsOf(Transcript(es)) == DeltasOf(es, "thinking_delta")
  {
    if es != [] {
      ChannelsAreDeltas(es[1..]);
      EventChannels(es[0]);
      ChannelsAppend(Says(es[0]), Transcript(es[1..]));
    }
  }

  // ----- the end of the content -----

  /** The think-tag parser and the parts fed on, after these chunks. */
  function Parsed(parser: ThinkParser.State, fed: seq<string>, chunks: seq<Chunk>): (ThinkParser.State, seq<string>)
    decreases |chunks|
  {
    if chunks == [] then (parser, fed)
    else
      var (parser', parts) := PartsOf(parser, chunks[0]);
      Parsed(parser', FedByAll(fed, parts), chunks[1..])
  }

  lemma {:induction false} LoopParses(s: Stream, chunks: seq<Chunk>, cfg: Config)
    requires !Loop(s, chunks, cfg).raised
    ensures var s' := Loop(s, chunks, cfg).s; (s'.parser, s'.fed) == Parsed(s.parser, s.fed, chunks)
    decreases |chunks|
  {
    if chunks != [] {
      ChunkParses(s, chunks[0], cfg);
      LoopParses(OneChunk(s, chunks[0], cfg).s, chunks[1..], cfg);
    }
  }

  lemma ChunkParses(s: Stream, chunk: Chunk, cfg: Config)
    ensures var s' := OneChunk(s, chunk, cfg).s;
            s'.parser == PartsOf(s.parser, chunk).0 && s'.fed == FedByAll(s.fed, PartsOf(s.parser, chunk).1)
  {
    if chunk.Turn? {
      ContentIsSaid(s, chunk, cfg);
      OpenAIText.ChunkState(s, chunk, cfg);
    }
  }

  /** What the parser holds is said as what it would have become. */
  function HeldSays(parser: ThinkParser.State, cfg: Config): seq<Said> {
    if parser.buffer == "" then []
    else if !parser.inside then [Spoke(parser.buffer)]
    else if cfg.thinking then [Thought(parser.buffer)]
    else []
  }

  lemma FlushIsSaid(s: Stream, cfg: Config)
    ensures Transcript(FlushParser(s, cfg).1) == HeldSays(s.parser, cfg)
  {
    SaySays(s.b, s.parser.buffer);
    ThinkSays(s.b, s.parser.buffer);
  }

  lemma PadIsSaid(b: Builder)
    requires OpenAIText.Paired(b)
    ensures var text, thoughts := Concat(b.text), Concat(b.reasoning);
            Transcript(Pad(b).1) ==
              if OpenAIText.Bare(HasEmittedToolBlock(b), text, thoughts) then [Spoke(" ")] else []
  {
    SaySays(b, " ");
  }

  // ----- unfinished subagent calls -----

  /** Some of its arguments came while it was named Task, and none of their texts was a call. */
  ghost predicate Unfinished(calls: seq<ToolDelta>, k: int, codec: Codec) {
    var ps := Pieces(calls, k);
    Call(ps, codec).None? && TaskText(ps) != ""
  }

  ghost function AllUnfinished(calls: seq<ToolDelta>, codec: Codec): set<int> {
    set k | k in Known(calls) && Unfinished(calls, k, codec)
  }

  lemma UnsentIffUnfinished(b: Builder, calls: seq<ToolDelta>, k: int, codec: Codec)
    requires Knows(b, calls, true, codec)
    ensures Unsent(b, k) <==> k in AllUnfinished(calls, codec)
  {
    assert ToldOf(b, calls, k, true, codec);
    var t, ps := ToolOr(b, k), Pieces(calls, k);
    if t.started {
      assert AllTold(t, ps, codec);
    }
  }

  /** As many empty objects as there are unfinished calls. */
  function EmptyObjects(n: nat): seq<string> {
    seq(n, i requires 0 <= i < n => "{}")
  }

  ghost function UnsentAmong(b: Builder, keys: seq<int>): set<int> {
    set k | k in keys && Unsent(b, k)
  }

  lemma UnsentFirst(b: Builder, k: int, rest: seq<int>)
    requires k !in rest && Unsent(b, k)
    ensures |UnsentAmong(b, [k] + rest)| == 1 + |UnsentAmong(Emptied(b, k), rest)|
  {
    assert forall j | j != k :: Unsent(Emptied(b, k), j) <==> Unsent(b, j);
    assert UnsentAmong(b, [k] + rest) == {k} + UnsentAmong(Emptied(b, k), rest);
  }

  lemma UnsentLater(b: Builder, k: int, rest: seq<int>)
    requires !Unsent(b, k)
    ensures UnsentAmong(b, [k] + rest) == UnsentAmong(b, rest)
  {
  }

  /** One empty object for each, and for tools that are there. */
  ghost predicate FlushedObjects(b: Builder, results: seq<(int, string)>, n: nat) {
    |results| == n && forall p | p in results :: p.1 == "{}" && p.0 in b.tools
  }

  lemma {:induction false} FlushCounts(b: Builder, keys: seq<int>, codec: Codec)
    requires Sane(b, codec) && Distinct(keys)
    ensures var r := FlushTaskArgBuffers(b, keys, codec);
            r.Some? ==> r.value.0.tools.Keys == b.tools.Keys && FlushedObjects(b, r.value.1, |UnsentAmong(b, keys)|)
    decreases |keys|
  {
    if keys == [] {
      assert UnsentAmong(b, keys) == {};
    } else {
      var k, rest := keys[0], keys[1..];
      assert keys == [k] + rest && k !in rest;
      if Unsent(b, k) {
        FlushTurn(b, keys, codec);
        FlushCounts(Emptied(b, k), rest, codec);
        UnsentFirst(b, k, rest);
      } else {
        FlushCounts(b, rest, codec);
        UnsentLater(b, k, rest);
      }
    }
  }

  lemma {:induction false} ToolDeltasAreSaid(b: Builder, results: seq<(int, string)>)
    requires forall p | p in results :: p.1 == "{}" && p.0 in b.tools
    ensures Transcript(ToolDeltas(b, results).1) == Inputs(EmptyObjects(|results|))
    decreases |results|
  {
    if results != [] {
      assert results[0] in results;
      var (b1, out) := EmitToolDelta(b, results[0].0, results[0].1);
      ToolDeltasAreSaid(b1, results[1..]);
      TranscriptOne(out[0]);
      TranscriptAppend(out, ToolDeltas(b1, results[1..]).1);
      assert EmptyObjects(|results|) == ["{}"] + EmptyObjects(|results| - 1);
      InputsAppend(["{}"], EmptyObjects(|results| - 1));
    }
  }

  // ----- the content of a whole response -----

  /** The upstream's chunks, all of them handled, and the parser's last word. */
  ghost function Body(chunks: seq<Chunk>, cfg: Config): seq<Said> {
    var (parser, fed) := Parsed(ThinkParser.FRESH, [], chunks);
    ChunksSay(ThinkParser.FRESH, [], [], chunks, cfg)
    + (HeldSays(parser, cfg) + ToolsSay(cfg.heuristic.flush(fed), cfg.codec))
  }

  ghost predicate HasTool(calls: seq<ToolDelta>) {
    exists k :: Opening(calls, k).Some?
  }

  /** A message without content, or with thoughts only, is given a space. */
  ghost function PaddedBody(chunks: seq<Chunk>, cfg: Config): seq<Said> {
    var body := Body(chunks, cfg);
    body + if OpenAIText.Bare(HasTool(CallsOf(chunks)), SpokenOf(body), ThoughtsOf(body)) then [Spoke(" ")] else []
  }

  lemma StartStands(start: Event, codec: Codec)
    requires start.MessageStart?
    ensures Stands(EMPTY, [start], [], true, codec)
  {
    NothingKnown(codec);
    EmptyMirrors(codec);
    RunOne(START, start);
    assert Introduced(EMPTY, [start], []);
  }

  /** What is known when the loop is over. */
  lemma LoopDone(start: Event, chunks: seq<Chunk>, cfg: Config) returns (calls: seq<ToolDelta>)
    requires start.MessageStart?
    ensures var r := After(chunks, cfg);
            && calls <= CallsOf(chunks) && (!r.raised ==> calls == CallsOf(chunks))
            && Stands(r.s.b, [start] + r.out, calls, !r.raised, cfg.codec)
            && (HasEmittedToolBlock(r.s.b) <==> HasTool(calls))
  {
    StartStands(start, cfg.codec);
    calls := LoopStands(FRESH, [start], [], chunks, cfg);
    AppendNone(calls);
    var b := After(chunks, cfg).s.b;
    if HasEmittedToolBlock(b) {
      var k :| k in b.tools && b.tools[k].started;
      assert ToolIntroduced(b, [start] + After(chunks, cfg).out, calls, k);
    }
    if k :| Opening(calls, k).Some? {
      assert ToolIntroduced(b, [start] + After(chunks, cfg).out, calls, k);
    }
  }

  lemma LoopSays(start: Event, chunks: seq<Chunk>, cfg: Config)
    requires start.MessageStart?
    ensures var r, handled := After(chunks, cfg), OpenAIText.Handled(FRESH, chunks, cfg);
            && ChunksSay(ThinkParser.FRESH, [], [], WithoutLastCalls(handled), cfg) <= Transcript(r.out)
            && Transcript(r.out) <= ChunksSay(ThinkParser.FRESH, [], [], handled, cfg)
            && (!r.raised ==>
                  handled == chunks && Transcript(r.out) == ChunksSay(ThinkParser.FRESH, [], [], chunks, cfg))
  {
    StartStands(start, cfg.codec);
    LoopIsSaid(FRESH, [start], [], chunks, cfg);
    OpenAIText.AllHandled(FRESH, chunks, cfg);
  }

  /** Everything up to the padding. */
  lemma BodyIsSaid(start: Event, chunks: seq<Chunk>, cfg: Config)
    requires start.MessageStart? && !After(chunks, cfg).raised
    ensures var r := After(chunks, cfg);
            && Transcript(r.out + BeforeFlush(r.s, cfg)) == PaddedBody(chunks, cfg)
  {
    var r := After(chunks, cfg);
    var s := r.s;
    var (b1, out1) := FlushParser(s, cfg);
    var (b2, out2) := HeuristicToolUses(b1, cfg.heuristic.flush(s.fed), cfg.codec);
    LoopSays(start, chunks, cfg);
    LoopParses(FRESH, chunks, cfg);
    FlushIsSaid(s, cfg);
    FoundToolsSay(b1, cfg.heuristic.flush(s.fed), cfg.codec);
    TranscriptAppend(out1, out2);
    TranscriptAppend(r.out, out1 + out2);
    UnpaddedChannels(chunks, cfg);
    var calls := LoopDone(start, chunks, cfg);
    OpenAIText.AfterLoop(chunks, cfg);
    PadIsSaid(b2);
    TranscriptAppend(r.out + (out1 + out2), Pad(b2).1);
    Assoc(r.out, out1 + out2, Pad(b2).1);
  }

  /** What the builder has recorded before padding is what has been said. */
  lemma UnpaddedChannels(chunks: seq<Chunk>, cfg: Config)
    requires !After(chunks, cfg).raised
    ensures var r := After(chunks, cfg); var (b1, out1) := FlushParser(r.s, cfg);
            var (b2, out2) := HeuristicToolUses(b1, cfg.heuristic.flush(r.s.fed), cfg.codec);
            var said := Transcript(r.out + (out1 + out2));
            SpokenOf(said) == Concat(b2.text) && ThoughtsOf(said) == Concat(b2.reasoning)
  {
    var r := After(chunks, cfg);
    var (b1, out1) := FlushParser(r.s, cfg);
    var (b2, out2) := HeuristicToolUses(b1, cfg.heuristic.flush(r.s.fed), cfg.codec);
    EmptyMirrors(cfg.codec);
    LoopReaches(START, FRESH, chunks, cfg);
    var c := Run(START, r.out).value;
    FlushParserReaches(c, r.s, cfg);
    HeuristicToolsReach(Run(c, out1).value, b1, cfg.heuristic.flush(r.s.fed), cfg.codec);
    Chain(c, r.s.b, out1, b1, out2, b2);
    Chain(START, EMPTY, r.out, r.s.b, out1 + out2, b2);
    ChannelsAreDeltas(r.out + (out1 + out2));
    AppendNone(Concat(b2.text));
    AppendNone(Concat(b2.reasoning));
  }

  // ----- the last flush -----

  lemma FlushedIsSaid(b: Builder, calls: seq<ToolDelta>, codec: Codec)
    requires Ordered(b) && Sane(b, codec) && Knows(b, calls, true, codec)
    ensures var r := FlushTaskArgBuffers(b, b.order, codec);
            r.Some? ==>
              Transcript(ToolDeltas(r.value.0, r.value.1).1) == Inputs(EmptyObjects(|AllUnfinished(calls, codec)|))
  {
    FlushCounts(b, b.order, codec);
    assert UnsentAmong(b, b.order) == AllUnfinished(calls, codec) by {
      forall k ensures k in UnsentAmong(b, b.order) <==> k in AllUnfinished(calls, codec) {
        UnsentIffUnfinished(b, calls, k, codec);
      }
    }
    var r := FlushTaskArgBuffers(b, b.order, codec);
    if r.Some? {
      ToolDeltasAreSaid(r.value.0, r.value.1);
    }
  }

  /** Everything before the closing stops. */
  ghost function Content(chunks: seq<Chunk>, cfg: Config): seq<Said> {
    var calls := CallsOf(chunks);
    PaddedBody(chunks, cfg)
    + if CutByFlush(calls, cfg.codec) then [] else Inputs(EmptyObjects(|AllUnfinished(calls, cfg.codec)|))
  }

  /** The final flush raises. */
  ghost predicate CutByFlush(calls: seq<ToolDelta>, codec: Codec) {
    exists k :: OpenAIEndings.TaskEscapes(calls, k, codec)
  }

  lemma AllIsSaid(start: Event, chunks: seq<Chunk>, cfg: Config)
    requires start.MessageStart? && !After(chunks, cfg).raised
    ensures var r := After(chunks, cfg); var q := BeforeClose(r.s, cfg);
            && Transcript(r.out + q.out) == Content(chunks, cfg)
            && (q.raised <==> CutByFlush(CallsOf(chunks), cfg.codec))
  {
    var r, codec := After(chunks, cfg), cfg.codec;
    var calls := LoopDone(start, chunks, cfg);
    EmptyMirrors(codec);
    LoopReaches(START, FRESH, chunks, cfg);
    var c := Run(START, r.out).value;
    var b3 := Padded(r.s, cfg);
    PaddedReaches(c, r.s, cfg);
    BeforeCloseReaches(c, r.s, cfg);
    OpenAIEndings.FlushRaisesIff(chunks, cfg);
    SameTools(r.s.b, b3, calls, codec);
    FlushedIsSaid(b3, calls, codec);
    BodyIsSaid(start, chunks, cfg);
    AppendNone(PaddedBody(chunks, cfg));
    var f := FlushTaskArgBuffers(b3, b3.order, codec);
    if f.Some? {
      var more := ToolDeltas(f.value.0, f.value.1).1;
      assert BeforeClose(r.s, cfg).out == BeforeFlush(r.s, cfg) + more;
      Assoc(r.out, BeforeFlush(r.s, cfg), more);
      TranscriptAppend(r.out + BeforeFlush(r.s, cfg), more);
    } else {
      assert BeforeClose(r.s, cfg).out == BeforeFlush(r.s, cfg);
    }
  }

  // ----- the estimate -----

  /** The arguments that a native tool has been sent in the end. */
  ghost function ArgsSent(calls: seq<ToolDelta>, k: int, codec: Codec): string {
    Concat(Given(calls, k, codec) + if Unfinished(calls, k, codec) then ["{}"] else [])
  }

  /** A tool costs its name, its arguments and 15; None if the tokenizer raises. */
  ghost function ToolCost(calls: seq<ToolDelta>, k: int, codec: Codec, encode: string -> Option<nat>): Option<nat> {
    CostOf(encode(Named(calls, k)), encode(ArgsSent(calls, k, codec)))
  }

  function CostOf(name: Option<nat>, args: Option<nat>): Option<nat> {
    if name.None? || args.None? then None else Some(name.value + args.value + 15)
  }

  lemma TokensAreCost(t: ToolCall, encode: string -> Option<nat>)
    ensures ToolTokens(t, encode) == CostOf(encode(t.name), encode(Concat(t.contents)))
  {
  }

  /** The sum; None if a part is None. */
  function SumIf(parts: seq<Option<nat>>): Option<nat> {
    if parts == [] then Some(0) else PlusIf(SumIf(parts[..|parts| - 1]), parts[|parts| - 1])
  }

  ghost function ToolCosts(keys: seq<int>, calls: seq<ToolDelta>, codec: Codec, encode: string -> Option<nat>)
    : seq<Option<nat>>
  {
    seq(|keys|, i requires 0 <= i < |keys| => ToolCost(calls, keys[i], codec, encode))
  }

  /** How many of these tools have a block. */
  ghost function BlockCount(keys: seq<int>, calls: seq<ToolDelta>): nat {
    if keys == [] then 0
    else BlockCount(keys[..|keys| - 1], calls) + if Opening(calls, keys[|keys| - 1]).Some? then 1 else 0
  }

  /** These are the native tools, each once. */
  ghost predicate Lists(keys: seq<int>, calls: seq<ToolDelta>) {
    Distinct(keys) && forall k :: k in keys <==> k in Known(calls)
  }

  /**
   * The tokens of a message, whose native tools are `keys`: without a tokenizer a quarter of the
   * characters and 50 for each native tool that has a block; with one the tokens of all texts, and 4
   * for each block.
   */
  ghost function Estimate(keys: seq<int>, calls: seq<ToolDelta>, text: string, thoughts: string, codec: Codec,
                          encoder: Encoder): Option<nat>
  {
    match encoder
    case Missing => Some(|text| / 4 + |thoughts| / 4 + 50 * BlockCount(keys, calls))
    case Encoding(encode) =>
      Total(text, thoughts, SumIf(ToolCosts(keys, calls, codec, encode)), BlockCount(keys, calls), encode)
  }

  function Total(text: string, thoughts: string, tools: Option<nat>, blocks: nat, encode: string -> Option<nat>)
    : Option<nat>
  {
    if encode(text).None? || encode(thoughts).None? || tools.None? then None
    else
      Some(encode(text).value + encode(thoughts).value + tools.value
           + 4 * (blocks + (if text == "" then 0 else 1) + (if thoughts == "" then 0 else 1)))
  }

  /** The builder's tools are what the fragments say, once the buffers have been flushed. */
  ghost predicate Closes(b: Builder, calls: seq<ToolDelta>, codec: Codec) {
    && Lists(b.order, calls) && b.tools.Keys == Known(calls)
    && forall k | k in b.tools :: ToolCloses(b.tools[k], calls, k, codec)
  }

  ghost predicate ToolCloses(t: ToolCall, calls: seq<ToolDelta>, k: int, codec: Codec) {
    && t.name == Named(calls, k) && Concat(t.contents) == ArgsSent(calls, k, codec)
    && (t.started <==> Opening(calls, k).Some?)
  }

  lemma {:induction false} ToolTokensAreSum(tools: map<int, ToolCall>, keys: seq<int>, costs: seq<Option<nat>>,
                                            encode: string -> Option<nat>)
    requires |costs| == |keys|
    requires forall i | 0 <= i < |keys| :: keys[i] in tools && ToolTokens(tools[keys[i]], encode) == costs[i]
    ensures AllToolTokens(tools, keys, encode) == SumIf(costs)
    decreases |keys|
  {
    if keys != [] {
      ToolTokensAreSum(tools, keys[..|keys| - 1], costs[..|keys| - 1], encode);
    }
  }

  lemma ToolTokensAreCost(b: Builder, calls: seq<ToolDelta>, codec: Codec, encode: string -> Option<nat>)
    requires Closes(b, calls, codec)
    ensures AllToolTokens(b.tools, b.order, encode) == SumIf(ToolCosts(b.order, calls, codec, encode))
  {
    var costs := ToolCosts(b.order, calls, codec, encode);
    forall i | 0 <= i < |b.order|
      ensures b.order[i] in b.tools && ToolTokens(b.tools[b.order[i]], encode) == costs[i]
    {
      assert b.order[i] in b.order;
      OneToolCost(b, b.order[i], calls, codec, encode);
    }
    ToolTokensAreSum(b.tools, b.order, costs, encode);
  }

  lemma OneToolCost(b: Builder, k: int, calls: seq<ToolDelta>, codec: Codec, encode: string -> Option<nat>)
    requires Closes(b, calls, codec) && k in b.tools
    ensures ToolTokens(b.tools[k], encode) == ToolCost(calls, k, codec, encode)
  {
    assert ToolCloses(b.tools[k], calls, k, codec);
    TokensAreCost(b.tools[k], encode);
  }

  lemma {:induction false} StartedAreBlocks(b: Builder, keys: seq<int>, calls: seq<ToolDelta>, codec: Codec)
    requires Closes(b, calls, codec) && forall k | k in keys :: k in b.tools
    ensures StartedCount(b.tools, keys) == BlockCount(keys, calls)
  {
    if keys != [] {
      var last := keys[|keys| - 1];
      assert last in keys;
      StartedAreBlocks(b, keys[..|keys| - 1], calls, codec);
      assert ToolCloses(b.tools[last], calls, last, codec);
    }
  }

  lemma EstimateIsExact(b: Builder, calls: seq<ToolDelta>, codec: Codec, encoder: Encoder)
    requires Closes(b, calls, codec)
    ensures EstimateOutputTokens(b, encoder) ==
              Estimate(b.order, calls, Concat(b.text), Concat(b.reasoning), codec, encoder)
  {
    StartedAreBlocks(b, b.order, calls, codec);
    if encoder.Encoding? {
      ToolTokensAreCost(b, calls, codec, encoder.encode);
      var tools := SumIf(ToolCosts(b.order, calls, codec, encoder.encode));
      TotalIs(b, encoder.encode, tools, BlockCount(b.order, calls));
    }
  }

  lemma TotalIs(b: Builder, encode: string -> Option<nat>, tools: Option<nat>, count: nat)
    requires AllToolTokens(b.tools, b.order, encode) == tools && StartedCount(b.tools, b.order) == count
    ensures EstimateOutputTokens(b, Encoding(encode)) ==
              Total(Concat(b.text), Concat(b.reasoning), tools, count, encode)
  {
  }

  // ----- what is left of the tools at the end -----

  /** Names and blocks stay. */
  predicate SameNames(b: Builder, b': Builder) {
    && b'.order == b.order && b'.tools.Keys == b.tools.Keys
    && forall k | k in b.tools :: b'.tools[k].name == b.tools[k].name && b'.tools[k].started == b.tools[k].started
  }

  lemma {:induction false} FlushKeepsNames(b: Builder, keys: seq<int>, codec: Codec)
    ensures var r := FlushTaskArgBuffers(b, keys, codec); r.Some? ==> SameNames(b, r.value.0)
    decreases |keys|
  {
    if keys != [] {
      var k := keys[0];
      if k in b.tools && NeedsFlush(b.tools[k]) {
        FlushKeepsNames(b.(tools := b.tools[k := b.tools[k].(taskArgsEmitted := true, taskArgBuffer := "")]), keys[1..],
                        codec);
      } else {
        FlushKeepsNames(b, keys[1..], codec);
      }
    }
  }

  lemma {:induction false} DeltasKeepNames(b: Builder, results: seq<(int, string)>)
    ensures SameNames(b, ToolDeltas(b, results).0)
    decreases |results|
  {
    if results != [] && results[0].0 in b.tools {
      DeltasKeepNames(EmitToolDelta(b, results[0].0, results[0].1).0, results[1..]);
    }
  }

  lemma ContentsAtTheEnd(start: Event, chunks: seq<Chunk>, cfg: Config, calls: seq<ToolDelta>, k: int)
    requires start.MessageStart? && !After(chunks, cfg).raised && calls == CallsOf(chunks)
    requires var b := After(chunks, cfg).s.b;
             Knows(b, calls, true, cfg.codec) && Introduced(b, [start] + After(chunks, cfg).out, calls)
    requires !BeforeClose(After(chunks, cfg).s, cfg).raised && k in After(chunks, cfg).s.b.tools
    ensures var t, t' := After(chunks, cfg).s.b.tools[k], ToolOr(BeforeClose(After(chunks, cfg).s, cfg).b, k);
            && Concat(t'.contents) == ArgsSent(calls, k, cfg.codec)
            && t.name == Named(calls, k) && (t.started <==> Opening(calls, k).Some?)
  {
    var s := After(chunks, cfg).s;
    EmptyMirrors(cfg.codec);
    LoopReaches(START, FRESH, chunks, cfg);
    BeforeCloseTold(Run(START, After(chunks, cfg).out).value, s, cfg, k);
    assert ToldOf(s.b, calls, k, true, cfg.codec) && ToolIntroduced(s.b, [start] + After(chunks, cfg).out, calls, k);
    UnsentIffUnfinished(s.b, calls, k, cfg.codec);
    ContentsGiven(s.b, calls, k, true, cfg.codec);
  }

  lemma ClosesAtTheEnd(start: Event, chunks: seq<Chunk>, cfg: Config)
    requires start.MessageStart? && !After(chunks, cfg).raised && !BeforeClose(After(chunks, cfg).s, cfg).raised
    ensures Closes(BeforeClose(After(chunks, cfg).s, cfg).b, CallsOf(chunks), cfg.codec)
  {
    var s, q, calls := After(chunks, cfg).s, BeforeClose(After(chunks, cfg).s, cfg), CallsOf(chunks);
    var done := LoopDone(start, chunks, cfg);
    EmptyMirrors(cfg.codec);
    LoopReaches(START, FRESH, chunks, cfg);
    var c := Run(START, After(chunks, cfg).out).value;
    PaddedReaches(c, s, cfg);
    BeforeCloseReaches(c, s, cfg);
    var b3 := Padded(s, cfg);
    FlushKeepsNames(b3, b3.order, cfg.codec);
    var f := FlushTaskArgBuffers(b3, b3.order, cfg.codec);
    DeltasKeepNames(f.value.0, f.value.1);
    assert SameNames(b3, q.b);
    forall k | k in q.b.tools ensures ToolCloses(q.b.tools[k], calls, k, cfg.codec)
    {
      ContentsAtTheEnd(start, chunks, cfg, calls, k);
    }
  }

  // ----- whole responses -----

  lemma {:induction false} ToolStopsAreSilent(tools: map<int, ToolCall>, keys: seq<int>)
    ensures Silent(ToolStops(tools, keys))
  {
    if keys != [] {
      ToolStopsAreSilent(tools, keys[1..]);
    }
  }

  lemma CloseIsSilent(b: Builder)
    ensures Transcript(CloseAllBlocks(b).1) == []
  {
    var b1 := CloseContentBlocks(b).0;
    ToolStopsAreSilent(b1.tools, b1.order);
    SilentSaysNothing(CloseAllBlocks(b).1);
  }

  lemma TailIsSaid(reason: string, tokens: int)
    ensures Transcript(Tail(reason, tokens)) == [Ended(reason, tokens), Stopped]
  {
    TranscriptOne(MessageDelta(reason, tokens));
    TranscriptOne(MessageStop);
    TranscriptAppend([MessageDelta(reason, tokens)], [MessageStop]);
    assert Tail(reason, tokens) == [MessageDelta(reason, tokens)] + [MessageStop];
  }

  /** The stop reason for the last finish reason that is not empty, if there is one. */
  ghost predicate ReasonFor(chunks: seq<Chunk>, reason: string) {
    && (NoFinish(chunks, 0) ==> reason == "end_turn")
    && forall k | 0 <= k < |chunks| && Finishes(chunks[k]) && NoFinish(chunks, k + 1) ::
         reason == (if chunks[k].finishReason == Some("tool_calls") then "tool_use"
                    else if chunks[k].finishReason == Some("length") then "max_tokens"
                    else "end_turn")
  }

  predicate Finishes(chunk: Chunk) {
    chunk.Turn? && chunk.finishReason.Some? && chunk.finishReason.value != ""
  }

  predicate NoFinish(chunks: seq<Chunk>, from: nat) {
    forall j | from <= j < |chunks| :: !Finishes(chunks[j])
  }

  lemma {:induction false} FinishReasonIsLast(chunks: seq<Chunk>)
    ensures NoFinish(chunks, 0) ==> FinishReason(chunks).None?
    ensures forall k | 0 <= k < |chunks| && Finishes(chunks[k]) && NoFinish(chunks, k + 1) ::
              FinishReason(chunks) == chunks[k].finishReason
  {
    if chunks != [] {
      var init, last := chunks[..|chunks| - 1], chunks[|chunks| - 1];
      assert forall j | 0 <= j < |init| :: init[j] == chunks[j];
      FinishReasonIsLast(init);
    }
  }

  lemma ReasonIsRight(chunks: seq<Chunk>)
    ensures ReasonFor(chunks, MapStopReason(FinishReason(chunks)))
  {
    FinishReasonIsLast(chunks);
  }

  /** The count of the last usage that the chunks carry, if that is an integer. */
  ghost predicate UsageIs(chunks: seq<Chunk>, usage: Option<int>) {
    && (NoUsage(chunks, 0) ==> usage == None)
    && forall k | 0 <= k < |chunks| && chunks[k].usage.Some? && NoUsage(chunks, k + 1) :: usage == chunks[k].usage.value
  }

  predicate NoUsage(chunks: seq<Chunk>, from: nat) {
    forall j | from <= j < |chunks| :: chunks[j].usage.None?
  }

  lemma {:induction false} UsageIsLast(chunks: seq<Chunk>)
    ensures UsageIs(chunks, Usage(chunks))
  {
    if chunks != [] {
      var init, last := chunks[..|chunks| - 1], chunks[|chunks| - 1];
      UsageIsLast(init);
      if last.usage.None? {
        UsageStays(init, last, Usage(init));
        assert chunks == init + [last];
      }
    }
  }

  lemma UsageStays(init: seq<Chunk>, last: Chunk, usage: Option<int>)
    requires last.usage.None? && UsageIs(init, usage)
    ensures UsageIs(init + [last], usage)
  {
    var chunks := init + [last];
    assert forall j | 0 <= j < |init| :: init[j] == chunks[j];
    assert forall k | 0 <= k <= |init| :: NoUsage(chunks, k) ==> NoUsage(init, k);
  }

  /** The count that is reported: that of the last usage, or the estimate of what has been said. */
  ghost predicate CountIs(chunks: seq<Chunk>, tools: seq<int>, content: seq<Said>, tokens: Option<int>, cfg: Config) {
    var estimate := Estimate(tools, CallsOf(chunks), SpokenOf(content), ThoughtsOf(content), cfg.codec, cfg.encoder);
    exists usage: Option<int> :: UsageIs(chunks, usage) && tokens == Counted(usage, estimate)
  }

  function Counted(usage: Option<int>, estimate: Option<nat>): Option<int> {
    if usage.Some? then usage else if estimate.Some? then Some(estimate.value) else None
  }

  lemma EndIsSaid(start: Event, chunks: seq<Chunk>, cfg: Config) returns (tools: seq<int>, tokens: Option<int>)
    requires start.MessageStart? && !After(chunks, cfg).raised && !BeforeClose(After(chunks, cfg).s, cfg).raised
    ensures var q := BeforeClose(After(chunks, cfg).s, cfg);
            && Lists(tools, CallsOf(chunks)) && CountIs(chunks, tools, Content(chunks, cfg), tokens, cfg)
            && tokens == Tokens(CloseAllBlocks(q.b).0, chunks, cfg)
            && Transcript(Ending(q.b, chunks, cfg)) ==
                 if tokens.None? then [] else [Ended(MapStopReason(FinishReason(chunks)), tokens.value), Stopped]
  {
    var q := BeforeClose(After(chunks, cfg).s, cfg);
    tools, tokens := q.b.order, Tokens(CloseAllBlocks(q.b).0, chunks, cfg);
    ClosesAtTheEnd(start, chunks, cfg);
    EstimateIsExact(q.b, CallsOf(chunks), cfg.codec, cfg.encoder);
    EndChannels(start, chunks, cfg);
    CountedSo(q.b, CallsOf(chunks), chunks, Content(chunks, cfg), cfg);
    EndingIsSaid(q.b, chunks, cfg);
  }

  lemma CountedSo(b: Builder, calls: seq<ToolDelta>, chunks: seq<Chunk>, content: seq<Said>, cfg: Config)
    requires calls == CallsOf(chunks)
    requires SpokenOf(content) == Concat(b.text) && ThoughtsOf(content) == Concat(b.reasoning)
    requires EstimateOutputTokens(b, cfg.encoder) ==
               Estimate(b.order, calls, Concat(b.text), Concat(b.reasoning), cfg.codec, cfg.encoder)
    ensures CountIs(chunks, b.order, content, Tokens(CloseAllBlocks(b).0, chunks, cfg), cfg)
  {
    UsageIsLast(chunks);
    TokensAreCounted(b, chunks, cfg);
  }

  lemma TokensAreCounted(b: Builder, chunks: seq<Chunk>, cfg: Config)
    ensures Tokens(CloseAllBlocks(b).0, chunks, cfg) == Counted(Usage(chunks), EstimateOutputTokens(b, cfg.encoder))
  {
    assert EstimateOutputTokens(CloseAllBlocks(b).0, cfg.encoder) == EstimateOutputTokens(b, cfg.encoder);
  }

  lemma EndingIsSaid(b: Builder, chunks: seq<Chunk>, cfg: Config)
    ensures var tokens := Tokens(CloseAllBlocks(b).0, chunks, cfg);
            Transcript(Ending(b, chunks, cfg)) ==
              if tokens.None? then [] else [Ended(MapStopReason(FinishReason(chunks)), tokens.value), Stopped]
  {
    var (b1, out) := CloseAllBlocks(b);
    var tokens := Tokens(b1, chunks, cfg);
    CloseIsSilent(b);
    if tokens.Some? {
      var reason := MapStopReason(FinishReason(chunks));
      TailIsSaid(reason, tokens.value);
      TranscriptAppend(out, Tail(reason, tokens.value));
      AppendNone([Ended(reason, tokens.value), Stopped]);
    }
  }

  /** What the builder has recorded in the end is what has been said. */
  lemma EndChannels(start: Event, chunks: seq<Chunk>, cfg: Config)
    requires start.MessageStart? && !After(chunks, cfg).raised
    ensures var b := BeforeClose(After(chunks, cfg).s, cfg).b;
            SpokenOf(Content(chunks, cfg)) == Concat(b.text) && ThoughtsOf(Content(chunks, cfg)) == Concat(b.reasoning)
  {
    var r := After(chunks, cfg);
    var q := BeforeClose(r.s, cfg);
    AllIsSaid(start, chunks, cfg);
    EmptyMirrors(cfg.codec);
    LoopReaches(START, FRESH, chunks, cfg);
    BeforeCloseReaches(Run(START, r.out).value, r.s, cfg);
    Chain(START, EMPTY, r.out, r.s.b, q.out, q.b);
    ChannelsAreDeltas(r.out + q.out);
    AppendNone(Concat(q.b.text));
    AppendNone(Concat(q.b.reasoning));
  }

  /**
   * Everything that a response says whose upstream does not fail: its content, in the order of the
   * chunks; then, unless the flush or the estimate raises, the reason of the last finish and the
   * count of tokens.
   */
  lemma ResponseIsSaid(id: string, model: string, chunks: seq<Chunk>, message: string, cfg: Config)
    returns (tools: seq<int>, reason: string, tokens: Option<int>)
    requires !After(chunks, cfg).raised
    ensures ReasonFor(chunks, reason)
    ensures Lists(tools, CallsOf(chunks)) && CountIs(chunks, tools, Content(chunks, cfg), tokens, cfg)
    ensures Transcript(Response(MessageStart(id, model), chunks, false, message, cfg)) ==
              [Begun(id, model)] + Content(chunks, cfg)
              + if CutByFlush(CallsOf(chunks), cfg.codec) || tokens.None? then []
                else [Ended(reason, tokens.value), Stopped]
  {
    var start, r := MessageStart(id, model), After(chunks, cfg);
    var q := BeforeClose(r.s, cfg);
    var content := [Begun(id, model)] + Content(chunks, cfg);
    reason := MapStopReason(FinishReason(chunks));
    ReasonIsRight(chunks);
    AllIsSaid(start, chunks, cfg);
    ResponseShape(start, chunks, false, message, cfg);
    TranscriptOne(start);
    TranscriptAppend([start], r.out + q.out);
    Assoc([start], r.out, q.out);
    AppendNone([start] + (r.out + q.out));
    AppendNone(content);
    if q.raised {
      tools, tokens := CutTools(start, chunks, cfg);
    } else {
      tools, tokens := EndIsSaid(start, chunks, cfg);
      TranscriptAppend([start] + (r.out + q.out), Ending(q.b, chunks, cfg));
    }
  }

  lemma CutTools(start: Event, chunks: seq<Chunk>, cfg: Config) returns (tools: seq<int>, tokens: Option<int>)
    requires start.MessageStart? && !After(chunks, cfg).raised
    ensures Lists(tools, CallsOf(chunks)) && CountIs(chunks, tools, Content(chunks, cfg), tokens, cfg)
  {
    var calls := LoopDone(start, chunks, cfg);
    var content := Content(chunks, cfg);
    tools := After(chunks, cfg).s.b.order;
    UsageIsLast(chunks);
    tokens := Counted(Usage(chunks), Estimate(tools, calls, SpokenOf(content), ThoughtsOf(content), cfg.codec,
                                              cfg.encoder));
  }

  /**
   * Everything that a response says that fails, after its last chunk or inside one: what its chunks
   * said up to the failure, the message of the failure, as an error event if a native tool has a
   * block and as a text otherwise, and a plain ending.
   */
  lemma FailureIsSaid(id: string, model: string, chunks: seq<Chunk>, fails: bool, message: string, cfg: Config)
    returns (said: seq<Said>, calls: seq<ToolDelta>)
    requires fails || After(chunks, cfg).raised
    ensures calls <= CallsOf(chunks) && (!After(chunks, cfg).raised ==> calls == CallsOf(chunks))
    ensures var handled := OpenAIText.Handled(FRESH, chunks, cfg);
            && ChunksSay(ThinkParser.FRESH, [], [], WithoutLastCalls(handled), cfg) <= said
            && said <= ChunksSay(ThinkParser.FRESH, [], [], handled, cfg)
            && (!After(chunks, cfg).raised ==> said == ChunksSay(ThinkParser.FRESH, [], [], chunks, cfg))
    ensures Transcript(Response(MessageStart(id, model), chunks, fails, message, cfg)) ==
              [Begun(id, model)] + said
              + [if HasTool(calls) then Failed(message) else Spoke(message), Ended("end_turn", 1), Stopped]
  {
    var start, r := MessageStart(id, model), After(chunks, cfg);
    said := Transcript(r.out);
    LoopSays(start, chunks, cfg);
    calls := LoopDone(start, chunks, cfg);
    ResponseShape(start, chunks, fails, message, cfg);
    TranscriptOne(start);
    TranscriptAppend([start], r.out);
    TranscriptAppend([start] + r.out, FailureEnding(r.s.b, message));
    FailureEndIsSaid(r.s.b, message);
  }

  lemma FailureEndIsSaid(b: Builder, message: string)
    ensures Transcript(FailureEnding(b, message)) ==
              [if HasEmittedToolBlock(b) then Failed(message) else Spoke(message), Ended("end_turn", 1), Stopped]
  {
    var (b1, out) := CloseAllBlocks(b);
    CloseIsSilent(b);
    TailIsSaid("end_turn", 1);
    ToldIsSaid(b1, message);
    SilentThenTwo(out, if HasEmittedToolBlock(b1) then [Error(message)] else EmitError(b1, message).1,
                  Tail("end_turn", 1));
  }

  lemma ToldIsSaid(b: Builder, message: string)
    ensures Transcript(if HasEmittedToolBlock(b) then [Error(message)] else EmitError(b, message).1) ==
              [if HasEmittedToolBlock(b) then Failed(message) else Spoke(message)]
  {
    TranscriptOne(Error(message));
    ErrorBlockIsSaid(b.nextIndex, message);
  }

  lemma SilentThenTwo(out: seq<Event>, told: seq<Event>, tail: seq<Event>)
    requires Transcript(out) == []
    ensures Transcript(out + told + tail) == Transcript(told) + Transcript(tail)
  {
    TranscriptAppend(out, told);
    TranscriptAppend(out + told, tail);
    AppendNone(Transcript(told));
  }

  lemma ErrorBlockIsSaid(n: int, message: string)
    ensures Transcript(ErrorBlock(n, message)) == [Spoke(message)]
  {
    var s, t, u := BlockStart(n, TEXT_BLOCK), BlockDelta(n, Delta("text_delta", message)), BlockStop(n);
    assert ErrorBlock(n, message) == [s] + [t] + [u];
    TranscriptOne(s);
    TranscriptOne(t);
    TranscriptOne(u);
    TranscriptAppend([s], [t]);
    TranscriptAppend([s] + [t], [u]);
    AppendNone([Spoke(message)]);
  }

  /**
   * How a response ends that is not cut off: with a message delta and the message stop. A failing
   * one reports "end_turn" and 1, any other the stop reason for its last finish reason and the count
   * of its last usage, or the estimate.
   */
  lemma EndIsReported(id: string, model: string, chunks: seq<Chunk>, fails: bool, message: string, cfg: Config)
    returns (reason: string, count: int, tools: seq<int>)
    requires !EndRaises(chunks, fails, cfg)
    ensures EndsWith(Response(MessageStart(id, model), chunks, fails, message, cfg), reason, count)
    ensures if fails || After(chunks, cfg).raised then reason == "end_turn" && count == 1
            else
              && ReasonFor(chunks, reason)
              && Lists(tools, CallsOf(chunks)) && CountIs(chunks, tools, Content(chunks, cfg), Some(count), cfg)
  {
    var start := MessageStart(id, model);
    if fails || After(chunks, cfg).raised {
      reason, count, tools := "end_turn", 1, [];
      FailureTail(start, chunks, fails, message, cfg);
    } else {
      tools, count := NormalTail(start, chunks, message, cfg);
      reason := MapStopReason(FinishReason(chunks));
      ReasonIsRight(chunks);
    }
  }

  predicate EndsWith(out: seq<Event>, reason: string, count: int) {
    |out| >= 2 && out[|out| - 2] == MessageDelta(reason, count) && out[|out| - 1] == MessageStop
  }

  lemma TailEnds(before: seq<Event>, reason: string, count: int)
    ensures EndsWith(before + Tail(reason, count), reason, count)
  {
  }

  lemma FailureTail(start: Event, chunks: seq<Chunk>, fails: bool, message: string, cfg: Config)
    requires fails || After(chunks, cfg).raised
    ensures EndsWith(Response(start, chunks, fails, message, cfg), "end_turn", 1)
  {
    var r := After(chunks, cfg);
    ResponseShape(start, chunks, fails, message, cfg);
    var (b1, closes) := CloseAllBlocks(r.s.b);
    var told := closes + if HasEmittedToolBlock(b1) then [Error(message)] else EmitError(b1, message).1;
    assert FailureEnding(r.s.b, message) == told + Tail("end_turn", 1);
    Assoc([start] + r.out, told, Tail("end_turn", 1));
    TailEnds([start] + r.out + told, "end_turn", 1);
  }

  lemma NormalTail(start: Event, chunks: seq<Chunk>, message: string, cfg: Config) returns (tools: seq<int>, count: int)
    requires start.MessageStart? && !After(chunks, cfg).raised && !EndRaises(chunks, false, cfg)
    ensures EndsWith(Response(start, chunks, false, message, cfg), MapStopReason(FinishReason(chunks)), count)
    ensures Lists(tools, CallsOf(chunks)) && CountIs(chunks, tools, Content(chunks, cfg), Some(count), cfg)
  {
    var r := After(chunks, cfg);
    EmptyMirrors(cfg.codec);
    LoopReaches(START, FRESH, chunks, cfg);
    BeforeCloseReaches(Run(START, r.out).value, r.s, cfg);
    var q := BeforeClose(r.s, cfg);
    EndingShape(Run(Run(START, r.out).value, q.out).value, q.b, chunks, cfg);
    var tokens;
    tools, tokens := EndIsSaid(start, chunks, cfg);
    count := tokens.value;
    ResponseShape(start, chunks, false, message, cfg);
    var reason, closes := MapStopReason(FinishReason(chunks)), CloseAllBlocks(q.b).1;
    Assoc([start] + r.out + q.out, closes, Tail(reason, count));
    TailEnds([start] + r.out + q.out + closes, reason, count);
  }
}
