/**
 * Text is conserved: the textual tool parser is fed the text of the upstream content without its
 * think tags, the text deltas of a response are what that parser lets pass, and without reasoning
 * fields the thinking deltas are what the tags enclose.
 */
module OpenAIText {
  import opened Text
  import opened StreamContract
  import opened SseBuilder
  import opened OpenAIStream
  import opened OpenAIContract
  import ThinkParser

  /** What the textual tool parser lets pass of the parts that it is fed one after the other. */
  ghost function Filtered(h: Heuristic, fed: seq<string>): string
    decreases |fed|
  {
    if fed == [] then "" else Filtered(h, fed[..|fed| - 1]) + h.feed(fed).0
  }

  lemma FilteredSnoc(h: Heuristic, fed: seq<string>, part: string)
    ensures Filtered(h, fed + [part]) == Filtered(h, fed) + h.feed(fed + [part]).0
  {
    assert (fed + [part])[..|fed|] == fed;
  }

  /** The characters of one kind. */
  function Only(labels: seq<ThinkParser.Labelled>, kind: ThinkParser.Kind): string {
    if labels == [] then ""
    else (if labels[0].kind == kind then [labels[0].c] else "") + Only(labels[1..], kind)
  }

  lemma {:induction false} OnlyAppend(a: seq<ThinkParser.Labelled>, b: seq<ThinkParser.Labelled>,
                                      kind: ThinkParser.Kind)
    ensures Only(a + b, kind) == Only(a, kind) + Only(b, kind)
  {
    if a == [] {
      AppendNone(b);
      AppendNone(Only(b, kind));
    } else {
      AppendTail(a, b);
      OnlyAppend(a[1..], b, kind);
      Assoc(if a[0].kind == kind then [a[0].c] else "", Only(a[1..], kind), Only(b, kind));
    }
  }

  lemma {:induction false} OnlyLabel(s: string, made: ThinkParser.Kind, kind: ThinkParser.Kind)
    ensures Only(ThinkParser.Label(s, made), kind) == if made == kind then s else ""
    decreases |s|
  {
    if s != "" {
      assert ThinkParser.Label(s, made)[1..] == ThinkParser.Label(s[1..], made);
      OnlyLabel(s[1..], made, kind);
      assert s == [s[0]] + s[1..];
    }
  }

  function Contents(chunks: seq<Chunk>): seq<string> {
    if chunks == [] then []
    else (if chunks[0].Turn? then [chunks[0].content] else []) + Contents(chunks[1..])
  }

  ghost predicate NoReasoning(chunks: seq<Chunk>) {
    forall chunk | chunk in chunks :: chunk.Turn? ==> chunk.reasoning == ""
  }

  /** The reading of everything that the upstream said. */
  function Reading(chunks: seq<Chunk>): seq<ThinkParser.Labelled> {
    ThinkParser.Labelling(Concat(Contents(chunks)), false)
  }

  // ----- one channel -----

  /** What the builder has recorded as sent: text, or thinking. */
  function Channel(b: Builder, kind: ThinkParser.Kind): string {
    if kind.TEXT? then Concat(b.text) else Concat(b.reasoning)
  }

  /** What has come out of the think-tag parser: text that was fed on, or thinking that was sent. */
  function Passed(s: Stream, kind: ThinkParser.Kind): string {
    if kind.TEXT? then Concat(s.fed) else Concat(s.b.reasoning)
  }

  /** A channel carries its part of the labels, unless it is the thinking of a response that shows none. */
  function Shown(labels: seq<ThinkParser.Labelled>, kind: ThinkParser.Kind, cfg: Config): string {
    if kind.THINKING? && !cfg.thinking then "" else Only(labels, kind)
  }

  lemma ShownAppend(a: seq<ThinkParser.Labelled>, b: seq<ThinkParser.Labelled>, kind: ThinkParser.Kind, cfg: Config)
    ensures Shown(a + b, kind, cfg) == Shown(a, kind, cfg) + Shown(b, kind, cfg)
  {
    OnlyAppend(a, b, kind);
  }

  lemma SaidOrThought(b: Builder, s: string, kind: ThinkParser.Kind)
    ensures Channel(Say(b, s).0, kind) == if kind.TEXT? then Channel(b, kind) + s else Channel(b, kind)
    ensures Channel(Think(b, s).0, kind) == if kind.THINKING? then Channel(b, kind) + s else Channel(b, kind)
  {
    ConcatSnoc(b.text, s);
    ConcatSnoc(b.reasoning, s);
  }

  /** Text, reasoning and the indexes of their blocks stay; the blocks may be stopped. */
  predicate KeepsText(b: Builder, b': Builder) {
    && b'.text == b.text && b'.textIndex == b.textIndex && (b'.textStarted ==> b.textStarted)
    && b'.reasoning == b.reasoning && b'.thinkingIndex == b.thinkingIndex && (b'.thinkingStarted ==> b.thinkingStarted)
    && b'.tools == b.tools && b.nextIndex <= b'.nextIndex
  }

  /** Tools found in text leave text and reasoning alone. */
  lemma {:induction false} FoundToolsKeepText(b: Builder, tools: seq<ToolUse>, codec: Codec)
    ensures KeepsText(b, HeuristicToolUses(b, tools, codec).0)
    decreases |tools|
  {
    if tools != [] {
      FoundToolsKeepText(HeuristicToolUse(b, tools[0], codec).0, tools[1..], codec);
    }
  }

  lemma SayFilteredSays(b: Builder, filtered: string, tools: seq<ToolUse>, codec: Codec)
    ensures KeepsText(if filtered != "" then Say(b, filtered).0 else b, SayFiltered(b, filtered, tools, codec).0)
    ensures forall kind :: Channel(SayFiltered(b, filtered, tools, codec).0, kind) ==
              if kind.TEXT? then Channel(b, kind) + filtered else Channel(b, kind)
  {
    FoundToolsKeepText(if filtered != "" then Say(b, filtered).0 else b, tools, codec);
    SaidOrThought(b, filtered, ThinkParser.TEXT);
    SaidOrThought(b, filtered, ThinkParser.THINKING);
    AppendNone(Channel(b, ThinkParser.TEXT));
    forall kind ensures Channel(SayFiltered(b, filtered, tools, codec).0, kind) ==
                          if kind.TEXT? then Channel(b, kind) + filtered else Channel(b, kind) {
    }
  }

  lemma PartPassed(s: Stream, part: ThinkParser.Chunk, kind: ThinkParser.Kind, cfg: Config)
    ensures Passed(Part(s, part, cfg).0, kind) ==
              Passed(s, kind) + Shown(ThinkParser.Label(part.content, part.kind), kind, cfg)
    ensures Part(s, part, cfg).0.parser == s.parser
  {
    OnlyLabel(part.content, part.kind, kind);
    AppendNone(Passed(s, kind));
    if part.kind.TEXT? {
      var fed := s.fed + [part.content];
      SayFilteredSays(s.b, cfg.heuristic.feed(fed).0, cfg.heuristic.feed(fed).1, cfg.codec);
      assert Channel(Part(s, part, cfg).0.b, ThinkParser.THINKING) == Channel(s.b, ThinkParser.THINKING);
      ConcatSnoc(s.fed, part.content);
    } else {
      SaidOrThought(s.b, part.content, kind);
    }
  }

  lemma {:induction false} PartsPassed(s: Stream, parts: seq<ThinkParser.Chunk>, kind: ThinkParser.Kind, cfg: Config)
    ensures Passed(Parts(s, parts, cfg).0, kind) == Passed(s, kind) + Shown(ThinkParser.AllLabels(parts), kind, cfg)
    ensures Parts(s, parts, cfg).0.parser == s.parser
    decreases |parts|
  {
    if parts == [] {
      AppendNone(Passed(s, kind));
    } else {
      var s1 := Part(s, parts[0], cfg).0;
      PartPassed(s, parts[0], kind, cfg);
      PartsPassed(s1, parts[1..], kind, cfg);
      var first := ThinkParser.Label(parts[0].content, parts[0].kind);
      var rest := ThinkParser.AllLabels(parts[1..]);
      ShownAppend(first, rest, kind, cfg);
      Assoc(Passed(s, kind), Shown(first, kind, cfg), Shown(rest, kind, cfg));
    }
  }

  // ----- chunks -----

  /** What is still to come of one kind, given the parser's state and the text to come. */
  function Ahead(s: Stream, rest: string, kind: ThinkParser.Kind, cfg: Config): string {
    Shown(ThinkParser.Labelling(s.parser.buffer + rest, s.parser.inside), kind, cfg)
  }

  lemma ContentPassed(s: Stream, content: string, rest: string, kind: ThinkParser.Kind, cfg: Config)
    requires ThinkParser.Held(s.parser)
    ensures var s' := FeedContent(s, content, cfg).0;
            && ThinkParser.Held(s'.parser)
            && Passed(s, kind) + Ahead(s, content + rest, kind, cfg) == Passed(s', kind) + Ahead(s', rest, kind, cfg)
  {
    if content == "" {
      assert "" + rest == rest;
    } else {
      var (parser, parts) := ThinkParser.Feed(s.parser, content);
      var s1 := s.(parser := parser);
      ThinkParser.FeedOneCorrect(s.parser, content, rest, "");
      assert s.parser.buffer + (content + rest) + "" == s.parser.buffer + (content + rest);
      assert parser.buffer + rest + "" == parser.buffer + rest;
      PartsPassed(s1, parts, kind, cfg);
      var later := ThinkParser.Labelling(parser.buffer + rest, parser.inside);
      ShownAppend(ThinkParser.AllLabels(parts), later, kind, cfg);
      Assoc(Passed(s, kind), Shown(ThinkParser.AllLabels(parts), kind, cfg), Shown(later, kind, cfg));
    }
  }

  /** Native tool calls leave text and reasoning alone. */
  predicate SameChannels(b: Builder, b': Builder) {
    && b'.text == b.text && b'.textIndex == b.textIndex && b'.textStarted == b.textStarted
    && b'.reasoning == b.reasoning && b'.thinkingIndex == b.thinkingIndex && b'.thinkingStarted == b.thinkingStarted
  }

  lemma ArgKeepsChannels(b: Builder, k: int, args: string, codec: Codec)
    ensures SameChannels(b, EmitToolArgDelta(b, k, args, codec).b)
  {
  }

  lemma OpenedKeepsChannels(b: Builder, k: int, tc: ToolDelta, codec: Codec)
    ensures SameChannels(b, Opened(b, k, tc, codec).b)
  {
    var b1 := StartToolBlock(b, k, ResolvedId(b, k, tc), Strip(ToolOr(b, k).name)).0;
    var b2 := PutTool(b1, k, b1.tools[k].(preStartArgs := ""));
    ArgKeepsChannels(b2, k, b1.tools[k].preStartArgs, codec);
  }

  lemma ArguedKeepsChannels(b: Builder, k: int, name: string, args: string, codec: Codec)
    ensures SameChannels(b, Argued(b, k, name, args, codec).b)
  {
    ArgKeepsChannels(b, k, args, codec);
    ArgKeepsChannels(EnsureToolState(b, k), k, args, codec);
  }

  lemma CallKeepsChannels(b: Builder, tc: ToolDelta, codec: Codec)
    ensures SameChannels(b, ProcessToolCall(b, tc, codec).b)
  {
    var k := Resolve(b, tc);
    var b1 := Recorded(b, k, tc);
    assert SameChannels(b, b1);
    OpenedKeepsChannels(b1, k, tc, codec);
    var r := Opened(b1, k, tc, codec);
    ArguedKeepsChannels(r.b, k, ToolOr(b1, k).name, tc.arguments, codec);
  }

  lemma {:induction false} CallsKeepChannels(b: Builder, tcs: seq<ToolDelta>, codec: Codec)
    ensures SameChannels(b, ProcessToolCalls(b, tcs, codec).b)
    decreases |tcs|
  {
    if tcs != [] {
      CallKeepsChannels(b, tcs[0], codec);
      CallsKeepChannels(ProcessToolCall(b, tcs[0], codec).b, tcs[1..], codec);
    }
  }

  lemma ReasonKeeps(b: Builder, reasoning: string, thinking: bool, kind: ThinkParser.Kind)
    requires kind.TEXT? || reasoning == ""
    ensures Channel(Reason(b, reasoning, thinking).0, kind) == Channel(b, kind)
  {
    SaidOrThought(b, reasoning, kind);
  }

  lemma CallToolsKeep(b: Builder, tcs: seq<ToolDelta>, codec: Codec, kind: ThinkParser.Kind)
    ensures Channel(CallTools(b, tcs, codec).b, kind) == Channel(b, kind)
  {
    CallsKeepChannels(CloseContentBlocks(b).0, tcs, codec);
  }

  lemma ChunkState(s: Stream, chunk: Chunk, cfg: Config)
    requires chunk.Turn?
    ensures var s2 := FeedContent(s.(b := Reason(s.b, chunk.reasoning, cfg.thinking).0), chunk.content, cfg).0;
            OneChunk(s, chunk, cfg).s == s2.(b := CallTools(s2.b, chunk.toolCalls, cfg.codec).b)
  {
  }

  lemma ChunkPassed(s: Stream, chunk: Chunk, rest: string, kind: ThinkParser.Kind, cfg: Config)
    requires ThinkParser.Held(s.parser)
    requires kind.TEXT? || (chunk.Turn? ==> chunk.reasoning == "")
    ensures var s' := OneChunk(s, chunk, cfg).s; var content := if chunk.Turn? then chunk.content else "";
            && ThinkParser.Held(s'.parser)
            && Passed(s, kind) + Ahead(s, content + rest, kind, cfg) == Passed(s', kind) + Ahead(s', rest, kind, cfg)
  {
    if chunk.Turn? {
      ChunkState(s, chunk, cfg);
      if kind.THINKING? {
        ReasonKeeps(s.b, chunk.reasoning, cfg.thinking, kind);
      }
      var s1 := s.(b := Reason(s.b, chunk.reasoning, cfg.thinking).0);
      assert Ahead(s1, chunk.content + rest, kind, cfg) == Ahead(s, chunk.content + rest, kind, cfg);
      ContentPassed(s1, chunk.content, rest, kind, cfg);
      var s2 := FeedContent(s1, chunk.content, cfg).0;
      CallToolsKeep(s2.b, chunk.toolCalls, cfg.codec, kind);
      assert Ahead(OneChunk(s, chunk, cfg).s, rest, kind, cfg) == Ahead(s2, rest, kind, cfg);
    } else {
      AppendNone(rest);
    }
  }

  /** The chunks up to the one in which an exception is raised. */
  function Handled(s: Stream, chunks: seq<Chunk>, cfg: Config): seq<Chunk>
    decreases |chunks|
  {
    if chunks == [] then []
    else if OneChunk(s, chunks[0], cfg).raised then [chunks[0]]
    else [chunks[0]] + Handled(OneChunk(s, chunks[0], cfg).s, chunks[1..], cfg)
  }

  lemma {:induction false} AllHandled(s: Stream, chunks: seq<Chunk>, cfg: Config)
    ensures Handled(s, chunks, cfg) <= chunks
    ensures !Loop(s, chunks, cfg).raised ==> Handled(s, chunks, cfg) == chunks
    decreases |chunks|
  {
    if chunks != [] {
      AllHandled(OneChunk(s, chunks[0], cfg).s, chunks[1..], cfg);
    }
  }

  lemma {:induction false} LoopPassed(s: Stream, chunks: seq<Chunk>, kind: ThinkParser.Kind, cfg: Config)
    requires ThinkParser.Held(s.parser)
    requires kind.TEXT? || NoReasoning(chunks)
    ensures var s' := Loop(s, chunks, cfg).s;
            && ThinkParser.Held(s'.parser)
            && Passed(s, kind) + Ahead(s, Concat(Contents(Handled(s, chunks, cfg))), kind, cfg) ==
                 Passed(s', kind) + Ahead(s', "", kind, cfg)
    decreases |chunks|
  {
    if chunks != [] {
      assert chunks[0] in chunks;
      var r, handled := OneChunk(s, chunks[0], cfg), Handled(s, chunks, cfg);
      ChunkPassed(s, chunks[0], Concat(Contents(handled[1..])), kind, cfg);
      FirstContent(handled);
      if r.raised {
        assert handled[1..] == [] && Contents([]) == [];
      } else {
        LoopPassed(r.s, chunks[1..], kind, cfg);
      }
    }
  }

  lemma FirstContent(chunks: seq<Chunk>)
    requires chunks != []
    ensures Concat(Contents(chunks)) ==
              (if chunks[0].Turn? then chunks[0].content else "") + Concat(Contents(chunks[1..]))
  {
    if chunks[0].Turn? {
      assert Contents(chunks)[1..] == Contents(chunks[1..]);
    } else {
      assert Contents(chunks) == Contents(chunks[1..]);
    }
  }

  // ----- what the textual tool parser lets pass -----

  /** The text sent so far is what the textual tool parser let pass. */
  ghost predicate SentFiltered(s: Stream, h: Heuristic) {
    Channel(s.b, ThinkParser.TEXT) == Filtered(h, s.fed)
  }

  lemma {:induction false} PartsFiltered(s: Stream, parts: seq<ThinkParser.Chunk>, cfg: Config)
    requires SentFiltered(s, cfg.heuristic)
    ensures SentFiltered(Parts(s, parts, cfg).0, cfg.heuristic)
    decreases |parts|
  {
    if parts != [] {
      var content, fed := parts[0].content, s.fed + [parts[0].content];
      if parts[0].kind.TEXT? {
        SayFilteredSays(s.b, cfg.heuristic.feed(fed).0, cfg.heuristic.feed(fed).1, cfg.codec);
        FilteredSnoc(cfg.heuristic, s.fed, content);
      } else {
        SaidOrThought(s.b, content, ThinkParser.TEXT);
      }
      PartsFiltered(Part(s, parts[0], cfg).0, parts[1..], cfg);
    }
  }

  lemma ChunkFiltered(s: Stream, chunk: Chunk, cfg: Config)
    requires SentFiltered(s, cfg.heuristic)
    ensures SentFiltered(OneChunk(s, chunk, cfg).s, cfg.heuristic)
  {
    if chunk.Turn? {
      ChunkState(s, chunk, cfg);
      ReasonKeeps(s.b, chunk.reasoning, cfg.thinking, ThinkParser.TEXT);
      var s1 := s.(b := Reason(s.b, chunk.reasoning, cfg.thinking).0);
      if chunk.content != "" {
        var (parser, parts) := ThinkParser.Feed(s1.parser, chunk.content);
        PartsFiltered(s1.(parser := parser), parts, cfg);
      }
      CallToolsKeep(FeedContent(s1, chunk.content, cfg).0.b, chunk.toolCalls, cfg.codec, ThinkParser.TEXT);
    }
  }

  lemma {:induction false} LoopFiltered(s: Stream, chunks: seq<Chunk>, cfg: Config)
    requires SentFiltered(s, cfg.heuristic)
    ensures SentFiltered(Loop(s, chunks, cfg).s, cfg.heuristic)
    decreases |chunks|
  {
    if chunks != [] {
      ChunkFiltered(s, chunks[0], cfg);
      LoopFiltered(OneChunk(s, chunks[0], cfg).s, chunks[1..], cfg);
    }
  }

  // ----- before padding -----

  /** What the think-tag parser holds back, if it is text. */
  function HeldText(parser: ThinkParser.State): string {
    if parser.inside then "" else parser.buffer
  }

  /** The parser's flush delivers what it still holds. */
  lemma FlushSent(s: Stream, kind: ThinkParser.Kind, cfg: Config)
    requires ThinkParser.Held(s.parser)
    ensures Channel(FlushParser(s, cfg).0, kind) == Channel(s.b, kind) + Ahead(s, "", kind, cfg)
    ensures kind.TEXT? ==> Ahead(s, "", kind, cfg) == HeldText(s.parser)
  {
    ThinkParser.FlushCorrect(s.parser);
    assert s.parser.buffer + "" == s.parser.buffer;
    var flushed := ThinkParser.Flush(s.parser);
    AppendNone(Channel(s.b, kind));
    if flushed.Some? {
      OnlyLabel(flushed.value.content, flushed.value.kind, kind);
      SaidOrThought(s.b, flushed.value.content, kind);
    }
  }

  /** The builder just before padding. */
  function Unpadded(s: Stream, cfg: Config): Builder {
    HeuristicToolUses(FlushParser(s, cfg).0, cfg.heuristic.flush(s.fed), cfg.codec).0
  }

  lemma UnpaddedChannel(s: Stream, kind: ThinkParser.Kind, cfg: Config)
    requires ThinkParser.Held(s.parser)
    ensures Channel(Unpadded(s, cfg), kind) == Channel(s.b, kind) + Ahead(s, "", kind, cfg)
  {
    FlushSent(s, kind, cfg);
    FoundToolsKeepText(FlushParser(s, cfg).0, cfg.heuristic.flush(s.fed), cfg.codec);
  }

  lemma FedFrom(s: Stream, chunks: seq<Chunk>, cfg: Config)
    requires ThinkParser.Held(s.parser)
    ensures var s' := Loop(s, chunks, cfg).s;
            && ThinkParser.Held(s'.parser) && |HeldText(s'.parser)| <= 7
            && Concat(s'.fed) + HeldText(s'.parser) ==
                 Concat(s.fed) + Ahead(s, Concat(Contents(Handled(s, chunks, cfg))), ThinkParser.TEXT, cfg)
  {
    LoopPassed(s, chunks, ThinkParser.TEXT, cfg);
    FlushSent(Loop(s, chunks, cfg).s, ThinkParser.TEXT, cfg);
  }

  lemma FreshAhead(text: string, kind: ThinkParser.Kind, cfg: Config)
    ensures Passed(FRESH, kind) + Ahead(FRESH, text, kind, cfg) ==
              Shown(ThinkParser.Labelling(text, false), kind, cfg)
  {
    assert "" + text == text;
    assert "" + Ahead(FRESH, text, kind, cfg) == Ahead(FRESH, text, kind, cfg);
  }

  /** The parts fed on and what is held are the text of the upstream. */
  lemma FedIsText(chunks: seq<Chunk>, cfg: Config)
    ensures var s := Loop(FRESH, chunks, cfg).s;
            && ThinkParser.Held(s.parser) && |HeldText(s.parser)| <= 7
            && Concat(s.fed) + HeldText(s.parser) == Only(Reading(Handled(FRESH, chunks, cfg)), ThinkParser.TEXT)
  {
    FedFrom(FRESH, chunks, cfg);
    FreshAhead(Concat(Contents(Handled(FRESH, chunks, cfg))), ThinkParser.TEXT, cfg);
  }

  /** Text and reasoning just before padding. */
  lemma ReadingIsRecorded(chunks: seq<Chunk>, cfg: Config)
    ensures var s := Loop(FRESH, chunks, cfg).s; var b := Unpadded(s, cfg);
            && Channel(b, ThinkParser.TEXT) == Filtered(cfg.heuristic, s.fed) + HeldText(s.parser)
            && (NoReasoning(chunks) ==>
                  Channel(b, ThinkParser.THINKING) ==
                    Shown(Reading(Handled(FRESH, chunks, cfg)), ThinkParser.THINKING, cfg))
  {
    var s, all := Loop(FRESH, chunks, cfg).s, Concat(Contents(Handled(FRESH, chunks, cfg)));
    LoopPassed(FRESH, chunks, ThinkParser.TEXT, cfg);
    LoopFiltered(FRESH, chunks, cfg);
    FlushSent(s, ThinkParser.TEXT, cfg);
    UnpaddedChannel(s, ThinkParser.TEXT, cfg);
    if NoReasoning(chunks) {
      LoopPassed(FRESH, chunks, ThinkParser.THINKING, cfg);
      UnpaddedChannel(s, ThinkParser.THINKING, cfg);
      FreshAhead(all, ThinkParser.THINKING, cfg);
    }
  }

  // ----- padding -----

  /** A text or thinking block has been started exactly when text or thinking has been sent. */
  predicate Paired(b: Builder) {
    && 0 <= b.nextIndex
    && (b.textIndex == -1 <==> Concat(b.text) == "")
    && (b.thinkingIndex == -1 <==> Concat(b.reasoning) == "")
    && (b.textStarted ==> b.textIndex != -1) && (b.thinkingStarted ==> b.thinkingIndex != -1)
  }

  lemma SayPaired(b: Builder, s: string)
    requires Paired(b) && s != ""
    ensures Paired(Say(b, s).0) && Paired(Think(b, s).0)
  {
    ConcatSnoc(b.text, s);
    ConcatSnoc(b.reasoning, s);
  }

  lemma KeepsTextPaired(b: Builder, b': Builder)
    requires Paired(b) && KeepsText(b, b')
    ensures Paired(b')
  {
  }

  lemma PartPaired(s: Stream, part: ThinkParser.Chunk, cfg: Config)
    requires Paired(s.b) && part.content != ""
    ensures Paired(Part(s, part, cfg).0.b)
  {
    if part.kind.TEXT? {
      var fed := s.fed + [part.content];
      var (filtered, tools) := cfg.heuristic.feed(fed);
      if filtered != "" {
        SayPaired(s.b, filtered);
      }
      SayFilteredSays(s.b, filtered, tools, cfg.codec);
      KeepsTextPaired(if filtered != "" then Say(s.b, filtered).0 else s.b, Part(s, part, cfg).0.b);
    } else {
      SayPaired(s.b, part.content);
    }
  }

  lemma {:induction false} PartsPaired(s: Stream, parts: seq<ThinkParser.Chunk>, cfg: Config)
    requires Paired(s.b)
    requires forall part | part in parts :: part.content != ""
    ensures Paired(Parts(s, parts, cfg).0.b)
    decreases |parts|
  {
    if parts != [] {
      assert parts[0] in parts;
      PartPaired(s, parts[0], cfg);
      PartsPaired(Part(s, parts[0], cfg).0, parts[1..], cfg);
    }
  }

  lemma {:induction false} PartsNotEmpty(s: ThinkParser.State)
    ensures forall part | part in ThinkParser.Loop(s).1 :: part.content != ""
    decreases |s.buffer|
  {
    ThinkParser.ParseOnceShrinks(s);
    var (s', chunk) := ThinkParser.ParseOnce(s);
    if s.buffer != "" && |s'.buffer| < |s.buffer| {
      PartsNotEmpty(s');
    }
  }

  lemma ChunkPaired(c: Check, s: Stream, chunk: Chunk, cfg: Config)
    requires Paired(s.b) && Mirrors(c, s.b) && Sane(s.b, cfg.codec)
    ensures Paired(OneChunk(s, chunk, cfg).s.b)
  {
    OneChunkReaches(c, s, chunk, cfg);
    if chunk.Turn? {
      var b1 := Reason(s.b, chunk.reasoning, cfg.thinking).0;
      if chunk.reasoning != "" {
        SayPaired(s.b, chunk.reasoning);
      }
      var s1 := s.(b := b1);
      if chunk.content != "" {
        var (parser, parts) := ThinkParser.Feed(s1.parser, chunk.content);
        PartsNotEmpty(s1.parser.(buffer := s1.parser.buffer + chunk.content));
        PartsPaired(s1.(parser := parser), parts, cfg);
      }
      var s2 := FeedContent(s1, chunk.content, cfg).0;
      ToolsPaired(s2.b, chunk.toolCalls, OneChunk(s, chunk, cfg).s.b, cfg.codec);
    }
  }

  lemma ToolsPaired(b: Builder, tcs: seq<ToolDelta>, b': Builder, codec: Codec)
    requires Paired(b) && b' == CallTools(b, tcs, codec).b && 0 <= b'.nextIndex
    ensures Paired(b')
  {
    if tcs != [] {
      var b1 := CloseContentBlocks(b).0;
      CallsKeepChannels(b1, tcs, codec);
    }
  }

  lemma {:induction false} LoopPaired(c: Check, s: Stream, chunks: seq<Chunk>, cfg: Config)
    requires Paired(s.b) && Mirrors(c, s.b) && Sane(s.b, cfg.codec)
    ensures Paired(Loop(s, chunks, cfg).s.b)
    decreases |chunks|
  {
    if chunks != [] {
      ChunkPaired(c, s, chunks[0], cfg);
      OneChunkReaches(c, s, chunks[0], cfg);
      var r := OneChunk(s, chunks[0], cfg);
      if !r.raised {
        LoopPaired(Run(c, r.out).value, r.s, chunks[1..], cfg);
      }
    }
  }

  /**
   * When a space is added to a message: no native tool, and nothing said although something, or
   * nothing at all, was thought.
   */
  predicate Bare(tool: bool, text: string, thoughts: string) {
    !tool && ((text == "" && thoughts == "") || (IsBlank(text) && !IsBlank(thoughts)))
  }

  lemma PadIffBare(b: Builder)
    requires Paired(b)
    ensures var text, thoughts := Channel(b, ThinkParser.TEXT), Channel(b, ThinkParser.THINKING);
            && Channel(Pad(b).0, ThinkParser.TEXT) ==
                 text + (if Bare(HasEmittedToolBlock(b), text, thoughts) then " " else "")
            && Channel(Pad(b).0, ThinkParser.THINKING) == thoughts
  {
    SaidOrThought(b, " ", ThinkParser.TEXT);
    SaidOrThought(b, " ", ThinkParser.THINKING);
    AppendNone(Channel(b, ThinkParser.TEXT));
  }

  // ----- what the response sends -----

  function Type(kind: ThinkParser.Kind): string {
    if kind.TEXT? then "text_delta" else "thinking_delta"
  }

  lemma {:induction false} StopsSendNone(tools: map<int, ToolCall>, keys: seq<int>, type_: string)
    ensures DeltasOf(ToolStops(tools, keys), type_) == ""
  {
    if keys != [] {
      var first := if keys[0] in tools && tools[keys[0]].started then [BlockStop(tools[keys[0]].blockIndex)] else [];
      StopsSendNone(tools, keys[1..], type_);
      DeltasOfAppend(first, ToolStops(tools, keys[1..]), type_);
      if first != [] {
        DeltasSingle(first[0], 0, type_);
      }
    }
  }

  lemma CloseSendsNone(b: Builder, type_: string)
    ensures DeltasOf(CloseAllBlocks(b).1, type_) == ""
  {
    var (b1, out1) := if b.thinkingStarted then StopThinkingBlock(b) else (b, []);
    var (b2, out2) := if b1.textStarted then StopTextBlock(b1) else (b1, []);
    if out1 != [] {
      DeltasSingle(out1[0], 0, type_);
    }
    if out2 != [] {
      DeltasSingle(out2[0], 0, type_);
    }
    DeltasOfAppend(out1, out2, type_);
    StopsSendNone(b2.tools, b2.order, type_);
    DeltasOfAppend(out1 + out2, ToolStops(b2.tools, b2.order), type_);
  }

  lemma TailSendsNone(reason: string, tokens: int, type_: string)
    ensures DeltasOf(Tail(reason, tokens), type_) == ""
  {
    DeltasSingle(MessageDelta(reason, tokens), 0, type_);
    DeltasSingle(MessageStop, 0, type_);
    DeltasOfAppend([MessageDelta(reason, tokens)], [MessageStop], type_);
    assert Tail(reason, tokens) == [MessageDelta(reason, tokens)] + [MessageStop];
  }

  lemma EndSendsNone(b: Builder, chunks: seq<Chunk>, cfg: Config, type_: string)
    ensures DeltasOf(Ending(b, chunks, cfg), type_) == ""
  {
    var (b1, out) := CloseAllBlocks(b);
    CloseSendsNone(b, type_);
    if Tokens(b1, chunks, cfg).Some? {
      var reason, tokens := MapStopReason(FinishReason(chunks)), Tokens(b1, chunks, cfg).value;
      TailSendsNone(reason, tokens, type_);
      DeltasOfAppend(out, Tail(reason, tokens), type_);
    }
  }

  /** What the builder records is what has been sent. */
  lemma SentIsRecorded(start: Event, out: seq<Event>, b: Builder, kind: ThinkParser.Kind)
    requires start.MessageStart? && Delivers(EMPTY, out, b)
    ensures DeltasOf([start] + out, Type(kind)) == Channel(b, kind)
  {
    DeltasSingle(start, 0, Type(kind));
    DeltasOfAppend([start], out, Type(kind));
  }

  /** The builder just before the closing stops has padded channels, and no more. */
  lemma {:induction false} ToolDeltasKeepChannels(b: Builder, results: seq<(int, string)>)
    ensures SameChannels(b, ToolDeltas(b, results).0)
    decreases |results|
  {
    if results != [] && results[0].0 in b.tools {
      ToolDeltasKeepChannels(EmitToolDelta(b, results[0].0, results[0].1).0, results[1..]);
    }
  }

  lemma {:induction false} FlushKeepsChannels(b: Builder, keys: seq<int>, codec: Codec)
    ensures var r := FlushTaskArgBuffers(b, keys, codec); r.Some? ==> SameChannels(b, r.value.0)
    decreases |keys|
  {
    if keys != [] {
      var k := keys[0];
      if k in b.tools && NeedsFlush(b.tools[k]) {
        FlushKeepsChannels(b.(tools := b.tools[k := b.tools[k].(taskArgsEmitted := true, taskArgBuffer := "")]),
                           keys[1..], codec);
      } else {
        FlushKeepsChannels(b, keys[1..], codec);
      }
    }
  }

  lemma FlushPaired(s: Stream, cfg: Config)
    requires Paired(s.b)
    ensures Paired(FlushParser(s, cfg).0) && FlushParser(s, cfg).0.tools == s.b.tools
  {
    var flushed := ThinkParser.Flush(s.parser);
    if flushed.Some? {
      SayPaired(s.b, flushed.value.content);
    }
  }

  lemma AfterLoop(chunks: seq<Chunk>, cfg: Config)
    requires !Loop(FRESH, chunks, cfg).raised
    ensures var s := Loop(FRESH, chunks, cfg).s; var b1 := Unpadded(s, cfg);
            Paired(b1) && HasEmittedToolBlock(b1) == HasEmittedToolBlock(s.b)
  {
    var s := Loop(FRESH, chunks, cfg).s;
    EmptyMirrors(cfg.codec);
    LoopReaches(START, FRESH, chunks, cfg);
    LoopPaired(START, FRESH, chunks, cfg);
    FlushPaired(s, cfg);
    FoundToolsKeepText(FlushParser(s, cfg).0, cfg.heuristic.flush(s.fed), cfg.codec);
    KeepsTextPaired(FlushParser(s, cfg).0, Unpadded(s, cfg));
    BeforeCloseReaches(Run(START, Loop(FRESH, chunks, cfg).out).value, s, cfg);
  }

  /** The channels when everything but the closing stops has been emitted. */
  lemma BeforeCloseSent(chunks: seq<Chunk>, cfg: Config)
    requires !Loop(FRESH, chunks, cfg).raised
    ensures var s := Loop(FRESH, chunks, cfg).s; var q := BeforeClose(s, cfg);
            var text := Filtered(cfg.heuristic, s.fed) + HeldText(s.parser);
            var thoughts := Channel(q.b, ThinkParser.THINKING);
            && Channel(q.b, ThinkParser.TEXT) ==
                 text + (if Bare(HasEmittedToolBlock(s.b), text, thoughts) then " " else "")
            && (NoReasoning(chunks) ==> thoughts == Shown(Reading(chunks), ThinkParser.THINKING, cfg))
  {
    var s := Loop(FRESH, chunks, cfg).s;
    AfterLoop(chunks, cfg);
    AllHandled(FRESH, chunks, cfg);
    ReadingIsRecorded(chunks, cfg);
    PadIffBare(Unpadded(s, cfg));
    EndKeepsChannels(s, Unpadded(s, cfg), cfg);
  }

  lemma EndKeepsChannels(s: Stream, b1: Builder, cfg: Config)
    requires b1 == Unpadded(s, cfg)
    ensures SameChannels(Pad(b1).0, BeforeClose(s, cfg).b)
  {
    var b3 := Pad(b1).0;
    FlushKeepsChannels(b3, b3.order, cfg.codec);
    var r := FlushTaskArgBuffers(b3, b3.order, cfg.codec);
    if r.Some? {
      ToolDeltasKeepChannels(r.value.0, r.value.1);
    }
  }

  /** What a normal response sends as deltas of one type is what its builder records. */
  lemma SentNormally(start: Event, chunks: seq<Chunk>, message: string, cfg: Config,
                     kind: ThinkParser.Kind)
    requires start.MessageStart? && !Loop(FRESH, chunks, cfg).raised
    ensures var q := BeforeClose(Loop(FRESH, chunks, cfg).s, cfg);
            DeltasOf(Response(start, chunks, false, message, cfg), Type(kind)) == Channel(q.b, kind)
  {
    var r := Loop(FRESH, chunks, cfg);
    EmptyMirrors(cfg.codec);
    LoopReaches(START, FRESH, chunks, cfg);
    var c := Run(START, r.out).value;
    BeforeCloseReaches(c, r.s, cfg);
    var q := BeforeClose(r.s, cfg);
    Chain(START, EMPTY, r.out, r.s.b, q.out, q.b);
    SentIsRecorded(start, r.out + q.out, q.b, kind);
    var ending := if q.raised then [] else Ending(q.b, chunks, cfg);
    EndSendsNone(q.b, chunks, cfg, Type(kind));
    DeltasOfAppend([start] + (r.out + q.out), ending, Type(kind));
    AppendNone(Channel(q.b, kind));
    FourParts([start], r.out, q.out, ending);
  }

  lemma FourParts(a: seq<Event>, b: seq<Event>, c: seq<Event>, d: seq<Event>)
    ensures a + b + (c + d) == a + (b + c) + d
  {
  }

  /**
   * A response that ends normally: the parts fed to the textual tool parser, with at most seven
   * characters that are held back, are the text of the upstream content; the text deltas are what
   * that parser let pass, what was held back, and a single space exactly when the message would be
   * bare; and if the upstream sends no reasoning of its own, the thinking deltas are what the tags
   * enclose, or nothing where thinking is not to be shown.
   */
  lemma TextIsConserved(id: string, model: string, chunks: seq<Chunk>, message: string, cfg: Config)
    requires !Loop(FRESH, chunks, cfg).raised
    ensures var out := Response(MessageStart(id, model), chunks, false, message, cfg);
            var s := Loop(FRESH, chunks, cfg).s;
            var held, thoughts := HeldText(s.parser), DeltasOf(out, "thinking_delta");
            var text := Filtered(cfg.heuristic, s.fed) + held;
            && Concat(s.fed) + held == Only(Reading(chunks), ThinkParser.TEXT) && |held| <= 7
            && DeltasOf(out, "text_delta") ==
                 text + (if Bare(HasEmittedToolBlock(s.b), text, thoughts) then " " else "")
            && (NoReasoning(chunks) ==>
                  thoughts == if cfg.thinking then Only(Reading(chunks), ThinkParser.THINKING) else "")
  {
    AllHandled(FRESH, chunks, cfg);
    FedIsText(chunks, cfg);
    BeforeCloseSent(chunks, cfg);
    SentNormally(MessageStart(id, model), chunks, message, cfg, ThinkParser.TEXT);
    SentNormally(MessageStart(id, model), chunks, message, cfg, ThinkParser.THINKING);
  }

  /** Every part comes back as it is. */
  ghost predicate PassThrough(h: Heuristic) {
    forall fed | fed != [] :: h.feed(fed).0 == fed[|fed| - 1]
  }

  lemma {:induction false} AllPasses(h: Heuristic, fed: seq<string>)
    requires PassThrough(h)
    ensures Filtered(h, fed) == Concat(fed)
    decreases |fed|
  {
    if fed != [] {
      AllPasses(h, fed[..|fed| - 1]);
      ConcatSnoc(fed[..|fed| - 1], fed[|fed| - 1]);
      assert fed == fed[..|fed| - 1] + [fed[|fed| - 1]];
    }
  }

  /** Where the textual tool parser lets all text pass, the text deltas are the text of the upstream content. */
  lemma PassedTextIsConserved(id: string, model: string, chunks: seq<Chunk>, message: string, cfg: Config)
    requires PassThrough(cfg.heuristic) && !Loop(FRESH, chunks, cfg).raised
    ensures var out := Response(MessageStart(id, model), chunks, false, message, cfg);
            var text, thoughts := Only(Reading(chunks), ThinkParser.TEXT), DeltasOf(out, "thinking_delta");
            DeltasOf(out, "text_delta") ==
              text + (if Bare(HasEmittedToolBlock(Loop(FRESH, chunks, cfg).s.b), text, thoughts) then " " else "")
  {
    TextIsConserved(id, model, chunks, message, cfg);
    AllPasses(cfg.heuristic, Loop(FRESH, chunks, cfg).s.fed);
  }

  /**
   * A response that fails, after the last chunk or inside one: its text deltas are what the textual
   * tool parser let pass, followed by the message of the failure if no native tool has a block; and
   * the parts fed to that parser are the text of the chunks handled, but for at most seven
   * characters that are lost.
   */
  lemma FailureLosesLittle(id: string, model: string, chunks: seq<Chunk>, fails: bool, message: string, cfg: Config)
    returns (lost: string)
    requires fails || Loop(FRESH, chunks, cfg).raised
    ensures var s := Loop(FRESH, chunks, cfg).s;
            && Concat(s.fed) + lost == Only(Reading(Handled(FRESH, chunks, cfg)), ThinkParser.TEXT) && |lost| <= 7
            && DeltasOf(Response(MessageStart(id, model), chunks, fails, message, cfg), "text_delta") ==
                 Filtered(cfg.heuristic, s.fed) + (if HasEmittedToolBlock(s.b) then "" else message)
  {
    var r := Loop(FRESH, chunks, cfg);
    lost := HeldText(r.s.parser);
    FedIsText(chunks, cfg);
    LoopFiltered(FRESH, chunks, cfg);
    RecordedSoFar(chunks, cfg);
    FailureSent(MessageStart(id, model), r.out, r.s.b, message);
  }

  lemma FailureSent(start: Event, out: seq<Event>, b: Builder, message: string)
    requires start.MessageStart?
    ensures DeltasOf([start] + out + FailureEnding(b, message), "text_delta") ==
              DeltasOf(out, "text_delta") + (if HasEmittedToolBlock(b) then "" else message)
  {
    DeltasSingle(start, 0, "text_delta");
    DeltasOfAppend([start], out, "text_delta");
    DeltasOfAppend([start] + out, FailureEnding(b, message), "text_delta");
    FailureSends(b, message);
    AppendNone(DeltasOf(out, "text_delta"));
  }

  lemma FailureSends(b: Builder, message: string)
    ensures DeltasOf(FailureEnding(b, message), "text_delta") == if HasEmittedToolBlock(b) then "" else message
  {
    var (b1, out) := CloseAllBlocks(b);
    var told := if HasEmittedToolBlock(b1) then [Error(message)] else EmitError(b1, message).1;
    CloseSendsNone(b, "text_delta");
    TailSendsNone("end_turn", 1, "text_delta");
    ErrorSends(b1, message);
    DeltasOfAppend(out, told, "text_delta");
    DeltasOfAppend(out + told, Tail("end_turn", 1), "text_delta");
    AppendNone(DeltasOf(told, "text_delta"));
  }

  lemma ErrorSends(b: Builder, message: string)
    ensures DeltasOf([Error(message)], "text_delta") == "" && DeltasOf(EmitError(b, message).1, "text_delta") == message
  {
    DeltasSingle(Error(message), 0, "text_delta");
    var out := EmitError(b, message).1;
    assert out == [out[0]] + [out[1]] + [out[2]];
    DeltasSingle(out[0], 0, "text_delta");
    DeltasSingle(out[1], 0, "text_delta");
    DeltasSingle(out[2], 0, "text_delta");
    DeltasOfAppend([out[0]], [out[1]], "text_delta");
    DeltasOfAppend([out[0]] + [out[1]], [out[2]], "text_delta");
    AppendNone(message);
  }

  lemma RecordedSoFar(chunks: seq<Chunk>, cfg: Config)
    ensures DeltasOf(Loop(FRESH, chunks, cfg).out, "text_delta") ==
              Channel(Loop(FRESH, chunks, cfg).s.b, ThinkParser.TEXT)
  {
    EmptyMirrors(cfg.codec);
    LoopReaches(START, FRESH, chunks, cfg);
    var r := Loop(FRESH, chunks, cfg);
    RecordedText(r.out, r.s.b);
  }

  lemma RecordedText(out: seq<Event>, b: Builder)
    requires Delivers(EMPTY, out, b)
    ensures DeltasOf(out, "text_delta") == Concat(b.text)
  {
    AppendNone(DeltasOf(out, "text_delta"));
  }
}
