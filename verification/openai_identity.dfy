/**
 * Tool calls keep their identity: the block of a native tool call is announced once, under the
 * first name that the fragments spell and the last id that had arrived by then.
 */
module OpenAIIdentity {
  import opened Text
  import opened StreamContract
  import opened SseBuilder
  import opened OpenAIStream
  import opened OpenAIContract
  import opened OpenAIArguments
  import ThinkParser

  // ----- what the fragments say -----

  /** The last id that arrived for tool k, if any. */
  function IdOf(calls: seq<ToolDelta>, k: int): string {
    if calls == [] then ""
    else if Target(Init(calls), Last(calls)) == k && Last(calls).id.Some? && Last(calls).id.value != ""
    then Last(calls).id.value
    else IdOf(Init(calls), k)
  }

  /**
   * How tool k is announced: when a name first appears, under that name and the id known by then,
   * or a generated one.
   */
  function Opening(calls: seq<ToolDelta>, k: int): Option<Block> {
    if calls == [] then None
    else if Opening(Init(calls), k).Some? then Opening(Init(calls), k)
    else if Target(Init(calls), Last(calls)) == k && !IsBlank(Named(calls, k)) then
      Some(ToolBlock(if IdOf(calls, k) != "" then IdOf(calls, k) else Last(calls).freshId, Strip(Named(calls, k))))
    else None
  }

  // ----- starts in a stream -----

  /** The blocks that are started under index x. */
  function StartsAt(es: seq<Event>, x: int): seq<Block> {
    if es == [] then []
    else (if es[0].BlockStart? && es[0].index == x then [es[0].block] else []) + StartsAt(es[1..], x)
  }

  lemma {:induction false} StartsAtAppend(a: seq<Event>, b: seq<Event>, x: int)
    ensures StartsAt(a + b, x) == StartsAt(a, x) + StartsAt(b, x)
  {
    if a == [] {
      AppendNone(b);
      AppendNone(StartsAt(b, x));
    } else {
      AppendTail(a, b);
      StartsAtAppend(a[1..], b, x);
      Assoc(if a[0].BlockStart? && a[0].index == x then [a[0].block] else [], StartsAt(a[1..], x), StartsAt(b, x));
    }
  }

  lemma {:induction false} NoStarts(es: seq<Event>, x: int)
    requires forall e | e in es :: !(e.BlockStart? && e.index == x)
    ensures StartsAt(es, x) == []
  {
    if es != [] {
      assert es[0] in es;
      NoStarts(es[1..], x);
    }
  }

  /** What the contract accepts starts nothing that was started before. */
  lemma {:induction false} StartsAreFresh(c: Check, es: seq<Event>, x: int)
    requires Run(c, es).Some? && x in c.seen
    ensures StartsAt(es, x) == []
    decreases |es|
  {
    if es != [] {
      StartsAreFresh(Step(c, es[0]).value, es[1..], x);
    }
  }

  // ----- the invariant -----

  ghost predicate ToolIntroduced(b: Builder, sent: seq<Event>, calls: seq<ToolDelta>, k: int) {
    && (IsStarted(b, k) <==> Opening(calls, k).Some?)
    && (IsStarted(b, k) ==> StartsAt(sent, Slot(b, k)) == [Opening(calls, k).value])
    && (!IsStarted(b, k) ==> ToolOr(b, k).toolId == IdOf(calls, k))
  }

  /** Every started tool has been announced in `sent` as its fragments say. */
  ghost predicate Introduced(b: Builder, sent: seq<Event>, calls: seq<ToolDelta>) {
    forall k :: ToolIntroduced(b, sent, calls, k)
  }

  /** A step that changes no tool and is accepted announces none again. */
  lemma ContentIntroduces(c: Check, b: Builder, sent: seq<Event>, calls: seq<ToolDelta>, out: seq<Event>, b': Builder)
    requires Mirrors(c, b) && Introduced(b, sent, calls) && Reaches(c, b, out, b') && b'.tools == b.tools
    ensures Introduced(b', sent + out, calls)
  {
    forall k ensures ToolIntroduced(b', sent + out, calls, k) {
      assert ToolIntroduced(b, sent, calls, k);
      if IsStarted(b, k) {
        NotAgain(c, b, out, b', k, sent);
      }
    }
  }

  lemma NotAgain(c: Check, b: Builder, out: seq<Event>, b': Builder, k: int, sent: seq<Event>)
    requires Mirrors(c, b) && Reaches(c, b, out, b') && IsStarted(b, k)
    ensures StartsAt(sent + out, Slot(b, k)) == StartsAt(sent, Slot(b, k))
  {
    assert Holds(b, Tool(k), Slot(b, k));
    StartsAreFresh(c, out, Slot(b, k));
    StartsAtAppend(sent, out, Slot(b, k));
    AppendNone(StartsAt(sent, Slot(b, k)));
  }

  // ----- one fragment -----

  lemma ArgStartsNothing(b: Builder, k: int, args: string, codec: Codec)
    ensures var r := EmitToolArgDelta(b, k, args, codec);
            && (forall e | e in r.out :: !e.BlockStart?)
            && IsStarted(r.b, k) == IsStarted(b, k) && Slot(r.b, k) == Slot(b, k)
            && ToolOr(r.b, k).toolId == ToolOr(b, k).toolId
  {
  }

  lemma ArguedStartsNothing(b: Builder, k: int, name: string, args: string, codec: Codec)
    ensures var r := Argued(b, k, name, args, codec);
            && (forall e | e in r.out :: !e.BlockStart?)
            && IsStarted(r.b, k) == IsStarted(b, k) && Slot(r.b, k) == Slot(b, k)
            && ToolOr(r.b, k).toolId == ToolOr(b, k).toolId
  {
    ArgStartsNothing(b, k, args, codec);
    ArgStartsNothing(EnsureToolState(b, k), k, args, codec);
  }

  lemma OpenedStarts(b: Builder, k: int, tc: ToolDelta, codec: Codec)
    ensures var r := Opened(b, k, tc, codec);
            if IsStarted(b, k) || IsBlank(ToolOr(b, k).name) then r == Emitted(b, [], false)
            else
              && IsStarted(r.b, k) && Slot(r.b, k) == b.nextIndex
              && StartsAt(r.out, b.nextIndex) == [ToolBlock(ResolvedId(b, k, tc), Strip(ToolOr(b, k).name))]
  {
    if !IsStarted(b, k) && !IsBlank(ToolOr(b, k).name) {
      var (b1, out) := StartToolBlock(b, k, ResolvedId(b, k, tc), Strip(ToolOr(b, k).name));
      var b2 := PutTool(b1, k, b1.tools[k].(preStartArgs := ""));
      var r := EmitToolArgDelta(b2, k, b1.tools[k].preStartArgs, codec);
      ArgStartsNothing(b2, k, b1.tools[k].preStartArgs, codec);
      NoStarts(r.out, b.nextIndex);
      assert out[1..] == [];
      StartsAtAppend(out, r.out, b.nextIndex);
    }
  }

  /** What one fragment starts: its own tool's block, if the tool has none and now has a name. */
  lemma CallStarts(b: Builder, tc: ToolDelta, codec: Codec)
    ensures var k := Resolve(b, tc); var r := ProcessToolCall(b, tc, codec); var t1 := ToolOr(Recorded(b, k, tc), k);
            && (IsStarted(r.b, k) <==> IsStarted(b, k) || !IsBlank(t1.name))
            && (!IsStarted(b, k) && !IsBlank(t1.name) ==>
                  Slot(r.b, k) == b.nextIndex
                  && StartsAt(r.out, b.nextIndex) ==
                       [ToolBlock(if t1.toolId != "" then t1.toolId else tc.freshId, Strip(t1.name))])
            && (IsStarted(b, k) ==> Slot(r.b, k) == Slot(b, k))
            && (!IsStarted(r.b, k) ==> ToolOr(r.b, k).toolId == t1.toolId)
  {
    var k := Resolve(b, tc);
    var b1 := Recorded(b, k, tc);
    RecordedShape(b, k, tc);
    var r := Opened(b1, k, tc, codec);
    OpenedStarts(b1, k, tc, codec);
    var q := Argued(r.b, k, ToolOr(b1, k).name, tc.arguments, codec);
    ArguedStartsNothing(r.b, k, ToolOr(b1, k).name, tc.arguments, codec);
    NoStarts(q.out, b.nextIndex);
    StartsAtAppend(r.out, q.out, b.nextIndex);
    AppendNone(StartsAt(r.out, b.nextIndex));
  }

  lemma RecordedShape(b: Builder, k: int, tc: ToolDelta)
    ensures var b1 := Recorded(b, k, tc); var t, t1 := ToolOr(b, k), ToolOr(b1, k);
            && b1.nextIndex == b.nextIndex && t1.started == t.started && IsStarted(b1, k) == IsStarted(b, k)
            && t1.blockIndex == t.blockIndex
            && t1.name == (if tc.name.Some? then MergeName(t.name, tc.name.value) else t.name)
            && t1.toolId == (if tc.id.Some? && tc.id.value != "" then tc.id.value else t.toolId)
  {
  }

  /** The fragment's own tool. */
  lemma OwnIntroduced(c: Check, b: Builder, sent: seq<Event>, calls: seq<ToolDelta>, tc: ToolDelta, codec: Codec)
    requires Mirrors(c, b) && Sane(b, codec) && Knows(b, calls, true, codec) && Introduced(b, sent, calls)
    requires forall x | x >= b.nextIndex :: StartsAt(sent, x) == []
    ensures var r := ProcessToolCall(b, tc, codec); ToolIntroduced(r.b, sent + r.out, calls + [tc], Resolve(b, tc))
  {
    var k, r := Resolve(b, tc), ProcessToolCall(b, tc, codec);
    assert |b.tools| == |b.tools.Keys|;
    Shorter(calls, tc, k);
    assert ToolIntroduced(b, sent, calls, k) && ToldOf(b, calls, k, true, codec);
    CallStarts(b, tc, codec);
    RecordedShape(b, k, tc);
    ToolCallReaches(c, b, tc, codec);
    if IsStarted(b, k) {
      NotAgain(c, b, r.out, r.b, k, sent);
    } else {
      StartsAtAppend(sent, r.out, b.nextIndex);
      AppendNone(StartsAt(r.out, b.nextIndex));
    }
  }

  lemma OtherIntroduced(c: Check, b: Builder, sent: seq<Event>, calls: seq<ToolDelta>, tc: ToolDelta, codec: Codec,
                        j: int)
    requires Mirrors(c, b) && Sane(b, codec) && Knows(b, calls, true, codec) && ToolIntroduced(b, sent, calls, j)
    requires j != Resolve(b, tc)
    ensures var r := ProcessToolCall(b, tc, codec); ToolIntroduced(r.b, sent + r.out, calls + [tc], j)
  {
    assert |b.tools| == |b.tools.Keys|;
    Shorter(calls, tc, j);
    OtherTools(b, tc, codec);
    ToolCallReaches(c, b, tc, codec);
    var r := ProcessToolCall(b, tc, codec);
    assert ToolOr(r.b, j) == ToolOr(b, j);
    if IsStarted(b, j) {
      NotAgain(c, b, r.out, r.b, j, sent);
    }
  }

  // ----- whole runs -----

  /** All that is known after `sent` has been emitted and the fragments `calls` have been handled. */
  ghost predicate Stands(b: Builder, sent: seq<Event>, calls: seq<ToolDelta>, settled: bool, codec: Codec) {
    && Introduced(b, sent, calls) && Knows(b, calls, settled, codec) && (settled ==> Sane(b, codec))
    && exists c :: Run(START, sent) == Some(c) && Mirrors(c, b)
  }

  lemma {:induction false} UnseenNotStarted(c: Check, es: seq<Event>, x: int)
    requires Run(c, es).Some? && x !in Run(c, es).value.seen
    ensures StartsAt(es, x) == []
    decreases |es|
  {
    if es != [] {
      var c1 := Step(c, es[0]).value;
      UnseenNotStarted(c1, es[1..], x);
      SeenGrows(c1, es[1..]);
    }
  }

  lemma {:induction false} SeenGrows(c: Check, es: seq<Event>)
    requires Run(c, es).Some?
    ensures c.seen <= Run(c, es).value.seen
    decreases |es|
  {
    if es != [] {
      SeenGrows(Step(c, es[0]).value, es[1..]);
    }
  }

  lemma FragmentStands(b: Builder, sent: seq<Event>, calls: seq<ToolDelta>, tc: ToolDelta, codec: Codec)
    requires Stands(b, sent, calls, true, codec)
    ensures var r := ProcessToolCall(b, tc, codec); Stands(r.b, sent + r.out, calls + [tc], !r.raised, codec)
  {
    var c :| Run(START, sent) == Some(c) && Mirrors(c, b);
    var r := ProcessToolCall(b, tc, codec);
    OneMore(b, calls, tc, codec);
    ToolCallReaches(c, b, tc, codec);
    RunAppend(START, sent, r.out);
    forall x | x >= b.nextIndex ensures StartsAt(sent, x) == [] {
      UnseenNotStarted(START, sent, x);
    }
    OwnIntroduced(c, b, sent, calls, tc, codec);
    forall k ensures ToolIntroduced(r.b, sent + r.out, calls + [tc], k) {
      if k != Resolve(b, tc) {
        assert ToolIntroduced(b, sent, calls, k);
        OtherIntroduced(c, b, sent, calls, tc, codec, k);
      }
    }
  }

  lemma ContentStands(c: Check, b: Builder, sent: seq<Event>, calls: seq<ToolDelta>, out: seq<Event>, b': Builder,
                      codec: Codec)
    requires Stands(b, sent, calls, true, codec) && Run(START, sent) == Some(c) && Mirrors(c, b)
    requires Reaches(c, b, out, b') && b'.tools == b.tools && Sane(b', codec)
    ensures Stands(b', sent + out, calls, true, codec)
  {
    ContentIntroduces(c, b, sent, calls, out, b');
    SameTools(b, b', calls, codec);
    RunAppend(START, sent, out);
  }

  lemma {:induction false} FragmentsStand(b: Builder, sent: seq<Event>, calls: seq<ToolDelta>, tcs: seq<ToolDelta>,
                                          codec: Codec)
    returns (handled: seq<ToolDelta>)
    requires Stands(b, sent, calls, true, codec)
    ensures var r := ProcessToolCalls(b, tcs, codec);
            && handled <= tcs && (!r.raised ==> handled == tcs)
            && Stands(r.b, sent + r.out, calls + handled, !r.raised, codec)
    decreases |tcs|
  {
    if tcs == [] {
      handled := [];
      AppendNone(calls);
      AppendNone(sent);
    } else {
      FragmentStands(b, sent, calls, tcs[0], codec);
      FirstFragment(b, tcs, codec);
      handled := [tcs[0]];
      var r := ProcessToolCall(b, tcs[0], codec);
      if !r.raised {
        var rest := FragmentsStand(r.b, sent + r.out, calls + [tcs[0]], tcs[1..], codec);
        Assoc(sent, r.out, ProcessToolCalls(r.b, tcs[1..], codec).out);
        Assoc(calls, [tcs[0]], rest);
        PrefixJoin([tcs[0]], rest, tcs[1..]);
        handled := handled + rest;
      }
    }
  }

  lemma FirstFragment(b: Builder, tcs: seq<ToolDelta>, codec: Codec)
    requires tcs != []
    ensures tcs == [tcs[0]] + tcs[1..]
    ensures var r := ProcessToolCall(b, tcs[0], codec); var q := ProcessToolCalls(r.b, tcs[1..], codec);
            ProcessToolCalls(b, tcs, codec) == if r.raised then r else Emitted(q.b, r.out + q.out, q.raised)
  {
  }

  /** What a chunk sends before its native tool calls, but for the stops that make way for them. */
  function ContentOut(s: Stream, chunk: Chunk, cfg: Config): seq<Event>
    requires chunk.Turn?
  {
    var (b1, out) := Reason(s.b, chunk.reasoning, cfg.thinking);
    out + FeedContent(s.(b := b1), chunk.content, cfg).1
  }

  /** Everything of a chunk that comes before its native tool calls. */
  lemma BeforeTools(s: Stream, sent: seq<Event>, calls: seq<ToolDelta>, chunk: Chunk, cfg: Config)
    returns (b: Builder, out: seq<Event>, stops: seq<Event>)
    requires chunk.Turn? && Stands(s.b, sent, calls, true, cfg.codec)
    ensures Stands(b, sent + out, calls, true, cfg.codec)
    ensures out == ContentOut(s, chunk, cfg) + stops && forall e | e in stops :: e.BlockStop?
    ensures var r, q := OneChunk(s, chunk, cfg), ProcessToolCalls(b, chunk.toolCalls, cfg.codec);
            r.s.b == q.b && r.out == out + q.out && r.raised == (q.raised || chunk.breaks)
  {
    var c :| Run(START, sent) == Some(c) && Mirrors(c, s.b);
    var (b1, out1) := Reason(s.b, chunk.reasoning, cfg.thinking);
    ReasonReaches(c, s.b, chunk.reasoning, cfg.thinking, cfg.codec);
    ContentStands(c, s.b, sent, calls, out1, b1, cfg.codec);
    var c1 :| Run(START, sent + out1) == Some(c1) && Mirrors(c1, b1);
    var (s2, out2) := FeedContent(s.(b := b1), chunk.content, cfg);
    FeedReaches(c1, s.(b := b1), chunk.content, cfg);
    ContentStands(c1, b1, sent + out1, calls, out2, s2.b, cfg.codec);
    Assoc(sent, out1, out2);
    b, stops := ClosedForTools(s2.b, sent + (out1 + out2), calls, chunk.toolCalls, cfg.codec);
    out := out1 + out2 + stops;
    Assoc(sent, out1 + out2, stops);
    Assoc(out1 + out2, stops, ProcessToolCalls(b, chunk.toolCalls, cfg.codec).out);
  }

  lemma ClosedForTools(b: Builder, sent: seq<Event>, calls: seq<ToolDelta>, tcs: seq<ToolDelta>, codec: Codec)
    returns (b': Builder, stops: seq<Event>)
    requires Stands(b, sent, calls, true, codec)
    ensures Stands(b', sent + stops, calls, true, codec) && forall e | e in stops :: e.BlockStop?
    ensures var r, q := CallTools(b, tcs, codec), ProcessToolCalls(b', tcs, codec);
            r.b == q.b && r.out == stops + q.out && r.raised == q.raised
  {
    if tcs == [] {
      b', stops := b, [];
      AppendNone(sent);
    } else {
      var c :| Run(START, sent) == Some(c) && Mirrors(c, b);
      b', stops := CloseContentBlocks(b).0, CloseContentBlocks(b).1;
      CloseContentReaches(c, b);
      ContentStands(c, b, sent, calls, stops, b', codec);
    }
  }

  lemma FeedReaches(c: Check, s: Stream, content: string, cfg: Config)
    requires Mirrors(c, s.b) && Sane(s.b, cfg.codec)
    ensures var (s', out) := FeedContent(s, content, cfg);
            Reaches(c, s.b, out, s'.b) && Sane(s'.b, cfg.codec) && s'.b.tools == s.b.tools
  {
    if content == "" {
      Stay(c, s.b);
    } else {
      var (parser, parts) := ThinkParser.Feed(s.parser, content);
      PartsReach(c, s.(parser := parser), parts, cfg);
      PartsKeepTools(s.(parser := parser), parts, cfg);
    }
  }

  lemma Unsettle(b: Builder, sent: seq<Event>, calls: seq<ToolDelta>, raised: bool, codec: Codec)
    requires Stands(b, sent, calls, !raised, codec)
    ensures Stands(b, sent, calls, false, codec)
  {
    SettleAll(b, calls, codec);
  }

  lemma ChunkStands(s: Stream, sent: seq<Event>, calls: seq<ToolDelta>, chunk: Chunk, cfg: Config)
    returns (handled: seq<ToolDelta>)
    requires Stands(s.b, sent, calls, true, cfg.codec)
    ensures var r := OneChunk(s, chunk, cfg);
            && handled <= CallsOf([chunk]) && (!r.raised ==> handled == CallsOf([chunk]))
            && Stands(r.s.b, sent + r.out, calls + handled, !r.raised, cfg.codec)
  {
    assert [chunk][1..] == [];
    AppendNone(if chunk.Turn? then chunk.toolCalls else []);
    if chunk.Turn? {
      var b, out, stops := BeforeTools(s, sent, calls, chunk, cfg);
      handled := FragmentsStand(b, sent + out, calls, chunk.toolCalls, cfg.codec);
      Assoc(sent, out, ProcessToolCalls(b, chunk.toolCalls, cfg.codec).out);
      if chunk.breaks {
        Unsettle(OneChunk(s, chunk, cfg).s.b, sent + OneChunk(s, chunk, cfg).out, calls + handled,
                 ProcessToolCalls(b, chunk.toolCalls, cfg.codec).raised, cfg.codec);
      }
    } else {
      handled := [];
      AppendNone(calls);
      AppendNone(sent);
    }
  }

  lemma {:induction false} LoopStands(s: Stream, sent: seq<Event>, calls: seq<ToolDelta>, chunks: seq<Chunk>,
                                      cfg: Config)
    returns (handled: seq<ToolDelta>)
    requires Stands(s.b, sent, calls, true, cfg.codec)
    ensures var r := Loop(s, chunks, cfg);
            && handled <= CallsOf(chunks) && (!r.raised ==> handled == CallsOf(chunks))
            && Stands(r.s.b, sent + r.out, calls + handled, !r.raised, cfg.codec)
    decreases |chunks|
  {
    if chunks == [] {
      handled := [];
      AppendNone(calls);
      AppendNone(sent);
    } else {
      CallsFirst(chunks);
      handled := ChunkStands(s, sent, calls, chunks[0], cfg);
      var r := OneChunk(s, chunks[0], cfg);
      if !r.raised {
        var rest := LoopStands(r.s, sent + r.out, calls + handled, chunks[1..], cfg);
        Assoc(sent, r.out, Loop(r.s, chunks[1..], cfg).out);
        Assoc(calls, handled, rest);
        PrefixJoin(handled, rest, CallsOf(chunks[1..]));
        handled := handled + rest;
      }
    }
  }

  // ----- the endings -----

  lemma {:induction false} StopsStartNothing(tools: map<int, ToolCall>, keys: seq<int>)
    ensures forall e | e in ToolStops(tools, keys) :: !e.BlockStart?
  {
    if keys != [] {
      StopsStartNothing(tools, keys[1..]);
    }
  }

  lemma CloseStartsNothing(b: Builder, chunks: seq<Chunk>, cfg: Config, x: int)
    ensures StartsAt(CloseAllBlocks(b).1, x) == [] && StartsAt(Ending(b, chunks, cfg), x) == []
  {
    var b1 := CloseContentBlocks(b).0;
    StopsStartNothing(b1.tools, b1.order);
    NoStarts(CloseAllBlocks(b).1, x);
    NoStarts(Ending(b, chunks, cfg), x);
  }

  lemma FailureStartsNothing(b: Builder, message: string, x: int)
    requires x < b.nextIndex
    ensures StartsAt(FailureEnding(b, message), x) == []
  {
    var (b1, out) := CloseAllBlocks(b);
    StopsStartNothing(CloseContentBlocks(b).0.tools, CloseContentBlocks(b).0.order);
    assert forall e | e in out :: !e.BlockStart?;
    NoStarts(FailureEnding(b, message), x);
  }

  lemma EndingStartsNothing(start: Event, chunks: seq<Chunk>, fails: bool, message: string, cfg: Config,
                            k: int)
    requires start.MessageStart? && IsStarted(After(chunks, cfg).s.b, k)
    ensures var r := After(chunks, cfg); var x := Slot(r.s.b, k);
            StartsAt(Response(start, chunks, fails, message, cfg), x) == StartsAt([start] + r.out, x)
  {
    var r := After(chunks, cfg);
    var x := Slot(r.s.b, k);
    ResponseShape(start, chunks, fails, message, cfg);
    EmptyMirrors(cfg.codec);
    LoopReaches(START, FRESH, chunks, cfg);
    var c := Run(START, r.out).value;
    assert Holds(r.s.b, Tool(k), x);
    AppendNone(StartsAt([start] + r.out, x));
    if !fails && !r.raised {
      var q := BeforeClose(r.s, cfg);
      BeforeCloseReaches(c, r.s, cfg);
      StartsAreFresh(c, q.out, x);
      CloseStartsNothing(q.b, chunks, cfg, x);
      StartsAtAppend([start] + r.out, q.out, x);
      StartsAtAppend([start] + r.out + q.out, if q.raised then [] else Ending(q.b, chunks, cfg), x);
    } else {
      FailureStartsNothing(r.s.b, message, x);
      StartsAtAppend([start] + r.out, FailureEnding(r.s.b, message), x);
    }
  }

  /**
   * The block of a native tool call is announced exactly once in the whole response, also in a
   * failing one, under the first name that its fragments spell and the last id that had arrived by
   * then, or a generated one; a tool whose fragments spell no name is not announced.
   */
  lemma ToolsAreAnnounced(id: string, model: string, chunks: seq<Chunk>, fails: bool, message: string, cfg: Config,
                          k: int)
    returns (handled: seq<ToolDelta>)
    ensures handled <= CallsOf(chunks) && (!After(chunks, cfg).raised ==> handled == CallsOf(chunks))
    ensures var b, out := After(chunks, cfg).s.b,
                          Response(MessageStart(id, model), chunks, fails, message, cfg);
            && (IsStarted(b, k) <==> Opening(handled, k).Some?)
            && (IsStarted(b, k) ==> StartsAt(out, Slot(b, k)) == [Opening(handled, k).value])
  {
    var start := MessageStart(id, model);
    handled := Introduction(start, chunks, cfg, k);
    if IsStarted(After(chunks, cfg).s.b, k) {
      EndingStartsNothing(start, chunks, fails, message, cfg, k);
    }
  }

  lemma Introduction(start: Event, chunks: seq<Chunk>, cfg: Config, k: int) returns (handled: seq<ToolDelta>)
    requires start.MessageStart?
    ensures handled <= CallsOf(chunks) && (!After(chunks, cfg).raised ==> handled == CallsOf(chunks))
    ensures ToolIntroduced(After(chunks, cfg).s.b, [start] + After(chunks, cfg).out, handled, k)
  {
    NothingKnown(cfg.codec);
    EmptyMirrors(cfg.codec);
    RunOne(START, start);
    assert Introduced(EMPTY, [start], []);
    handled := LoopStands(FRESH, [start], [], chunks, cfg);
    AppendNone(handled);
  }
}
