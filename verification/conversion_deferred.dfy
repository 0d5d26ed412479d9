/**
 * Deferred assistant content is never lost: how often the conversion emits it is what the history
 * says, and that is once where the results answer the calls.
 */
module ConversionDeferred {
  import opened Text
  import opened Conversion

  /** How often the deferred content of message `o` is emitted. */
  function Count(out: seq<Out>, o: nat): nat {
    if out == [] then 0 else (if out[0].deferredOf == Some(o) then 1 else 0) + Count(out[1..], o)
  }

  lemma {:induction false} CountAppend(a: seq<Out>, b: seq<Out>, o: nat)
    ensures Count(a + b, o) == Count(a, o) + Count(b, o)
  {
    if a == [] {
      assert a + b == b;
    } else {
      assert (a + b)[1..] == a[1..] + b;
      CountAppend(a[1..], b, o);
    }
  }

  lemma CountOne(x: Out, o: nat)
    ensures Count([x], o) == if x.deferredOf == Some(o) then 1 else 0
  {
    assert [x][1..] == [];
  }

  // ----- what a history says -----

  /** The results of a user message that leave none of `remaining`: the completing one and all later ones. */
  function Completing(blocks: seq<Block>, remaining: set<string>): nat
    decreases |blocks|
  {
    if blocks == [] then 0
    else if blocks[0].ToolResult? then
      var left := remaining - {if blocks[0].useId.Some? then blocks[0].useId.value else ""};
      (if left == {} then 1 else 0) + Completing(blocks[1..], left)
    else Completing(blocks[1..], remaining)
  }

  function ResultIds(blocks: seq<Block>): seq<string> {
    if blocks == [] then []
    else
      (if !blocks[0].ToolResult? then []
       else [if blocks[0].useId.Some? then blocks[0].useId.value else ""])
      + ResultIds(blocks[1..])
  }

  function IdSet(ids: seq<string>): set<string> {
    set x | x in ids
  }

  /** Messages that leave deferred content alone: an assistant string, or a role that is neither user nor assistant. */
  predicate PassesBy(m: Message) {
    m.role != "user" && !(m.role == "assistant" && m.content.Blocks?)
  }

  /** How often content is emitted that is deferred until `remaining` have their results. */
  function Emissions(messages: seq<Message>, remaining: set<string>): nat
    decreases |messages|
  {
    if messages == [] then 1
    else if PassesBy(messages[0]) then Emissions(messages[1..], remaining)
    else if messages[0].role == "assistant" || !messages[0].content.Blocks? || remaining == {} then 1
    else
      var n := Completing(messages[0].content.blocks, remaining);
      if n > 0 then n else Emissions(messages[1..], remaining - IdSet(ResultIds(messages[0].content.blocks)))
  }

  lemma {:induction false} NeverLost(messages: seq<Message>, remaining: set<string>)
    ensures Emissions(messages, remaining) >= 1
    decreases |messages|
  {
    if messages != [] {
      NeverLost(messages[1..], remaining);
      if messages[0].content.Blocks? {
        NeverLost(messages[1..], remaining - IdSet(ResultIds(messages[0].content.blocks)));
      }
    }
  }

  // ----- the scan of a user message -----

  lemma FlushedCount(s: Scan, o: nat)
    ensures Count(Flushed(s), o) == Count(s.out, o)
  {
    if s.texts != [] {
      var text := Out(Other("user", Join(s.texts, "\n")), None);
      CountAppend(s.out, [text], o);
      CountOne(text, o);
    }
  }

  lemma BlockCount(s: Scan, b: Block, p: Pending, o: nat)
    ensures var s' := ScanBlock(s, b, Some(p));
            var left := if b.ToolResult? then s.remaining - {ResultId(b)} else s.remaining;
            && s'.remaining == left && s'.cleared == (s.cleared || (b.ToolResult? && left == {}))
            && Count(s'.out, o) == Count(s.out, o) + if b.ToolResult? && left == {} && p.owner == o then 1 else 0
  {
    if b.ToolResult? {
      var tool, deferred := Out(Tool(b.useId, b.result), None), Out(p.deferred, Some(p.owner));
      FlushedCount(s, o);
      CountAppend(Flushed(s), [tool], o);
      CountOne(tool, o);
      CountAppend(Flushed(s) + [tool], [deferred], o);
      CountOne(deferred, o);
    }
  }

  lemma {:induction false} ScanCount(s: Scan, blocks: seq<Block>, p: Pending, o: nat)
    ensures var s' := ScanAll(s, blocks, Some(p)); var n := Completing(blocks, s.remaining);
            && s'.remaining == s.remaining - IdSet(ResultIds(blocks)) && s'.cleared == (s.cleared || n > 0)
            && Count(Flushed(s'), o) == Count(s.out, o) + if p.owner == o then n else 0
    decreases |blocks|
  {
    if blocks == [] {
      FlushedCount(s, o);
    } else {
      BlockCount(s, blocks[0], p, o);
      ScanCount(ScanBlock(s, blocks[0], Some(p)), blocks[1..], p, o);
      if blocks[0].ToolResult? {
        assert IdSet(ResultIds(blocks)) == {ResultId(blocks[0])} + IdSet(ResultIds(blocks[1..]));
      } else {
        assert ResultIds(blocks) == ResultIds(blocks[1..]);
      }
    }
  }

  lemma {:induction false} PlainScanCount(s: Scan, blocks: seq<Block>, o: nat)
    ensures Count(Flushed(ScanAll(s, blocks, None)), o) == Count(s.out, o)
    decreases |blocks|
  {
    if blocks == [] {
      FlushedCount(s, o);
    } else {
      if blocks[0].ToolResult? {
        var tool := Out(Tool(blocks[0].useId, blocks[0].result), None);
        FlushedCount(s, o);
        CountAppend(Flushed(s), [tool], o);
        CountOne(tool, o);
      }
      PlainScanCount(ScanBlock(s, blocks[0], None), blocks[1..], o);
    }
  }

  // ----- the history -----

  /** What is still to be emitted of message `o`'s deferred content. */
  function Due(st: State, messages: seq<Message>, o: nat): nat {
    if st.pending.Some? && st.pending.value.owner == o then Emissions(messages, st.pending.value.remaining) else 0
  }

  lemma SettledCount(st: State, o: nat)
    ensures Count(Settled(st).out, o) ==
              Count(st.out, o) + if st.pending.Some? && st.pending.value.owner == o then 1 else 0
  {
    if st.pending.Some? {
      var deferred := Out(st.pending.value.deferred, Some(st.pending.value.owner));
      CountAppend(st.out, [deferred], o);
      CountOne(deferred, o);
    }
  }

  lemma UserCount(st: State, blocks: seq<Block>, rest: seq<Message>, m: Message, o: nat)
    requires m.role == "user" && m.content == Blocks(blocks)
    ensures var st' := UserStep(st, blocks);
            Count(st'.out, o) + Due(st', rest, o) == Count(st.out, o) + Due(st, [m] + rest, o)
  {
    assert ([m] + rest)[1..] == rest;
    SettledCount(st, o);
    PlainScanCount(StartScan(None), blocks, o);
    CountAppend(Settled(st).out, UserMessages(blocks, None), o);
    if st.pending.Some? && st.pending.value.remaining != {} {
      ScanCount(StartScan(st.pending), blocks, st.pending.value, o);
      CountAppend(st.out, Flushed(ScanAll(StartScan(st.pending), blocks, st.pending)), o);
    }
  }

  lemma StepCount(st: State, i: nat, m: Message, rest: seq<Message>, replay: Replay, o: nat)
    requires o < i
    ensures var st' := StepMessage(st, i, m, replay);
            Count(st'.out, o) + Due(st', rest, o) == Count(st.out, o) + Due(st, [m] + rest, o)
  {
    assert ([m] + rest)[1..] == rest;
    SettledCount(st, o);
    if m.role == "assistant" && m.content.Blocks? {
      var blocks, reasoning := m.content.blocks, Cleaned(m.reasoning);
      var x := Out(if FirstToolUse(blocks) < |blocks| then SplitMessage(blocks, reasoning, replay)
                   else AssistantMessage(blocks, reasoning, replay), None);
      CountAppend(Settled(st).out, [x], o);
      CountOne(x, o);
    } else if !m.content.Blocks? {
      var x := Out(PlainMessage(m, replay), None);
      CountAppend(Settled(st).out, [x], o);
      CountAppend(st.out, [x], o);
      CountOne(x, o);
    } else if m.role == "user" {
      UserCount(st, m.content.blocks, rest, m, o);
    }
  }

  lemma FirstCount(st: State, i: nat, messages: seq<Message>, replay: Replay, o: nat)
    requires o < i && messages != []
    ensures var st' := StepMessage(st, i, messages[0], replay);
            Count(st'.out, o) + Due(st', messages[1..], o) == Count(st.out, o) + Due(st, messages, o)
  {
    assert messages == [messages[0]] + messages[1..];
    StepCount(st, i, messages[0], messages[1..], replay, o);
  }

  lemma {:induction false} RunCount(st: State, i: nat, messages: seq<Message>, replay: Replay, o: nat)
    requires o < i
    ensures Count(Settled(Run(st, i, messages, replay)).out, o) == Count(st.out, o) + Due(st, messages, o)
    decreases |messages|
  {
    if messages == [] {
      SettledCount(st, o);
    } else {
      FirstCount(st, i, messages, replay, o);
      RunFirst(st, i, messages, replay);
      RunCount(StepMessage(st, i, messages[0], replay), i + 1, messages[1..], replay, o);
    }
  }

  /** An assistant message with tool uses and with other blocks after the first of them. */
  predicate Defers(m: Message) {
    m.role == "assistant" && m.content.Blocks? && FirstToolUse(m.content.blocks) < |m.content.blocks|
      && DeferredBlocks(m.content.blocks) != []
  }

  function CallIds(m: Message): set<string>
    requires m.content.Blocks?
  {
    IdsOf(ToolUses(m.content.blocks))
  }

  function DeferredMessage(m: Message, replay: Replay): Converted
    requires m.content.Blocks?
  {
    AssistantMessage(DeferredBlocks(m.content.blocks), Cleaned(m.reasoning), replay)
  }

  /** Every emission so far, and the one to come, belongs to an earlier deferring message and carries its blocks. */
  ghost predicate Owned(st: State, messages: seq<Message>, i: nat, replay: Replay) {
    && i <= |messages|
    && (forall k | 0 <= k < |st.out| && st.out[k].deferredOf.Some? :: OwnedOut(st.out[k], messages, i, replay))
    && (st.pending.Some? ==>
          OwnedOut(Out(st.pending.value.deferred, Some(st.pending.value.owner)), messages, i, replay))
  }

  predicate OwnedOut(x: Out, messages: seq<Message>, i: nat, replay: Replay)
    requires i <= |messages|
  {
    x.deferredOf.Some? ==>
      var o := x.deferredOf.value; o < i && Defers(messages[o]) && x.msg == DeferredMessage(messages[o], replay)
  }

  ghost predicate OwnedAll(out: seq<Out>, messages: seq<Message>, i: nat, replay: Replay)
    requires i <= |messages|
  {
    forall k | 0 <= k < |out| :: OwnedOut(out[k], messages, i, replay)
  }

  lemma {:induction false} ScanOwned(s: Scan, blocks: seq<Block>, pending: Option<Pending>, messages: seq<Message>,
                                     i: nat, replay: Replay)
    requires i <= |messages| && OwnedAll(s.out, messages, i, replay)
    requires pending.Some? ==> OwnedOut(Out(pending.value.deferred, Some(pending.value.owner)), messages, i, replay)
    ensures OwnedAll(Flushed(ScanAll(s, blocks, pending)), messages, i, replay)
    decreases |blocks|
  {
    if blocks != [] {
      ScanOwned(ScanBlock(s, blocks[0], pending), blocks[1..], pending, messages, i, replay);
    }
  }

  lemma StepOwned(st: State, messages: seq<Message>, i: nat, replay: Replay)
    requires i < |messages| && Owned(st, messages, i, replay)
    ensures Owned(StepMessage(st, i, messages[i], replay), messages, i + 1, replay)
  {
    var m := messages[i];
    SettledOwned(st, messages, i, replay);
    if m.role == "user" && m.content.Blocks? {
      UserOwned(st, m.content.blocks, messages, i, replay);
    } else if m.role == "assistant" && m.content.Blocks? {
      AssistantOwned(st, messages, i, replay);
    }
  }

  lemma SettledOwned(st: State, messages: seq<Message>, i: nat, replay: Replay)
    requires Owned(st, messages, i, replay)
    ensures OwnedAll(st.out, messages, i, replay) && OwnedAll(Settled(st).out, messages, i, replay)
  {
  }

  lemma OwnedLater(out: seq<Out>, messages: seq<Message>, i: nat, replay: Replay)
    requires i < |messages| && OwnedAll(out, messages, i, replay)
    ensures OwnedAll(out, messages, i + 1, replay)
  {
    forall k | 0 <= k < |out| ensures OwnedOut(out[k], messages, i + 1, replay) {
      assert OwnedOut(out[k], messages, i, replay);
    }
  }

  lemma UserOwned(st: State, blocks: seq<Block>, messages: seq<Message>, i: nat, replay: Replay)
    requires i < |messages| && Owned(st, messages, i, replay)
    ensures Owned(UserStep(st, blocks), messages, i + 1, replay)
  {
    SettledOwned(st, messages, i, replay);
    ScanOwned(StartScan(None), blocks, None, messages, i, replay);
    ScanOwned(StartScan(st.pending), blocks, st.pending, messages, i, replay);
    OwnedLater(UserStep(st, blocks).out, messages, i, replay);
  }

  lemma AssistantOwned(st: State, messages: seq<Message>, i: nat, replay: Replay)
    requires i < |messages| && Owned(st, messages, i, replay) && messages[i].role == "assistant"
             && messages[i].content.Blocks?
    ensures Owned(AssistantStep(st, i, messages[i], replay), messages, i + 1, replay)
  {
    SettledOwned(st, messages, i, replay);
    OwnedLater(AssistantStep(st, i, messages[i], replay).out, messages, i, replay);
  }

  lemma {:induction false} RunOwned(st: State, messages: seq<Message>, i: nat, replay: Replay)
    requires i <= |messages| && Owned(st, messages, i, replay)
    ensures Owned(Run(st, i, messages[i..], replay), messages, |messages|, replay)
    decreases |messages| - i
  {
    if i < |messages| {
      assert messages[i..][0] == messages[i] && messages[i..][1..] == messages[i + 1..];
      StepOwned(st, messages, i, replay);
      RunOwned(StepMessage(st, i, messages[i], replay), messages, i + 1, replay);
    }
  }

  /** Deferred content appears only as the deferred message of a message that defers. */
  lemma EmissionsAreDeferred(messages: seq<Message>, replay: Replay, k: nat)
    requires k < |Convert(messages, replay)| && Convert(messages, replay)[k].deferredOf.Some?
    ensures var x := Convert(messages, replay)[k]; var o := x.deferredOf.value;
            o < |messages| && Defers(messages[o]) && x.msg == DeferredMessage(messages[o], replay)
  {
    AllOwned(EMPTY, 0, messages, replay);
    assert messages[0..] == messages;
    assert OwnedOut(Convert(messages, replay)[k], messages, |messages|, replay);
  }

  lemma AllOwned(st: State, i: nat, messages: seq<Message>, replay: Replay)
    requires i <= |messages| && Owned(st, messages, i, replay)
    ensures OwnedAll(Settled(Run(st, i, messages[i..], replay)).out, messages, |messages|, replay)
  {
    RunOwned(st, messages, i, replay);
    SettledOwned(Run(st, i, messages[i..], replay), messages, |messages|, replay);
  }

  lemma {:induction false} RunSplit(st: State, i: nat, all: seq<Message>, a: seq<Message>, b: seq<Message>, j: nat,
                                    replay: Replay)
    requires all == a + b && j == i + |a|
    ensures Run(st, i, all, replay) == Run(Run(st, i, a, replay), j, b, replay)
    decreases |a|
  {
    if a == [] {
      assert all == b && i == j && Run(st, i, a, replay) == st;
    } else {
      assert all[0] == a[0] && all[1..] == a[1..] + b;
      RunFirst(st, i, all, replay);
      RunFirst(st, i, a, replay);
      RunSplit(StepMessage(st, i, a[0], replay), i + 1, all[1..], a[1..], b, j, replay);
    }
  }

  lemma {:induction false} NoneYet(out: seq<Out>, messages: seq<Message>, o: nat, replay: Replay)
    requires o <= |messages| && OwnedAll(out, messages, o, replay)
    ensures Count(out, o) == 0
    decreases |out|
  {
    if out != [] {
      assert OwnedOut(out[0], messages, o, replay);
      assert forall k | 0 <= k < |out| - 1 :: out[1..][k] == out[k + 1];
      NoneYet(out[1..], messages, o, replay);
    }
  }

  lemma NothingEmittedBefore(messages: seq<Message>, o: nat, replay: Replay)
    requires o < |messages|
    ensures Count(Settled(Run(EMPTY, 0, messages[..o], replay)).out, o) == 0
  {
    var before := messages[..o];
    AllOwned(EMPTY, 0, before, replay);
    assert before[0..] == before;
    NoneYet(Settled(Run(EMPTY, 0, before, replay)).out, before, o, replay);
  }

  lemma DeferringStep(st: State, o: nat, m: Message, rest: seq<Message>, replay: Replay)
    requires Defers(m) && Count(Settled(st).out, o) == 0
    ensures var st' := StepMessage(st, o, m, replay);
            Count(st'.out, o) == 0 && Due(st', rest, o) == Emissions(rest, CallIds(m))
  {
    var x := Out(SplitMessage(m.content.blocks, Cleaned(m.reasoning), replay), None);
    CountAppend(Settled(st).out, [x], o);
    CountOne(x, o);
  }

  /**
   * The deferred content of a message is emitted as often as the messages after it say: at least
   * once, whatever follows.
   */
  lemma DeferredIsNeverLost(messages: seq<Message>, replay: Replay, o: nat)
    requires o < |messages| && Defers(messages[o])
    ensures Count(Convert(messages, replay), o) == Emissions(messages[o + 1..], CallIds(messages[o])) >= 1
  {
    var before, m, rest := messages[..o], messages[o], messages[o + 1..];
    var st := Run(EMPTY, 0, before, replay);
    var st' := StepMessage(st, o, m, replay);
    ConvertFrom(messages, replay, o);
    NothingEmittedBefore(messages, o, replay);
    DeferringStep(st, o, m, rest, replay);
    RunCount(st', o + 1, rest, replay, o);
    NeverLost(rest, CallIds(m));
  }

  lemma CutAt(messages: seq<Message>, o: nat)
    requires o < |messages|
    ensures messages == messages[..o] + messages[o..] && messages[o..][0] == messages[o]
            && messages[o..][1..] == messages[o + 1..]
    ensures |messages[..o]| == o
  {
  }

  lemma RunFrom(messages: seq<Message>, replay: Replay, o: nat)
    requires o < |messages|
    ensures Run(EMPTY, 0, messages, replay) == Run(Run(EMPTY, 0, messages[..o], replay), o, messages[o..], replay)
  {
    CutAt(messages, o);
    RunSplit(EMPTY, 0, messages, messages[..o], messages[o..], o, replay);
  }

  lemma ConvertFrom(messages: seq<Message>, replay: Replay, o: nat)
    requires o < |messages|
    ensures var st' := StepMessage(Run(EMPTY, 0, messages[..o], replay), o, messages[o], replay);
            Convert(messages, replay) == Settled(Run(st', o + 1, messages[o + 1..], replay)).out
  {
    RunFrom(messages, replay, o);
    RunFirst(Run(EMPTY, 0, messages[..o], replay), o, messages[o..], replay);
    CutAt(messages, o);
  }

  lemma RunFirst(st: State, i: nat, messages: seq<Message>, replay: Replay)
    requires messages != []
    ensures Run(st, i, messages, replay) == Run(StepMessage(st, i, messages[0], replay), i + 1, messages[1..], replay)
  {
  }

  // ----- exactly once -----

  /** The first result that leaves no call open is not the last result of its message. */
  predicate Repeats(messages: seq<Message>, remaining: set<string>)
    decreases |messages|
  {
    messages != [] &&
    if PassesBy(messages[0]) then Repeats(messages[1..], remaining)
    else if messages[0].role == "assistant" || !messages[0].content.Blocks? || remaining == {} then false
    else
      var ids := ResultIds(messages[0].content.blocks);
      if remaining <= IdSet(ids) then ids != [] && remaining <= IdSet(ids[..|ids| - 1])
      else Repeats(messages[1..], remaining - IdSet(ids))
  }

  /** Counting the completing results of a message by its ids alone. */
  function CompletingIds(ids: seq<string>, remaining: set<string>): nat
    decreases |ids|
  {
    if ids == [] then 0
    else (if remaining - {ids[0]} == {} then 1 else 0) + CompletingIds(ids[1..], remaining - {ids[0]})
  }

  lemma {:induction false} CompletingByIds(blocks: seq<Block>, remaining: set<string>)
    ensures Completing(blocks, remaining) == CompletingIds(ResultIds(blocks), remaining)
    decreases |blocks|
  {
    if blocks != [] {
      if blocks[0].ToolResult? {
        CompletingByIds(blocks[1..], remaining - {ResultId(blocks[0])});
        assert ResultIds(blocks)[1..] == ResultIds(blocks[1..]);
      } else {
        CompletingByIds(blocks[1..], remaining);
        assert ResultIds(blocks) == ResultIds(blocks[1..]);
      }
    }
  }

  lemma {:induction false} AllComplete(ids: seq<string>)
    ensures CompletingIds(ids, {}) == |ids|
    decreases |ids|
  {
    if ids != [] {
      assert {} - {ids[0]} == {};
      AllComplete(ids[1..]);
    }
  }

  /** A message completes the calls if its ids cover them, and once if the last id is needed for that. */
  lemma {:induction false} CompletesOnceIff(ids: seq<string>, remaining: set<string>)
    requires remaining != {}
    ensures CompletingIds(ids, remaining) > 0 <==> remaining <= IdSet(ids)
    ensures remaining <= IdSet(ids) ==>
              ids != [] && (CompletingIds(ids, remaining) > 1 <==> remaining <= IdSet(ids[..|ids| - 1]))
    decreases |ids|
  {
    if ids == [] {
      var x :| x in remaining;
      assert x !in IdSet(ids);
    } else {
      var left := remaining - {ids[0]};
      CoversRest(ids, remaining);
      if left == {} {
        AllComplete(ids[1..]);
        if |ids| > 1 {
          assert ids[..|ids| - 1][0] == ids[0] && ids[0] in IdSet(ids[..|ids| - 1]);
          forall x | x in remaining ensures x == ids[0] {
            assert x == ids[0] || x in left;
          }
        } else {
          var x :| x in remaining;
          assert x !in IdSet(ids[..|ids| - 1]);
        }
      } else {
        CompletesOnceIff(ids[1..], left);
        if |ids| > 1 {
          CoversRest(ids[..|ids| - 1], remaining);
          assert ids[1..][..|ids[1..]| - 1] == ids[..|ids| - 1][1..];
        }
      }
    }
  }

  lemma CoversRest(ids: seq<string>, remaining: set<string>)
    requires ids != []
    ensures remaining <= IdSet(ids) <==> remaining - {ids[0]} <= IdSet(ids[1..])
  {
    assert ids == [ids[0]] + ids[1..];
    assert IdSet(ids) == {ids[0]} + IdSet(ids[1..]);
  }

  lemma {:induction false} OnceIffNoRepeat(messages: seq<Message>, remaining: set<string>)
    ensures Emissions(messages, remaining) == 1 <==> !Repeats(messages, remaining)
    decreases |messages|
  {
    if messages != [] {
      if PassesBy(messages[0]) {
        OnceIffNoRepeat(messages[1..], remaining);
      } else if messages[0].role != "assistant" && messages[0].content.Blocks? && remaining != {} {
        var blocks := messages[0].content.blocks;
        CompletingByIds(blocks, remaining);
        CompletesOnceIff(ResultIds(blocks), remaining);
        OnceIffNoRepeat(messages[1..], remaining - IdSet(ResultIds(blocks)));
      }
    }
  }

  /**
   * Deferred content is emitted exactly once unless a further result follows, in the same message,
   * the one that completes the calls.
   */
  lemma ExactlyOnceIff(messages: seq<Message>, replay: Replay, o: nat)
    requires o < |messages| && Defers(messages[o])
    ensures Count(Convert(messages, replay), o) == 1 <==> !Repeats(messages[o + 1..], CallIds(messages[o]))
  {
    DeferredIsNeverLost(messages, replay, o);
    OnceIffNoRepeat(messages[o + 1..], CallIds(messages[o]));
  }

  /** Distinct results that all belong to the pending calls never repeat. */
  lemma DistinctResultsDoNotRepeat(ids: seq<string>, remaining: set<string>)
    requires ids != [] && (forall i, j | 0 <= i < j < |ids| :: ids[i] != ids[j]) && IdSet(ids) <= remaining
    ensures !(remaining <= IdSet(ids[..|ids| - 1]))
  {
    var last := ids[|ids| - 1];
    assert last in IdSet(ids) && last !in IdSet(ids[..|ids| - 1]);
  }

  function AllIds(messages: seq<Message>): seq<string> {
    if messages == [] then []
    else (if messages[0].content.Blocks? then ResultIds(messages[0].content.blocks) else []) + AllIds(messages[1..])
  }

  lemma DistinctParts(a: seq<string>, b: seq<string>)
    requires Distinct(a + b)
    ensures Distinct(a) && Distinct(b) && IdSet(a + b) - IdSet(a) == IdSet(b)
  {
    var all := a + b;
    assert forall i | 0 <= i < |a| :: all[i] == a[i];
    assert forall i | 0 <= i < |b| :: all[|a| + i] == b[i];
  }

  lemma {:induction false} NoneRemaining(messages: seq<Message>)
    ensures !Repeats(messages, {})
    decreases |messages|
  {
    if messages != [] {
      NoneRemaining(messages[1..]);
    }
  }

  lemma {:induction false} AnswersDoNotRepeat(answers: seq<Message>, rest: seq<Message>, remaining: set<string>)
    requires forall k | 0 <= k < |answers| :: answers[k].role == "user" && answers[k].content.Blocks?
    requires Distinct(AllIds(answers)) && IdSet(AllIds(answers)) == remaining
    ensures !Repeats(answers + rest, remaining)
    decreases |answers|
  {
    if answers == [] {
      assert answers + rest == rest && AllIds(answers) == [] && remaining == {};
      NoneRemaining(rest);
    } else {
      var all, ids := answers + rest, ResultIds(answers[0].content.blocks);
      assert all[0] == answers[0] && all[1..] == answers[1..] + rest;
      assert AllIds(answers) == ids + AllIds(answers[1..]);
      DistinctParts(ids, AllIds(answers[1..]));
      if remaining != {} {
        if remaining <= IdSet(ids) {
          DistinctAnswers(ids, AllIds(answers), remaining);
        } else {
          AnswersDoNotRepeat(answers[1..], rest, remaining - IdSet(ids));
        }
      }
    }
  }

  lemma DistinctAnswers(ids: seq<string>, all: seq<string>, remaining: set<string>)
    requires Distinct(ids) && ids <= all && IdSet(all) == remaining && remaining != {} && remaining <= IdSet(ids)
    ensures !(ids != [] && remaining <= IdSet(ids[..|ids| - 1]))
  {
    if ids != [] {
      assert forall x | x in ids :: x in all;
      DistinctResultsDoNotRepeat(ids, remaining);
    }
  }

  /**
   * If the next messages are user messages whose results are distinct and are those of the pending
   * calls, then the deferred content is emitted exactly once, whatever comes later.
   */
  lemma AnsweredOnce(before: seq<Message>, m: Message, answers: seq<Message>, rest: seq<Message>, replay: Replay)
    requires Defers(m)
    requires forall k | 0 <= k < |answers| :: answers[k].role == "user" && answers[k].content.Blocks?
    requires Distinct(AllIds(answers)) && IdSet(AllIds(answers)) == CallIds(m)
    ensures Count(Convert(before + [m] + (answers + rest), replay), |before|) == 1
  {
    var messages := before + [m] + (answers + rest);
    assert messages[|before|] == m && messages[|before| + 1..] == answers + rest;
    AnswersDoNotRepeat(answers, rest, CallIds(m));
    ExactlyOnceIff(messages, replay, |before|);
  }

  // ----- where it is emitted -----

  lemma {:induction false} ScanAppend(s: Scan, a: seq<Block>, b: seq<Block>, pending: Option<Pending>)
    ensures ScanAll(s, a + b, pending) == ScanAll(ScanAll(s, a, pending), b, pending)
    decreases |a|
  {
    if a == [] {
      assert a + b == b;
    } else {
      assert (a + b)[0] == a[0] && (a + b)[1..] == a[1..] + b;
      ScanAppend(ScanBlock(s, a[0], pending), a[1..], b, pending);
    }
  }

  /** Until the calls are complete, scanning with pending content is plain scanning. */
  lemma {:induction false} ScanPlainly(s: Scan, t: Scan, blocks: seq<Block>, p: Pending)
    requires Completing(blocks, s.remaining) == 0 && s.out == t.out && s.texts == t.texts
    ensures var s', t' := ScanAll(s, blocks, Some(p)), ScanAll(t, blocks, None);
            s'.out == t'.out && s'.texts == t'.texts
    decreases |blocks|
  {
    if blocks != [] {
      ScanPlainly(ScanBlock(s, blocks[0], Some(p)), ScanBlock(t, blocks[0], None), blocks[1..], p);
    }
  }

  /** After the last result, the scan only collects texts. */
  lemma {:induction false} ScanTexts(s: Scan, blocks: seq<Block>, pending: Option<Pending>)
    requires ResultIds(blocks) == []
    ensures var s' := ScanAll(s, blocks, pending);
            s'.out == s.out && s'.texts == s.texts + ScanAll(StartScan(None), blocks, None).texts
    decreases |blocks|
  {
    if blocks == [] {
      assert s.texts + [] == s.texts;
    } else {
      var one := ScanBlock(StartScan(None), blocks[0], None);
      ScanTexts(ScanBlock(s, blocks[0], pending), blocks[1..], pending);
      ScanTexts(one, blocks[1..], None);
    }
  }

  /** In a message whose last result completes the calls, the deferred message comes right after that result. */
  lemma DeferredFollowsResult(a: seq<Block>, r: Block, b: seq<Block>, p: Pending)
    requires p.remaining != {} && Completing(a, p.remaining) == 0
    requires r.ToolResult? && p.remaining - IdSet(ResultIds(a)) - {ResultId(r)} == {} && ResultIds(b) == []
    ensures UserMessages(a + [r] + b, Some(p)) ==
              UserMessages(a + [r], None) + [Out(p.deferred, Some(p.owner))] + UserMessages(b, None)
  {
    var s, t := StartScan(Some(p)), StartScan(None);
    ScanAppend(s, a + [r], b, Some(p));
    ScanAppend(s, a, [r], Some(p));
    ScanAppend(t, a, [r], None);
    ScanPlainly(s, t, a, p);
    ScanCount(s, a, p, p.owner);
    var s1, t1 := ScanAll(s, a, Some(p)), ScanAll(t, a, None);
    assert [r][1..] == [];
    var s2 := ScanBlock(s1, r, Some(p));
    assert ScanAll(s, a + [r], Some(p)) == s2 && ScanAll(t, a + [r], None) == ScanBlock(t1, r, None);
    assert s2.out == Flushed(t1) + [Out(Tool(r.useId, r.result), None)] + [Out(p.deferred, Some(p.owner))]
           && s2.texts == [];
    ScanTexts(s2, b, Some(p));
    ScanTexts(t, b, None);
    FlushTogether(s2, ScanAll(s2, b, Some(p)), ScanAll(t, b, None));
  }

  lemma FlushTogether(s: Scan, s': Scan, t: Scan)
    requires s.texts == [] && t.out == [] && s'.out == s.out && s'.texts == s.texts + t.texts
    ensures Flushed(s') == s.out + Flushed(t)
  {
    assert [] + t.texts == t.texts;
    assert s.out + [] == s.out;
  }

  lemma {:induction false} NotYetComplete(blocks: seq<Block>, remaining: set<string>, x: string)
    requires x in remaining && x !in ResultIds(blocks)
    ensures Completing(blocks, remaining) == 0
    decreases |blocks|
  {
    if blocks != [] {
      NotYetComplete(blocks[1..], if blocks[0].ToolResult? then remaining - {ResultId(blocks[0])} else remaining, x);
    }
  }

  ghost predicate AllUserBlocks(messages: seq<Message>) {
    forall k | 0 <= k < |messages| :: messages[k].role == "user" && messages[k].content.Blocks?
  }

  /** The messages into which user messages are converted while nothing is pending. */
  function PlainAnswers(messages: seq<Message>): seq<Out> {
    if messages == [] then []
    else
      (if messages[0].content.Blocks? then UserMessages(messages[0].content.blocks, None) else [])
      + PlainAnswers(messages[1..])
  }

  /** A user message that leaves a call open is converted as if nothing were pending. */
  lemma OneAnswerPasses(st: State, i: nat, m: Message, replay: Replay, x: string)
    requires st.pending.Some? && x in st.pending.value.remaining
    requires m.role == "user" && m.content.Blocks? && x !in ResultIds(m.content.blocks)
    ensures var st', p, blocks := StepMessage(st, i, m, replay), st.pending.value, m.content.blocks;
            && st'.out == st.out + UserMessages(blocks, None)
            && st'.pending == Some(p.(remaining := p.remaining - IdSet(ResultIds(blocks))))
  {
    var p, blocks := st.pending.value, m.content.blocks;
    NotYetComplete(blocks, p.remaining, x);
    ScanPlainly(StartScan(Some(p)), StartScan(None), blocks, p);
    ScanCount(StartScan(Some(p)), blocks, p, p.owner);
  }

  lemma {:induction false} AnswersPass(st: State, i: nat, messages: seq<Message>, replay: Replay, x: string)
    requires st.pending.Some? && x in st.pending.value.remaining
    requires AllUserBlocks(messages) && x !in AllIds(messages)
    ensures var st', p := Run(st, i, messages, replay), st.pending.value;
            && st'.out == st.out + PlainAnswers(messages)
            && st'.pending == Some(p.(remaining := p.remaining - IdSet(AllIds(messages))))
    decreases |messages|
  {
    if messages == [] {
      AppendNone(st.out);
      var p := st.pending.value;
      assert AllIds(messages) == [] && p.remaining - IdSet([]) == p.remaining;
    } else {
      var blocks := messages[0].content.blocks;
      var st1 := StepMessage(st, i, messages[0], replay);
      assert AllIds(messages) == ResultIds(blocks) + AllIds(messages[1..]);
      OneAnswerPasses(st, i, messages[0], replay, x);
      RunFirst(st, i, messages, replay);
      AnswersPass(st1, i + 1, messages[1..], replay, x);
      Assoc(st.out, UserMessages(blocks, None), PlainAnswers(messages[1..]));
      IdsApart(st.pending.value.remaining, ResultIds(blocks), AllIds(messages[1..]));
    }
  }

  lemma IdsApart(remaining: set<string>, a: seq<string>, b: seq<string>)
    ensures remaining - IdSet(a) - IdSet(b) == remaining - IdSet(a + b)
  {
  }

  lemma {:induction false} RunExtends(st: State, i: nat, messages: seq<Message>, replay: Replay)
    ensures st.out <= Settled(Run(st, i, messages, replay)).out
    decreases |messages|
  {
    if messages != [] {
      RunFirst(st, i, messages, replay);
      RunExtends(StepMessage(st, i, messages[0], replay), i + 1, messages[1..], replay);
    }
  }

  lemma {:induction false} ResultIdsAppend(a: seq<Block>, b: seq<Block>)
    ensures ResultIds(a + b) == ResultIds(a) + ResultIds(b)
  {
    if a == [] {
      AppendNone(b);
      AppendNone(ResultIds(b));
    } else {
      AppendTail(a, b);
      ResultIdsAppend(a[1..], b);
      Assoc(if a[0].ToolResult? then [ResultId(a[0])] else [], ResultIds(a[1..]), ResultIds(b));
    }
  }

  lemma {:induction false} AllIdsSnoc(messages: seq<Message>, m: Message)
    requires m.content.Blocks?
    ensures AllIds(messages + [m]) == AllIds(messages) + ResultIds(m.content.blocks)
  {
    if messages == [] {
      AppendNone([m]);
      assert [m][1..] == [];
      AppendNone(ResultIds(m.content.blocks));
    } else {
      AppendTail(messages, [m]);
      AllIdsSnoc(messages[1..], m);
      Assoc(if messages[0].content.Blocks? then ResultIds(messages[0].content.blocks) else [], AllIds(messages[1..]),
            ResultIds(m.content.blocks));
    }
  }

  /** The ids of the answers, the last of which is that of `r`. */
  lemma LastId(firsts: seq<Message>, m: Message, a: seq<Block>, r: Block, b: seq<Block>)
    requires m.content == Blocks(a + [r] + b) && r.ToolResult? && ResultIds(b) == []
    ensures AllIds(firsts + [m]) == (AllIds(firsts) + ResultIds(a)) + [ResultId(r)]
  {
    AllIdsSnoc(firsts, m);
    ResultIdsAppend(a + [r], b);
    ResultIdsAppend(a, [r]);
    assert [r][1..] == [];
    AppendNone(ResultIds(a) + [ResultId(r)]);
    AppendNone([ResultId(r)]);
    Assoc(AllIds(firsts), ResultIds(a), [ResultId(r)]);
  }

  /** With distinct ids the last one is the one that completes the calls. */
  lemma LastIsMissing(xs: seq<string>, ys: seq<string>, x: string)
    requires Distinct((xs + ys) + [x])
    ensures x !in xs && x !in ys
    ensures IdSet((xs + ys) + [x]) - IdSet(xs) - IdSet(ys) - {x} == {}
  {
    var all := (xs + ys) + [x];
    assert all[|xs| + |ys|] == x;
    forall k | 0 <= k < |xs| ensures xs[k] != x {
      assert all[k] == xs[k];
    }
    forall k | 0 <= k < |ys| ensures ys[k] != x {
      assert all[|xs| + k] == ys[k];
    }
  }

  /**
   * From a pending state: the answers as they are, the deferred message right after the last
   * result, and then what follows.
   */
  lemma AnswersThenDeferred(st: State, i: nat, firsts: seq<Message>, m: Message, a: seq<Block>, r: Block, b: seq<Block>,
                            replay: Replay)
    requires st.pending.Some? && AllUserBlocks(firsts) && m.role == "user" && m.content == Blocks(a + [r] + b)
    requires r.ToolResult? && ResultIds(b) == []
    requires Distinct(AllIds(firsts + [m])) && st.pending.value.remaining == IdSet(AllIds(firsts + [m]))
    ensures var p, st1 := st.pending.value, Run(st, i, firsts, replay);
            StepMessage(st1, i + |firsts|, m, replay).out ==
              (st.out + PlainAnswers(firsts))
              + (UserMessages(a + [r], None) + [Out(p.deferred, Some(p.owner))] + UserMessages(b, None))
  {
    var p, x := st.pending.value, ResultId(r);
    LastId(firsts, m, a, r, b);
    LastIsMissing(AllIds(firsts), ResultIds(a), x);
    AnswersPass(st, i, firsts, replay, x);
    var p1 := p.(remaining := p.remaining - IdSet(AllIds(firsts)));
    NotYetComplete(a, p1.remaining, x);
    DeferredFollowsResult(a, r, b, p1);
  }

  /**
   * If the messages after a deferring message m are user messages whose results are distinct and
   * are those of its calls, then the answers are converted as they are up to the last result r, and
   * the deferred content comes right after that result, whatever comes before and later.
   */
  lemma DeferredFollowsLastResult(before: seq<Message>, m: Message, firsts: seq<Message>, last: Message, a: seq<Block>,
                                  r: Block, b: seq<Block>, rest: seq<Message>, replay: Replay)
    requires Defers(m) && AllUserBlocks(firsts) && last.role == "user" && last.content == Blocks(a + [r] + b)
    requires r.ToolResult? && ResultIds(b) == []
    requires Distinct(AllIds(firsts + [last])) && IdSet(AllIds(firsts + [last])) == CallIds(m)
    ensures var answers := UserMessages(a + [r], None);
            && answers != [] && answers[|answers| - 1].msg == Tool(r.useId, r.result)
            && (Run(EMPTY, 0, before + [m], replay).out + PlainAnswers(firsts))
               + (answers + [Out(DeferredMessage(m, replay), Some(|before|))] + UserMessages(b, None))
               <= Convert(before + [m] + (firsts + ([last] + rest)), replay)
  {
    var c := [last] + rest;
    var tail := firsts + c;
    var st0 := Run(EMPTY, 0, before + [m], replay);
    PendingAfter(before, m, replay);
    EndsInResult(a, r);
    AnswersInHistory(EMPTY, 0, before + [m] + tail, before + [m], tail, firsts, c, last, a, r, b, rest, st0, replay);
  }

  /** What has been converted stays. */
  lemma StepExtends(st: State, i: nat, m: Message, rest: seq<Message>, replay: Replay)
    ensures StepMessage(st, i, m, replay).out <= Settled(Run(st, i, [m] + rest, replay)).out
  {
    var ms := [m] + rest;
    assert ms[0] == m && ms[1..] == rest;
    RunFirst(st, i, ms, replay);
    RunExtends(StepMessage(st, i, m, replay), i + 1, rest, replay);
  }

  /** The state before the last of the answers: after the history, and after the answers before. */
  lemma RunInThree(st: State, i: nat, all: seq<Message>, a: seq<Message>, tail: seq<Message>, b: seq<Message>,
                   c: seq<Message>, j: nat, k: nat, st1: State, replay: Replay)
    requires all == a + tail && tail == b + c && j == i + |a| && k == j + |b|
    requires st1 == Run(Run(st, i, a, replay), j, b, replay)
    ensures Run(st, i, all, replay) == Run(st1, k, c, replay)
  {
    RunSplit(st, i, all, a, tail, j, replay);
    RunSplit(Run(st, i, a, replay), j, tail, b, c, k, replay);
  }

  /** The same where the calls are pending after some history. */
  lemma AnswersInHistory(st: State, i: nat, all: seq<Message>, history: seq<Message>, tail: seq<Message>,
                         firsts: seq<Message>, c: seq<Message>, last: Message, a: seq<Block>, r: Block, b: seq<Block>,
                         rest: seq<Message>, st0: State, replay: Replay)
    requires all == history + tail && tail == firsts + c && c == [last] + rest
    requires AllUserBlocks(firsts) && last.role == "user" && last.content == Blocks(a + [r] + b)
    requires r.ToolResult? && ResultIds(b) == [] && st0 == Run(st, i, history, replay) && st0.pending.Some?
    requires Distinct(AllIds(firsts + [last])) && st0.pending.value.remaining == IdSet(AllIds(firsts + [last]))
    ensures var p := st0.pending.value;
            (st0.out + PlainAnswers(firsts))
            + (UserMessages(a + [r], None) + [Out(p.deferred, Some(p.owner))] + UserMessages(b, None))
            <= Settled(Run(st, i, all, replay)).out
  {
    var j := i + |history|;
    var k := j + |firsts|;
    var st1 := Run(st0, j, firsts, replay);
    AnswersThenDeferred(st0, j, firsts, last, a, r, b, replay);
    RunInThree(st, i, all, history, tail, firsts, c, j, k, st1, replay);
    StepExtends(st1, k, last, rest, replay);
  }

  lemma EndsInResult(a: seq<Block>, r: Block)
    requires r.ToolResult?
    ensures var out := UserMessages(a + [r], None); out != [] && out[|out| - 1].msg == Tool(r.useId, r.result)
  {
    var t := StartScan(None);
    ScanAppend(t, a, [r], None);
    assert [r][1..] == [];
    assert ScanAll(t, a + [r], None) == ScanBlock(ScanAll(t, a, None), r, None);
  }

  lemma PendingAfter(before: seq<Message>, m: Message, replay: Replay)
    requires Defers(m)
    ensures Run(EMPTY, 0, before + [m], replay).pending ==
              Some(Pending(|before|, CallIds(m), DeferredMessage(m, replay)))
  {
    RunSplit(EMPTY, 0, before + [m], before, [m], |before|, replay);
    assert [m][1..] == [];
    RunFirst(Run(EMPTY, 0, before, replay), |before|, [m], replay);
  }
}
