/**
 * The tracker of emitted native streams (core/anthropic/emitted_sse_tracker.py) and the failure
 * path of a native provider (providers/anthropic_messages.py).
 *
 * The tracker reads back what has been sent to the client, so that a stream that dies half way can
 * be closed: its stack is the set of open blocks, and its next index is unused.
 */
module EmittedTracker {
  import opened Text
  import opened StreamContract
  import opened SseBuilder
  import opened SseFraming
  import OpenAIStream
  import OpenAIContract
  import NativePolicy
  import NativePolicyStreams

  /** `stack` are the open blocks, the last started one at the end. */
  datatype Tracker = Tracker(stack: seq<int>, maxIndex: int, messageId: Option<string>, model: string)

  const IDLE := Tracker([], -1, None, "")

  /** How a frame reads as an event, and the block index that a malformed event's data carries, if any. */
  datatype Decoder = Decoder(event: Raw -> Event, index: string -> Option<int>)

  function Max(a: int, b: int): int {
    if a < b then b else a
  }

  /** `list.remove`: without the first occurrence, if there is one. */
  function Without(stack: seq<int>, x: int): seq<int> {
    if stack == [] then [] else if stack[0] == x then stack[1..] else [stack[0]] + Without(stack[1..], x)
  }

  function Pushed(t: Tracker, i: int): Tracker {
    t.(maxIndex := Max(t.maxIndex, i), stack := t.stack + [i])
  }

  function Popped(t: Tracker, i: int): Tracker {
    if t.stack != [] && t.stack[|t.stack| - 1] == i then t.(stack := t.stack[..|t.stack| - 1])
    else t.(stack := Without(t.stack, i))
  }

  /** `_observe`; None is the failed assertion on an event without an index. */
  function Observe(t: Tracker, e: Event, index: string -> Option<int>): Option<Tracker> {
    match e
    case MessageStart(id, model) =>
      Some(t.(messageId := if id != "" then Some(id) else t.messageId, model := if model != "" then model else t.model))
    case BlockStart(i, _) => Some(Pushed(t, i))
    case BlockStop(i) => Some(Popped(t, i))
    case Malformed(name, data) =>
      if name == "content_block_start" || name == "content_block_stop" then
        if index(data).None? then None
        else Some(if name == "content_block_start" then Pushed(t, index(data).value) else Popped(t, index(data).value))
      else Some(t)
    case _ => Some(t)
  }

  function ObserveAll(t: Tracker, es: seq<Event>, index: string -> Option<int>): Option<Tracker>
    decreases |es|
  {
    if es == [] then Some(t)
    else if Observe(t, es[0], index).None? then None
    else ObserveAll(Observe(t, es[0], index).value, es[1..], index)
  }

  /** The stops that close what is open, the last started block first. */
  function Closing(stack: seq<int>): seq<Event> {
    if stack == [] then [] else [BlockStop(stack[|stack| - 1])] + Closing(stack[..|stack| - 1])
  }

  function ErrorTail(t: Tracker, message: string): seq<Event> {
    ErrorBlock(t.maxIndex + 1, message) + OpenAIStream.Tail("end_turn", 1)
  }

  function DecodeAll(rs: seq<Raw>, decode: Raw -> Event): seq<Event> {
    seq(|rs|, i requires 0 <= i < |rs| => decode(rs[i]))
  }

  lemma {:induction false} ObserveAppend(t: Tracker, a: seq<Event>, b: seq<Event>, index: string -> Option<int>)
    ensures ObserveAll(t, a + b, index) ==
              if ObserveAll(t, a, index).Some? then ObserveAll(ObserveAll(t, a, index).value, b, index) else None
    decreases |a|
  {
    if a == [] {
      assert a + b == b;
    } else {
      assert (a + b)[1..] == a[1..] + b;
      if Observe(t, a[0], index).Some? {
        ObserveAppend(Observe(t, a[0], index).value, a[1..], b, index);
      }
    }
  }

  function ObserveRaw(t: Tracker, rs: seq<Raw>, d: Decoder): Option<Tracker> {
    ObserveAll(t, DecodeAll(rs, d.event), d.index)
  }

  lemma ObserveRawAppend(t: Tracker, a: seq<Raw>, b: seq<Raw>, d: Decoder)
    ensures ObserveRaw(t, a + b, d) ==
              if ObserveRaw(t, a, d).Some? then ObserveRaw(ObserveRaw(t, a, d).value, b, d) else None
  {
    assert DecodeAll(a + b, d.event) == DecodeAll(a, d.event) + DecodeAll(b, d.event);
    ObserveAppend(t, DecodeAll(a, d.event), DecodeAll(b, d.event), d.index);
  }

  lemma ObserveOne(t: Tracker, e: Event, index: string -> Option<int>)
    ensures ObserveAll(t, [e], index) == Observe(t, e, index)
  {
    assert [e][1..] == [];
  }

  class EmittedNativeSseTracker {
    var buf: string
    var openStack: seq<int>
    var maxIndex: int
    var messageId: Option<string>
    var model: string

    function View(): Tracker
      reads this
    {
      Tracker(openStack, maxIndex, messageId, model)
    }

    constructor ()
      ensures buf == "" && View() == IDLE
    {
      buf, openStack, maxIndex, messageId, model := "", [], -1, None, "";
    }

    method ObserveEvent(e: Event, index: string -> Option<int>) returns (raised: bool)
      modifies this
      ensures buf == old(buf)
      ensures var r := Observe(old(View()), e, index);
              if r.None? then raised && View() == old(View()) else !raised && View() == r.value
    {
      raised := false;
      var name, i := "", None;
      match e {
        case MessageStart(id, model) =>
          if id != "" {
            messageId := Some(id);
          }
          if model != "" {
            this.model := model;
          }
        case BlockStart(x, _) =>
          name, i := "content_block_start", Some(x);
        case BlockStop(x) =>
          name, i := "content_block_stop", Some(x);
        case Malformed(n, data) =>
          name, i := n, index(data);
        case _ =>
      }
      if name == "content_block_start" {
        if i.None? {
          return true;
        }
        maxIndex := Max(maxIndex, i.value);
        openStack := openStack + [i.value];
      } else if name == "content_block_stop" {
        if i.None? {
          return true;
        }
        if openStack != [] && openStack[|openStack| - 1] == i.value {
          openStack := openStack[..|openStack| - 1];
        } else {
          openStack := Without(openStack, i.value);
        }
      }
    }

    method ObserveFrame(rs: seq<Raw>, d: Decoder) returns (raised: bool)
      modifies this
      ensures buf == old(buf)
      ensures var r := ObserveRaw(old(View()), rs, d);
              raised == r.None? && (r.Some? ==> View() == r.value)
    {
      var es := DecodeAll(rs, d.event);
      for n := 0 to |rs|
        invariant buf == old(buf)
        invariant ObserveAll(View(), es[n..], d.index) == ObserveAll(old(View()), es, d.index)
      {
        assert es[n..][0] == d.event(rs[n]) && es[n..][1..] == es[n + 1..];
        raised := ObserveEvent(d.event(rs[n]), d.index);
        if raised {
          return;
        }
      }
      raised := false;
    }

    /** Records the frames that `chunk` completes; it stops at an event without an index. */
    method Feed(chunk: string, d: Decoder) returns (raised: bool)
      modifies this
      ensures var r := ObserveRaw(old(View()), Observed(old(buf) + chunk), d);
              raised == r.None? && (r.Some? ==> View() == r.value && buf == Rest(old(buf) + chunk))
    {
      buf := buf + chunk;
      ghost var text := buf;
      while true
        invariant ObserveRaw(View(), Observed(buf), d) == ObserveRaw(old(View()), Observed(text), d)
        invariant Rest(buf) == Rest(text)
        decreases |buf|
      {
        var sep := FindBlankLine(buf);
        if sep < 0 {
          break;
        }
        var frame := buf[..sep];
        FrameObserved(View(), buf, sep, d);
        buf := buf[sep + 2..];
        raised := ObserveFrame(ParseFrame(frame), d);
        if raised {
          return;
        }
      }
      raised := false;
    }

    method CloseUnclosedBlocks() returns (out: seq<Event>)
      modifies this
      ensures out == Closing(old(openStack)) && View() == old(View()).(stack := []) && buf == old(buf)
    {
      out := [];
      while openStack != []
        invariant out + Closing(openStack) == Closing(old(openStack))
        invariant View() == old(View()).(stack := openStack) && buf == old(buf)
        decreases |openStack|
      {
        var i := openStack[|openStack| - 1];
        openStack := openStack[..|openStack| - 1];
        out := out + [BlockStop(i)];
      }
    }

    /** A builder that starts at the next unused index emits the error block and the message's end. */
    method MidstreamErrorTail(message: string) returns (out: seq<Event>)
      ensures out == ErrorTail(View(), message)
    {
      var sse := new SSEBuilder();
      sse.nextIndex := maxIndex + 1;
      out := sse.EmitErrorBlock(message);
      out := out + OpenAIStream.Tail("end_turn", 1);
    }
  }

  lemma FrameObserved(t: Tracker, text: string, k: nat, d: Decoder)
    requires FindBlankLine(text) == k
    ensures Rest(text) == Rest(text[k + 2..])
    ensures var r := ObserveRaw(t, ParseFrame(text[..k]), d);
            ObserveRaw(t, Observed(text), d) ==
                if r.None? then None else ObserveRaw(r.value, Observed(text[k + 2..]), d)
  {
    ObserveRawAppend(t, ParseFrame(text[..k]), Observed(text[k + 2..]), d);
  }

  /**
   * However a text is cut, the tracker observes the events of its frames; and if the text was
   * printed, it observes exactly the events that were printed, and holds nothing back.
   */
  method TrackPieces(pieces: seq<string>, d: Decoder) returns (tracker: EmittedNativeSseTracker, raised: bool)
    ensures fresh(tracker)
    ensures var r := ObserveRaw(IDLE, Observed(Concat(pieces)), d);
            raised == r.None? && (r.Some? ==> tracker.View() == r.value && tracker.buf == Rest(Concat(pieces)))
    ensures forall rs :: Concat(pieces) == PrintAll(rs) && (forall r | r in rs :: Printable(r)) && !raised
              ==> ObserveRaw(IDLE, rs, d) == Some(tracker.View()) && tracker.buf == ""
  {
    tracker := new EmittedNativeSseTracker();
    raised := false;
    for n := 0 to |pieces|
      invariant fresh(tracker) && !raised
      invariant ObserveRaw(IDLE, Observed(Concat(pieces[..n])), d) == Some(tracker.View())
      invariant tracker.buf == Rest(Concat(pieces[..n]))
    {
      CutObserved(Concat(pieces[..n]), pieces[n], d);
      FirstPieces(pieces, n);
      raised := tracker.Feed(pieces[n], d);
      if raised {
        PiecesRaise(pieces, n + 1, d);
        return;
      }
    }
    assert pieces[..|pieces|] == pieces;
    forall rs | Concat(pieces) == PrintAll(rs) && (forall r | r in rs :: Printable(r))
      ensures Observed(Concat(pieces)) == rs && Rest(Concat(pieces)) == ""
    {
      ReadBack(rs);
    }
  }

  lemma FirstPieces(pieces: seq<string>, n: nat)
    requires n < |pieces|
    ensures Concat(pieces[..n + 1]) == Concat(pieces[..n]) + pieces[n]
  {
    assert pieces[..n + 1] == pieces[..n] + [pieces[n]];
    ConcatAppend(pieces[..n], [pieces[n]]);
    assert Concat([pieces[n]]) == pieces[n];
  }

  lemma CutObserved(a: string, b: string, d: Decoder)
    ensures ObserveRaw(IDLE, Observed(a + b), d) ==
              if ObserveRaw(IDLE, Observed(a), d).Some?
              then ObserveRaw(ObserveRaw(IDLE, Observed(a), d).value, Observed(Rest(a) + b), d) else None
    ensures Rest(a + b) == Rest(Rest(a) + b)
  {
    CutAnywhere(a, b);
    ObserveRawAppend(IDLE, Observed(a), Observed(Rest(a) + b), d);
  }

  /** What raises on the first pieces raises on all. */
  lemma PiecesRaise(pieces: seq<string>, n: nat, d: Decoder)
    requires n <= |pieces| && ObserveRaw(IDLE, Observed(Concat(pieces[..n])), d).None?
    ensures ObserveRaw(IDLE, Observed(Concat(pieces)), d).None?
  {
    ConcatAppend(pieces[..n], pieces[n..]);
    assert pieces[..n] + pieces[n..] == pieces;
    CutObserved(Concat(pieces[..n]), Concat(pieces[n..]), d);
  }

  // ----- what the tracker knows -----

  /** The stack lists the open blocks, each once, and no index above the highest has been started. */
  ghost predicate Follows(t: Tracker, c: Check) {
    && Distinct(t.stack)
    && (forall x :: x in t.stack <==> x in c.open)
    && (forall x | x in c.open :: x in c.seen)
    && (forall x | x in c.seen :: x <= t.maxIndex)
    && -1 <= t.maxIndex
  }

  lemma {:induction false} WithoutElements(stack: seq<int>, x: int)
    requires Distinct(stack)
    ensures Distinct(Without(stack, x)) && forall y :: y in Without(stack, x) <==> y in stack && y != x
  {
    if stack != [] {
      assert stack == [stack[0]] + stack[1..];
      WithoutElements(stack[1..], x);
      assert stack[0] !in stack[1..];
      if stack[0] != x {
        var rest := Without(stack[1..], x);
        assert Without(stack, x) == [stack[0]] + rest;
        assert forall y :: y in [stack[0]] + rest <==> y == stack[0] || y in rest;
      }
    }
  }

  lemma PopElements(stack: seq<int>)
    requires Distinct(stack) && stack != []
    ensures var x, rest := stack[|stack| - 1], stack[..|stack| - 1];
            Distinct(rest) && forall y :: y in rest <==> y in stack && y != x
  {
    var x, rest := stack[|stack| - 1], stack[..|stack| - 1];
    assert stack == rest + [x];
    assert forall i | 0 <= i < |rest| :: rest[i] == stack[i];
  }

  lemma FollowsStep(t: Tracker, c: Check, e: Event, index: string -> Option<int>)
    requires Follows(t, c) && Step(c, e).Some?
    ensures Observe(t, e, index).Some? && Follows(Observe(t, e, index).value, Step(c, e).value)
  {
    if e.BlockStart? {
      assert e.index !in t.stack;
      assert forall y :: y in t.stack + [e.index] <==> y in t.stack || y == e.index;
    } else if e.BlockStop? {
      WithoutElements(t.stack, e.index);
      if t.stack != [] {
        PopElements(t.stack);
      }
    }
  }

  /** After any prefix that the contract allows, the tracker follows the checker. */
  lemma {:induction false} TrackerFollows(t: Tracker, c: Check, es: seq<Event>, index: string -> Option<int>)
    requires Follows(t, c) && Run(c, es).Some?
    ensures ObserveAll(t, es, index).Some? && Follows(ObserveAll(t, es, index).value, Run(c, es).value)
    decreases |es|
  {
    if es != [] {
      FollowsStep(t, c, es[0], index);
      TrackerFollows(Observe(t, es[0], index).value, Step(c, es[0]).value, es[1..], index);
    }
  }

  /** After any prefix of a stream: the stack is exactly the set of open blocks, and the next index is unused. */
  lemma TrackerIsExact(sent: seq<Event>, index: string -> Option<int>)
    requires Run(START, sent).Some?
    ensures ObserveAll(IDLE, sent, index).Some?
    ensures var t := ObserveAll(IDLE, sent, index).value;
            && Distinct(t.stack)
            && (forall x :: x in t.stack <==> OpenAt(sent, |sent|, x))
            && !Started(sent, t.maxIndex + 1)
  {
    TrackerFollows(IDLE, START, sent, index);
    RunMeansLegal(sent);
  }

  lemma {:induction false} ClosingCloses(c: Check, stack: seq<int>)
    requires Distinct(stack) && forall x :: x in stack <==> x in c.open
    ensures Run(c, Closing(stack)) == Some(c.(open := map[]))
    decreases |stack|
  {
    if stack == [] {
      forall x ensures x !in c.open {
        assert x !in stack;
      }
      assert c.open == map[];
    } else {
      var x, rest := stack[|stack| - 1], stack[..|stack| - 1];
      PopElements(stack);
      var c1 := c.(open := c.open - {x});
      ClosingCloses(c1, rest);
      assert stack[|stack| - 1] in stack && x in c.open;
      var all := [BlockStop(x)] + Closing(rest);
      assert Closing(stack) == all && all[1..] == Closing(rest);
    }
  }

  // ----- the failure of a native provider -----

  /** How far the response gets: the events sent before the tracker raises, or all. */
  function Sent(t: Tracker, es: seq<Event>, index: string -> Option<int>): seq<Event>
    decreases |es|
  {
    if es == [] || Observe(t, es[0], index).None? then []
    else [es[0]] + Sent(Observe(t, es[0], index).value, es[1..], index)
  }

  /** The repair of a stream of which something was sent: `t` is the tracker at the failure. */
  function Repair(t: Tracker, message: string): seq<Event> {
    Closing(t.stack) + ErrorTail(t.(stack := []), message)
  }

  /** The stream of a failure before anything was sent. */
  function WholeFailure(start: Event, message: string): seq<Event> {
    [start] + ErrorBlock(0, message) + OpenAIStream.Tail("end_turn", 1)
  }

  lemma SendOne(start: Tracker, t: Tracker, es: seq<Event>, n: nat, index: string -> Option<int>)
    requires n < |es| && ObserveAll(start, es[..n], index) == Some(t)
    ensures es[..n + 1] == es[..n] + [es[n]]
    ensures var r := Observe(t, es[n], index);
            && ObserveAll(start, es[..n + 1], index) == r
            && es[..n] + Sent(t, es[n..], index) ==
                 if r.None? then es[..n] else es[..n + 1] + Sent(r.value, es[n + 1..], index)
  {
    assert es[..n + 1] == es[..n] + [es[n]];
    assert es[n..][0] == es[n] && es[n..][1..] == es[n + 1..];
    ObserveAppend(start, es[..n], [es[n]], index);
    ObserveOne(t, es[n], index);
    AppendNone(es[..n]);
    if Observe(t, es[n], index).Some? {
      Assoc(es[..n], [es[n]], Sent(Observe(t, es[n], index).value, es[n + 1..], index));
    }
  }

  /** Sends the events one by one, each recorded before it is sent. */
  method SendAll(tracker: EmittedNativeSseTracker, es: seq<Event>, index: string -> Option<int>)
    returns (sent: seq<Event>, raised: bool)
    modifies tracker
    ensures sent == Sent(old(tracker.View()), es, index) && sent <= es && (raised <==> sent != es)
    ensures ObserveAll(old(tracker.View()), sent, index) == Some(tracker.View())
  {
    sent := [];
    ghost var t := tracker.View();
    for n := 0 to |es|
      invariant sent == es[..n]
      invariant ObserveAll(t, sent, index) == Some(tracker.View())
      invariant Sent(t, es, index) == sent + Sent(tracker.View(), es[n..], index)
    {
      SendOne(t, tracker.View(), es, n, index);
      raised := tracker.ObserveEvent(es[n], index);
      if raised {
        return;
      }
      sent := sent + [es[n]];
    }
    raised := false;
  }

  /**
   * `stream_response`: the events to be sent, and whether the upstream then raises.  `start` is
   * the message start that a failure before the first event makes up.
   */
  method NativeResponse(start: Event, es: seq<Event>, fails: bool, message: string, index: string -> Option<int>)
    returns (out: seq<Event>)
    requires start.MessageStart?
    ensures var sent := Sent(IDLE, es, index);
            && ObserveAll(IDLE, sent, index).Some?
            && out == if sent == es && !fails then es
                      else if es == [] then WholeFailure(start, message)
                      else sent + Repair(ObserveAll(IDLE, sent, index).value, message)
    ensures forall allowError :: fails || Sent(IDLE, es, index) != es ==>
              (Satisfies(out, allowError) <==> es == [] || Repairable(Sent(IDLE, es, index), allowError))
    ensures fails || Sent(IDLE, es, index) != es ==>
              TellsFailure(out, if es == [] then [start] else Sent(IDLE, es, index), message, index)
  {
    var tracker := new EmittedNativeSseTracker();
    var raised;
    out, raised := SendAll(tracker, es, index);
    if !raised && !fails {
      return;
    }
    ghost var sent, t := out, tracker.View();
    var sentAny := es != [];
    if sentAny {
      var closing := tracker.CloseUnclosedBlocks();
      var tail := tracker.MidstreamErrorTail(message);
      out := out + (closing + tail);
      FailureIsTold(sent, t, message, index);
      forall allowError ensures Satisfies(out, allowError) <==> Repairable(sent, allowError) {
        RepairedIff(sent, t, message, index, allowError);
      }
    } else {
      var sse := new SSEBuilder();
      var block := sse.EmitErrorBlock(message);
      out := [start] + block + OpenAIStream.Tail("end_turn", 1);
      WholeFailureIsTold(start, message, index);
      forall allowError ensures Satisfies(out, allowError) {
        WholeFailureSatisfies(start, message, allowError);
      }
    }
  }

  /** The message's id and model are those that were last given. */
  lemma MessageIsRemembered(t: Tracker, e: Event, index: string -> Option<int>)
    requires Observe(t, e, index).Some?
    ensures var t' := Observe(t, e, index).value;
            && t'.messageId == (if e.MessageStart? && e.id != "" then Some(e.id) else t.messageId)
            && t'.model == (if e.MessageStart? && e.model != "" then e.model else t.model)
  {
  }

  // ----- what is sent, and how it is closed -----

  /** What is sent are the events up to the first that the tracker cannot record. */
  lemma {:induction false} SentIsLongest(t: Tracker, es: seq<Event>, index: string -> Option<int>)
    ensures var sent := Sent(t, es, index);
            && sent <= es && ObserveAll(t, sent, index).Some?
            && (sent != es ==> ObserveAll(t, es[..|sent| + 1], index).None?)
    decreases |es|
  {
    if es != [] && Observe(t, es[0], index).Some? {
      var t1 := Observe(t, es[0], index).value;
      SentIsLongest(t1, es[1..], index);
      var rest := Sent(t1, es[1..], index);
      AppendTail([es[0]], rest);
      AppendNone(rest);
      if rest != es[1..] {
        assert es[..|rest| + 2][1..] == es[1..][..|rest| + 1];
      }
    } else if es != [] {
      assert es[..1][1..] == [];
    }
  }

  /** The stops come in the opposite order of the stack. */
  lemma {:induction false} ClosesFromTheTop(stack: seq<int>, j: nat)
    requires j < |stack|
    ensures |Closing(stack)| == |stack| && Closing(stack)[j] == BlockStop(stack[|stack| - 1 - j])
    decreases |stack|
  {
    var rest := stack[..|stack| - 1];
    if j > 0 {
      ClosesFromTheTop(rest, j - 1);
    } else if rest != [] {
      ClosesFromTheTop(rest, 0);
    }
  }

  /** The stack lists the open blocks in the order in which they were started. */
  ghost predicate InStartOrder(stack: seq<int>, sent: seq<Event>) {
    forall a, b | 0 <= a < b < |stack| :: StartedBefore(sent, stack[a], stack[b])
  }

  ghost predicate StartedBefore(sent: seq<Event>, x: int, y: int) {
    exists j, k :: StartAt(sent, j, x) && StartAt(sent, k, y) && j < k
  }

  lemma OpenIsStarted(sent: seq<Event>, x: int)
    requires OpenAt(sent, |sent|, x)
    ensures Started(sent, x)
  {
    var j :| OpenFrom(sent, j, |sent|, x);
    assert StartAt(sent, j, x);
  }

  lemma {:induction false} StackIsInStartOrder(sent: seq<Event>, index: string -> Option<int>)
    requires Run(START, sent).Some?
    ensures ObserveAll(IDLE, sent, index).Some?
    ensures var t := ObserveAll(IDLE, sent, index).value; InStartOrder(t.stack, sent)
    decreases |sent|
  {
    TrackerFollows(IDLE, START, sent, index);
    if sent != [] {
      var init, e := sent[..|sent| - 1], sent[|sent| - 1];
      assert sent == init + [e];
      RunAppend(START, init, [e]);
      StackIsInStartOrder(init, index);
      TrackerFollows(IDLE, START, init, index);
      ObserveAppend(IDLE, init, [e], index);
      var t := ObserveAll(IDLE, init, index).value;
      ObserveOne(t, e, index);
      TrackerIsExact(init, index);
      forall x | x in t.stack ensures Started(init, x) {
        OpenIsStarted(init, x);
      }
      StackStep(t, init, e, index);
    }
  }

  lemma StackStep(t: Tracker, init: seq<Event>, e: Event, index: string -> Option<int>)
    requires InStartOrder(t.stack, init) && !e.Malformed? && Observe(t, e, index).Some? && Distinct(t.stack)
    requires forall x | x in t.stack :: Started(init, x)
    ensures InStartOrder(Observe(t, e, index).value.stack, init + [e])
  {
    var stack, sent := Observe(t, e, index).value.stack, init + [e];
    forall a, b | 0 <= a < b < |stack| ensures StartedBefore(sent, stack[a], stack[b]) {
      if e.BlockStart? && b == |t.stack| {
        assert stack[a] in t.stack;
        var j :| StartAt(init, j, stack[a]);
        assert StartAt(sent, j, stack[a]) && StartAt(sent, |init|, stack[b]);
      } else {
        var a', b' := KeptOrder(t.stack, stack, a, b, e);
        assert StartedBefore(init, t.stack[a'], t.stack[b']);
        var j, k :| StartAt(init, j, t.stack[a']) && StartAt(init, k, t.stack[b']) && j < k;
        assert StartAt(sent, j, stack[a]) && StartAt(sent, k, stack[b]);
      }
    }
  }

  /** What stays on the stack stays in order. */
  lemma KeptOrder(before: seq<int>, after: seq<int>, a: nat, b: nat, e: Event) returns (a': nat, b': nat)
    requires a < b < |after|
    requires if e.BlockStart? then after == before + [e.index] && b < |before|
             else if e.BlockStop? && before != [] && before[|before| - 1] == e.index
             then after == before[..|before| - 1]
             else if e.BlockStop? then after == Without(before, e.index)
             else after == before
    ensures a' < b' < |before| && before[a'] == after[a] && before[b'] == after[b]
  {
    a', b' := a, b;
    if e.BlockStop? && !(before != [] && before[|before| - 1] == e.index) {
      WithoutShifts(before, e.index, a);
      WithoutShifts(before, e.index, b);
      a' := if Below(before, e.index, a) then a else a + 1;
      b' := if Below(before, e.index, b) then b else b + 1;
    }
  }

  /** Position k comes before the first x. */
  predicate Below(s: seq<int>, x: int, k: nat) {
    k < |s| && forall i | 0 <= i <= k :: s[i] != x
  }

  lemma {:induction false} WithoutShifts(s: seq<int>, x: int, k: nat)
    requires k < |Without(s, x)|
    ensures |Without(s, x)| <= |s| <= |Without(s, x)| + 1
    ensures if Below(s, x, k) then Without(s, x)[k] == s[k] else k + 1 < |s| && Without(s, x)[k] == s[k + 1]
    decreases |s|
  {
    if s[0] != x {
      if k > 0 {
        WithoutShifts(s[1..], x, k - 1);
        assert Below(s, x, k) <==> Below(s[1..], x, k - 1);
      } else {
        WithoutIsShorter(s, x);
      }
    }
  }

  lemma {:induction false} WithoutIsShorter(s: seq<int>, x: int)
    ensures |Without(s, x)| <= |s| <= |Without(s, x)| + 1
  {
    if s != [] && s[0] != x {
      WithoutIsShorter(s[1..], x);
    }
  }

  // ----- what the client is told -----

  /** A start of index x, though its block may be malformed. */
  predicate StartsBlock(e: Event, x: int, index: string -> Option<int>) {
    || (e.BlockStart? && e.index == x)
    || (e.Malformed? && e.name == "content_block_start" && index(e.data) == Some(x))
  }

  /** A text block under index x with the message, and a plain end. */
  function FailureNotice(x: int, message: string): seq<Event> {
    [BlockStart(x, Block("text", "", None, None, None)), BlockDelta(x, Delta("text_delta", message)), BlockStop(x),
     MessageDelta("end_turn", 1), MessageStop]
  }

  /**
   * After what was sent come stops only, and then the message in a block of its own, which nothing sent
   * has started.
   */
  ghost predicate TellsFailure(out: seq<Event>, sent: seq<Event>, message: string, index: string -> Option<int>) {
    exists stops: seq<Event>, x ::
      && out == sent + stops + FailureNotice(x, message)
      && (forall e | e in stops :: e.BlockStop?) && (forall e | e in sent :: !StartsBlock(e, x, index))
  }

  lemma {:induction false} IndexesAreBelow(t: Tracker, es: seq<Event>, index: string -> Option<int>)
    requires ObserveAll(t, es, index).Some?
    ensures var t' := ObserveAll(t, es, index).value;
            t.maxIndex <= t'.maxIndex && forall e, x | e in es && StartsBlock(e, x, index) :: x <= t'.maxIndex
    decreases |es|
  {
    if es != [] {
      IndexesAreBelow(Observe(t, es[0], index).value, es[1..], index);
      assert forall e | e in es :: e == es[0] || e in es[1..];
    }
  }

  /** Whatever was sent, the repair tells the client what went wrong. */
  lemma FailureIsTold(sent: seq<Event>, t: Tracker, message: string, index: string -> Option<int>)
    requires ObserveAll(IDLE, sent, index) == Some(t)
    ensures TellsFailure(sent + Repair(t, message), sent, message, index)
  {
    var stops, x := Closing(t.stack), t.maxIndex + 1;
    ClosingStops(t.stack);
    IndexesAreBelow(IDLE, sent, index);
    assert ErrorTail(t.(stack := []), message) == FailureNotice(x, message);
    Assoc(sent, stops, FailureNotice(x, message));
  }

  lemma WholeFailureIsTold(start: Event, message: string, index: string -> Option<int>)
    requires start.MessageStart?
    ensures TellsFailure(WholeFailure(start, message), [start], message, index)
  {
    var none: seq<Event> := [];
    assert WholeFailure(start, message) == [start] + none + FailureNotice(0, message);
    assert forall e | e in [start] :: !StartsBlock(e, 0, index);
  }

  /** So the text of the response is what was sent of it, and the message. */
  lemma ToldAsText(out: seq<Event>, sent: seq<Event>, message: string, index: string -> Option<int>)
    requires TellsFailure(out, sent, message, index)
    ensures OpenAIContract.DeltasOf(out, "text_delta") == OpenAIContract.DeltasOf(sent, "text_delta") + message
    ensures |out| >= 2 && out[|out| - 2] == MessageDelta("end_turn", 1) && out[|out| - 1] == MessageStop
  {
    var stops: seq<Event>, x :|
      out == sent + stops + FailureNotice(x, message) && (forall e | e in stops :: e.BlockStop?);
    OpenAIContract.DeltasOfAppend(sent, stops, "text_delta");
    OpenAIContract.DeltasOfAppend(sent + stops, FailureNotice(x, message), "text_delta");
    StopsSayNothing(stops);
    AppendNone(OpenAIContract.DeltasOf(sent, "text_delta"));
    NoticeSays(x, message);
  }

  lemma {:induction false} StopsSayNothing(stops: seq<Event>)
    requires forall e | e in stops :: e.BlockStop?
    ensures OpenAIContract.DeltasOf(stops, "text_delta") == ""
  {
    if stops != [] {
      assert stops[0] in stops;
      StopsSayNothing(stops[1..]);
    }
  }

  lemma NoticeSays(x: int, message: string)
    ensures OpenAIContract.DeltasOf(FailureNotice(x, message), "text_delta") == message
  {
    var all := FailureNotice(x, message);
    var a, b := all[..1], all[2..];
    assert all == a + [all[1]] + b && a[1..] == [] && b[1..][1..][1..] == [];
    OpenAIContract.DeltasOfAppend(a, [all[1]], "text_delta");
    OpenAIContract.DeltasOfAppend(a + [all[1]], b, "text_delta");
    OpenAIContract.DeltasSingle(all[1], x, "text_delta");
    assert OpenAIContract.DeltasOf(b[1..][1..], "text_delta") == "";
    assert OpenAIContract.DeltasOf(b[1..], "text_delta") == "";
    AppendNone(message);
  }

  /** What a prefix must be for the repair to work: its message has begun and it has broken no rule. */
  ghost predicate Repairable(sent: seq<Event>, allowError: bool) {
    && Run(START, sent).Some?
    && (exists k :: 0 <= k < |sent| && sent[k].MessageStart?)
    && (allowError || forall e | e in sent :: !e.Error?)
  }

  lemma ErrorTailRuns(c: Check, n: int, message: string)
    requires n !in c.open && n !in c.seen
    ensures Run(c, ErrorBlock(n, message) + OpenAIStream.Tail("end_turn", 1)) == Some(Check(c.open, c.seen + {n}))
  {
    var s, t, u := BlockStart(n, TEXT_BLOCK), BlockDelta(n, Delta("text_delta", message)), BlockStop(n);
    var v, w := MessageDelta("end_turn", 1), MessageStop;
    var c1 := Check(c.open[n := "text"], c.seen + {n});
    assert Step(c, s) == Some(c1) && Step(c1, t) == Some(c1);
    assert c1.open - {n} == c.open;
    var all := ErrorBlock(n, message) + OpenAIStream.Tail("end_turn", 1);
    assert all == [s, t, u, v, w];
    var c2 := Check(c.open, c.seen + {n});
    assert [w][1..] == [] && Run(c2, [w]) == Some(c2);
    assert [v, w][1..] == [w] && Run(c2, [v, w]) == Some(c2);
    assert [u, v, w][1..] == [v, w] && Run(c1, [u, v, w]) == Some(c2);
    assert [t, u, v, w][1..] == [u, v, w] && Run(c1, [t, u, v, w]) == Some(c2);
    assert all[1..] == [t, u, v, w];
  }

  /** A stream that dies after `sent`, repaired, meets the contract exactly when `sent` is repairable. */
  lemma RepairedIff(sent: seq<Event>, t: Tracker, message: string, index: string -> Option<int>, allowError: bool)
    requires ObserveAll(IDLE, sent, index) == Some(t)
    ensures Satisfies(sent + Repair(t, message), allowError) <==> Repairable(sent, allowError)
  {
    var out := sent + Repair(t, message);
    RunAppend(START, sent, Repair(t, message));
    RepairShape(t, message);
    assert out[|out| - 1] == MessageStop;
    if Run(START, sent).Some? {
      TrackerFollows(IDLE, START, sent, index);
      var c := Run(START, sent).value;
      ClosingCloses(c, t.stack);
      ErrorTailRuns(c.(open := map[]), t.maxIndex + 1, message);
      RunAppend(c, Closing(t.stack), ErrorTail(t, message));
      assert t.maxIndex + 1 in Run(START, out).value.seen;
    }
    RepairFrame(sent, Repair(t, message), allowError);
  }

  lemma {:induction false} ClosingStops(stack: seq<int>)
    ensures forall e | e in Closing(stack) :: e.BlockStop?
    decreases |stack|
  {
    if stack != [] {
      ClosingStops(stack[..|stack| - 1]);
    }
  }

  lemma RepairShape(t: Tracker, message: string)
    ensures var r := Repair(t, message);
            |r| > 0 && r[|r| - 1] == MessageStop && forall e | e in r :: !e.MessageStart? && !e.Error?
  {
    ClosingStops(t.stack);
  }

  lemma RepairFrame(sent: seq<Event>, repair: seq<Event>, allowError: bool)
    requires forall e | e in repair :: !e.MessageStart? && !e.Error?
    ensures var out := sent + repair;
            && ((exists k :: 0 <= k < |out| && out[k].MessageStart?) <==>
                  (exists k :: 0 <= k < |sent| && sent[k].MessageStart?))
            && ((forall e | e in out :: !e.Error?) <==> (forall e | e in sent :: !e.Error?))
  {
    var out := sent + repair;
    if k :| 0 <= k < |sent| && sent[k].MessageStart? {
      assert out[k].MessageStart?;
    }
    forall m | |sent| <= m < |out| ensures out[m] in repair {
      assert out[m] == repair[m - |sent|];
    }
    if k :| 0 <= k < |out| && out[k].MessageStart? {
      assert k < |sent| && out[k] == sent[k];
    }
    assert forall e :: e in out <==> e in sent || e in repair;
  }

  lemma WholeFailureSatisfies(start: Event, message: string, allowError: bool)
    requires start.MessageStart?
    ensures Satisfies(WholeFailure(start, message), allowError)
  {
    var out := WholeFailure(start, message);
    var rest := ErrorBlock(0, message) + OpenAIStream.Tail("end_turn", 1);
    assert out == [start] + rest;
    assert out[1..] == rest && out[0] == start;
    ErrorTailRuns(START, 0, message);
    assert Run(START, out) == Run(START, rest);
    assert 0 in Run(START, out).value.seen;
  }

  /**
   * The whole native path: while a well-formed upstream that begins with a message start is
   * translated by the block policy, a failure after any `n` of its events leaves a stream that
   * meets the contract.
   */
  lemma PolicyPrefixesAreRepaired(upstream: seq<Event>, n: nat, thinking: bool, message: string,
                                  index: string -> Option<int>, allowError: bool)
    requires NativePolicyStreams.WellFormed(upstream, thinking)
    requires 0 < n <= |upstream| && upstream[0].MessageStart?
    requires allowError || forall e | e in upstream :: !e.Error?
    ensures var sent := NativePolicy.Output(NativePolicy.FRESH, upstream[..n], thinking);
            && ObserveAll(IDLE, sent, index).Some?
            && Satisfies(sent + Repair(ObserveAll(IDLE, sent, index).value, message), allowError)
  {
    var read := upstream[..n];
    assert forall k | 0 <= k < n :: read[..k] == upstream[..k];
    assert NativePolicyStreams.WellFormed(read, thinking);
    var sent := NativePolicy.Output(NativePolicy.FRESH, read, thinking);
    NativePolicyStreams.WellFormedStreamsAreRepaired(read, thinking);
    NativePolicyStreams.OtherEventsPass(NativePolicy.FRESH, read, read[0], thinking);
    forall e | e in sent && e.Error? ensures e in upstream {
      NativePolicyStreams.OtherEventsPass(NativePolicy.FRESH, read, e, thinking);
    }
    assert Repairable(sent, allowError);
    TrackerFollows(IDLE, START, sent, index);
    RepairedIff(sent, ObserveAll(IDLE, sent, index).value, message, index, allowError);
  }
}
