/**
 * Events of an Anthropic message stream and the stream contract
 * (core/anthropic/stream_contracts.py).
 *
 * The contract is given twice: as the one-pass checker of the source and as a
 * positional definition that mentions no checker state.  `ContractMeaning`
 * proves that they agree on every sequence of events.
 */
module StreamContract {
  import opened Text

  /** A content block object.  `input` is a JSON object kept as text; None where the key is missing. */
  datatype Block = Block(kind: string, text: string, id: Option<string>, name: Option<string>, input: Option<string>)

  datatype Delta = Delta(kind: string, content: string)

  /**
   * One server-sent event.  `Malformed` stands for a block event whose payload has no
   * integer index, no block or delta object, or no block type: the checker rejects it.
   */
  datatype Event =
    | MessageStart(id: string, model: string)
    | BlockStart(index: int, block: Block)
    | BlockDelta(index: int, delta: Delta)
    | BlockStop(index: int)
    | MessageDelta(stopReason: string, outputTokens: int)
    | MessageStop
    | Error(message: string)
    | Malformed(name: string, data: string)
    | Other(name: string, data: string)

  const NO_DELTA_KINDS := {"server_tool_use", "web_search_tool_result", "web_fetch_tool_result", "text_eager",
                           "redacted_thinking"}

  const ALLOWED_START_KINDS :=
    {"text", "thinking", "tool_use", "redacted_thinking", "server_tool_use", "web_search_tool_result",
     "web_fetch_tool_result"}

  /** How the checker remembers a block: a text block started with text takes no deltas. */
  function StorageKind(b: Block): string {
    if b.kind == "text" && !IsBlank(b.text) then "text_eager" else b.kind
  }

  predicate DeltaFits(storage: string, deltaKind: string) {
    && storage !in NO_DELTA_KINDS
    && (storage == "thinking" ==> deltaKind in {"thinking_delta", "signature_delta"})
    && (storage == "text" ==> deltaKind == "text_delta")
    && (storage == "tool_use" ==> deltaKind == "input_json_delta")
  }

  // ----- the checker -----

  datatype Check = Check(open: map<int, string>, seen: set<int>)

  const START := Check(map[], {})

  /** One turn of the checker's loop; None is a failed assertion. */
  function Step(c: Check, e: Event): Option<Check> {
    match e
    case BlockStart(i, b) =>
      if b.kind in ALLOWED_START_KINDS && i !in c.open && i !in c.seen
      then Some(Check(c.open[i := StorageKind(b)], c.seen + {i})) else None
    case BlockDelta(i, d) =>
      if i in c.open && DeltaFits(c.open[i], d.kind) then Some(c) else None
    case BlockStop(i) =>
      if i in c.open then Some(c.(open := c.open - {i})) else None
    case Malformed(_, _) => None
    case _ => Some(c)
  }

  function Run(c: Check, es: seq<Event>): Option<Check>
    decreases |es|
  {
    if es == [] then Some(c)
    else
      match Step(c, es[0])
      case None => None
      case Some(c') => Run(c', es[1..])
  }

  /** The whole assertion of the source. */
  predicate Satisfies(es: seq<Event>, allowError: bool) {
    && (exists i | 0 <= i < |es| :: es[i].MessageStart?)
    && es[|es| - 1] == MessageStop
    && (allowError || forall i | 0 <= i < |es| :: !es[i].Error?)
    && var r := Run(START, es);
       r.Some? && r.value.open == map[] && r.value.seen != {}
  }

  /** The source's loop, with its early exits. */
  method AssertAnthropicStreamContract(events: seq<Event>, allowError: bool) returns (ok: bool)
    ensures ok <==> Satisfies(events, allowError)
  {
    if events == [] {
      return false;
    }
    var k := 0;
    while k < |events| && !events[k].MessageStart?
      invariant 0 <= k <= |events|
      invariant forall i | 0 <= i < k :: !events[i].MessageStart?
    {
      k := k + 1;
    }
    if k == |events| || events[|events| - 1] != MessageStop {
      return false;
    }
    var open: map<int, string>, seen: set<int> := map[], {};
    var n := 0;
    while n < |events|
      invariant 0 <= n <= |events|
      invariant Run(START, events) == Run(Check(open, seen), events[n..])
      invariant allowError || forall i | 0 <= i < n :: !events[i].Error?
      decreases |events| - n
    {
      var e := events[n];
      assert events[n..][0] == e && events[n..][1..] == events[n + 1..];
      if e.Error? && !allowError {
        return false;
      }
      match e {
      case BlockStart(i, b) =>
        if b.kind !in ALLOWED_START_KINDS || i in open || i in seen {
          return false;
        }
        open, seen := open[i := StorageKind(b)], seen + {i};
      case BlockDelta(i, d) =>
        if i !in open || !DeltaFits(open[i], d.kind) {
          return false;
        }
      case BlockStop(i) =>
        if i !in open {
          return false;
        }
        open := open - {i};
      case Malformed(_, _) =>
        return false;
      case _ =>
      }
      n := n + 1;
    }
    return open == map[] && seen != {};
  }

  // ----- the positional reading of the contract -----

  /** The block started at position j carries `index` and has not been stopped before position i. */
  ghost predicate OpenFrom(es: seq<Event>, j: int, i: int, index: int) {
    && 0 <= j < i <= |es|
    && es[j].BlockStart? && es[j].index == index
    && forall k | j < k < i :: es[k] != BlockStop(index)
  }

  ghost predicate OpenAt(es: seq<Event>, i: int, index: int) {
    exists j :: OpenFrom(es, j, i, index)
  }

  ghost predicate StartAt(es: seq<Event>, j: int, index: int) {
    0 <= j < |es| && es[j].BlockStart? && es[j].index == index
  }

  ghost predicate Started(es: seq<Event>, index: int) {
    exists j :: StartAt(es, j, index)
  }

  ghost predicate LegalAt(es: seq<Event>, i: int)
    requires 0 <= i < |es|
  {
    match es[i]
    case BlockStart(x, b) =>
      && b.kind in ALLOWED_START_KINDS
      && forall j | 0 <= j < i :: !(es[j].BlockStart? && es[j].index == x)
    case BlockDelta(x, d) =>
      exists j :: OpenFrom(es, j, i, x) && DeltaFits(StorageKind(es[j].block), d.kind)
    case BlockStop(x) => OpenAt(es, i, x)
    case Malformed(_, _) => false
    case _ => true
  }

  ghost predicate Legal(es: seq<Event>) {
    forall i | 0 <= i < |es| :: LegalAt(es, i)
  }

  /** Every index starts once, deltas and stops meet an open block of the right kind, nothing stays open. */
  ghost predicate Conforms(es: seq<Event>, allowError: bool) {
    && |es| > 0
    && (exists i :: 0 <= i < |es| && es[i].MessageStart?)
    && es[|es| - 1] == MessageStop
    && (allowError || forall i | 0 <= i < |es| :: !es[i].Error?)
    && Legal(es)
    && (forall x :: !OpenAt(es, |es|, x))
    && exists i :: 0 <= i < |es| && es[i].BlockStart?
  }

  lemma {:induction false} RunAppend(c: Check, a: seq<Event>, b: seq<Event>)
    ensures Run(c, a + b) == if Run(c, a).Some? then Run(Run(c, a).value, b) else None
    decreases |a|
  {
    if a == [] {
      assert a + b == b;
    } else {
      assert (a + b)[1..] == a[1..] + b;
      var s := Step(c, a[0]);
      if s.Some? {
        RunAppend(s.value, a[1..], b);
      }
    }
  }

  lemma RunSnoc(c: Check, a: seq<Event>, e: Event)
    ensures Run(c, a + [e]) == if Run(c, a).Some? then Step(Run(c, a).value, e) else None
  {
    RunAppend(c, a, [e]);
    if Run(c, a).Some? {
      var d := Run(c, a).value;
      assert [e][1..] == [];
      assert Run(d, [e]) == match Step(d, e) case None => None case Some(c') => Run(c', [e][1..]);
    }
  }

  lemma RunOne(c: Check, e: Event)
    ensures Run(c, [e]) == Step(c, e)
  {
    RunSnoc(c, [], e);
    assert [] + [e] == [e];
  }

  /** The checker state says which indexes are open, of which kind, and which were ever started. */
  ghost predicate Describes(c: Check, es: seq<Event>) {
    && (forall x :: x in c.open <==> OpenAt(es, |es|, x))
    && (forall x, j :: OpenFrom(es, j, |es|, x) ==> x in c.open && c.open[x] == StorageKind(es[j].block))
    && (forall x :: x in c.seen <==> Started(es, x))
  }

  lemma OpenFromSnoc(es: seq<Event>, e: Event, j: int, x: int)
    requires j < |es|
    ensures OpenFrom(es + [e], j, |es| + 1, x) <==> OpenFrom(es, j, |es|, x) && e != BlockStop(x)
  {
    var all := es + [e];
    assert forall k | 0 <= k < |es| :: all[k] == es[k];
    assert all[|es|] == e;
  }

  lemma OpenFromPrefix(es: seq<Event>, more: seq<Event>, j: int, i: int, x: int)
    requires i <= |es|
    ensures OpenFrom(es + more, j, i, x) <==> OpenFrom(es, j, i, x)
  {
    assert forall k | 0 <= k < |es| :: (es + more)[k] == es[k];
  }

  lemma LegalAtPrefix(es: seq<Event>, e: Event, i: int)
    requires 0 <= i < |es|
    ensures LegalAt(es + [e], i) <==> LegalAt(es, i)
  {
    var all := es + [e];
    assert forall k | 0 <= k < |es| :: all[k] == es[k];
    forall j, x ensures OpenFrom(all, j, i, x) <==> OpenFrom(es, j, i, x) {
      OpenFromPrefix(es, [e], j, i, x);
    }
    assert all[i] == es[i];
    match es[i]
    case BlockDelta(x, d) =>
      if j :| OpenFrom(es, j, i, x) && DeltaFits(StorageKind(es[j].block), d.kind) {
        assert OpenFrom(all, j, i, x) && DeltaFits(StorageKind(all[j].block), d.kind);
      }
      if j :| OpenFrom(all, j, i, x) && DeltaFits(StorageKind(all[j].block), d.kind) {
        assert OpenFrom(es, j, i, x) && DeltaFits(StorageKind(es[j].block), d.kind);
      }
    case BlockStop(x) =>
      assert OpenAt(all, i, x) <==> OpenAt(es, i, x);
    case _ =>
  }

  lemma OpenSnoc(es: seq<Event>, e: Event)
    requires !e.BlockStart?
    ensures forall j, x :: OpenFrom(es + [e], j, |es| + 1, x) <==> OpenFrom(es, j, |es|, x) && e != BlockStop(x)
    ensures forall x :: OpenAt(es + [e], |es| + 1, x) <==> OpenAt(es, |es|, x) && e != BlockStop(x)
  {
    forall j, x ensures OpenFrom(es + [e], j, |es| + 1, x) <==> OpenFrom(es, j, |es|, x) && e != BlockStop(x) {
      if j < |es| {
        OpenFromSnoc(es, e, j, x);
      }
    }
    forall x | OpenAt(es, |es|, x) && e != BlockStop(x) ensures OpenAt(es + [e], |es| + 1, x) {
      var j :| OpenFrom(es, j, |es|, x);
      assert OpenFrom(es + [e], j, |es| + 1, x);
    }
    forall x | OpenAt(es + [e], |es| + 1, x) ensures OpenAt(es, |es|, x) && e != BlockStop(x) {
      var j :| OpenFrom(es + [e], j, |es| + 1, x);
      assert OpenFrom(es, j, |es|, x);
    }
  }

  lemma StepMeansLegal(c: Check, es: seq<Event>, e: Event)
    requires Describes(c, es)
    ensures Step(c, e).Some? <==> LegalAt(es + [e], |es|)
    ensures Step(c, e).Some? ==> Describes(Step(c, e).value, es + [e])
  {
    var n, all := |es|, es + [e];
    assert all[n] == e && forall k | 0 <= k < n :: all[k] == es[k];
    forall j, x | j < n
      ensures OpenFrom(all, j, n, x) <==> OpenFrom(es, j, n, x)
      ensures OpenFrom(all, j, n + 1, x) <==> OpenFrom(es, j, n, x) && e != BlockStop(x)
    {
      OpenFromPrefix(es, [e], j, n, x);
      OpenFromSnoc(es, e, j, x);
    }
    assert forall x :: OpenAt(all, n, x) <==> OpenAt(es, n, x);
    match e
    case BlockStart(x, b) =>
      if Step(c, e).Some? {
        DescribesStart(c, es, x, b);
      } else {
        if x in c.open {
          var j :| OpenFrom(es, j, n, x);
          assert all[j].BlockStart? && all[j].index == x;
        } else if x in c.seen {
          var j :| StartAt(es, j, x);
          assert all[j].BlockStart? && all[j].index == x;
        }
      }
    case BlockDelta(x, d) =>
      if x in c.open {
        var j :| OpenFrom(es, j, n, x);
        assert OpenFrom(all, j, n, x) && all[j].block == es[j].block;
      }
      if Step(c, e).Some? {
        DescribesOther(c, es, e, c);
      }
    case BlockStop(x) =>
      if Step(c, e).Some? {
        DescribesOther(c, es, e, Step(c, e).value);
      }
    case Malformed(_, _) =>
    case _ =>
      DescribesOther(c, es, e, c);
  }

  lemma OpenAfterStart(es: seq<Event>, x: int, b: Block)
    ensures var all := es + [BlockStart(x, b)];
            && (forall j, y :: OpenFrom(all, j, |all|, y) <==> OpenFrom(es, j, |es|, y) || (j == |es| && y == x))
            && (forall y :: OpenAt(all, |all|, y) <==> OpenAt(es, |es|, y) || y == x)
  {
    var e, n := BlockStart(x, b), |es|;
    var all := es + [e];
    forall j, y ensures OpenFrom(all, j, |all|, y) <==> OpenFrom(es, j, n, y) || (j == n && y == x) {
      if j < n {
        OpenFromSnoc(es, e, j, y);
      }
    }
    assert OpenFrom(all, n, |all|, x);
    forall y | OpenAt(es, n, y) ensures OpenAt(all, |all|, y) {
      var j :| OpenFrom(es, j, n, y);
      assert OpenFrom(all, j, |all|, y);
    }
  }

  lemma DescribesStart(c: Check, es: seq<Event>, x: int, b: Block)
    requires Describes(c, es) && x !in c.seen
    ensures Describes(Check(c.open[x := StorageKind(b)], c.seen + {x}), es + [BlockStart(x, b)])
    ensures forall j | 0 <= j < |es| :: !(es[j].BlockStart? && es[j].index == x)
  {
    var all, c' := es + [BlockStart(x, b)], Check(c.open[x := StorageKind(b)], c.seen + {x});
    OpenAfterStart(es, x, b);
    StartedSnoc(es, BlockStart(x, b));
    forall j | 0 <= j < |es| ensures !(es[j].BlockStart? && es[j].index == x) {
      assert !StartAt(es, j, x);
    }
    forall y, j | OpenFrom(all, j, |all|, y) ensures y in c'.open && c'.open[y] == StorageKind(all[j].block) {
      if j < |es| {
        assert OpenFrom(es, j, |es|, y) && all[j] == es[j];
        assert StartAt(es, j, y);
      }
    }
  }

  lemma StartedSnoc(es: seq<Event>, e: Event)
    requires e.BlockStart?
    ensures forall y :: Started(es + [e], y) <==> Started(es, y) || y == e.index
  {
    var n, all := |es|, es + [e];
    assert all[n] == e && forall k | 0 <= k < n :: all[k] == es[k];
    assert StartAt(all, n, e.index);
    forall y ensures Started(all, y) <==> Started(es, y) || y == e.index {
      if j :| StartAt(es, j, y) {
        assert StartAt(all, j, y);
      }
      if j :| StartAt(all, j, y) && j < n {
        assert StartAt(es, j, y);
      }
    }
  }

  /** After an event that starts no block, the state without the stopped block is the description. */
  lemma DescribesOther(c: Check, es: seq<Event>, e: Event, c': Check)
    requires Describes(c, es) && !e.BlockStart?
    requires c' == if e.BlockStop? then c.(open := c.open - {e.index}) else c
    ensures Describes(c', es + [e])
  {
    OpenSnoc(es, e);
    SameStarts(es, e);
    OtherKinds(c, es, e, c');
  }

  lemma OtherKinds(c: Check, es: seq<Event>, e: Event, c': Check)
    requires !e.BlockStart? && forall x, j :: OpenFrom(es, j, |es|, x) ==>
               x in c.open && c.open[x] == StorageKind(es[j].block)
    requires c' == if e.BlockStop? then c.(open := c.open - {e.index}) else c
    ensures var all := es + [e];
            forall x, j :: OpenFrom(all, j, |all|, x) ==> x in c'.open && c'.open[x] == StorageKind(all[j].block)
  {
    OpenSnoc(es, e);
    forall x, j | OpenFrom(es + [e], j, |es + [e]|, x)
      ensures x in c'.open && c'.open[x] == StorageKind((es + [e])[j].block) {
      assert OpenFrom(es, j, |es|, x) && e != BlockStop(x) && (es + [e])[j] == es[j];
    }
  }

  lemma SameStarts(es: seq<Event>, e: Event)
    requires !e.BlockStart?
    ensures forall y :: Started(es + [e], y) <==> Started(es, y)
  {
    var all := es + [e];
    assert forall k | 0 <= k < |es| :: all[k] == es[k];
    forall j, y ensures StartAt(all, j, y) <==> StartAt(es, j, y) {
    }
  }

  /** The checker accepts exactly the legal sequences, and its state describes what it has read. */
  lemma {:induction false} RunMeansLegal(es: seq<Event>)
    ensures Run(START, es).Some? <==> Legal(es)
    ensures Run(START, es).Some? ==> Describes(Run(START, es).value, es)
  {
    if es == [] {
    } else {
      var a, e := es[..|es| - 1], es[|es| - 1];
      assert es == a + [e];
      RunMeansLegal(a);
      RunSnoc(START, a, e);
      forall i | 0 <= i < |a| ensures LegalAt(es, i) <==> LegalAt(a, i) {
        LegalAtPrefix(a, e, i);
      }
      if Legal(a) {
        StepMeansLegal(Run(START, a).value, a, e);
        assert Legal(es) <==> LegalAt(es, |a|);
      } else {
        var i :| 0 <= i < |a| && !LegalAt(a, i);
        assert !LegalAt(es, i);
      }
    }
  }

  /** The one-pass assertion holds of a stream exactly when the positional contract does. */
  lemma ContractMeaning(es: seq<Event>, allowError: bool)
    ensures Satisfies(es, allowError) <==> Conforms(es, allowError)
  {
    RunMeansLegal(es);
    if Run(START, es).Some? {
      var c := Run(START, es).value;
      assert c.open == map[] <==> forall x :: !OpenAt(es, |es|, x) by {
        if forall x :: !OpenAt(es, |es|, x) {
          assert forall x :: x !in c.open;
        }
      }
      if i :| 0 <= i < |es| && es[i].BlockStart? {
        assert StartAt(es, i, es[i].index);
        assert es[i].index in c.seen;
      } else {
        forall x ensures x !in c.seen {
          assert forall j :: !StartAt(es, j, x);
        }
        assert c.seen == {};
      }
    }
  }

  // ----- the kinds of blocks -----

  /** Blocks of seven kinds may start, each under an index of its own. */
  lemma StartsAreOfKnownKinds(c: Check, i: int, b: Block)
    ensures Step(c, BlockStart(i, b)).Some? <==>
              && i !in c.open && i !in c.seen
              && (|| b.kind == "text" || b.kind == "thinking" || b.kind == "tool_use"
                  || b.kind == "redacted_thinking" || b.kind == "server_tool_use"
                  || b.kind == "web_search_tool_result" || b.kind == "web_fetch_tool_result")
  {
  }

  /** Only three of these kinds take deltas, each its own types; a text that is there from the start takes none. */
  lemma DeltasAreTyped(b: Block, deltaKind: string)
    requires b.kind in ALLOWED_START_KINDS
    ensures DeltaFits(StorageKind(b), deltaKind) <==>
              || (b.kind == "text" && IsBlank(b.text) && deltaKind == "text_delta")
              || (b.kind == "thinking" && (deltaKind == "thinking_delta" || deltaKind == "signature_delta"))
              || (b.kind == "tool_use" && deltaKind == "input_json_delta")
  {
  }
}
