/**
 * How name fragments add up (core/anthropic/sse.py:93-109): an upstream may repeat the whole name so
 * far with every fragment, or send it in pieces.
 */
module OpenAINames {
  import opened Text
  import opened SseBuilder
  import opened OpenAIStream
  import opened OpenAIArguments

  /** The name fragments for tool k, in order. */
  function Names(calls: seq<ToolDelta>, k: int): seq<string> {
    if calls == [] then []
    else
      Names(Init(calls), k)
      + if Target(Init(calls), Last(calls)) == k && Last(calls).name.Some? then [Last(calls).name.value] else []
  }

  /** Each fragment repeats the one before it, and may go on. */
  ghost predicate Snapshots(names: seq<string>) {
    forall i | 0 <= i < |names| - 1 :: names[i] <= names[i + 1]
  }

  /** No fragment and what comes before it begin with each other. */
  ghost predicate InPieces(names: seq<string>) {
    forall n | 0 < n < |names| :: !(Concat(names[..n]) <= names[n]) && !(names[n] <= Concat(names[..n]))
  }

  lemma Merged(prev: string, name: string)
    ensures prev <= name ==> MergeName(prev, name) == name
    ensures name <= prev ==> prev == "" || MergeName(prev, name) == prev
    ensures prev != "" && !(prev <= name) && !(name <= prev) ==> MergeName(prev, name) == prev + name
    ensures prev <= MergeName(prev, name)
  {
  }

  /** A fragment that the name begins with already changes nothing, and none takes anything back. */
  lemma {:induction false} NamesGrow(calls: seq<ToolDelta>, tc: ToolDelta, k: int)
    ensures Named(calls, k) <= Named(calls + [tc], k)
    ensures tc.name.Some? && tc.name.value <= Named(calls, k) ==> Named(calls + [tc], k) == Named(calls, k)
  {
    Shorter(calls, tc, k);
    if tc.name.Some? {
      Merged(Named(calls, k), tc.name.value);
    }
  }

  /** Repeated whole names: the last one counts. */
  lemma {:induction false} SnapshotsAreNamed(calls: seq<ToolDelta>, k: int)
    requires Snapshots(Names(calls, k))
    ensures var names := Names(calls, k); Named(calls, k) == if names == [] then "" else names[|names| - 1]
    decreases |calls|
  {
    if calls != [] {
      var names, before := Names(calls, k), Names(Init(calls), k);
      assert forall i | 0 <= i < |before| :: names[i] == before[i];
      SnapshotsAreNamed(Init(calls), k);
      if |names| > |before| && before != [] {
        assert names[|before| - 1] <= names[|before|];
        Merged(before[|before| - 1], names[|before|]);
      }
    }
  }

  /** Names in pieces: they are joined. */
  lemma {:induction false} PiecesAreJoined(calls: seq<ToolDelta>, k: int)
    requires InPieces(Names(calls, k))
    ensures Named(calls, k) == Concat(Names(calls, k))
    decreases |calls|
  {
    if calls != [] {
      var names, before := Names(calls, k), Names(Init(calls), k);
      assert forall i | 0 <= i < |before| :: names[i] == before[i];
      assert forall n | 0 <= n <= |before| :: names[..n] == before[..n];
      assert forall n | 0 < n < |before| :: names[n] == before[n];
      PiecesAreJoined(Init(calls), k);
      if |names| == |before| {
        assert names == before;
      } else {
        JoinedWithLast(before, names[|before|]);
        assert names == before + [names[|before|]] && names[..|before|] == before;
        Merged(Concat(before), names[|before|]);
      }
    }
  }

  lemma JoinedWithLast(names: seq<string>, last: string)
    ensures Concat(names + [last]) == Concat(names) + last
    ensures names == [] ==> Concat(names) == ""
  {
    ConcatAppend(names, [last]);
    assert [last][1..] == [];
    AppendNone(last);
  }
}
