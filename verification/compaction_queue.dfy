/**
 * The compacting queue of the messaging rate limiter (messaging/limiter.py): requests under one
 * key are merged until the worker takes them.
 *
 * A trace lists what happened; `Since` reads from it, without looking at the queue's entries, which
 * requests for a key are still to be served.
 */
module CompactionQueue {
  import opened Text

  /** Functions and futures are known by numbers. */
  datatype Entry = Entry(func: int, futures: seq<int>)

  datatype Queue = Queue(keys: seq<string>, entries: map<string, Entry>)

  const EMPTY := Queue([], map[])

  datatype Action = Put(key: string, func: int, futures: seq<int>, front: bool) | Take

  /** `_enqueue_internal_multi`. */
  function Enqueued(q: Queue, key: string, func: int, futures: seq<int>, front: bool): Queue {
    if key in q.entries then q.(entries := q.entries[key := Entry(func, q.entries[key].futures + futures)])
    else Queue(if front then [key] + q.keys else q.keys + [key], q.entries[key := Entry(func, futures)])
  }

  /** The worker takes the first key; on an empty queue it waits. */
  function Step(q: Queue, a: Action): Queue {
    match a
    case Put(key, func, futures, front) => Enqueued(q, key, func, futures, front)
    case Take => if q.keys == [] then q else Queue(q.keys[1..], q.entries - {q.keys[0]})
  }

  function Before(trace: seq<Action>): seq<Action>
    requires trace != []
  {
    trace[..|trace| - 1]
  }

  function Last(trace: seq<Action>): Action
    requires trace != []
  {
    trace[|trace| - 1]
  }

  function After(trace: seq<Action>): Queue {
    if trace == [] then EMPTY else Step(After(Before(trace)), Last(trace))
  }

  // ----- what a trace says -----

  /** The key that the action at position t serves, if it serves one. */
  function Served(trace: seq<Action>, t: nat): Option<string>
    requires t < |trace|
  {
    if trace[t].Take? && After(trace[..t]).keys != [] then Some(After(trace[..t]).keys[0]) else None
  }

  /** The positions of the requests for `k` since it was last served. */
  function Since(trace: seq<Action>, k: string): seq<nat> {
    if trace == [] then []
    else
      var n, s := |trace| - 1, Since(Before(trace), k);
      if Served(trace, n) == Some(k) then []
      else if Last(trace).Put? && Last(trace).key == k then s + [n]
      else s
  }

  predicate Requests(trace: seq<Action>, positions: seq<nat>, k: string) {
    forall i | 0 <= i < |positions| :: positions[i] < |trace| && trace[positions[i]].Put?
      && trace[positions[i]].key == k
  }

  function FuturesOf(trace: seq<Action>, positions: seq<nat>, k: string): seq<int>
    requires Requests(trace, positions, k)
  {
    if positions == [] then []
    else FuturesOf(trace, positions[..|positions| - 1], k) + trace[positions[|positions| - 1]].futures
  }

  lemma {:induction false} SinceShape(trace: seq<Action>, k: string)
    ensures Requests(trace, Since(trace, k), k) && Rising(Since(trace, k))
    decreases |trace|
  {
    if trace != [] {
      var before := Before(trace);
      SinceShape(before, k);
      assert forall p | 0 <= p < |before| :: trace[p] == before[p];
    }
  }

  /** A request at the front ranks before all earlier ones, any other behind. */
  function Rank(trace: seq<Action>, p: nat): int
    requires p < |trace| && trace[p].Put?
  {
    if trace[p].front then -(p + 1) else p + 1
  }

  function FirstRank(trace: seq<Action>, k: string): int {
    SinceShape(trace, k);
    var s := Since(trace, k);
    if s == [] then 0 else Rank(trace, s[0])
  }

  // ----- the invariant -----

  /** What the entry for `k` is, by the trace alone. */
  ghost predicate EntryIs(trace: seq<Action>, q: Queue, k: string) {
    SinceShape(trace, k);
    var s := Since(trace, k);
    && (k in q.entries <==> s != [])
    && (k in q.entries ==> q.entries[k] == Entry(trace[s[|s| - 1]].func, FuturesOf(trace, s, k)))
  }

  ghost predicate Ranked(trace: seq<Action>, keys: seq<string>) {
    forall i, j | 0 <= i < j < |keys| :: FirstRank(trace, keys[i]) < FirstRank(trace, keys[j])
  }

  ghost predicate Inv(trace: seq<Action>) {
    var q := After(trace);
    && (forall k :: EntryIs(trace, q, k))
    && (forall k :: k in q.keys <==> k in q.entries)
    && Ranked(trace, q.keys)
  }

  lemma {:induction false} FuturesBefore(trace: seq<Action>, a: Action, positions: seq<nat>, k: string)
    requires Requests(trace, positions, k)
    ensures Requests(trace + [a], positions, k)
            && FuturesOf(trace + [a], positions, k) == FuturesOf(trace, positions, k)
    decreases |positions|
  {
    if positions != [] {
      FuturesBefore(trace, a, positions[..|positions| - 1], k);
    }
  }

  lemma SinceSnoc(trace: seq<Action>, a: Action, k: string)
    ensures var s := Since(trace, k);
            Since(trace + [a], k) ==
              if a.Put? && a.key == k then s + [|trace|]
              else if a.Take? && After(trace).keys != [] && After(trace).keys[0] == k then []
              else s
    ensures After(trace + [a]) == Step(After(trace), a)
  {
    assert Before(trace + [a]) == trace && (trace + [a])[..|trace|] == trace;
  }

  /** A key that the action is not about keeps its entry. */
  lemma OtherEntry(trace: seq<Action>, a: Action, k: string)
    requires EntryIs(trace, After(trace), k) && Since(trace + [a], k) == Since(trace, k)
    requires k in After(trace + [a]).entries <==> k in After(trace).entries
    requires k in After(trace).entries ==> After(trace + [a]).entries[k] == After(trace).entries[k]
    ensures EntryIs(trace + [a], After(trace + [a]), k)
  {
    SinceShape(trace, k);
    FuturesBefore(trace, a, Since(trace, k), k);
  }

  lemma PutEntry(trace: seq<Action>, a: Action)
    requires a.Put? && EntryIs(trace, After(trace), a.key)
    ensures EntryIs(trace + [a], After(trace + [a]), a.key)
  {
    var k, s := a.key, Since(trace, a.key);
    SinceSnoc(trace, a, k);
    SinceShape(trace, k);
    SinceShape(trace + [a], k);
    PutFutures(trace, a, s);
    AppendNone(a.futures);
  }

  lemma PutFutures(trace: seq<Action>, a: Action, s: seq<nat>)
    requires a.Put? && Requests(trace, s, a.key) && Requests(trace + [a], s + [|trace|], a.key)
    ensures FuturesOf(trace + [a], s + [|trace|], a.key) == FuturesOf(trace, s, a.key) + a.futures
  {
    FuturesBefore(trace, a, s, a.key);
    assert (s + [|trace|])[..|s|] == s && (trace + [a])[|trace|] == a;
  }

  lemma SameRank(trace: seq<Action>, a: Action, k: string)
    requires Since(trace, k) != []
             && (Since(trace + [a], k) == Since(trace, k) || Since(trace + [a], k) == Since(trace, k) + [|trace|])
    ensures FirstRank(trace + [a], k) == FirstRank(trace, k) && -|trace| <= FirstRank(trace, k) <= |trace|
  {
    SinceShape(trace, k);
    SinceShape(trace + [a], k);
  }

  lemma OldRanks(trace: seq<Action>, a: Action, k: string)
    requires Inv(trace) && a.Put? && k in After(trace).keys
    ensures FirstRank(trace + [a], k) == FirstRank(trace, k) && -|trace| <= FirstRank(trace, k) <= |trace|
  {
    SinceSnoc(trace, a, k);
    assert EntryIs(trace, After(trace), k);
    SameRank(trace, a, k);
  }

  lemma NewRank(trace: seq<Action>, a: Action)
    requires Inv(trace) && a.Put? && a.key !in After(trace).entries
    ensures FirstRank(trace + [a], a.key) == if a.front then -(|trace| + 1) else |trace| + 1
  {
    SinceSnoc(trace, a, a.key);
    assert EntryIs(trace, After(trace), a.key);
    SinceShape(trace + [a], a.key);
    assert Since(trace + [a], a.key) == [|trace|];
  }

  lemma PutRanked(trace: seq<Action>, a: Action)
    requires Inv(trace) && a.Put?
    ensures Ranked(trace + [a], After(trace + [a]).keys)
  {
    var keys, trace' := After(trace).keys, trace + [a];
    SinceSnoc(trace, a, a.key);
    forall k | k in keys
      ensures FirstRank(trace', k) == FirstRank(trace, k) && -|trace| <= FirstRank(trace, k) <= |trace| {
      OldRanks(trace, a, k);
    }
    RankedStill(trace, trace', keys);
    if a.key !in After(trace).entries {
      NewRank(trace, a);
      RankedJoin(trace', keys, a.key, |trace|);
    }
  }

  lemma RankedStill(trace: seq<Action>, trace': seq<Action>, keys: seq<string>)
    requires Ranked(trace, keys) && forall k | k in keys :: FirstRank(trace', k) == FirstRank(trace, k)
    ensures Ranked(trace', keys)
  {
    forall i, j | 0 <= i < j < |keys| ensures FirstRank(trace', keys[i]) < FirstRank(trace', keys[j]) {
      assert keys[i] in keys && keys[j] in keys;
    }
  }

  lemma RankedJoin(trace: seq<Action>, keys: seq<string>, key: string, bound: int)
    requires Ranked(trace, keys) && forall k | k in keys :: -bound <= FirstRank(trace, k) <= bound
    ensures FirstRank(trace, key) > bound ==> Ranked(trace, keys + [key])
    ensures FirstRank(trace, key) < -bound ==> Ranked(trace, [key] + keys)
  {
    assert forall i | 0 <= i < |keys| :: keys[i] in keys;
  }

  lemma TakeRanked(trace: seq<Action>)
    requires Inv(trace)
    ensures Ranked(trace + [Take], After(trace + [Take]).keys)
    ensures forall k :: k in After(trace + [Take]).keys <==> k in After(trace + [Take]).entries
  {
    var q, trace' := After(trace), trace + [Take];
    SinceSnoc(trace, Take, "");
    if q.keys != [] {
      assert q.keys == [q.keys[0]] + q.keys[1..];
      forall k | k in q.keys[1..] ensures k != q.keys[0] && FirstRank(trace', k) == FirstRank(trace, k) {
        SinceSnoc(trace, Take, k);
        assert EntryIs(trace, q, k);
        SameRank(trace, Take, k);
      }
    }
  }

  lemma StepKeeps(trace: seq<Action>, a: Action)
    requires Inv(trace)
    ensures Inv(trace + [a])
  {
    var q, trace' := After(trace), trace + [a];
    SinceSnoc(trace, a, "");
    forall k ensures EntryIs(trace', After(trace'), k) {
      SinceSnoc(trace, a, k);
      assert EntryIs(trace, q, k);
      if a.Put? && a.key == k {
        PutEntry(trace, a);
      } else if a.Take? && q.keys != [] && q.keys[0] == k {
        assert Since(trace', k) == [];
      } else {
        OtherEntry(trace, a, k);
      }
    }
    if a.Put? {
      PutRanked(trace, a);
    } else {
      TakeRanked(trace);
    }
  }

  /**
   * In every reachable state: the key deque has no repeats and lists the keys of the map; a key has
   * an entry exactly when requests for it are to be served, with the function of the last one and
   * the futures of all, in order; and keys stand in the order of their first request.
   */
  lemma {:induction false} QueueIsExact(trace: seq<Action>)
    ensures Inv(trace)
    decreases |trace|
  {
    if trace == [] {
      forall k ensures EntryIs(trace, After(trace), k) {
      }
    } else {
      QueueIsExact(Before(trace));
      StepKeeps(Before(trace), Last(trace));
      assert trace == Before(trace) + [Last(trace)];
    }
  }

  lemma KeysAreDistinct(trace: seq<Action>)
    ensures forall i, j | 0 <= i < j < |After(trace).keys| :: After(trace).keys[i] != After(trace).keys[j]
    ensures After(trace).entries.Keys == set k | k in After(trace).keys
  {
    QueueIsExact(trace);
  }

  // ----- serving -----

  /** The request at position i is served by the action at position t. */
  ghost predicate ServedAt(trace: seq<Action>, i: nat, t: nat) {
    && i < t < |trace| && trace[i].Put?
    && Served(trace, t) == Some(trace[i].key)
    && i in Since(trace[..t], trace[i].key)
  }

  ghost predicate Waits(trace: seq<Action>, i: nat) {
    i < |trace| && trace[i].Put? && i in Since(trace, trace[i].key)
  }

  lemma ServedBefore(trace: seq<Action>, a: Action, i: nat, t: nat)
    requires t < |trace|
    ensures ServedAt(trace + [a], i, t) <==> ServedAt(trace, i, t)
  {
    assert (trace + [a])[..t] == trace[..t];
    if i < t {
      assert (trace + [a])[i] == trace[i];
    }
  }

  /** Every request waits, or is served once: a request that has been served is not waiting, nor served again. */
  lemma {:induction false} ServedOnce(trace: seq<Action>, i: nat)
    requires i < |trace| && trace[i].Put?
    ensures Waits(trace, i) <==> !(exists t :: ServedAt(trace, i, t))
    ensures forall t, t' :: ServedAt(trace, i, t) && ServedAt(trace, i, t') ==> t == t'
    decreases |trace|
  {
    var before, a, n, k := Before(trace), Last(trace), |trace| - 1, trace[i].key;
    assert trace == before + [a] && trace[..n] == before;
    SinceSnoc(before, a, k);
    SinceShape(before, k);
    forall t: nat | t < n ensures ServedAt(trace, i, t) <==> ServedAt(before, i, t) {
      ServedBefore(before, a, i, t);
    }
    if i == n {
      assert Waits(trace, i);
    } else {
      ServedOnce(before, i);
      assert ServedAt(trace, i, n) <==> Served(trace, n) == Some(k) && Waits(before, i);
      if t :| ServedAt(before, i, t) {
        assert ServedAt(trace, i, t);
      }
    }
  }

  /**
   * Serving: what the worker takes at position t are exactly the futures of the waiting requests for
   * the first key, in the order of the requests, and the function of the last of these: no future is
   * resolved by a function that was enqueued before its own.
   */
  lemma ServesLatestForAll(trace: seq<Action>, t: nat)
    requires t < |trace| && Served(trace, t).Some?
    ensures var k, q := Served(trace, t).value, After(trace[..t]); var s := Since(trace[..t], k);
            && Requests(trace[..t], s, k) && Rising(s) && s != []
            && k in q.entries
            && q.entries[k].func == trace[s[|s| - 1]].func
            && q.entries[k].futures == FuturesOf(trace[..t], s, k)
            && (forall i: nat :: ServedAt(trace, i, t) <==> i in s)
            && (forall i: nat :: ServedAt(trace, i, t) ==> i <= s[|s| - 1] && trace[s[|s| - 1]].key == trace[i].key)
            && (forall k' | k' in q.keys && k' != k :: FirstRank(trace[..t], k) < FirstRank(trace[..t], k'))
  {
    var before, k := trace[..t], Served(trace, t).value;
    QueueIsExact(before);
    SinceShape(before, k);
    var q, s := After(before), Since(before, k);
    assert EntryIs(before, q, k);
    assert forall i: nat :: i in s ==> i < t && trace[i] == before[i];
    forall k' | k' in q.keys && k' != k ensures FirstRank(before, k) < FirstRank(before, k') {
      var j :| 0 <= j < |q.keys| && q.keys[j] == k';
      assert q.keys[0] == k;
    }
  }

  lemma {:induction false} FuturesFrom(trace: seq<Action>, positions: seq<nat>, k: string, f: int)
    requires Requests(trace, positions, k)
    ensures f in FuturesOf(trace, positions, k) <==>
              exists i: nat :: i in positions && i < |trace| && trace[i].Put? && f in trace[i].futures
    decreases |positions|
  {
    if positions != [] {
      var n := |positions| - 1;
      FuturesFrom(trace, positions[..n], k, f);
      assert positions == positions[..n] + [positions[n]];
    }
  }

  /** A future sits in the entry of a key exactly if it belongs to a waiting request for that key. */
  lemma FuturesSitInTheirEntry(trace: seq<Action>, k: string, f: int)
    ensures (k in After(trace).entries && f in After(trace).entries[k].futures)
            <==> exists i: nat :: Waits(trace, i) && trace[i].key == k && f in trace[i].futures
  {
    QueueIsExact(trace);
    SinceShape(trace, k);
    var s := Since(trace, k);
    assert EntryIs(trace, After(trace), k);
    FuturesFrom(trace, s, k, f);
    forall i: nat ensures Waits(trace, i) && trace[i].key == k <==> i in s {
    }
    if i: nat :| i in s && i < |trace| && trace[i].Put? && f in trace[i].futures {
      assert Waits(trace, i);
    }
  }

  /** Without requests for the front, keys are served in the order of their first request. */
  lemma FirstComeFirstServed(trace: seq<Action>, i: int, j: int)
    requires forall p | 0 <= p < |trace| :: trace[p].Put? ==> !trace[p].front
    requires 0 <= i < j < |After(trace).keys|
    ensures var a, b := Since(trace, After(trace).keys[i]), Since(trace, After(trace).keys[j]);
            a != [] && b != [] && a[0] < b[0]
  {
    QueueIsExact(trace);
    var q := After(trace);
    SinceShape(trace, q.keys[i]);
    SinceShape(trace, q.keys[j]);
    assert EntryIs(trace, q, q.keys[i]) && EntryIs(trace, q, q.keys[j]);
    assert q.keys[i] in q.keys && q.keys[j] in q.keys;
  }

  // ----- the limiter in place -----

  datatype Result = Value(value: int) | Failure(error: string)

  class MessagingRateLimiter {
    var queueList: seq<string>
    var queueMap: map<string, Entry>
    var done: map<int, Result>
    ghost var trace: seq<Action>

    ghost predicate Valid()
      reads this
    {
      Queue(queueList, queueMap) == After(trace)
    }

    constructor ()
      ensures Valid() && trace == [] && done == map[]
    {
      queueList, queueMap, done, trace := [], map[], map[], [];
    }

    method EnqueueMulti(func: int, futures: seq<int>, key: string, front: bool)
      requires Valid()
      modifies this
      ensures Valid() && trace == old(trace) + [Put(key, func, futures, front)] && done == old(done)
    {
      SinceSnoc(trace, Put(key, func, futures, front), key);
      if key in queueMap {
        queueMap := queueMap[key := Entry(func, queueMap[key].futures + futures)];
      } else {
        queueMap := queueMap[key := Entry(func, futures)];
        queueList := if front then [key] + queueList else queueList + [key];
      }
      trace := trace + [Put(key, func, futures, front)];
    }

    /** The worker takes the first key with its entry. */
    method TakeEntry() returns (entry: Entry)
      requires Valid() && queueList != []
      modifies this
      ensures Valid() && trace == old(trace) + [Take] && done == old(done)
      ensures old(queueList[0]) in old(queueMap) && entry == old(queueMap)[old(queueList[0])]
    {
      QueueIsExact(trace);
      SinceSnoc(trace, Take, "");
      var key := queueList[0];
      assert key in queueList;
      queueList := queueList[1..];
      entry := queueMap[key];
      queueMap := queueMap - {key};
      trace := trace + [Take];
    }

    /** A result goes to every future that is not done yet. */
    method Resolve(futures: seq<int>, result: Result)
      requires Valid()
      modifies this
      ensures Valid() && trace == old(trace) && queueList == old(queueList) && queueMap == old(queueMap)
      ensures done == Resolved(old(done), futures, result)
    {
      assert futures[0..] == futures;
      for n := 0 to |futures|
        invariant Valid() && trace == old(trace) && queueList == old(queueList) && queueMap == old(queueMap)
        invariant Resolved(done, futures[n..], result) == Resolved(old(done), futures, result)
      {
        assert futures[n..][0] == futures[n] && futures[n..][1..] == futures[n + 1..];
        if futures[n] !in done {
          done := done[futures[n] := result];
        }
      }
    }

    /**
     * One turn of the worker: it takes the first key and awaits the entry's function; requests that
     * arrive meanwhile are enqueued, under the same key as under any other; then the result goes to
     * every future of the entry taken that is not done yet.
     */
    method Work(call: int -> Result, arrivals: seq<Action>)
      requires Valid() && queueList != [] && forall a | a in arrivals :: a.Put?
      modifies this
      ensures Valid() && trace == old(trace) + [Take] + arrivals
      ensures old(queueList[0]) in old(queueMap)
      ensures var entry := old(queueMap)[old(queueList[0])];
              done == Resolved(old(done), entry.futures, call(entry.func))
    {
      var entry := TakeEntry();
      ghost var taken := trace;
      AppendNone(taken);
      for n := 0 to |arrivals|
        invariant Valid() && trace == taken + arrivals[..n] && done == old(done)
      {
        assert arrivals[n] in arrivals;
        Assoc(taken, arrivals[..n], [arrivals[n]]);
        assert arrivals[..n] + [arrivals[n]] == arrivals[..n + 1];
        EnqueueMulti(arrivals[n].func, arrivals[n].futures, arrivals[n].key, arrivals[n].front);
      }
      assert arrivals[..|arrivals|] == arrivals;
      Resolve(entry.futures, call(entry.func));
    }
  }

  function Resolved(done: map<int, Result>, futures: seq<int>, result: Result): map<int, Result>
    decreases |futures|
  {
    if futures == [] then done
    else Resolved(if futures[0] in done then done else done[futures[0] := result], futures[1..], result)
  }

  /** A future keeps its first result; the entry's other futures get the new one. */
  lemma {:induction false} ResolvedIsExact(done: map<int, Result>, futures: seq<int>, result: Result, f: int)
    ensures var done' := Resolved(done, futures, result);
            && (f in done' <==> f in done || f in futures)
            && (f in done ==> done'[f] == done[f])
            && (f !in done && f in futures ==> done'[f] == result)
    decreases |futures|
  {
    if futures != [] {
      ResolvedIsExact(if futures[0] in done then done else done[futures[0] := result], futures[1..], result, f);
      assert futures == [futures[0]] + futures[1..];
    }
  }
}
