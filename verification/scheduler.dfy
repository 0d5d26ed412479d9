/**
 * The per-tree scheduler (messaging/trees/queue_manager.py, messaging/trees/data.py): a
 * lock-protected FIFO dispatcher with cancellation and error propagation.
 *
 * Every section that the source runs under the tree's lock is one step of `Machine`.  Requests
 * are numbered by a ticket, their position in the order of enqueueing.
 */
module Scheduler {
  import opened Text

  datatype Status = PENDING | IN_PROGRESS | COMPLETED | ERROR

  predicate Settled(s: Status) {
    s == COMPLETED || s == ERROR
  }

  /**
   * `members` are the ids of the tree's nodes; `status` also keeps the state of removed nodes,
   * which a task may still hold.  `index` is the set beside the queue.
   */
  datatype Tree = Tree(members: set<string>, status: map<string, Status>, queue: seq<string>, index: set<string>,
                       processing: bool, current: Option<string>, currentTask: Option<nat>)

  /** Where a task is: created but not begun, in the processor, or in one of the locked sections that follow. */
  datatype Phase = Created | Running | Failing | Closing | Draining

  datatype Task = Task(node: string, phase: Phase, cancelled: bool)

  datatype Outcome = Processed | Skipped | Lost

  /**
   * `waiting` are the tickets of the queue; `cancelled` those taken out of it; `outcome` says what
   * became of a dispatched ticket.  `stuck`: the tree is busy with no task that could free it.
   */
  datatype History = History(enqueued: seq<string>, waiting: seq<nat>, dispatched: seq<nat>, cancelled: set<nat>,
                             outcome: map<nat, Outcome>, stuck: bool)

  /** `live` are the tasks, by ticket, that have not yet left `_process_next`. */
  datatype Machine = Machine(tree: Tree, live: map<nat, Task>, h: History)

  const FREE := Machine(Tree({}, map[], [], {}, false, None, None), map[], History([], [], [], {}, map[], false))

  datatype Action =
    | AddNode(id: string)
    | Enqueue(id: string)
    | Begin(ticket: nat)
    | Finish(ticket: nat)
    | Fail(ticket: nat)
    | MarkFailed(ticket: nat)
    | Clear(ticket: nat)
    | Next(ticket: nat)
    | SetState(id: string, state: Status)
    | CancelNode(id: string)
    | CancelBranch(ids: set<string>)
    | RemoveBranch(ids: set<string>)
    | CancelTree

  // ----- the steps -----

  function Keep(queue: seq<string>, out: set<string>): seq<string> {
    if queue == [] then [] else (if queue[0] in out then [] else [queue[0]]) + Keep(queue[1..], out)
  }

  predicate AllBelow(tickets: seq<nat>, n: nat) {
    forall i | 0 <= i < |tickets| :: tickets[i] < n
  }

  /** The tickets that stay, and those that go, when the ids in `out` leave the queue. */
  function Stay(tickets: seq<nat>, enqueued: seq<string>, out: set<string>): seq<nat>
    requires AllBelow(tickets, |enqueued|)
  {
    if tickets == [] then []
    else (if enqueued[tickets[0]] in out then [] else [tickets[0]]) + Stay(tickets[1..], enqueued, out)
  }

  function Leave(tickets: seq<nat>, enqueued: seq<string>, out: set<string>): set<nat>
    requires AllBelow(tickets, |enqueued|)
  {
    set p | p in tickets && enqueued[p] in out
  }

  predicate Ticketed(m: Machine) {
    AllBelow(m.h.waiting, |m.h.enqueued|)
  }

  function Dispatch(m: Machine, n: string, p: nat): Machine {
    var t := m.tree.(processing := true, current := Some(n));
    var h := m.h.(dispatched := m.h.dispatched + [p]);
    if n in t.members then Machine(t.(currentTask := Some(p)), m.live[p := Task(n, Created, false)], h)
    else Machine(t, m.live, h.(stuck := true, outcome := h.outcome[p := Lost]))
  }

  /** `enqueue_and_start`. */
  function EnqueueStep(m: Machine, n: string): Machine {
    var p := |m.h.enqueued|;
    var m1 := m.(h := m.h.(enqueued := m.h.enqueued + [n]));
    if m.tree.processing then
      m1.(tree := m.tree.(queue := m.tree.queue + [n], index := m.tree.index + {n}),
          h := m1.h.(waiting := m.h.waiting + [p]))
    else Dispatch(m1, n, p)
  }

  /** A task that ends by cancellation outside its try block, or while it waits for the lock afterwards. */
  function Vanish(m: Machine, p: nat): Machine {
    m.(live := m.live - {p},
       h := m.h.(stuck := true, outcome := if p in m.h.outcome then m.h.outcome else m.h.outcome[p := Lost]))
  }

  function Moved(m: Machine, p: nat, phase: Phase): Machine
    requires p in m.live
  {
    m.(live := m.live[p := m.live[p].(phase := phase, cancelled := false)])
  }

  /** A node in ERROR is skipped. */
  function BeginStep(m: Machine, p: nat): Machine
    requires p in m.live
  {
    var n := m.live[p].node;
    if m.live[p].cancelled then Vanish(m, p)
    else if n in m.tree.status && m.tree.status[n] == ERROR then
      Moved(m, p, Draining).(h := m.h.(outcome := m.h.outcome[p := Skipped]))
    else Moved(m, p, Running).(h := m.h.(outcome := m.h.outcome[p := Processed]))
  }

  function SetStatus(t: Tree, n: string, s: Status): Tree {
    if n in t.members then t.(status := t.status[n := s]) else t
  }

  function MarkFailedStep(m: Machine, p: nat): Machine
    requires p in m.live
  {
    var m1 := Moved(m, p, Closing);
    if m.live[p].cancelled then m1 else m1.(tree := SetStatus(m.tree, m.live[p].node, ERROR))
  }

  function ClearStep(m: Machine, p: nat): Machine
    requires p in m.live
  {
    if m.live[p].cancelled then Vanish(m, p)
    else Moved(m, p, Draining).(tree := m.tree.(current := None))
  }

  /** `_process_next`. */
  function NextStep(m: Machine, p: nat): Machine
    requires p in m.live && |m.h.waiting| == |m.tree.queue|
  {
    if m.live[p].cancelled then Vanish(m, p)
    else
      var live := m.live - {p};
      if m.tree.queue == [] then m.(tree := m.tree.(processing := false, current := None), live := live)
      else
        var n := m.tree.queue[0];
        Dispatch(m.(tree := m.tree.(queue := m.tree.queue[1..], index := m.tree.index - {n}), live := live,
                    h := m.h.(waiting := m.h.waiting[1..])), n, m.h.waiting[0])
  }

  /** Those of `ids` that are nodes still to be processed. */
  function Active(t: Tree, ids: set<string>): set<string> {
    set n | n in ids && n in t.members && n in t.status && !Settled(t.status[n])
  }

  /** Cancels `active`: the current task is cancelled, and the ids in `out` leave the queue. */
  function Cancel(m: Machine, active: set<string>, out: set<string>): Machine
    requires Ticketed(m)
  {
    var t, h, gone := m.tree, m.h, out * m.tree.index;
    var hit := t.current.Some? && t.current.value in active && t.currentTask.Some? && t.currentTask.value in m.live;
    Machine(t.(status := map n | n in t.status :: if n in active then ERROR else t.status[n],
               queue := Keep(t.queue, gone), index := t.index - gone),
            if hit then m.live[t.currentTask.value := m.live[t.currentTask.value].(cancelled := true)] else m.live,
            h.(waiting := Stay(h.waiting, h.enqueued, gone),
               cancelled := h.cancelled + Leave(h.waiting, h.enqueued, gone)))
  }

  function Apart(ids: set<string>, current: Option<string>): set<string> {
    if current.Some? then ids - {current.value} else ids
  }

  /** `cancel_tree`: what waits or is not settled is marked, the queue is emptied and the flags are reset. */
  function CancelTreeStep(m: Machine): Machine
    requires Ticketed(m)
  {
    var all := set n | n in m.tree.members && n in m.tree.status && (n in m.tree.queue || !Settled(m.tree.status[n]));
    var hit := m.tree.currentTask.Some? && m.tree.currentTask.value in m.live;
    Machine(m.tree.(status := map n | n in m.tree.status :: if n in all then ERROR else m.tree.status[n],
                    queue := [], index := {}, processing := false, current := None),
            if hit then m.live[m.tree.currentTask.value := m.live[m.tree.currentTask.value].(cancelled := true)]
            else m.live,
            m.h.(waiting := [], cancelled := m.h.cancelled + (set p | p in m.h.waiting), stuck := false))
  }

  predicate Enabled(m: Machine, a: Action) {
    && Ticketed(m) && |m.h.waiting| == |m.tree.queue|
    && match a
       case Begin(p) => p in m.live && m.live[p].phase == Created
       case Finish(p) => p in m.live && m.live[p].phase == Running
       case Fail(p) => p in m.live && m.live[p].phase == Running
       case MarkFailed(p) => p in m.live && m.live[p].phase == Failing
       case Clear(p) => p in m.live && m.live[p].phase == Closing
       case Next(p) => p in m.live && m.live[p].phase == Draining
       case _ => true
  }

  /** `cancel_tree` may only find a tree without a live task. */
  predicate Allowed(m: Machine, a: Action) {
    Enabled(m, a) && (a.CancelTree? ==> m.live == map[])
  }

  function Step(m: Machine, a: Action): Machine
    requires Enabled(m, a)
  {
    match a
    case AddNode(n) => m.(tree := m.tree.(members := m.tree.members + {n}, status := m.tree.status[n := PENDING]))
    case Enqueue(n) => EnqueueStep(m, n)
    case Begin(p) => BeginStep(m, p)
    case Finish(p) => Moved(m, p, Closing)
    case Fail(p) => Moved(m, p, Failing)
    case MarkFailed(p) => MarkFailedStep(m, p)
    case Clear(p) => ClearStep(m, p)
    case Next(p) => NextStep(m, p)
    case SetState(n, s) => m.(tree := SetStatus(m.tree, n, s))
    case CancelNode(n) => Cancel(m, Active(m.tree, {n}), Active(m.tree, {n}))
    case CancelBranch(ids) => Cancel(m, Active(m.tree, ids), Apart(Active(m.tree, ids), m.tree.current))
    case RemoveBranch(ids) => m.(tree := m.tree.(members := m.tree.members - ids))
    case CancelTree => CancelTreeStep(m)
  }

  ghost predicate Possible(m: Machine, run: seq<Action>)
    decreases |run|
  {
    run == [] || (Allowed(m, run[0]) && Possible(Step(m, run[0]), run[1..]))
  }

  ghost function Reached(m: Machine, run: seq<Action>): Machine
    requires Possible(m, run)
    decreases |run|
  {
    if run == [] then m else Reached(Step(m, run[0]), run[1..])
  }

  // ----- the invariant -----

  ghost predicate Matching(queue: seq<string>, tickets: seq<nat>, enqueued: seq<string>)
    requires |queue| == |tickets| && AllBelow(tickets, |enqueued|)
  {
    forall i | 0 <= i < |queue| :: queue[i] == enqueued[tickets[i]]
  }

  /** The queue holds the ids of the waiting tickets, in order. */
  ghost predicate Aligned(m: Machine) {
    && |m.h.waiting| == |m.tree.queue|
    && Ticketed(m)
    && Matching(m.tree.queue, m.h.waiting, m.h.enqueued)
  }

  /** Every ticket is dispatched, waiting or cancelled, and only one of these; dispatch follows the order of tickets. */
  ghost predicate Accounted(h: History) {
    && Rising(h.dispatched + h.waiting)
    && (forall p :: p in h.dispatched || p in h.waiting || p in h.cancelled <==> 0 <= p < |h.enqueued|)
    && (forall p | p in h.cancelled :: p !in h.dispatched && p !in h.waiting)
  }

  /** The set beside the queue is exact as long as no id has been enqueued twice. */
  ghost predicate Indexed(m: Machine) {
    && (forall n | n in m.tree.index :: n in m.tree.queue)
    && (Distinct(m.h.enqueued) ==> forall n | n in m.tree.queue :: n in m.tree.index)
  }

  predicate IsLatest(h: History, p: nat) {
    h.dispatched != [] && p == h.dispatched[|h.dispatched| - 1] && p < |h.enqueued|
  }

  ghost predicate TasksInv(m: Machine) {
    && (forall p | p in m.live ::
          && IsLatest(m.h, p) && m.live[p].node == m.h.enqueued[p] && m.live[p].node in m.tree.status
          && m.tree.currentTask == Some(p) && !m.h.stuck
          && (m.live[p].phase == Draining || m.tree.current == Some(m.live[p].node)))
    && (m.tree.processing <==> m.live != map[] || m.h.stuck)
    && (!m.tree.processing ==> m.tree.queue == [] && m.tree.current == None)
    && (m.tree.current.Some? ==> exists p: nat :: IsLatest(m.h, p) && m.h.enqueued[p] == m.tree.current.value)
    && m.tree.members <= m.tree.status.Keys
  }

  /** Every dispatched ticket has an outcome, but for one whose task has not begun. */
  ghost predicate OutcomesInv(m: Machine) {
    forall p :: p in m.h.outcome <==> p in m.h.dispatched && !(p in m.live && m.live[p].phase == Created)
  }

  ghost predicate Inv(m: Machine) {
    Aligned(m) && Accounted(m.h) && Indexed(m) && TasksInv(m) && OutcomesInv(m)
  }

  lemma RisingSnoc(s: seq<nat>, p: nat)
    requires Rising(s) && forall q | q in s :: q < p
    ensures Rising(s + [p])
  {
    assert forall i | 0 <= i < |s| :: s[i] in s;
  }

  /** A new ticket at the end of the dispatched or the waiting ones. */
  lemma NewTicket(h: History, n: string)
    requires Accounted(h) && AllBelow(h.waiting, |h.enqueued|)
    ensures var p, h1 := |h.enqueued|, h.(enqueued := h.enqueued + [n]);
            && Accounted(h1.(waiting := h.waiting + [p]))
            && (h.waiting == [] ==> Accounted(h1.(dispatched := h.dispatched + [p])))
            && p !in h.dispatched && p !in h.waiting
  {
    var p, all := |h.enqueued|, h.dispatched + h.waiting;
    assert forall q :: q in all <==> q in h.dispatched || q in h.waiting;
    RisingSnoc(all, p);
    assert h.dispatched + (h.waiting + [p]) == all + [p];
    if h.waiting == [] {
      assert h.dispatched + [p] + [] == all + [p];
    }
  }

  lemma DistinctBefore(s: seq<string>, n: string)
    ensures Distinct(s + [n]) ==> Distinct(s)
  {
    assert forall i | 0 <= i < |s| :: (s + [n])[i] == s[i];
  }

  lemma EnqueueKeeps(m: Machine, n: string)
    requires Inv(m)
    ensures Inv(EnqueueStep(m, n))
  {
    var p, h := |m.h.enqueued|, m.h;
    var m1 := m.(h := h.(enqueued := h.enqueued + [n]));
    NewTicket(h, n);
    DistinctBefore(h.enqueued, n);
    assert forall i | 0 <= i < |h.enqueued| :: m1.h.enqueued[i] == h.enqueued[i];
    if m.tree.processing {
      EnqueueWaits(m, n);
    } else {
      assert Aligned(m1) && Indexed(m1);
      DispatchKeeps(m1, n, p);
    }
  }

  lemma EnqueueWaits(m: Machine, n: string)
    requires Inv(m) && m.tree.processing && Accounted(EnqueueStep(m, n).h)
    ensures Inv(EnqueueStep(m, n))
  {
    var m' := EnqueueStep(m, n);
    DistinctBefore(m.h.enqueued, n);
    assert forall i | 0 <= i < |m.h.enqueued| :: m'.h.enqueued[i] == m.h.enqueued[i];
    assert Matching(m'.tree.queue, m'.h.waiting, m'.h.enqueued);
    assert Indexed(m');
    assert forall q | IsLatest(m.h, q) :: IsLatest(m'.h, q);
  }

  lemma VanishKeeps(m: Machine, p: nat)
    requires Inv(m) && p in m.live
    ensures Inv(Vanish(m, p))
  {
    assert Vanish(m, p).live == map[];
  }

  lemma BeginKeeps(m: Machine, p: nat)
    requires Inv(m) && p in m.live && m.live[p].phase == Created
    ensures Inv(BeginStep(m, p))
  {
    if m.live[p].cancelled {
      VanishKeeps(m, p);
    }
  }

  lemma MovedKeeps(m: Machine, p: nat, phase: Phase)
    requires Inv(m) && p in m.live && m.live[p].phase != Created && phase != Created && m.live[p].phase != Draining
    ensures Inv(Moved(m, p, phase))
  {
  }

  lemma DispatchKeeps(m: Machine, n: string, p: nat)
    requires Aligned(m) && Indexed(m) && m.live == map[] && !m.h.stuck
    requires m.tree.members <= m.tree.status.Keys
    requires p < |m.h.enqueued| && m.h.enqueued[p] == n && p !in m.h.outcome
    requires Accounted(m.h.(dispatched := m.h.dispatched + [p]))
    requires forall q :: q in m.h.outcome <==> q in m.h.dispatched
    ensures Inv(Dispatch(m, n, p))
  {
    var m' := Dispatch(m, n, p);
    assert IsLatest(m'.h, p);
    assert forall q :: q in m'.h.dispatched <==> q in m.h.dispatched || q == p;
  }

  lemma NextKeeps(m: Machine, p: nat)
    requires Inv(m) && p in m.live && m.live[p].phase == Draining
    ensures Inv(NextStep(m, p))
  {
    if m.live[p].cancelled {
      VanishKeeps(m, p);
    } else {
      var live := m.live - {p};
      assert live == map[];
      if m.tree.queue != [] {
        var n, w := m.tree.queue[0], m.h.waiting[0];
        var m1 := m.(tree := m.tree.(queue := m.tree.queue[1..], index := m.tree.index - {n}), live := live,
                     h := m.h.(waiting := m.h.waiting[1..]));
        assert m.h.dispatched + [w] + m.h.waiting[1..] == m.h.dispatched + m.h.waiting;
        assert m.h.waiting == [w] + m.h.waiting[1..];
        TicketApart(m.h);
        PopIndexed(m);
        DispatchKeeps(m1, n, w);
      }
    }
  }

  lemma TicketApart(h: History)
    requires Accounted(h) && h.waiting != []
    ensures h.waiting[0] !in h.dispatched && h.waiting[0] !in h.waiting[1..]
  {
    var all := h.dispatched + h.waiting;
    assert all[|h.dispatched|] == h.waiting[0];
    forall i | 0 <= i < |h.dispatched| ensures h.dispatched[i] != h.waiting[0] {
      assert all[i] == h.dispatched[i];
    }
    forall j | 1 <= j < |h.waiting| ensures h.waiting[j] != h.waiting[0] {
      assert all[|h.dispatched| + j] == h.waiting[j];
    }
  }

  lemma PopIndexed(m: Machine)
    requires Inv(m) && m.tree.queue != []
    ensures forall n | n in m.tree.index - {m.tree.queue[0]} :: n in m.tree.queue[1..]
    ensures Distinct(m.h.enqueued) ==> forall n | n in m.tree.queue[1..] :: n in m.tree.index - {m.tree.queue[0]}
  {
    assert m.tree.queue == [m.tree.queue[0]] + m.tree.queue[1..];
    if Distinct(m.h.enqueued) {
      TicketApart(m.h);
      forall i | 1 <= i < |m.tree.queue| ensures m.tree.queue[i] != m.tree.queue[0] {
        assert m.h.waiting[i] == m.h.waiting[1..][i - 1];
      }
    }
  }

  // ----- cancellation -----

  lemma {:induction false} KeepAll(queue: seq<string>)
    ensures Keep(queue, {}) == queue
  {
    if queue != [] {
      KeepAll(queue[1..]);
    }
  }

  lemma {:induction false} KeepMembers(queue: seq<string>, out: set<string>)
    ensures forall n :: n in Keep(queue, out) <==> n in queue && n !in out
  {
    if queue != [] {
      KeepMembers(queue[1..], out);
      assert queue == [queue[0]] + queue[1..];
    }
  }

  lemma {:induction false} StayMembers(tickets: seq<nat>, enqueued: seq<string>, out: set<string>)
    requires AllBelow(tickets, |enqueued|)
    ensures var w := Stay(tickets, enqueued, out);
            AllBelow(w, |enqueued|) && forall p :: p in w <==> p in tickets && enqueued[p] !in out
  {
    if tickets != [] {
      assert tickets == [tickets[0]] + tickets[1..];
      StayMembers(tickets[1..], enqueued, out);
      var first := if enqueued[tickets[0]] in out then [] else [tickets[0]];
      var rest := Stay(tickets[1..], enqueued, out);
      assert forall p :: p in first + rest <==> p in first || p in rest;
    }
  }

  /** The tickets that stay keep their order. */
  lemma {:induction false} StayRising(tickets: seq<nat>, enqueued: seq<string>, out: set<string>)
    requires AllBelow(tickets, |enqueued|) && Rising(tickets)
    ensures Rising(Stay(tickets, enqueued, out))
  {
    if tickets != [] {
      assert forall i | 0 <= i < |tickets| - 1 :: tickets[1..][i] == tickets[i + 1];
      StayRising(tickets[1..], enqueued, out);
      StayMembers(tickets[1..], enqueued, out);
      var rest := Stay(tickets[1..], enqueued, out);
      forall i | 0 <= i < |rest| ensures tickets[0] < rest[i] {
        assert rest[i] in tickets[1..];
      }
    }
  }

  /** Queue and tickets stay aligned. */
  lemma {:induction false} StayAligned(queue: seq<string>, tickets: seq<nat>, enqueued: seq<string>, out: set<string>)
    requires |queue| == |tickets| && AllBelow(tickets, |enqueued|) && Matching(queue, tickets, enqueued)
    ensures var q, w := Keep(queue, out), Stay(tickets, enqueued, out);
            |q| == |w| && AllBelow(w, |enqueued|) && Matching(q, w, enqueued)
  {
    if queue != [] {
      assert queue[0] == enqueued[tickets[0]];
      assert forall i | 0 <= i < |queue| - 1 :: queue[1..][i] == queue[i + 1] && tickets[1..][i] == tickets[i + 1];
      StayAligned(queue[1..], tickets[1..], enqueued, out);
    }
  }

  lemma RisingParts(a: seq<nat>, b: seq<nat>, c: seq<nat>)
    requires Rising(a + b) && Rising(c) && forall p | p in c :: p in b
    ensures Rising(b) && Rising(a + c)
  {
    var all := a + b;
    forall i, j | 0 <= i < j < |b| ensures b[i] < b[j] {
      assert all[|a| + i] == b[i] && all[|a| + j] == b[j];
    }
    forall i, j | 0 <= i < j < |a + c| ensures (a + c)[i] < (a + c)[j] {
      if j < |a| {
        assert all[i] == a[i] && all[j] == a[j];
      } else if i < |a| {
        assert c[j - |a|] in b;
        var k :| 0 <= k < |b| && b[k] == c[j - |a|];
        assert all[i] == a[i] && all[|a| + k] == b[k];
      }
    }
  }

  lemma RisingTail(a: seq<nat>, b: seq<nat>)
    requires Rising(a + b)
    ensures Rising(b)
  {
    forall i, j | 0 <= i < j < |b| ensures b[i] < b[j] {
      assert (a + b)[|a| + i] == b[i] && (a + b)[|a| + j] == b[j];
    }
  }

  lemma CancelKeeps(m: Machine, active: set<string>, out: set<string>)
    requires Inv(m)
    ensures Inv(Cancel(m, active, out))
  {
    var t, h := m.tree, m.h;
    var gone := out * t.index;
    var m' := Cancel(m, active, out);
    KeepMembers(t.queue, gone);
    StayAligned(t.queue, h.waiting, h.enqueued, gone);
    StayMembers(h.waiting, h.enqueued, gone);
    RisingTail(h.dispatched, h.waiting);
    StayRising(h.waiting, h.enqueued, gone);
    RisingParts(h.dispatched, h.waiting, m'.h.waiting);
    AccountedAfter(h, m'.h, gone);
    assert Aligned(m') && Indexed(m');
    assert forall p :: IsLatest(m'.h, p) <==> IsLatest(h, p);
  }

  lemma AccountedAfter(h: History, h': History, gone: set<string>)
    requires Accounted(h) && AllBelow(h.waiting, |h.enqueued|)
    requires h' == h.(waiting := h'.waiting, cancelled := h.cancelled + Leave(h.waiting, h.enqueued, gone))
    requires forall p :: p in h'.waiting <==> p in h.waiting && h.enqueued[p] !in gone
    requires Rising(h.dispatched + h'.waiting)
    ensures Accounted(h')
  {
    forall p | p in h.waiting ensures p !in h.dispatched {
      WaitingApart(h, p);
    }
  }

  lemma WaitingApart(h: History, p: nat)
    requires Accounted(h) && p in h.waiting
    ensures p !in h.dispatched
  {
    var all := h.dispatched + h.waiting;
    var j :| 0 <= j < |h.waiting| && h.waiting[j] == p;
    assert all[|h.dispatched| + j] == p;
    forall i | 0 <= i < |h.dispatched| ensures h.dispatched[i] != p {
      assert all[i] == h.dispatched[i];
    }
  }

  lemma CancelTreeKeeps(m: Machine)
    requires Inv(m) && m.live == map[]
    ensures Inv(CancelTreeStep(m))
  {
    var h := m.h;
    var m' := CancelTreeStep(m);
    forall p | p in h.waiting ensures p !in h.dispatched {
      WaitingApart(h, p);
    }
    RisingParts(h.dispatched, h.waiting, []);
    assert m'.h.waiting == [];
  }

  lemma AddNodeKeeps(m: Machine, n: string)
    requires Inv(m)
    ensures Inv(m.(tree := m.tree.(members := m.tree.members + {n}, status := m.tree.status[n := PENDING])))
  {
  }

  lemma SetStateKeeps(m: Machine, n: string, s: Status)
    requires Inv(m)
    ensures Inv(m.(tree := SetStatus(m.tree, n, s)))
  {
  }

  lemma RemoveBranchKeeps(m: Machine, ids: set<string>)
    requires Inv(m)
    ensures Inv(m.(tree := m.tree.(members := m.tree.members - ids)))
  {
  }

  lemma MarkFailedKeeps(m: Machine, p: nat)
    requires Inv(m) && p in m.live && m.live[p].phase == Failing
    ensures Inv(MarkFailedStep(m, p))
  {
    MovedKeeps(m, p, Closing);
    SetStateKeeps(Moved(m, p, Closing), m.live[p].node, ERROR);
  }

  lemma ClearKeeps(m: Machine, p: nat)
    requires Inv(m) && p in m.live && m.live[p].phase == Closing
    ensures Inv(ClearStep(m, p))
  {
    VanishKeeps(m, p);
    MovedKeeps(m, p, Draining);
  }

  /** Every step keeps the invariant. */
  lemma StepKeeps(m: Machine, a: Action)
    requires Inv(m) && Allowed(m, a)
    ensures Inv(Step(m, a))
  {
    match a {
      case AddNode(n) => AddNodeKeeps(m, n);
      case Enqueue(n) => EnqueueKeeps(m, n);
      case Begin(p) => BeginKeeps(m, p);
      case Finish(p) => MovedKeeps(m, p, Closing);
      case Fail(p) => MovedKeeps(m, p, Failing);
      case MarkFailed(p) => MarkFailedKeeps(m, p);
      case Clear(p) => ClearKeeps(m, p);
      case Next(p) => NextKeeps(m, p);
      case SetState(n, s) => SetStateKeeps(m, n, s);
      case CancelNode(n) => CancelKeeps(m, Active(m.tree, {n}), Active(m.tree, {n}));
      case CancelBranch(ids) => CancelKeeps(m, Active(m.tree, ids), Apart(Active(m.tree, ids), m.tree.current));
      case RemoveBranch(ids) => RemoveBranchKeeps(m, ids);
      case CancelTree => CancelTreeKeeps(m);
    }
  }
}
