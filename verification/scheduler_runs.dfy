/** What holds over all runs of the scheduler, and where the code needs its hypotheses. */
module SchedulerRuns {
  import opened Text
  import opened Scheduler

  lemma {:induction false} RunKeeps(m: Machine, run: seq<Action>)
    requires Inv(m) && Possible(m, run)
    ensures Inv(Reached(m, run))
    decreases |run|
  {
    if run != [] {
      StepKeeps(m, run[0]);
      RunKeeps(Step(m, run[0]), run[1..]);
    }
  }

  lemma {:induction false} RunTogether(m: Machine, a: seq<Action>, b: seq<Action>)
    requires Possible(m, a) && Possible(Reached(m, a), b)
    ensures Possible(m, a + b) && Reached(m, a + b) == Reached(Reached(m, a), b)
    decreases |a|
  {
    if a == [] {
      assert a + b == b;
    } else {
      assert (a + b)[1..] == a[1..] + b;
      RunTogether(Step(m, a[0]), a[1..], b);
    }
  }

  ghost predicate ExactlyOne(a: bool, b: bool, c: bool) {
    (a || b || c) && !(a && b) && !(b && c) && !(a && c)
  }

  /**
   * Safety of every run: at most one live task, and it is that of the latest dispatched ticket; the
   * tree is busy exactly when there is one or the tree is stuck; a free tree has an empty queue;
   * each ticket is dispatched, waiting or cancelled, and only one of these; dispatch is in the
   * order of enqueueing; and the set beside the queue is exact if no id was enqueued twice.
   */
  lemma SchedulerIsSafe(run: seq<Action>)
    requires Possible(FREE, run)
    ensures var m := Reached(FREE, run); var h := m.h;
      && (forall p, q | p in m.live && q in m.live :: p == q)
      && (forall p | p in m.live :: IsLatest(h, p) && m.live[p].node == h.enqueued[p])
      && (m.tree.processing <==> m.live != map[] || h.stuck)
      && !(m.live != map[] && h.stuck)
      && (!m.tree.processing ==> m.tree.queue == [])
      && (forall p: nat :: p < |h.enqueued| ==> ExactlyOne(p in h.dispatched, p in h.waiting, p in h.cancelled))
      && Rising(h.dispatched + h.waiting)
      && |m.tree.queue| == |h.waiting|
      && (forall i | 0 <= i < |h.waiting| :: h.waiting[i] < |h.enqueued| && m.tree.queue[i] == h.enqueued[h.waiting[i]])
      && (Distinct(h.enqueued) ==> m.tree.index == set n | n in m.tree.queue)
  {
    RunKeeps(FREE, run);
    var m := Reached(FREE, run);
    forall p: nat | p < |m.h.enqueued| ensures ExactlyOne(p in m.h.dispatched, p in m.h.waiting, p in m.h.cancelled) {
      if p in m.h.waiting {
        WaitingApart(m.h, p);
      }
    }
  }

  // ----- what never changes -----

  /** Nothing that was recorded is taken back. */
  ghost predicate Extends(h: History, h': History) {
    && (forall p | p in h.outcome :: p in h'.outcome && h'.outcome[p] == h.outcome[p])
    && h.cancelled <= h'.cancelled
    && h.enqueued <= h'.enqueued
    && h.dispatched <= h'.dispatched
  }

  lemma EnqueueExtends(m: Machine, n: string)
    requires Inv(m)
    ensures Extends(m.h, EnqueueStep(m, n).h)
  {
    NewTicket(m.h, n);
  }

  lemma NextExtends(m: Machine, p: nat)
    requires Inv(m) && p in m.live
    ensures Extends(m.h, NextStep(m, p).h)
  {
    if m.h.waiting != [] {
      TicketApart(m.h);
    }
  }

  /** What has been decided about a ticket stays decided. */
  lemma Decided(m: Machine, a: Action)
    requires Inv(m) && Allowed(m, a)
    ensures Extends(m.h, Step(m, a).h)
  {
    match a {
      case Enqueue(n) => EnqueueExtends(m, n);
      case Next(p) => NextExtends(m, p);
      case _ =>
    }
  }

  lemma {:induction false} DecidedForGood(m: Machine, run: seq<Action>)
    requires Inv(m) && Possible(m, run)
    ensures Extends(m.h, Reached(m, run).h)
    decreases |run|
  {
    if run != [] {
      Decided(m, run[0]);
      StepKeeps(m, run[0]);
      DecidedForGood(Step(m, run[0]), run[1..]);
    }
  }

  /** Whether a node reaches the processor is decided by its state when its task begins, whatever happens later. */
  lemma ErrorsAreSkipped(before: seq<Action>, p: nat, after: seq<Action>)
    requires Possible(FREE, before) && Allowed(Reached(FREE, before), Begin(p))
    requires Possible(Step(Reached(FREE, before), Begin(p)), after)
    ensures var m := Reached(FREE, before); var task := m.live[p];
            var h := Reached(Step(m, Begin(p)), after).h;
            && task.node in m.tree.status && p in h.outcome
            && (h.outcome[p] == Processed <==> !task.cancelled && m.tree.status[task.node] != ERROR)
  {
    RunKeeps(FREE, before);
    BeginDecides(Reached(FREE, before), p, after);
  }

  lemma BeginDecides(m: Machine, p: nat, after: seq<Action>)
    requires Inv(m) && Allowed(m, Begin(p)) && Possible(Step(m, Begin(p)), after)
    ensures var task, h := m.live[p], Reached(Step(m, Begin(p)), after).h;
            && task.node in m.tree.status && p in h.outcome
            && (h.outcome[p] == Processed <==> !task.cancelled && m.tree.status[task.node] != ERROR)
  {
    StepKeeps(m, Begin(p));
    DecidedForGood(Step(m, Begin(p)), after);
  }

  /** What was taken out of the queue is never dispatched or processed. */
  lemma CancelledNeverRuns(m: Machine, p: nat, run: seq<Action>)
    requires Inv(m) && p in m.h.cancelled && Possible(m, run)
    ensures var h := Reached(m, run).h; p in h.cancelled && p !in h.dispatched && p !in h.outcome
  {
    DecidedForGood(m, run);
    RunKeeps(m, run);
  }

  /**
   * Cancelling an unsettled node marks it and no other; all its tickets leave the queue, and no
   * other, if the set beside the queue knows it; only its own task can be cancelled. If no id was
   * enqueued twice, the set knows every node that waits, and such a node has no task.
   */
  lemma CancelNodeIsExact(m: Machine, n: string)
    requires Inv(m) && n in m.tree.members && !Settled(m.tree.status[n])
    ensures var m' := Step(m, CancelNode(n)); var h, h' := m.h, m'.h;
            && m'.tree.status == m.tree.status[n := ERROR]
            && m'.tree.queue == (if n in m.tree.index then Keep(m.tree.queue, {n}) else m.tree.queue)
            && (forall p: nat :: p in h'.cancelled <==>
                  p in h.cancelled || (n in m.tree.index && p in h.waiting && h.enqueued[p] == n))
            && h'.dispatched == h.dispatched && m'.tree.processing == m.tree.processing
            && (m.tree.current != Some(n) ==> m'.live == m.live)
            && (forall p | p in m.live :: p in m'.live && m'.live[p].phase == m.live[p].phase)
    ensures Distinct(m.h.enqueued) && n in m.tree.queue ==> n in m.tree.index && m.tree.current != Some(n)
  {
    CancelOne(m, n);
    if Distinct(m.h.enqueued) && m.tree.current == Some(n) {
      CurrentIsNotQueued(m, n);
    }
  }

  lemma CancelOne(m: Machine, n: string)
    requires Enabled(m, CancelNode(n)) && n in m.tree.members && n in m.tree.status && !Settled(m.tree.status[n])
    ensures var m' := Step(m, CancelNode(n)); var h, h' := m.h, m'.h;
            && m'.tree.status == m.tree.status[n := ERROR]
            && m'.tree.queue == (if n in m.tree.index then Keep(m.tree.queue, {n}) else m.tree.queue)
            && (forall p: nat :: p in h'.cancelled <==>
                  p in h.cancelled || (n in m.tree.index && p in h.waiting && h.enqueued[p] == n))
            && h'.dispatched == h.dispatched && m'.tree.processing == m.tree.processing
            && (m.tree.current != Some(n) ==> m'.live == m.live)
            && (forall p | p in m.live :: p in m'.live && m'.live[p].phase == m.live[p].phase)
  {
    var active := Active(m.tree, {n});
    assert active == {n};
    assert active * m.tree.index == if n in m.tree.index then {n} else {};
    KeepAll(m.tree.queue);
    assert Step(m, CancelNode(n)).tree.status == m.tree.status[n := ERROR];
  }

  lemma CurrentIsNotQueued(m: Machine, n: string)
    requires Inv(m) && Distinct(m.h.enqueued) && m.tree.current == Some(n)
    ensures n !in m.tree.queue
  {
    var p: nat :| IsLatest(m.h, p) && m.h.enqueued[p] == n;
    forall i | 0 <= i < |m.tree.queue| ensures m.tree.queue[i] != n {
      var w := m.h.waiting[i];
      assert w in m.h.waiting;
      WaitingApart(m.h, w);
      assert p in m.h.dispatched && w != p;
    }
  }

  // ----- a stuck tree -----

  /** A stuck tree never dispatches again: only `cancel_tree` can free it. */
  lemma {:induction false} StuckForever(m: Machine, run: seq<Action>)
    requires Inv(m) && m.h.stuck && Possible(m, run) && CancelTree !in run
    ensures var m' := Reached(m, run);
            m'.h.stuck && m'.tree.processing && m'.live == map[] && m'.h.dispatched == m.h.dispatched
    decreases |run|
  {
    if run == [] {
      assert m.live == map[];
    } else {
      assert run[0] in run;
      StepKeeps(m, run[0]);
      StuckStep(m, run[0]);
      StuckForever(Step(m, run[0]), run[1..]);
    }
  }

  lemma StuckStep(m: Machine, a: Action)
    requires Inv(m) && m.h.stuck && Allowed(m, a) && !a.CancelTree?
    ensures Step(m, a).h.stuck && Step(m, a).h.dispatched == m.h.dispatched
  {
    assert m.live == map[];
  }

  /**
   * The only ways to get stuck: a node that is not in the tree is dispatched, or a cancellation
   * meets a task outside its processor. A cancellation that is delivered at `Clear` or `Next` would
   * need a lock that is held by another section across a suspension, which the source never does:
   * see HowTreesGetStuckPromptly.
   */
  lemma HowTreesGetStuck(m: Machine, a: Action)
    requires Inv(m) && Allowed(m, a) && !m.h.stuck
    ensures Step(m, a).h.stuck <==>
      || (a.Enqueue? && !m.tree.processing && a.id !in m.tree.members)
      || (a.Next? && !m.live[a.ticket].cancelled && m.tree.queue != [] && m.tree.queue[0] !in m.tree.members)
      || ((a.Begin? || a.Clear? || a.Next?) && m.live[a.ticket].cancelled)
  {
  }

  // ----- without suspension under the lock -----

  /** A task that has left its processor, or skipped it. */
  predicate Leaving(m: Machine) {
    exists p | p in m.live :: m.live[p].phase in {Failing, Closing, Draining}
  }

  /**
   * No section that runs under the lock suspends while it holds it, so the lock is always free, and
   * a task that has left its processor runs its last sections without interruption.
   */
  ghost predicate Prompt(m: Machine, run: seq<Action>)
    requires Possible(m, run)
    decreases |run|
  {
    run == [] || ((Leaving(m) ==> run[0].MarkFailed? || run[0].Clear? || run[0].Next?)
                  && Prompt(Step(m, run[0]), run[1..]))
  }

  /** A cancellation that still waits to be delivered waits for a task that has not begun, or is in its processor. */
  ghost predicate InTime(m: Machine) {
    forall p | p in m.live && m.live[p].cancelled :: m.live[p].phase == Created || m.live[p].phase == Running
  }

  lemma PromptStep(m: Machine, a: Action)
    requires Inv(m) && InTime(m) && Allowed(m, a)
    requires Leaving(m) ==> a.MarkFailed? || a.Clear? || a.Next?
    ensures InTime(Step(m, a))
  {
  }

  lemma {:induction false} PromptRun(m: Machine, run: seq<Action>)
    requires Inv(m) && InTime(m) && Possible(m, run) && Prompt(m, run)
    ensures InTime(Reached(m, run))
    decreases |run|
  {
    if run != [] {
      StepKeeps(m, run[0]);
      PromptStep(m, run[0]);
      PromptRun(Step(m, run[0]), run[1..]);
    }
  }

  /** Then a cancellation makes the tree stuck only if it meets a task before its first step. */
  lemma HowTreesGetStuckPromptly(run: seq<Action>, a: Action)
    requires Possible(FREE, run) && Prompt(FREE, run) && Allowed(Reached(FREE, run), a) && !Reached(FREE, run).h.stuck
    ensures var m := Reached(FREE, run);
      Step(m, a).h.stuck <==>
        || (a.Enqueue? && !m.tree.processing && a.id !in m.tree.members)
        || (a.Next? && m.tree.queue != [] && m.tree.queue[0] !in m.tree.members)
        || (a.Begin? && m.live[a.ticket].cancelled)
  {
    RunKeeps(FREE, run);
    PromptRun(FREE, run);
    HowTreesGetStuck(Reached(FREE, run), a);
  }

  // ----- the queue drains -----

  ghost predicate OnlyTaskSteps(run: seq<Action>) {
    forall a | a in run :: a.Begin? || a.Finish? || a.MarkFailed? || a.Clear? || a.Next?
  }

  function StepsLeft(phase: Phase): nat {
    match phase case Created => 4 case Running => 3 case Failing => 2 case Closing => 1 case Draining => 0
  }

  /** The step of the live task on its way to `_process_next`. */
  function TaskStep(m: Machine, p: nat): Action
    requires p in m.live
  {
    match m.live[p].phase
    case Created => Begin(p)
    case Running => Finish(p)
    case Failing => MarkFailed(p)
    case _ => Clear(p)
  }

  ghost predicate SameWaiting(m: Machine, m': Machine) {
    && m'.tree.queue == m.tree.queue && m'.tree.members == m.tree.members
    && m'.h.dispatched == m.h.dispatched && m'.h.waiting == m.h.waiting && m'.h.enqueued == m.h.enqueued
  }

  lemma OneTaskStep(m: Machine, p: nat)
    requires p in m.live && !m.live[p].cancelled && m.live[p].phase != Draining && Enabled(m, TaskStep(m, p))
    ensures var m' := Step(m, TaskStep(m, p));
            && p in m'.live && StepsLeft(m'.live[p].phase) < StepsLeft(m.live[p].phase) && !m'.live[p].cancelled
            && SameWaiting(m, m')
  {
  }

  /** The live task reaches `_process_next` by its own steps. */
  lemma ReachesNext(m: Machine, p: nat) returns (run: seq<Action>)
    requires Inv(m) && p in m.live && !m.live[p].cancelled
    ensures OnlyTaskSteps(run) && Possible(m, run) && Inv(Reached(m, run))
    ensures var m' := Reached(m, run);
            && p in m'.live && m'.live[p].phase == Draining && !m'.live[p].cancelled && SameWaiting(m, m')
    decreases StepsLeft(m.live[p].phase)
  {
    if m.live[p].phase == Draining {
      run := [];
    } else {
      var a := TaskStep(m, p);
      StepKeeps(m, a);
      OneTaskStep(m, p);
      var rest := ReachesNext(Step(m, a), p);
      run := [a] + rest;
      assert run[1..] == rest && a in [a];
    }
  }

  lemma NextRun(m: Machine, run: seq<Action>, p: nat)
    requires Possible(m, run) && Allowed(Reached(m, run), Next(p))
    ensures Possible(m, run + [Next(p)]) && Reached(m, run + [Next(p)]) == Step(Reached(m, run), Next(p))
  {
    var m1 := Reached(m, run);
    var m2 := Step(m1, Next(p));
    assert [Next(p)][1..] == [] && Possible(m2, []) && Reached(m2, []) == m2;
    RunTogether(m, run, [Next(p)]);
  }

  /** `run` frees the tree after dispatching the waiting tickets in order. */
  ghost predicate Drains(m: Machine, run: seq<Action>) {
    && OnlyTaskSteps(run) && Possible(m, run)
    && var m' := Reached(m, run);
       && !m'.tree.processing && m'.live == map[] && m'.tree.queue == []
       && m'.h.dispatched == m.h.dispatched + m.h.waiting
  }

  lemma DrainsTogether(m: Machine, run: seq<Action>, m': Machine, rest: seq<Action>)
    requires OnlyTaskSteps(run) && Possible(m, run) && Reached(m, run) == m' && Drains(m', rest)
    requires m.h.waiting != [] && m'.h.waiting == m.h.waiting[1..]
             && m'.h.dispatched == m.h.dispatched + [m.h.waiting[0]]
    ensures Drains(m, run + rest)
  {
    RunTogether(m, run, rest);
    Assoc(m.h.dispatched, [m.h.waiting[0]], m.h.waiting[1..]);
    assert [m.h.waiting[0]] + m.h.waiting[1..] == m.h.waiting;
    OnlyTaskStepsTogether(run, rest);
  }

  lemma OnlyTaskStepsTogether(a: seq<Action>, b: seq<Action>)
    requires OnlyTaskSteps(a) && OnlyTaskSteps(b)
    ensures OnlyTaskSteps(a + b)
  {
  }

  /** If all waiting nodes exist, and nothing is cancelled, the tasks dispatch them in order and free the tree. */
  lemma QueueDrains(m: Machine, p: nat) returns (run: seq<Action>)
    requires Inv(m) && p in m.live && !m.live[p].cancelled
    requires forall n | n in m.tree.queue :: n in m.tree.members
    ensures Drains(m, run)
    decreases |m.tree.queue|
  {
    var m';
    run, m' := DispatchesNext(m, p);
    if m.tree.queue == [] {
      assert m.h.dispatched + [] == m.h.dispatched;
    } else {
      var rest := QueueDrains(m', m.h.waiting[0]);
      DrainsTogether(m, run, m', rest);
      run := run + rest;
    }
  }

  /** The steps of one task, up to the dispatch of the next ticket or the freeing of the tree. */
  lemma DispatchesNext(m: Machine, p: nat) returns (run: seq<Action>, m': Machine)
    requires Inv(m) && p in m.live && !m.live[p].cancelled
    requires forall n | n in m.tree.queue :: n in m.tree.members
    ensures OnlyTaskSteps(run) && Possible(m, run) && Reached(m, run) == m' && Inv(m')
    ensures if m.tree.queue == [] then
              && !m'.tree.processing && m'.live == map[] && m'.h.dispatched == m.h.dispatched
              && m.h.waiting == [] && m'.tree.queue == []
            else
              && m.h.waiting != []
              && var w := m.h.waiting[0];
              && w in m'.live && !m'.live[w].cancelled
              && m'.tree.queue == m.tree.queue[1..] && m'.tree.members == m.tree.members
              && m'.h.waiting == m.h.waiting[1..] && m'.h.dispatched == m.h.dispatched + [w]
  {
    run := ReachesNext(m, p);
    var m1 := Reached(m, run);
    NextRun(m, run, p);
    NextDispatches(m1, p);
    m' := Step(m1, Next(p));
    run := run + [Next(p)];
  }

  /** `_process_next` frees the tree, or dispatches the first waiting ticket. */
  lemma NextDispatches(m: Machine, p: nat)
    requires Inv(m) && p in m.live && m.live[p].phase == Draining && !m.live[p].cancelled
    requires forall n | n in m.tree.queue :: n in m.tree.members
    ensures var m' := Step(m, Next(p));
            && Inv(m')
            && if m.tree.queue == []
               then
                 && !m'.tree.processing && m'.live == map[] && m'.h.dispatched == m.h.dispatched
                 && m.h.waiting == [] && m'.tree.queue == []
               else
                 var w := m.h.waiting[0];
                 && w in m'.live && m'.live[w] == Task(m.tree.queue[0], Created, false)
                 && m'.tree.queue == m.tree.queue[1..] && m'.tree.members == m.tree.members
                 && m'.h.waiting == m.h.waiting[1..] && m'.h.dispatched == m.h.dispatched + [w]
  {
    StepKeeps(m, Next(p));
  }

  // ----- why the hypotheses are needed -----

  /** Cancelling a whole tree keeps the invariant exactly where no task is live. */
  lemma CancelTreeKeepsIff(m: Machine)
    requires Inv(m)
    ensures Enabled(m, CancelTree) && (Inv(Step(m, CancelTree)) <==> m.live == map[])
  {
    if m.live == map[] {
      CancelTreeKeeps(m);
    } else {
      var p :| p in m.live;
      assert p in Step(m, CancelTree).live;
    }
  }

  /**
   * From every state in which a task is live, `cancel_tree` frees the tree too early: the next
   * request for a node of it starts a second task beside the first, which is where it was.
   */
  lemma CancelTreeNeedsQuiescence(m: Machine, p: nat, n: string)
    requires Inv(m) && p in m.live && n in m.tree.members
    ensures var m1 := Step(Step(m, CancelTree), Enqueue(n)); var q := |m.h.enqueued|;
            && p != q && p in m1.live && q in m1.live
            && m1.live[p] == m.live[p].(cancelled := true) && m1.live[q] == Task(n, Created, false)
  {
  }

  /**
   * After `cancel_branch`, a node of the branch still waits exactly if it waited and was settled
   * before, or is the current node, or is unknown to the set beside the queue. The last two cannot
   * be if no id was enqueued twice.
   */
  lemma CancelBranchClears(m: Machine, ids: set<string>, n: string)
    requires Inv(m) && n in ids && n in m.tree.members
    ensures var waits, t := n in Step(m, CancelBranch(ids)).tree.queue, m.tree;
            && (waits <==> n in t.queue && (Settled(t.status[n]) || t.current == Some(n) || n !in t.index))
            && (Distinct(m.h.enqueued) ==> (waits <==> n in m.tree.queue && Settled(m.tree.status[n])))
  {
    var active := Active(m.tree, ids);
    KeepMembers(m.tree.queue, Apart(active, m.tree.current) * m.tree.index);
    if Distinct(m.h.enqueued) && m.tree.current == Some(n) {
      CurrentIsNotQueued(m, n);
    }
  }

  /**
   * A branch that is cancelled and then removed can block the tree: a waiting node that was marked
   * as failed stays in the queue, and when its turn comes it is no longer there.
   */
  lemma RemovingFailedNodesSticks(m: Machine, n: string, p: nat)
    requires Inv(m) && m.tree.queue != [] && m.tree.queue[0] == n && n in m.tree.members && m.tree.status[n] == ERROR
    requires p in m.live && m.live[p].phase == Draining && !m.live[p].cancelled
    ensures var m1 := Step(m, CancelBranch({n}));
            && Allowed(m1, RemoveBranch({n}))
            && var m2 := Step(m1, RemoveBranch({n}));
               Allowed(m2, Next(p)) && Step(m2, Next(p)).h.stuck
  {
    NothingToCancel(m, n);
    var m1 := Step(m, CancelBranch({n}));
    StepKeeps(m, CancelBranch({n}));
    StepKeeps(m1, RemoveBranch({n}));
    HowTreesGetStuck(Step(m1, RemoveBranch({n})), Next(p));
  }

  lemma NothingToCancel(m: Machine, n: string)
    requires Inv(m) && n in m.tree.members && Settled(m.tree.status[n])
    ensures var m1 := Step(m, CancelBranch({n}));
            m1.tree.queue == m.tree.queue && m1.live == m.live && m1.tree.members == m.tree.members
    ensures Step(m, CancelNode(n)).tree.queue == m.tree.queue
  {
    assert Active(m.tree, {n}) == {};
    CancelNothing(m, {});
    CancelNothing(m, Apart({}, m.tree.current));
  }

  lemma CancelNothing(m: Machine, out: set<string>)
    requires Inv(m) && out !! m.tree.index
    ensures var m1 := Cancel(m, {}, out);
            m1.tree.queue == m.tree.queue && m1.live == m.live && m1.tree.members == m.tree.members
  {
    assert out * m.tree.index == {};
    KeepAll(m.tree.queue);
  }

  /** A task that is cancelled before it begins never runs its last section: the tree stays busy. */
  lemma CancellingTooEarlySticks(n: string)
    ensures var m := Step(Step(Step(FREE, AddNode(n)), Enqueue(n)), CancelNode(n));
            Allowed(m, Begin(0)) && Step(m, Begin(0)).h.stuck
  {
  }
}
