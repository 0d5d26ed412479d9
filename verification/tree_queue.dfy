/**
 * The scheduler's sections in place (messaging/trees/data.py, messaging/trees/queue_manager.py):
 * each method is what the source runs under one hold of the tree's lock, and does exactly one
 * step of `Scheduler`.
 */
module TreeQueue {
  import opened Text
  import opened Scheduler

  /** A queue with a set beside it, for removal from the middle. */
  class SnapshotQueue {
    var items: seq<string>
    var index: set<string>

    constructor ()
      ensures items == [] && index == {}
    {
      items, index := [], {};
    }

    method Put(item: string)
      modifies this
      ensures items == old(items) + [item] && index == old(index) + {item}
    {
      items := items + [item];
      index := index + {item};
    }

    method Get() returns (item: Option<string>)
      modifies this
      ensures if old(items) == [] then item == None && items == [] && index == old(index)
              else item == Some(old(items)[0]) && items == old(items)[1..] && index == old(index) - {old(items)[0]}
    {
      if items == [] {
        return None;
      }
      item := Some(items[0]);
      items := items[1..];
      index := index - {item.value};
    }

    /** Removes every copy of the item, but only if the set knows it. */
    method RemoveIfPresent(item: string) returns (removed: bool)
      modifies this
      ensures removed == (item in old(index))
      ensures items == Keep(old(items), {item} * old(index)) && index == old(index) - {item}
    {
      if item !in index {
        assert {item} * index == {};
        KeepAll(items);
        return false;
      }
      assert {item} * index == {item};
      index := index - {item};
      var kept := Others(items, item);
      items := kept;
      return true;
    }

    method Others(items: seq<string>, item: string) returns (kept: seq<string>)
      ensures kept == Keep(items, {item})
    {
      kept := [];
      AppendNone(Keep(items, {item}));
      assert items[0..] == items;
      for n := 0 to |items|
        invariant kept + Keep(items[n..], {item}) == Keep(items, {item})
      {
        NextKept(kept, items, n, item);
        if items[n] != item {
          kept := kept + [items[n]];
        }
      }
      AppendNone(kept);
    }
  }

  lemma NextKept(kept: seq<string>, items: seq<string>, n: nat, item: string)
    requires n < |items|
    ensures kept + Keep(items[n..], {item}) ==
              (if items[n] == item then kept else kept + [items[n]]) + Keep(items[n + 1..], {item})
  {
    var left := items[n..];
    assert left[0] == items[n] && left[1..] == items[n + 1..];
    Assoc(kept, if items[n] == item then [] else [items[n]], Keep(items[n + 1..], {item}));
    AppendNone(kept);
  }

  /** The scheduling state of a message tree, with the tasks that the event loop runs for it. */
  class MessageTreeQueue {
    var members: set<string>
    var status: map<string, Status>
    const queue: SnapshotQueue
    var processing: bool
    var current: Option<string>
    var currentTask: Option<nat>
    var live: map<nat, Task>
    ghost var h: History

    ghost function View(): Machine
      reads this, queue
    {
      Machine(Tree(members, status, queue.items, queue.index, processing, current, currentTask), live, h)
    }

    constructor ()
      ensures View() == FREE && fresh(queue)
    {
      queue := new SnapshotQueue();
      members, status, processing, current, currentTask, live := {}, map[], false, None, None, map[];
      h := FREE.h;
    }

    method StartTask(n: string, ghost p: nat, ticket: nat)
      requires p == ticket
      modifies this
      ensures View() == Dispatch(old(View()), n, p) && queue.items == old(queue.items)
    {
      processing, current := true, Some(n);
      ghost var stuck := n !in members;
      if n in members {
        live := live[ticket := Task(n, Created, false)];
        currentTask := Some(ticket);
      }
      h := h.(dispatched := h.dispatched + [p]);
      if stuck {
        h := h.(stuck := true, outcome := h.outcome[p := Lost]);
      }
    }

    /** `ticket` names the new task, which is created if the tree is free. */
    method EnqueueAndStart(n: string, ticket: nat) returns (queued: bool)
      requires Inv(View()) && ticket == |h.enqueued|
      modifies this, queue
      ensures Inv(View()) && View() == Step(old(View()), Enqueue(n))
      ensures queued == old(processing)
    {
      StepKeeps(View(), Enqueue(n));
      h := h.(enqueued := h.enqueued + [n]);
      if processing {
        queue.Put(n);
        h := h.(waiting := h.waiting + [ticket]);
        return true;
      }
      StartTask(n, ticket, ticket);
      return false;
    }

    /** A task's first step: it skips a failed node, and does not run at all if it was cancelled. */
    method BeginTask(p: nat) returns (process: bool)
      requires Inv(View()) && Allowed(View(), Begin(p))
      modifies this
      ensures Inv(View()) && View() == Step(old(View()), Begin(p))
      ensures process == (!old(live[p]).cancelled && old(status[live[p].node]) != ERROR)
    {
      StepKeeps(View(), Begin(p));
      ghost var m := View();
      h := Step(m, Begin(p)).h;
      if live[p].cancelled {
        live := live - {p};
        return false;
      }
      if status[live[p].node] == ERROR {
        live := live[p := live[p].(phase := Draining, cancelled := false)];
        return false;
      }
      live := live[p := live[p].(phase := Running, cancelled := false)];
      return true;
    }

    /** The processor returns or is cancelled, or fails. */
    method LeaveProcessor(p: nat, fails: bool)
      requires Inv(View()) && Allowed(View(), if fails then Fail(p) else Finish(p))
      modifies this
      ensures Inv(View()) && View() == Step(old(View()), if fails then Fail(p) else Finish(p))
    {
      StepKeeps(View(), if fails then Fail(p) else Finish(p));
      live := live[p := live[p].(phase := if fails then Failing else Closing, cancelled := false)];
    }

    /** The handler of a failed processor marks the node, unless it is cancelled in turn. */
    method MarkTaskFailed(p: nat)
      requires Inv(View()) && Allowed(View(), MarkFailed(p))
      modifies this
      ensures Inv(View()) && View() == Step(old(View()), MarkFailed(p))
    {
      StepKeeps(View(), MarkFailed(p));
      if !live[p].cancelled && live[p].node in members {
        status := status[live[p].node := ERROR];
      }
      live := live[p := live[p].(phase := Closing, cancelled := false)];
    }

    method ClearCurrentNode(p: nat)
      requires Inv(View()) && Allowed(View(), Clear(p))
      modifies this
      ensures Inv(View()) && View() == Step(old(View()), Clear(p))
    {
      StepKeeps(View(), Clear(p));
      h := Step(View(), Clear(p)).h;
      if live[p].cancelled {
        live := live - {p};
        return;
      }
      current := None;
      live := live[p := live[p].(phase := Draining, cancelled := false)];
    }

    /** `next` names the new task, which is created if a node is waiting. */
    method ProcessNext(p: nat, next: nat)
      requires Inv(View()) && Allowed(View(), Next(p))
      requires h.waiting != [] ==> next == h.waiting[0]
      modifies this, queue
      ensures Inv(View()) && View() == Step(old(View()), Next(p))
    {
      StepKeeps(View(), Next(p));
      if live[p].cancelled {
        h := Vanish(View(), p).h;
        live := live - {p};
        return;
      }
      live := live - {p};
      var n := queue.Get();
      if n.None? {
        processing, current := false, None;
        return;
      }
      h := h.(waiting := h.waiting[1..]);
      StartTask(n.value, next, next);
    }

    method UpdateState(n: string, state: Status)
      requires Inv(View())
      modifies this
      ensures Inv(View()) && View() == Step(old(View()), SetState(n, state))
    {
      StepKeeps(View(), SetState(n, state));
      if n in members {
        status := status[n := state];
      }
    }

    method CancelCurrentTask()
      modifies this
      ensures View() == old(View()).(live := live)
      ensures live == if currentTask.Some? && currentTask.value in old(live)
                      then old(live)[currentTask.value := old(live)[currentTask.value].(cancelled := true)]
                      else old(live)
    {
      if currentTask.Some? && currentTask.value in live {
        live := live[currentTask.value := live[currentTask.value].(cancelled := true)];
      }
    }

    method CancelNode(n: string) returns (cancelled: bool)
      requires Inv(View())
      modifies this, queue
      ensures Inv(View()) && View() == Step(old(View()), Scheduler.CancelNode(n))
      ensures cancelled == (n in old(members) && !Settled(old(status[n])))
    {
      StepKeeps(View(), Scheduler.CancelNode(n));
      cancelled := CancelIfActive(n);
    }

    method CancelIfActive(n: string) returns (cancelled: bool)
      requires Inv(View())
      modifies this, queue
      ensures View() == Cancel(old(View()), Active(old(View()).tree, {n}), Active(old(View()).tree, {n}))
      ensures cancelled == (n in old(members) && !Settled(old(status[n])))
    {
      ghost var m := View();
      if n !in members || Settled(status[n]) {
        assert Active(m.tree, {n}) == {};
        CancelNone(m);
        return false;
      }
      assert Active(m.tree, {n}) == {n};
      if current == Some(n) {
        CancelCurrentTask();
      }
      var removed := queue.RemoveIfPresent(n);
      status := status[n := ERROR];
      h := Cancel(m, {n}, {n}).h;
      CancelOutShape(m, View(), n, {n});
      return true;
    }

    method CancelActive(n: string)
      requires Inv(View()) && n in status
      modifies this, queue
      ensures View() == Cancel(old(View()), {n}, Apart({n}, old(current)))
    {
      ghost var m := View();
      if current == Some(n) {
        CancelCurrentTask();
        assert Apart({n}, current) * queue.index == {};
        KeepAll(queue.items);
      } else {
        assert Apart({n}, current) == {n};
        var removed := queue.RemoveIfPresent(n);
      }
      status := status[n := ERROR];
      h := Cancel(m, {n}, Apart({n}, current)).h;
      CancelOutShape(m, View(), n, Apart({n}, current));
    }

    /** `branch` is the set of the branch root and its descendants. */
    method CancelBranch(branch: set<string>) returns (cancelled: set<string>)
      requires Inv(View())
      modifies this, queue
      ensures Inv(View()) && View() == Step(old(View()), Scheduler.CancelBranch(branch))
      ensures cancelled == Active(old(View()).tree, branch)
    {
      ghost var m := View();
      StepKeeps(m, Scheduler.CancelBranch(branch));
      cancelled := {};
      var rest := branch;
      CancelNone(m);
      while rest != {}
        invariant rest <= branch && cancelled == Active(m.tree, branch - rest)
        invariant View() == Cancel(m, cancelled, Apart(cancelled, m.tree.current))
        decreases rest
      {
        var n :| n in rest;
        ghost var done := cancelled;
        CancelKeeps(m, done, Apart(done, m.tree.current));
        StatusAfter(m, done, n);
        if n in members && !Settled(status[n]) {
          CancelOneMore(m, done, n);
          CancelActive(n);
          cancelled := cancelled + {n};
        }
        ActiveGrows(m.tree, branch, rest, n);
        rest := rest - {n};
      }
      assert branch - rest == branch;
    }

    /** `mark_node_error`: the node, and then its pending descendants if they are to follow. */
    method MarkNodeError(n: string, pending: seq<string>)
      requires Inv(View())
      modifies this
      ensures Inv(View())
      ensures View() == old(View()).(tree := Marked(old(View()).tree, [n] + pending))
    {
      UpdateState(n, ERROR);
      ghost var t := View().tree;
      for k := 0 to |pending|
        invariant Inv(View()) && View() == old(View()).(tree := View().tree)
        invariant Marked(View().tree, pending[k..]) == Marked(t, pending)
      {
        assert pending[k..][0] == pending[k] && pending[k..][1..] == pending[k + 1..];
        UpdateState(pending[k], ERROR);
      }
      assert ([n] + pending)[1..] == pending;
    }

    /** Marks everything that is not settled; `done` are the members already seen. */
    method MarkStale()
      modifies this
      ensures View() == old(View()).(tree := old(View()).tree.(status := status))
      ensures status ==
                map n | n in old(status) :: if n in members && !Settled(old(status[n])) then ERROR else old(status[n])
    {
      var rest := members;
      while rest != {}
        invariant rest <= members && View() == old(View()).(tree := old(View()).tree.(status := status))
        invariant status ==
                    map n | n in old(status) ::
                        if n in members - rest && !Settled(old(status[n])) then ERROR else old(status[n])
        decreases rest
      {
        var n :| n in rest;
        if n in status && !Settled(status[n]) {
          status := status[n := ERROR];
        }
        rest := rest - {n};
      }
    }

    /** Empties the queue and marks the nodes that waited in it, settled or not. */
    method DrainAndMark()
      requires Indexed(View())
      modifies this, queue
      ensures View() == old(View()).(tree := old(View()).tree.(status := status, queue := [], index := {}))
      ensures status == Drained(old(View()).tree)
    {
      ghost var t := View().tree;
      ghost var n := 0;
      while queue.items != []
        invariant n <= |t.queue| && queue.items == t.queue[n..]
        invariant View() == old(View()).(tree := t.(status := status, queue := queue.items, index := queue.index))
        invariant forall x | x in queue.index :: x in queue.items
        invariant status == Drained(t.(queue := t.queue[..n]))
        decreases |queue.items|
      {
        ghost var items := queue.items;
        var item := queue.Get();
        assert t.queue[..n + 1] == t.queue[..n] + [item.value];
        assert items == [item.value] + queue.items;
        DrainOneMore(t, t.queue[..n], item.value);
        if item.value in members && item.value in status {
          status := status[item.value := ERROR];
        }
        n := n + 1;
      }
      assert t.queue[..n] == t.queue;
      assert queue.index == {};
    }

    /** `cancel_tree`; where no task is live, `CancelTreeKeeps` says that the invariant survives. */
    method CancelWholeTree()
      requires Enabled(View(), Scheduler.CancelTree) && Indexed(View()) && members <= status.Keys
      modifies this, queue
      ensures View() == Step(old(View()), Scheduler.CancelTree)
    {
      ghost var m, first := View(), None;
      CancelCurrentTask();
      if currentTask.Some? && currentTask.value in live && current.Some? && current.value in members
        && !Settled(status[current.value]) {
        status := status[current.value := ERROR];
        first := current;
      }
      assert status == CurrentMarked(m.tree, first);
      DrainAndMark();
      MarkStale();
      processing, current := false, None;
      h := CancelTreeStep(m).h;
      WholeStatus(m, first);
    }
  }

  function Marked(t: Tree, ids: seq<string>): Tree
    decreases |ids|
  {
    if ids == [] then t else Marked(SetStatus(t, ids[0], ERROR), ids[1..])
  }

  /** The states after the queue of `t` has been drained. */
  function Drained(t: Tree): map<string, Status> {
    map n | n in t.status :: if n in t.members && n in t.queue then ERROR else t.status[n]
  }

  function CurrentMarked(t: Tree, first: Option<string>): map<string, Status> {
    if first.Some? then t.status[first.value := ERROR] else t.status
  }

  /** The current node, the queue and the stale nodes together are what `CancelTreeStep` marks. */
  lemma WholeStatus(m: Machine, first: Option<string>)
    requires Ticketed(m)
    requires first.Some? ==>
               first.value in m.tree.members && first.value in m.tree.status && !Settled(m.tree.status[first.value])
    ensures var s := Drained(m.tree.(status := CurrentMarked(m.tree, first)));
            (map n | n in s :: if n in m.tree.members && !Settled(s[n]) then ERROR else s[n]) ==
                CancelTreeStep(m).tree.status
  {
  }

  lemma DrainOneMore(t: Tree, queue: seq<string>, n: string)
    ensures var s := Drained(t.(queue := queue));
            Drained(t.(queue := queue + [n])) == if n in t.members && n in s then s[n := ERROR] else s
  {
    assert forall x :: x in queue + [n] <==> x in queue || x == n;
  }

  /** Marking sets exactly the listed nodes of the tree to ERROR; the queue keeps them. */
  lemma {:induction false} MarkedIsExact(t: Tree, ids: seq<string>, n: string)
    requires t.members <= t.status.Keys
    ensures var t' := Marked(t, ids);
            && t'.queue == t.queue && t'.members == t.members && t'.status.Keys == t.status.Keys
            && (n in t.status ==> t'.status[n] == if n in ids && n in t.members then ERROR else t.status[n])
    decreases |ids|
  {
    if ids != [] {
      assert ids == [ids[0]] + ids[1..];
      MarkedIsExact(SetStatus(t, ids[0], ERROR), ids[1..], n);
    }
  }

  // ----- cancelling one by one -----

  lemma CancelNone(m: Machine)
    requires Inv(m)
    ensures Cancel(m, {}, {}) == m && Apart({}, m.tree.current) == {}
  {
    assert {} * m.tree.index == {};
    KeepAll(m.tree.queue);
    StayAll(m.h.waiting, m.h.enqueued);
    assert Cancel(m, {}, {}).tree.status == m.tree.status;
    assert Leave(m.h.waiting, m.h.enqueued, {}) == {};
  }

  lemma {:induction false} StayAll(tickets: seq<nat>, enqueued: seq<string>)
    requires AllBelow(tickets, |enqueued|)
    ensures Stay(tickets, enqueued, {}) == tickets
  {
    if tickets != [] {
      StayAll(tickets[1..], enqueued);
    }
  }

  lemma {:induction false} KeepTwice(queue: seq<string>, a: set<string>, b: set<string>)
    ensures Keep(Keep(queue, a), b) == Keep(queue, a + b)
  {
    if queue != [] {
      KeepTwice(queue[1..], a, b);
      if queue[0] !in a {
        assert ([queue[0]] + Keep(queue[1..], a))[1..] == Keep(queue[1..], a);
      } else {
        assert Keep(queue, a) == Keep(queue[1..], a);
      }
    }
  }

  lemma {:induction false} StayTwice(tickets: seq<nat>, enqueued: seq<string>, a: set<string>, b: set<string>)
    requires AllBelow(tickets, |enqueued|)
    ensures AllBelow(Stay(tickets, enqueued, a), |enqueued|)
    ensures Stay(Stay(tickets, enqueued, a), enqueued, b) == Stay(tickets, enqueued, a + b)
  {
    StayMembers(tickets, enqueued, a);
    if tickets != [] {
      StayTwice(tickets[1..], enqueued, a, b);
      if enqueued[tickets[0]] !in a {
        assert ([tickets[0]] + Stay(tickets[1..], enqueued, a))[1..] == Stay(tickets[1..], enqueued, a);
      } else {
        assert Stay(tickets, enqueued, a) == Stay(tickets[1..], enqueued, a);
      }
    }
  }

  lemma StatusAfter(m: Machine, done: set<string>, n: string)
    requires Inv(m)
    ensures var m1 := Cancel(m, done, Apart(done, m.tree.current));
            && m1.tree.members == m.tree.members && m1.tree.current == m.tree.current
            && (n in m.tree.members ==>
                  n in m1.tree.status && m1.tree.status[n] == if n in done then ERROR else m.tree.status[n])
  {
  }

  lemma ActiveGrows(t: Tree, branch: set<string>, rest: set<string>, n: string)
    requires rest <= branch && n in rest && t.members <= t.status.Keys
    ensures n !in Active(t, branch - rest)
    ensures Active(t, branch - (rest - {n})) ==
              if n in t.members && !Settled(t.status[n]) then Active(t, branch - rest) + {n}
              else Active(t, branch - rest)
  {
    assert branch - (rest - {n}) == branch - rest + {n};
  }

  /** Cancelling `done` and then one more is cancelling all of them at once. */
  lemma CancelOneMore(m: Machine, done: set<string>, n: string)
    requires Inv(m) && n !in done && n in m.tree.status
    ensures Ticketed(Cancel(m, done, Apart(done, m.tree.current)))
    ensures Cancel(Cancel(m, done, Apart(done, m.tree.current)), {n}, Apart({n}, m.tree.current))
         == Cancel(m, done + {n}, Apart(done + {n}, m.tree.current))
  {
    var out, one, all := Apart(done, m.tree.current), Apart({n}, m.tree.current), Apart(done + {n}, m.tree.current);
    assert all == out + one;
    CancelTwice(m, done, out, {n}, one);
  }

  lemma CancelTwice(m: Machine, active: set<string>, out: set<string>, active': set<string>, out': set<string>)
    requires Inv(m)
    ensures Ticketed(Cancel(m, active, out))
    ensures Cancel(Cancel(m, active, out), active', out') == Cancel(m, active + active', out + out')
  {
    var a, b := out * m.tree.index, out' * (m.tree.index - out * m.tree.index);
    assert a + b == (out + out') * m.tree.index;
    KeepTwice(m.tree.queue, a, b);
    StayTwice(m.h.waiting, m.h.enqueued, a, b);
    var m1 := Cancel(m, active, out);
    var m2, m3 := Cancel(m1, active', out'), Cancel(m, active + active', out + out');
    TreesAgree(m.tree, m1.tree, m2.tree, m3.tree, active, active', out, out');
    LeaveTwice(m.h.waiting, m.h.enqueued, a, b);
    assert m2.h == m3.h;
    assert m2.live == m3.live;
  }

  lemma LeaveTwice(tickets: seq<nat>, enqueued: seq<string>, a: set<string>, b: set<string>)
    requires AllBelow(tickets, |enqueued|)
    ensures AllBelow(Stay(tickets, enqueued, a), |enqueued|)
    ensures forall c: set<nat> :: c + Leave(tickets, enqueued, a) + Leave(Stay(tickets, enqueued, a), enqueued, b) ==
              c + Leave(tickets, enqueued, a + b)
  {
    StayMembers(tickets, enqueued, a);
    var x, y, z := Leave(tickets, enqueued, a), Leave(Stay(tickets, enqueued, a), enqueued, b),
                   Leave(tickets, enqueued, a + b);
    assert x + y == z;
    forall c: set<nat> ensures c + x + y == c + z {
    }
  }

  lemma TreesAgree(t: Tree, t1: Tree, t2: Tree, t3: Tree, active: set<string>, active': set<string>, out: set<string>,
                   out': set<string>)
    requires t1.status == map n | n in t.status :: if n in active then ERROR else t.status[n]
    requires t2.status == map n | n in t1.status :: if n in active' then ERROR else t1.status[n]
    requires t3.status == map n | n in t.status :: if n in active + active' then ERROR else t.status[n]
    requires t1.index == t.index - out * t.index && t2.index == t1.index - out' * t1.index
    requires t3.index == t.index - (out + out') * t.index
    ensures t2.status == t3.status && t2.index == t3.index
  {
  }

  /** Putting together what the cancellation of one node changes. */
  lemma CancelOutShape(m: Machine, m': Machine, n: string, out: set<string>)
    requires Ticketed(m) && n in m.tree.status
    requires m'.tree.members == m.tree.members && m'.tree.processing == m.tree.processing
    requires m'.tree.current == m.tree.current && m'.tree.currentTask == m.tree.currentTask
    requires m'.tree.status == m.tree.status[n := ERROR] && m'.h == Cancel(m, {n}, out).h
    requires m'.tree.queue == Keep(m.tree.queue, out * m.tree.index)
    requires m'.tree.index == m.tree.index - out
    requires m'.live == if m.tree.current == Some(n) && m.tree.currentTask.Some? && m.tree.currentTask.value in m.live
                        then m.live[m.tree.currentTask.value := m.live[m.tree.currentTask.value].(cancelled := true)]
                        else m.live
    ensures m' == Cancel(m, {n}, out)
  {
    var r := Cancel(m, {n}, out);
    assert m'.tree.status == r.tree.status;
    assert m'.tree.index == r.tree.index;
  }
}
