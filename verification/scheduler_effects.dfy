/** What single steps do to the nodes and to the live task of a reachable tree, and to nothing else. */
module SchedulerEffects {
  import opened Text
  import opened Scheduler
  import opened SchedulerRuns

  predicate Unfinished(s: Status) {
    s == PENDING || s == IN_PROGRESS
  }

  /** The live task's node is the current one until the section that clears it; a free tree has none. */
  lemma CurrentIsLive(run: seq<Action>)
    requires Possible(FREE, run)
    ensures var m := Reached(FREE, run);
            && (forall p | p in m.live && m.live[p].phase != Draining :: m.tree.current == Some(m.live[p].node))
            && (!m.tree.processing ==> m.tree.current == None)
  {
    RunKeeps(FREE, run);
  }

  /**
   * A processor that fails leaves its node in ERROR, unless the node has been removed, or its task is
   * cancelled before it can be marked; no other node changes.
   */
  lemma FailureMarksItsNode(m: Machine, p: nat)
    requires Inv(m) && Allowed(m, MarkFailed(p))
    ensures var n, t, t' := m.live[p].node, m.tree, Step(m, MarkFailed(p)).tree;
            && t'.status == (if n in t.members && !m.live[p].cancelled then t.status[n := ERROR] else t.status)
            && t'.members == t.members && t'.queue == t.queue && t'.index == t.index && t'.current == t.current
  {
  }

  /** Without interruption, failing ends with the node in ERROR and the current node cleared. */
  lemma FailedNodesEndInError(m: Machine, p: nat)
    requires Inv(m) && Allowed(m, Fail(p)) && m.live[p].node in m.tree.members
    ensures var m1 := Step(m, Fail(p));
            && Allowed(m1, MarkFailed(p))
            && var m2 := Step(m1, MarkFailed(p));
            && Allowed(m2, Clear(p))
            && var m3 := Step(m2, Clear(p));
            && m3.tree.status == m.tree.status[m.live[p].node := ERROR] && m3.tree.current == None
            && p in m3.live && m3.live[p] == Task(m.live[p].node, Draining, false)
  {
  }

  /** New nodes wait, and set states are the states. */
  lemma StatesAreSet(m: Machine, n: string, s: Status, k: string)
    requires Inv(m)
    ensures var t, added, set_ := m.tree, Step(m, AddNode(n)).tree, Step(m, SetState(n, s)).tree;
            && n in added.members && n in added.status && added.status[n] == PENDING
            && (k in set_.status <==> k in t.status)
            && (k in t.status ==> set_.status[k] == if k == n && n in t.members then s else t.status[k])
  {
  }

  /** Cancelling a node reaches its task: until its node is cleared, the live task is cancelled with it. */
  lemma CancelReachesTheTask(m: Machine, n: string, p: nat)
    requires Inv(m) && n in m.tree.members && Unfinished(m.tree.status[n]) && p in m.live
    ensures var live := Step(m, CancelNode(n)).live;
            && live.Keys == m.live.Keys && live[p].node == m.live[p].node && live[p].phase == m.live[p].phase
            && (live[p].cancelled <==> m.live[p].cancelled || m.tree.current == Some(n))
            && (m.live[p].node == n && m.live[p].phase != Draining ==> live[p].cancelled)
  {
  }

  /** Cancelling a branch marks exactly its unsettled nodes, and cancels the live task if its node is one of them. */
  lemma CancelBranchMarks(m: Machine, ids: set<string>, n: string)
    requires Inv(m) && n in m.tree.status
    ensures var m' := Step(m, CancelBranch(ids));
            && n in m'.tree.status
            && m'.tree.status[n] ==
                 (if n in ids && n in m.tree.members && Unfinished(m.tree.status[n]) then ERROR else m.tree.status[n])
            && m'.tree.members == m.tree.members && m'.tree.current == m.tree.current && m'.live.Keys == m.live.Keys
            && forall p | p in m.live && m.live[p].phase != Draining && m.live[p].node == n ::
                 (m'.live[p].cancelled <==>
                    m.live[p].cancelled || (n in ids && n in m.tree.members && Unfinished(m.tree.status[n])))
  {
  }

  /**
   * Cancelling a tree marks exactly the nodes that wait or are not settled, empties the queue, frees
   * the tree, and cancels whatever is live.
   */
  lemma CancelTreeIsExact(m: Machine, n: string)
    requires Inv(m) && n in m.tree.status
    ensures var m' := Step(m, CancelTree);
            && n in m'.tree.status
            && m'.tree.status[n] ==
                 (if n in m.tree.members && (n in m.tree.queue || Unfinished(m.tree.status[n])) then ERROR
                  else m.tree.status[n])
            && m'.tree.queue == [] && m'.tree.index == {} && !m'.tree.processing && m'.tree.current == None
            && m'.tree.members == m.tree.members
            && (forall p: nat :: p in m'.h.cancelled <==> p in m.h.cancelled || p in m.h.waiting)
            && m'.live.Keys == m.live.Keys && forall p | p in m.live :: m'.live[p] == m.live[p].(cancelled := true)
  {
  }

  /** Removing a branch takes its ids out of the tree and changes nothing else. */
  lemma RemovingOnlyRemoves(m: Machine, ids: set<string>, n: string)
    requires Inv(m)
    ensures var m' := Step(m, RemoveBranch(ids));
            && (n in m'.tree.members <==> n in m.tree.members && n !in ids)
            && m' == m.(tree := m.tree.(members := m'.tree.members))
  {
  }
}
