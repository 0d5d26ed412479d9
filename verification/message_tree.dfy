/**
 * The shape of a message tree (messaging/trees/data.py, messaging/trees/queue_manager.py): nodes
 * linked by parent and children ids, and an index from status messages to nodes.
 */
module MessageTree {
  import opened Text
  import opened Scheduler

  /** `rest` stands for the fields that these operations only carry along. */
  datatype Node = Node(id: string, status: string, parent: Option<string>, children: seq<string>, state: Status,
                       rest: string)

  datatype Shape = Shape(root: string, nodes: map<string, Node>, statusToNode: map<string, string>)

  // ----- well-formed trees -----

  /** The root is the only node without a parent, and every node is stored under its own id. */
  ghost predicate Rooted(t: Shape) {
    && t.root in t.nodes && t.nodes[t.root].parent == None
    && "" !in t.nodes
    && (forall k | k in t.nodes :: t.nodes[k].id == k && Distinct(t.nodes[k].children))
    && (forall k {:trigger t.nodes[k].parent} | k in t.nodes && k != t.root :: t.nodes[k].parent.Some?)
  }

  ghost predicate Upward(t: Shape) {
    forall k {:trigger t.nodes[k].parent} | k in t.nodes && t.nodes[k].parent.Some? ::
      t.nodes[k].parent.value in t.nodes && k in t.nodes[t.nodes[k].parent.value].children
  }

  ghost predicate Downward(t: Shape) {
    forall k, c | k in t.nodes && c in t.nodes[k].children :: c in t.nodes && t.nodes[c].parent == Some(k)
  }

  /** Every link between parent and child is recorded in both. */
  ghost predicate Linked(t: Shape) {
    Rooted(t) && Upward(t) && Downward(t)
  }

  /** Depths that grow from parent to child: there is no cycle. */
  ghost predicate Ranked(t: Shape, depth: map<string, nat>) {
    && t.nodes.Keys <= depth.Keys
    && forall k | k in t.nodes && t.nodes[k].parent.Some? && t.nodes[k].parent.value in t.nodes ::
         depth[t.nodes[k].parent.value] < depth[k]
  }

  /** The status index is a bijection onto the nodes. */
  ghost predicate StatusIndexed(t: Shape) {
    && (forall k | k in t.nodes :: t.nodes[k].status in t.statusToNode && t.statusToNode[t.nodes[k].status] == k)
    && (forall s | s in t.statusToNode :: t.statusToNode[s] in t.nodes && t.nodes[t.statusToNode[s]].status == s)
  }

  ghost predicate WellFormed(t: Shape) {
    Linked(t) && StatusIndexed(t) && exists depth :: Ranked(t, depth)
  }

  // ----- operations -----

  function Single(node: Node): Shape {
    Shape(node.id, map[node.id := node], map[node.status := node.id])
  }

  /** `add_node`, for a parent that is in the tree. */
  function Added(t: Shape, id: string, status: string, parent: string, rest: string): Shape
    requires parent in t.nodes
  {
    var nodes := t.nodes[id := Node(id, status, Some(parent), [], PENDING, rest)];
    Shape(t.root, nodes[parent := nodes[parent].(children := nodes[parent].children + [id])],
          t.statusToNode[status := id])
  }

  /** `get_parent`: an empty parent id counts as none. */
  function ParentOf(t: Shape, k: string): Option<string> {
    if k !in t.nodes || t.nodes[k].parent.None? || t.nodes[k].parent.value == "" || t.nodes[k].parent.value !in t.nodes
    then None
    else t.nodes[k].parent
  }

  predicate Edge(t: Shape, ok: set<string>, x: string, y: string) {
    x in t.nodes && y in t.nodes[x].children && y in t.nodes && y in ok
  }

  /** A chain of children from `a` to `k`; all but the first node lie in `ok`. */
  ghost predicate PathTo(t: Shape, ok: set<string>, p: seq<string>, a: string, k: string)
    decreases |p|
  {
    && p != [] && p[|p| - 1] == k && k in t.nodes
    && if |p| == 1 then k == a else PathTo(t, ok, p[..|p| - 1], a, p[|p| - 2]) && Edge(t, ok, p[|p| - 2], k)
  }

  /** `k` is `a`, or is reached from it through children in `ok`. */
  ghost predicate Under(t: Shape, ok: set<string>, a: string, k: string) {
    exists p :: PathTo(t, ok, p, a, k)
  }

  ghost function Subtree(t: Shape, a: string): set<string> {
    set k | k in t.nodes && Under(t, t.nodes.Keys, a, k)
  }

  /** The tree without the nodes in `gone`; the parent of `a` forgets it. */
  function Without(t: Shape, gone: set<string>, a: string): Shape {
    var parent := ParentOf(t, a);
    Shape(t.root,
          map k | k in t.nodes && k !in gone ::
            if parent == Some(k) then t.nodes[k].(children := Except(t.nodes[k].children, a)) else t.nodes[k],
          map s | s in t.statusToNode && t.statusToNode[s] !in gone :: t.statusToNode[s])
  }

  /** The tree without a branch. */
  ghost function Removed(t: Shape, a: string): Shape {
    Without(t, Subtree(t, a), a)
  }

  function Except(s: seq<string>, x: string): seq<string> {
    if s == [] then [] else (if s[0] == x then [] else [s[0]]) + Except(s[1..], x)
  }

  lemma {:induction false} ExceptMembers(s: seq<string>, x: string)
    ensures forall y :: y in Except(s, x) <==> y in s && y != x
    ensures Distinct(s) ==> Distinct(Except(s, x))
  {
    if s != [] {
      assert s == [s[0]] + s[1..];
      assert Distinct(s) ==> Distinct(s[1..]) && s[0] !in s[1..];
      ExceptMembers(s[1..], x);
    }
  }

  // ----- adding -----

  /** Adding keeps a tree well-formed exactly when the id and the status message are new. */
  lemma AddedIsWellFormedIff(t: Shape, id: string, status: string, parent: string, rest: string)
    requires WellFormed(t) && parent in t.nodes
    ensures WellFormed(Added(t, id, status, parent, rest)) <==> id !in t.nodes && id != "" && status !in t.statusToNode
  {
    if id in t.nodes {
      AddedTwice(t, id, status, parent, rest);
    } else if status in t.statusToNode {
      StatusTwice(t, id, status, parent, rest);
    } else if id != "" {
      AddedLinked(t, id, status, parent, rest);
      AddedIndexed(t, id, status, parent, rest);
      var depth :| Ranked(t, depth);
      assert Ranked(Added(t, id, status, parent, rest), depth[id := depth[parent] + 1]);
    } else {
      assert id in Added(t, id, status, parent, rest).nodes;
    }
  }

  lemma AddedShape(t: Shape, id: string, status: string, parent: string, rest: string)
    requires parent in t.nodes && id !in t.nodes
    ensures var t' := Added(t, id, status, parent, rest);
            && t'.nodes.Keys == t.nodes.Keys + {id}
            && t'.nodes[id] == Node(id, status, Some(parent), [], PENDING, rest)
            && (forall k | k in t.nodes :: t'.nodes[k] ==
                  if k == parent then t.nodes[k].(children := t.nodes[k].children + [id]) else t.nodes[k])
  {
  }

  lemma AddedLinked(t: Shape, id: string, status: string, parent: string, rest: string)
    requires Linked(t) && parent in t.nodes && id !in t.nodes && id != ""
    ensures Linked(Added(t, id, status, parent, rest))
  {
    AddedRooted(t, id, status, parent, rest);
    AddedUpward(t, id, status, parent, rest);
    AddedDownward(t, id, status, parent, rest);
  }

  lemma AddedRooted(t: Shape, id: string, status: string, parent: string, rest: string)
    requires Rooted(t) && Downward(t) && parent in t.nodes && id !in t.nodes && id != ""
    ensures Rooted(Added(t, id, status, parent, rest))
  {
    var t' := Added(t, id, status, parent, rest);
    AddedShape(t, id, status, parent, rest);
    forall k | k in t'.nodes ensures Distinct(t'.nodes[k].children) {
      assert k in t.nodes ==> id !in t.nodes[k].children;
    }
  }

  lemma AddedUpward(t: Shape, id: string, status: string, parent: string, rest: string)
    requires Upward(t) && parent in t.nodes && id !in t.nodes
    ensures Upward(Added(t, id, status, parent, rest))
  {
    var t' := Added(t, id, status, parent, rest);
    AddedShape(t, id, status, parent, rest);
    forall k | k in t'.nodes && t'.nodes[k].parent.Some?
      ensures t'.nodes[k].parent.value in t'.nodes && k in t'.nodes[t'.nodes[k].parent.value].children
    {
      if k != id {
        var p := t.nodes[k].parent.value;
        assert p in t.nodes && k in t.nodes[p].children;
      }
    }
  }

  lemma AddedDownward(t: Shape, id: string, status: string, parent: string, rest: string)
    requires Downward(t) && parent in t.nodes && id !in t.nodes
    ensures Downward(Added(t, id, status, parent, rest))
  {
    AddedShape(t, id, status, parent, rest);
  }

  lemma AddedIndexed(t: Shape, id: string, status: string, parent: string, rest: string)
    requires StatusIndexed(t) && parent in t.nodes && id !in t.nodes && status !in t.statusToNode
    ensures StatusIndexed(Added(t, id, status, parent, rest))
  {
    AddedShape(t, id, status, parent, rest);
  }

  lemma StatusTwice(t: Shape, id: string, status: string, parent: string, rest: string)
    requires StatusIndexed(t) && parent in t.nodes && id !in t.nodes && status in t.statusToNode
    ensures !StatusIndexed(Added(t, id, status, parent, rest))
  {
    var t', k := Added(t, id, status, parent, rest), t.statusToNode[status];
    AddedShape(t, id, status, parent, rest);
    assert k in t'.nodes && t'.nodes[k].status == status && t'.statusToNode[status] == id;
  }

  lemma AddedTwice(t: Shape, id: string, status: string, parent: string, rest: string)
    requires WellFormed(t) && parent in t.nodes && id in t.nodes
    ensures !Linked(Added(t, id, status, parent, rest))
  {
    var t' := Added(t, id, status, parent, rest);
    assert t'.nodes[id].parent == Some(parent);
    if id != t.root {
      var p := t.nodes[id].parent.value;
      var depth :| Ranked(t, depth);
      assert depth[p] < depth[id];
      var i :| 0 <= i < |t.nodes[p].children| && t.nodes[p].children[i] == id;
      if p == parent {
        assert t'.nodes[p].children == t.nodes[p].children + [id];
        assert t'.nodes[p].children[i] == t'.nodes[p].children[|t.nodes[p].children|];
      } else {
        assert t'.nodes[p].children[i] == id && p in t'.nodes;
      }
    }
  }

  lemma ChildOf(t: Shape, k: string, c: string)
    requires Downward(t) && k in t.nodes && c in t.nodes[k].children
    ensures c in t.nodes && t.nodes[c].parent == Some(k)
  {
  }

  lemma ChildrenInside(t: Shape, k: string)
    requires Downward(t) && k in t.nodes
    ensures forall c :: c in t.nodes[k].children <==> c in t.nodes[k].children && c in t.nodes.Keys
  {
  }

  // ----- exploring -----

  ghost predicate Reaches(t: Shape, depth: map<string, nat>, a: string, ok: set<string>, x: string, done: seq<string>) {
    && x in t.nodes && x in depth && a in depth && Under(t, ok, a, x) && depth[a] <= depth[x]
    && (x != a ==> x in ok && t.nodes[x].parent.Some? && t.nodes[x].parent.value in done)
  }

  ghost predicate Apart(done: seq<string>, stack: seq<string>) {
    Distinct(done) && Distinct(stack) && forall x | x in done :: x !in stack
  }

  ghost predicate AllReached(t: Shape, depth: map<string, nat>, a: string, ok: set<string>, seen: seq<string>,
                             done: seq<string>) {
    forall x | x in seen :: Reaches(t, depth, a, ok, x, done)
  }

  ghost predicate Covers(t: Shape, ok: set<string>, done: seq<string>, seen: seq<string>) {
    forall x, c | x in done && x in t.nodes && c in t.nodes[x].children && c in ok :: c in seen
  }

  /** A search from `a` through children in `ok`: `done` has been popped, `stack` not yet. */
  ghost predicate Explored(t: Shape, depth: map<string, nat>, a: string, ok: set<string>, done: seq<string>,
                           stack: seq<string>) {
    && Apart(done, stack) && a in done + stack
    && AllReached(t, depth, a, ok, done + stack, done)
    && Covers(t, ok, done, done + stack)
  }

  lemma ExploreStart(t: Shape, depth: map<string, nat>, a: string, ok: set<string>)
    requires Linked(t) && Ranked(t, depth) && a in t.nodes
    ensures Explored(t, depth, a, ok, [], [a])
  {
    assert PathTo(t, ok, [a], a, a);
    assert [] + [a] == [a];
  }

  lemma UnderChild(t: Shape, ok: set<string>, a: string, x: string, c: string)
    requires Under(t, ok, a, x) && x in t.nodes && c in t.nodes[x].children && c in t.nodes && c in ok
    ensures Under(t, ok, a, c)
  {
    var p :| PathTo(t, ok, p, a, x);
    assert (p + [c])[..|p|] == p;
    assert PathTo(t, ok, p + [c], a, c);
  }

  lemma DistinctJoin(s: seq<string>, more: seq<string>)
    requires Distinct(s) && Distinct(more) && forall x | x in more :: x !in s
    ensures Distinct(s + more)
  {
    var all := s + more;
    forall i, j | 0 <= i < j < |all| ensures all[i] != all[j] {
      if i < |s| <= j {
        assert all[i] in s && all[j] == more[j - |s|] && all[j] in more;
      }
    }
  }

  /** The children of a popped node have not been seen: their only parent is that node. */
  lemma ChildrenAreNew(t: Shape, depth: map<string, nat>, a: string, ok: set<string>, done: seq<string>, nid: string,
                       seen: seq<string>)
    requires Linked(t) && Ranked(t, depth) && nid !in done
    requires Reaches(t, depth, a, ok, nid, done) && forall x | x in seen :: Reaches(t, depth, a, ok, x, done)
    ensures forall c | c in t.nodes[nid].children :: c != a && c !in seen
  {
    forall c | c in t.nodes[nid].children ensures c != a && c !in seen {
      assert t.nodes[c].parent == Some(nid) && depth[nid] < depth[c];
    }
  }

  /** Popping a node and pushing its children in `ok`. */
  lemma ExploreOne(t: Shape, depth: map<string, nat>, a: string, ok: set<string>, done: seq<string>, stack: seq<string>,
                   next: seq<string>)
    requires Linked(t) && Ranked(t, depth) && Explored(t, depth, a, ok, done, stack) && stack != []
    requires stack[|stack| - 1] in t.nodes && Distinct(next)
    requires forall c :: c in next <==> c in t.nodes[stack[|stack| - 1]].children && c in ok
    ensures Explored(t, depth, a, ok, done + [stack[|stack| - 1]], stack[..|stack| - 1] + next)
    ensures forall c | c in next :: c != a && c !in done + stack
  {
    var nid, left, seen := stack[|stack| - 1], stack[..|stack| - 1], done + stack;
    assert stack == left + [nid] && nid in seen;
    ChildrenAreNew(t, depth, a, ok, done, nid, seen);
    StillApart(done, left, nid, next);
    var done', stack' := done + [nid], left + next;
    SeenGrows(done, left, nid, next);
    ReachedGrows(t, depth, a, ok, seen, done, nid, next, done' + stack');
    CoversGrows(t, ok, done, seen, nid, next, done' + stack');
  }

  lemma StillApart(done: seq<string>, left: seq<string>, nid: string, next: seq<string>)
    requires Apart(done, left + [nid]) && Distinct(next)
    requires forall c | c in next :: c !in done + (left + [nid])
    ensures Apart(done + [nid], left + next)
  {
    var stack := left + [nid];
    assert stack[|left|] == nid;
    assert forall i | 0 <= i < |left| :: left[i] == stack[i];
    assert nid !in left && forall x | x in done + left :: x in done + stack;
    DistinctJoin(left, next);
    DistinctJoin(done, [nid]);
  }

  lemma SeenGrows(done: seq<string>, left: seq<string>, nid: string, next: seq<string>)
    ensures forall x :: x in done + [nid] + (left + next) <==> x in done + (left + [nid]) || x in next
  {
  }

  lemma ReachedGrows(t: Shape, depth: map<string, nat>, a: string, ok: set<string>, seen: seq<string>,
                     done: seq<string>, nid: string, next: seq<string>, seen': seq<string>)
    requires Downward(t) && Ranked(t, depth) && AllReached(t, depth, a, ok, seen, done) && nid in t.nodes
    requires Reaches(t, depth, a, ok, nid, done)
    requires forall c | c in next :: c in t.nodes[nid].children && c in ok
    requires forall x :: x in seen' <==> x in seen || x in next
    ensures AllReached(t, depth, a, ok, seen', done + [nid])
  {
    forall x | x in seen' ensures Reaches(t, depth, a, ok, x, done + [nid]) {
      if x in seen {
        assert Reaches(t, depth, a, ok, x, done);
      } else {
        ChildReached(t, depth, a, ok, done, nid, x);
      }
    }
  }

  lemma ChildReached(t: Shape, depth: map<string, nat>, a: string, ok: set<string>, done: seq<string>, nid: string,
                     c: string)
    requires Downward(t) && Ranked(t, depth) && Reaches(t, depth, a, ok, nid, done) && c in t.nodes[nid].children
             && c in ok
    ensures Reaches(t, depth, a, ok, c, done + [nid])
  {
    assert t.nodes[c].parent == Some(nid) && depth[nid] < depth[c];
    UnderChild(t, ok, a, nid, c);
  }

  lemma CoversGrows(t: Shape, ok: set<string>, done: seq<string>, seen: seq<string>, nid: string, next: seq<string>,
                    seen': seq<string>)
    requires Covers(t, ok, done, seen) && nid in t.nodes
    requires forall c :: c in next <==> c in t.nodes[nid].children && c in ok
    requires forall x :: x in seen' <==> x in seen || x in next
    ensures Covers(t, ok, done + [nid], seen')
  {
  }

  lemma {:induction false} PathExplored(t: Shape, depth: map<string, nat>, a: string, ok: set<string>,
                                        done: seq<string>, p: seq<string>, k: string)
    requires Explored(t, depth, a, ok, done, []) && PathTo(t, ok, p, a, k)
    ensures k in done
    decreases |p|
  {
    assert done + [] == done;
    if |p| > 1 {
      PathExplored(t, depth, a, ok, done, p[..|p| - 1], p[|p| - 2]);
    }
  }

  /** A finished search has found exactly what is under `a`. */
  lemma ExploredAll(t: Shape, depth: map<string, nat>, a: string, ok: set<string>, done: seq<string>)
    requires Explored(t, depth, a, ok, done, [])
    ensures Distinct(done) && forall k :: k in done <==> Under(t, ok, a, k)
  {
    assert done + [] == done;
    forall k | Under(t, ok, a, k) ensures k in done {
      var p :| PathTo(t, ok, p, a, k);
      PathExplored(t, depth, a, ok, done, p, k);
    }
    forall k | k in done ensures Under(t, ok, a, k) {
      assert Reaches(t, depth, a, ok, k, done);
    }
  }

  /** A list of different nodes is not longer than the tree. */
  lemma {:induction false} DistinctIsShort(s: seq<string>, all: set<string>)
    requires Distinct(s) && forall x | x in s :: x in all
    ensures |s| <= |all|
    decreases |s|
  {
    if s != [] {
      assert s[0] in s;
      assert forall i | 1 <= i < |s| :: s[1..][i - 1] == s[i] && s[i] in s;
      DistinctIsShort(s[1..], all - {s[0]});
    }
  }

  /** The search ends: each turn adds a node to those popped. */
  lemma ExploredIsShort(t: Shape, depth: map<string, nat>, a: string, ok: set<string>, done: seq<string>,
                        stack: seq<string>)
    requires Explored(t, depth, a, ok, done, stack)
    ensures |done| + |stack| <= |t.nodes|
  {
    assert forall x | x in done + stack :: Reaches(t, depth, a, ok, x, done);
    DistinctJoin(done, stack);
    DistinctIsShort(done + stack, t.nodes.Keys);
  }

  lemma ExploredTop(t: Shape, depth: map<string, nat>, a: string, ok: set<string>, done: seq<string>,
                    stack: seq<string>)
    requires Linked(t) && Explored(t, depth, a, ok, done, stack) && stack != []
    ensures |done| < |t.nodes| && stack[|stack| - 1] in t.nodes && Distinct(t.nodes[stack[|stack| - 1]].children)
  {
    ExploredIsShort(t, depth, a, ok, done, stack);
    var nid := stack[|stack| - 1];
    assert nid in done + stack && Reaches(t, depth, a, ok, nid, done);
  }

  lemma ExploreChildren(t: Shape, depth: map<string, nat>, a: string, done: seq<string>, stack: seq<string>)
    requires Linked(t) && Ranked(t, depth) && Explored(t, depth, a, t.nodes.Keys, done, stack) && stack != []
    requires stack[|stack| - 1] in t.nodes && Distinct(t.nodes[stack[|stack| - 1]].children)
    ensures Explored(t, depth, a, t.nodes.Keys, done + [stack[|stack| - 1]],
                     stack[..|stack| - 1] + t.nodes[stack[|stack| - 1]].children)
  {
    ChildrenInside(t, stack[|stack| - 1]);
    ExploreOne(t, depth, a, t.nodes.Keys, done, stack, t.nodes[stack[|stack| - 1]].children);
  }

  lemma SeenAfter(done: seq<string>, stack: seq<string>, next: seq<string>)
    requires stack != []
    ensures forall x :: x in done + [stack[|stack| - 1]] + (stack[..|stack| - 1] + next) <==>
              x in done + stack || x in next
  {
    assert stack == stack[..|stack| - 1] + [stack[|stack| - 1]];
  }

  lemma UnderIsInside(t: Shape, ok: set<string>, a: string)
    ensures forall k :: Under(t, ok, a, k) ==> k in t.nodes
  {
    forall k | Under(t, ok, a, k) ensures k in t.nodes {
      var p :| PathTo(t, ok, p, a, k);
    }
  }

  // ----- removing -----

  lemma UnderParent(t: Shape, ok: set<string>, a: string, k: string)
    requires Downward(t) && Under(t, ok, a, k) && k != a
    ensures k in t.nodes && t.nodes[k].parent.Some? && Under(t, ok, a, t.nodes[k].parent.value)
  {
    var p :| PathTo(t, ok, p, a, k);
    assert PathTo(t, ok, p[..|p| - 1], a, p[|p| - 2]);
  }

  /** `gone` is closed under children, and `a` is its only node with a parent outside. */
  ghost predicate IsBranch(t: Shape, gone: set<string>, a: string) {
    && a in gone && gone <= t.nodes.Keys
    && (forall k, c | k in t.nodes && c in t.nodes[k].children :: c in gone <==> k in gone || c == a)
  }

  lemma SubtreeIsBranch(t: Shape, a: string)
    requires Linked(t) && a in t.nodes
    ensures IsBranch(t, Subtree(t, a), a)
  {
    assert PathTo(t, t.nodes.Keys, [a], a, a);
    forall k, c | k in t.nodes && c in t.nodes[k].children
      ensures c in Subtree(t, a) <==> k in Subtree(t, a) || c == a {
      SubtreeChild(t, a, k, c);
    }
  }

  lemma SubtreeChild(t: Shape, a: string, k: string, c: string)
    requires Downward(t) && a in t.nodes && k in t.nodes && c in t.nodes[k].children
    ensures c in Subtree(t, a) <==> k in Subtree(t, a) || c == a
  {
    ChildOf(t, k, c);
    assert PathTo(t, t.nodes.Keys, [a], a, a);
    if k in Subtree(t, a) {
      UnderChild(t, t.nodes.Keys, a, k, c);
    } else if c in Subtree(t, a) && c != a {
      UnderParent(t, t.nodes.Keys, a, c);
    }
  }

  lemma RootStays(t: Shape, a: string)
    requires Linked(t) && a in t.nodes
    ensures t.root in Subtree(t, a) <==> a == t.root
  {
    assert PathTo(t, t.nodes.Keys, [a], a, a);
    if t.root in Subtree(t, a) && a != t.root {
      UnderParent(t, t.nodes.Keys, a, t.root);
    }
  }

  /** What is left of a node: everything but the removed child. */
  lemma LeftOfNode(t: Shape, gone: set<string>, a: string, k: string)
    requires Linked(t) && a in t.nodes && k in t.nodes && k !in gone
    ensures var n := Without(t, gone, a).nodes[k];
            && n == t.nodes[k].(children := n.children) && Distinct(n.children)
            && (forall c :: c in n.children <==> c in t.nodes[k].children && c != a)
  {
    ExceptMembers(t.nodes[k].children, a);
    if a in t.nodes[k].children {
      assert t.nodes[a].parent == Some(k) && ParentOf(t, a) == Some(k);
    }
  }

  lemma WithoutRooted(t: Shape, gone: set<string>, a: string)
    requires Linked(t) && a in t.nodes && t.root !in gone
    ensures Rooted(Without(t, gone, a))
  {
    forall k | k in t.nodes && k !in gone
      ensures var n := Without(t, gone, a).nodes[k]; n.id == k && Distinct(n.children) && n.parent == t.nodes[k].parent
    {
      LeftOfNode(t, gone, a, k);
    }
  }

  lemma ChildStays(t: Shape, gone: set<string>, a: string, k: string, c: string)
    requires Linked(t) && IsBranch(t, gone, a) && k in t.nodes && k !in gone
             && c in Without(t, gone, a).nodes[k].children
    ensures c in t.nodes && c !in gone && Without(t, gone, a).nodes[c].parent == Some(k)
  {
    LeftOfNode(t, gone, a, k);
    assert c in t.nodes[k].children && c != a;
    ChildOf(t, k, c);
    LeftOfNode(t, gone, a, c);
  }

  lemma WithoutDownward(t: Shape, gone: set<string>, a: string)
    requires Linked(t) && IsBranch(t, gone, a)
    ensures Downward(Without(t, gone, a))
  {
    var t' := Without(t, gone, a);
    forall k | k in t'.nodes ensures ChildrenKnowParent(t', k) {
      ChildrenStay(t, gone, a, k);
    }
    DownwardByNode(t');
  }

  ghost predicate ChildrenKnowParent(t: Shape, k: string)
    requires k in t.nodes
  {
    forall c | c in t.nodes[k].children :: c in t.nodes && t.nodes[c].parent == Some(k)
  }

  lemma DownwardByNode(t: Shape)
    requires forall k | k in t.nodes :: ChildrenKnowParent(t, k)
    ensures Downward(t)
  {
    forall k, c | k in t.nodes && c in t.nodes[k].children ensures c in t.nodes && t.nodes[c].parent == Some(k) {
      assert ChildrenKnowParent(t, k);
    }
  }

  lemma ChildrenStay(t: Shape, gone: set<string>, a: string, k: string)
    requires Linked(t) && IsBranch(t, gone, a) && k in t.nodes && k !in gone
    ensures ChildrenKnowParent(Without(t, gone, a), k)
  {
    var t' := Without(t, gone, a);
    forall c | c in t'.nodes[k].children ensures c in t'.nodes && t'.nodes[c].parent == Some(k) {
      ChildStays(t, gone, a, k, c);
    }
  }

  lemma WithoutUpward(t: Shape, gone: set<string>, a: string)
    requires Linked(t) && IsBranch(t, gone, a)
    ensures Upward(Without(t, gone, a))
  {
    var t' := Without(t, gone, a);
    forall k | k in t'.nodes && t'.nodes[k].parent.Some?
      ensures t'.nodes[k].parent.value in t'.nodes && k in t'.nodes[t'.nodes[k].parent.value].children
    {
      LeftOfNode(t, gone, a, k);
      var q := t.nodes[k].parent.value;
      assert q in t.nodes && k in t.nodes[q].children && k != a;
      LeftOfNode(t, gone, a, q);
    }
  }

  lemma WithoutIndexed(t: Shape, gone: set<string>, a: string)
    requires Linked(t) && StatusIndexed(t) && a in t.nodes
    ensures StatusIndexed(Without(t, gone, a))
  {
    var t' := Without(t, gone, a);
    forall k | k in t'.nodes ensures t'.nodes[k].status in t'.statusToNode && t'.statusToNode[t'.nodes[k].status] == k {
      LeftOfNode(t, gone, a, k);
      assert t.statusToNode[t.nodes[k].status] == k;
    }
  }

  lemma WithoutRanked(t: Shape, gone: set<string>, a: string, depth: map<string, nat>)
    requires Linked(t) && Ranked(t, depth) && a in t.nodes
    ensures Ranked(Without(t, gone, a), depth)
  {
    forall k | k in t.nodes && k !in gone ensures Without(t, gone, a).nodes[k].parent == t.nodes[k].parent {
      LeftOfNode(t, gone, a, k);
    }
  }

  /** Removing a branch leaves a well-formed tree exactly when it is not the whole tree. */
  lemma RemovedIsWellFormedIff(t: Shape, a: string)
    requires WellFormed(t) && a in t.nodes
    ensures WellFormed(Removed(t, a)) <==> a != t.root
  {
    var gone := Subtree(t, a);
    RootStays(t, a);
    if a != t.root {
      SubtreeIsBranch(t, a);
      WithoutRooted(t, gone, a);
      WithoutUpward(t, gone, a);
      WithoutDownward(t, gone, a);
      WithoutIndexed(t, gone, a);
      var depth :| Ranked(t, depth);
      WithoutRanked(t, gone, a, depth);
    }
  }

  // ----- the tree in place -----

  /** What a restored node's state may be called. */
  function StateName(s: Status): string {
    match s
    case PENDING => "pending"
    case IN_PROGRESS => "in_progress"
    case COMPLETED => "completed"
    case ERROR => "error"
  }

  function StateNamed(name: string): Option<Status> {
    if name == "pending" then Some(PENDING)
    else if name == "in_progress" then Some(IN_PROGRESS)
    else if name == "completed" then Some(COMPLETED)
    else if name == "error" then Some(ERROR)
    else None
  }

  /**
   * An entry as it was read: a key that is not there is None. `rest` stands for the other keys that
   * are needed, and is None if one of them is missing or cannot be read.
   */
  datatype NodeData = NodeData(id: Option<string>, status: Option<string>, parent: Option<string>,
                               children: Option<seq<string>>, state: Option<string>, rest: Option<string>)

  datatype TreeData = TreeData(root: Option<string>, nodes: Option<map<string, NodeData>>)

  function Dumped(n: Node): NodeData {
    NodeData(Some(n.id), Some(n.status), n.parent, Some(n.children), Some(StateName(n.state)), Some(n.rest))
  }

  /** A missing parent is no parent, and missing children are none; any other missing key is an exception. */
  function Loaded(d: NodeData): Option<Node> {
    if d.id.None? || d.status.None? || d.state.None? || d.rest.None? || StateNamed(d.state.value).None? then None
    else
      Some(Node(d.id.value, d.status.value, d.parent, if d.children.Some? then d.children.value else [],
                StateNamed(d.state.value).value, d.rest.value))
  }

  function Entries(t: Shape): map<string, NodeData> {
    map k | k in t.nodes :: Dumped(t.nodes[k])
  }

  function Saved(t: Shape): TreeData {
    TreeData(Some(t.root), Some(Entries(t)))
  }

  class MessageTree {
    var rootId: string
    var nodes: map<string, Node>
    var statusToNode: map<string, string>

    ghost function View(): Shape
      reads this
    {
      Shape(rootId, nodes, statusToNode)
    }

    constructor (root: Node)
      ensures View() == Single(root)
    {
      rootId := root.id;
      nodes := map[root.id := root];
      statusToNode := map[root.status := root.id];
    }

    /** False is the error for an unknown parent. */
    method AddNode(id: string, status: string, parent: string, rest: string) returns (ok: bool)
      modifies this
      ensures ok == (parent in old(nodes))
      ensures View() == if ok then Added(old(View()), id, status, parent, rest) else old(View())
    {
      if parent !in nodes {
        return false;
      }
      nodes := nodes[id := Node(id, status, Some(parent), [], PENDING, rest)];
      statusToNode := statusToNode[status := id];
      nodes := nodes[parent := nodes[parent].(children := nodes[parent].children + [id])];
      return true;
    }

    /** The node and everything below it, each once. */
    method GetDescendants(a: string) returns (result: seq<string>)
      requires WellFormed(View())
      ensures Distinct(result)
      ensures a !in nodes ==> result == []
      ensures a in nodes ==> forall k :: k in result <==> k in Subtree(View(), a)
    {
      result := [];
      if a !in nodes {
        return;
      }
      ghost var t, ok := View(), nodes.Keys;
      ghost var depth :| Ranked(t, depth);
      var stack := [a];
      ExploreStart(t, depth, a, ok);
      while stack != []
        invariant Explored(t, depth, a, ok, result, stack)
        decreases |nodes| - |result|
      {
        ExploredTop(t, depth, a, ok, result, stack);
        var nid := stack[|stack| - 1];
        ExploreChildren(t, depth, a, result, stack);
        stack := stack[..|stack| - 1];
        result := result + [nid];
        if nid in nodes {
          stack := stack + nodes[nid].children;
        }
      }
      ExploredAll(t, depth, a, ok, result);
      UnderIsInside(t, ok, a);
    }

    /** The pending descendants of a node that are joined to it through pending nodes only, each once. */
    method GetPendingChildren(a: string) returns (pending: seq<string>)
      requires WellFormed(View())
      ensures Distinct(pending)
      ensures a !in nodes ==> pending == []
      ensures a in nodes ==> forall k :: k in pending <==> k != a && Under(View(), Pending(View()), a, k)
    {
      pending := [];
      if a !in nodes {
        return;
      }
      ghost var t, ok, done := View(), Pending(View()), [];
      ghost var depth :| Ranked(t, depth);
      var stack := [a];
      ExploreStart(t, depth, a, ok);
      while stack != []
        invariant Explored(t, depth, a, ok, done, stack)
        invariant Distinct(pending) && forall k :: k in pending <==> k != a && k in done + stack
        decreases |nodes| - |done|
      {
        ExploredTop(t, depth, a, ok, done, stack);
        var current := stack[|stack| - 1];
        var next := PendingAmong(nodes[current].children);
        ExploreOne(t, depth, a, ok, done, stack, next);
        SeenAfter(done, stack, next);
        DistinctJoin(pending, next);
        pending := pending + next;
        stack := stack[..|stack| - 1] + next;
        done := done + [current];
      }
      ExploredAll(t, depth, a, ok, done);
      assert done + [] == done;
    }

    method PendingAmong(children: seq<string>) returns (next: seq<string>)
      requires Distinct(children)
      ensures Distinct(next) && forall c :: c in next <==> c in children && c in Pending(View())
    {
      next := [];
      for n := 0 to |children|
        invariant Distinct(next) && forall c :: c in next <==> c in children[..n] && c in Pending(View())
      {
        var c := children[n];
        assert children[..n + 1] == children[..n] + [c] && c !in children[..n];
        if c in nodes && nodes[c].state == PENDING {
          DistinctJoin(next, [c]);
          next := next + [c];
        }
      }
      assert children[..|children|] == children;
    }

    /** Deletes the nodes of `branch` from both indexes. */
    method DeleteNodes(branch: seq<string>) returns (removed: seq<Node>)
      requires Distinct(branch) && StatusIndexed(View()) && forall k | k in branch :: k in nodes
      modifies this
      ensures rootId == old(rootId)
      ensures nodes == map k | k in old(nodes) && k !in branch :: old(nodes)[k]
      ensures statusToNode == map s | s in old(statusToNode) && old(statusToNode)[s] !in branch :: old(statusToNode)[s]
      ensures |removed| == |branch|
              && forall i | 0 <= i < |branch| :: branch[i] in old(nodes) && removed[i] == old(nodes)[branch[i]]
    {
      removed := [];
      ghost var t := View();
      assert forall i | 0 <= i < |branch| :: branch[i] in branch && branch[i] in t.nodes;
      for n := 0 to |branch|
        invariant rootId == t.root
        invariant nodes == map k | k in t.nodes && k !in branch[..n] :: t.nodes[k]
        invariant statusToNode == map s | s in t.statusToNode && t.statusToNode[s] !in branch[..n] :: t.statusToNode[s]
        invariant |removed| == n && forall i | 0 <= i < n :: removed[i] == t.nodes[branch[i]]
      {
        var nid := branch[n];
        assert nid !in branch[..n];
        assert branch[..n + 1] == branch[..n] + [nid];
        removed := removed + [nodes[nid]];
        StatusGone(t, branch[..n], nid);
        statusToNode := statusToNode - {nodes[nid].status};
        nodes := nodes - {nid};
      }
      assert branch[..|branch|] == branch;
    }

    /** Deletes the branch, and returns its nodes. */
    method RemoveBranch(a: string) returns (removed: seq<Node>)
      requires WellFormed(View())
      modifies this
      ensures a !in old(nodes) ==> View() == old(View()) && removed == []
      ensures a in old(nodes) ==> View() == Removed(old(View()), a)
      ensures a in old(nodes) ==> |removed| == |Subtree(old(View()), a)|
      ensures a in old(nodes) ==>
                forall n: Node :: n in removed <==> n.id in Subtree(old(View()), a) && n == old(nodes)[n.id]
    {
      removed := [];
      if a !in nodes {
        return;
      }
      ghost var t := View();
      var parent := ParentOf(Shape(rootId, nodes, statusToNode), a);
      var branch := GetDescendants(a);
      removed := DeleteNodes(branch);
      if parent.Some? && parent.value in nodes && a in nodes[parent.value].children {
        nodes := nodes[parent.value := nodes[parent.value].(children := Except(nodes[parent.value].children, a))];
      }
      RemovedShape(t, a, branch, Subtree(t, a), View());
      RemovedCount(t, a, branch, removed);
    }

    method AddNodeFromDict(node: Node)
      modifies this
      ensures View() == WithLoaded(old(View()), node)
    {
      nodes := nodes[node.id := node];
      statusToNode := statusToNode[node.status := node.id];
    }

    method ToDict() returns (data: TreeData)
      ensures data == Saved(View())
    {
      data := TreeData(Some(rootId), Some(map k | k in nodes :: Dumped(nodes[k])));
    }
  }

  /** Deleting a node's status message deletes exactly what leads to that node. */
  lemma StatusGone(t: Shape, gone: seq<string>, nid: string)
    requires StatusIndexed(t) && nid in t.nodes && nid !in gone
    ensures (map s | s in t.statusToNode && t.statusToNode[s] !in gone :: t.statusToNode[s]) - {t.nodes[nid].status}
         == map s | s in t.statusToNode && t.statusToNode[s] !in gone + [nid] :: t.statusToNode[s]
    ensures (map k | k in t.nodes && k !in gone :: t.nodes[k]) - {nid}
         == map k | k in t.nodes && k !in gone + [nid] :: t.nodes[k]
  {
    assert t.statusToNode[t.nodes[nid].status] == nid;
  }

  ghost function Pending(t: Shape): set<string> {
    set k | k in t.nodes && t.nodes[k].state == PENDING
  }

  lemma RemovedShape(t: Shape, a: string, branch: seq<string>, gone: set<string>, t': Shape)
    requires Linked(t) && a in t.nodes && forall k :: k in branch <==> k in gone
    requires t'.root == t.root
    requires t'.statusToNode == map s | s in t.statusToNode && t.statusToNode[s] !in branch :: t.statusToNode[s]
    requires var parent, left := ParentOf(t, a), map k | k in t.nodes && k !in branch :: t.nodes[k];
             t'.nodes == if parent.Some? && parent.value in left && a in left[parent.value].children then
                           var p := left[parent.value];
                           left[parent.value := p.(children := Except(p.children, a))]
                         else left
    ensures t' == Without(t, gone, a)
  {
    var parent := ParentOf(t, a);
    if parent.Some? {
      assert t.nodes[a].parent == parent && a in t.nodes[parent.value].children;
    }
    NodesLeft(t, a, branch, gone, parent, t'.nodes);
    assert t'.statusToNode == Without(t, gone, a).statusToNode;
  }

  lemma NodesLeft(t: Shape, a: string, branch: seq<string>, gone: set<string>, parent: Option<string>,
                  nodes: map<string, Node>)
    requires forall k :: k in branch <==> k in gone
    requires parent == ParentOf(t, a) && (parent.Some? ==> a in t.nodes[parent.value].children)
    requires var left := map k | k in t.nodes && k !in branch :: t.nodes[k];
             nodes == if parent.Some? && parent.value in left && a in left[parent.value].children then
                        var p := left[parent.value];
                        left[parent.value := p.(children := Except(p.children, a))]
                      else left
    ensures nodes == Without(t, gone, a).nodes
  {
  }

  lemma RemovedCount(t: Shape, a: string, branch: seq<string>, removed: seq<Node>)
    requires WellFormed(t) && Distinct(branch) && forall k :: k in branch <==> k in Subtree(t, a)
    requires |removed| == |branch|
             && forall i | 0 <= i < |branch| :: branch[i] in branch && removed[i] == t.nodes[branch[i]]
    ensures |removed| == |Subtree(t, a)|
    ensures forall n: Node :: n in removed <==> n.id in Subtree(t, a) && n == t.nodes[n.id]
  {
    DistinctCount(branch, Subtree(t, a));
    forall n: Node | n.id in Subtree(t, a) && n == t.nodes[n.id] ensures n in removed {
      var i :| 0 <= i < |branch| && branch[i] == n.id;
      assert removed[i] == n;
    }
  }

  lemma {:induction false} DistinctCount(s: seq<string>, all: set<string>)
    requires Distinct(s) && forall x :: x in s <==> x in all
    ensures |s| == |all|
    decreases |s|
  {
    if s == [] {
      assert all == {};
    } else {
      assert s == [s[0]] + s[1..] && s[0] in s;
      assert s[0] !in s[1..];
      DistinctCount(s[1..], all - {s[0]});
    }
  }

  // ----- restoring -----

  /** Every entry is stored under the id of its node. */
  ghost predicate Keyed(entries: map<string, NodeData>) {
    forall k | k in entries :: entries[k].id == Some(k)
  }

  /** Root and entries are there, the root is one of them, and no entry lacks what it needs. */
  predicate Loadable(data: TreeData) {
    && data.root.Some? && data.nodes.Some? && data.root.value in data.nodes.value
    && forall k | k in data.nodes.value :: Loaded(data.nodes.value[k]).Some?
  }

  function LoadedNodes(entries: map<string, NodeData>, done: set<string>): map<string, Node> {
    map k | k in entries && k in done && Loaded(entries[k]).Some? :: Loaded(entries[k]).value
  }

  /** The status index over the entries in `done`. */
  ghost predicate IndexOf(entries: map<string, NodeData>, done: set<string>, statusToNode: map<string, string>) {
    && (forall k | k in entries && k in done :: entries[k].status.Some? && entries[k].status.value in statusToNode)
    && (forall s | s in statusToNode ::
          statusToNode[s] in entries && statusToNode[s] in done && entries[statusToNode[s]].status == Some(s))
  }

  function WithLoaded(t: Shape, node: Node): Shape {
    t.(nodes := t.nodes[node.id := node], statusToNode := t.statusToNode[node.status := node.id])
  }

  lemma FirstHeld(root: string, entries: map<string, NodeData>)
    requires root in entries && Loaded(entries[root]).Some?
    ensures Keyed(entries) ==> Holds(Single(Loaded(entries[root]).value), root, entries, {root})
  {
  }

  lemma OneMoreHeld(t: Shape, root: string, entries: map<string, NodeData>, done: set<string>, k: string)
    requires Keyed(entries) ==> Holds(t, root, entries, done)
    requires k in entries && Loaded(entries[k]).Some?
    ensures Keyed(entries) ==> Holds(WithLoaded(t, Loaded(entries[k]).value), root, entries, done + {k})
  {
    if Keyed(entries) {
      OneMoreLoaded(entries, done, k, t.nodes, t.statusToNode);
    }
  }

  lemma OneMoreLoaded(entries: map<string, NodeData>, done: set<string>, k: string, nodes: map<string, Node>,
                      statusToNode: map<string, string>)
    requires Keyed(entries) && k in entries && Loaded(entries[k]).Some?
    requires nodes == LoadedNodes(entries, done) && IndexOf(entries, done, statusToNode)
    ensures nodes[k := Loaded(entries[k]).value] == LoadedNodes(entries, done + {k})
    ensures IndexOf(entries, done + {k}, statusToNode[entries[k].status.value := k])
  {
  }

  /** What the tree holds once the entries in `done` have been added. */
  ghost predicate Holds(t: Shape, root: string, entries: map<string, NodeData>, done: set<string>) {
    t.root == root && t.nodes == LoadedNodes(entries, done) && IndexOf(entries, done, t.statusToNode)
  }

  /** `from_dict`; null stands for the exception of a missing root, entry or key, or an unknown state. */
  method FromDict(data: TreeData) returns (tree: MessageTree?)
    ensures tree != null <==> Loadable(data)
    ensures tree != null ==> fresh(tree)
    ensures tree != null && Keyed(data.nodes.value) ==>
              Holds(tree.View(), data.root.value, data.nodes.value, data.nodes.value.Keys)
  {
    if data.root.None? || data.nodes.None? || data.root.value !in data.nodes.value {
      return null;
    }
    var root, entries := data.root.value, data.nodes.value;
    if Loaded(entries[root]).None? {
      return null;
    }
    tree := new MessageTree(Loaded(entries[root]).value);
    FirstHeld(root, entries);
    var rest := entries.Keys - {root};
    ghost var done := {root};
    while rest != {}
      invariant done == entries.Keys - rest && rest <= entries.Keys
      invariant forall k | k in done :: Loaded(entries[k]).Some?
      invariant fresh(tree)
      invariant Keyed(entries) ==> Holds(tree.View(), root, entries, done)
      decreases rest
    {
      var k :| k in rest;
      var node := Loaded(entries[k]);
      if node.None? {
        return null;
      }
      OneMoreHeld(tree.View(), root, entries, done, k);
      tree.AddNodeFromDict(node.value);
      rest := rest - {k};
      done := done + {k};
    }
    assert done == entries.Keys;
  }

  /** Saving a well-formed tree and restoring it gives the same nodes, links and status index. */
  method SaveAndRestore(tree: MessageTree) returns (restored: MessageTree?)
    requires WellFormed(tree.View())
    ensures restored != null && fresh(restored) && restored.View() == tree.View()
  {
    var data := tree.ToDict();
    SavedLoads(tree.View());
    restored := FromDict(data);
    RestoredIsSame(tree.View(), restored.View());
  }

  lemma SavedLoads(t: Shape)
    requires Rooted(t)
    ensures Loadable(Saved(t)) && Keyed(Entries(t))
    ensures LoadedNodes(Entries(t), t.nodes.Keys) == t.nodes
  {
    forall k | k in t.nodes ensures Loaded(Dumped(t.nodes[k])) == Some(t.nodes[k]) {
    }
  }

  lemma RestoredIsSame(t: Shape, t': Shape)
    requires Rooted(t) && StatusIndexed(t) && Holds(t', t.root, Entries(t), t.nodes.Keys)
    ensures t' == t
  {
    SavedLoads(t);
    forall s | s in t'.statusToNode ensures s in t.statusToNode && t.statusToNode[s] == t'.statusToNode[s] {
      assert t.nodes[t'.statusToNode[s]].status == s;
    }
    forall s | s in t.statusToNode ensures s in t'.statusToNode {
      assert Entries(t)[t.statusToNode[s]].status == Some(s);
    }
    assert t'.statusToNode == t.statusToNode;
  }

  // ----- what is stored -----

  /** A child waits, has no children and knows its parent; the parent lists it last; nothing else changes. */
  lemma AddedIsStored(t: Shape, id: string, status: string, parent: string, rest: string, k: string)
    requires parent in t.nodes && id != parent
    ensures var t' := Added(t, id, status, parent, rest);
            && t'.root == t.root && t'.statusToNode == t.statusToNode[status := id]
            && t'.nodes.Keys == t.nodes.Keys + {id}
            && t'.nodes[id] == Node(id, status, Some(parent), [], PENDING, rest)
            && t'.nodes[parent] == t.nodes[parent].(children := t.nodes[parent].children + [id])
            && (k in t.nodes && k != id && k != parent ==> t'.nodes[k] == t.nodes[k])
  {
  }

  /** An entry is restored exactly if it has the four keys and a known state; missing children are none. */
  lemma EntryIsRestoredIff(d: NodeData)
    ensures Loaded(d).Some? <==>
              && d.id.Some? && d.status.Some? && d.rest.Some? && d.state.Some?
              && (|| d.state.value == "pending" || d.state.value == "in_progress"
                  || d.state.value == "completed" || d.state.value == "error")
    ensures Loaded(d).Some? ==>
              var n := Loaded(d).value;
              && n.id == d.id.value && n.status == d.status.value && n.parent == d.parent && n.rest == d.rest.value
              && n.children == (if d.children.None? then [] else d.children.value)
              && (n.state == PENDING <==> d.state.value == "pending")
              && (n.state == IN_PROGRESS <==> d.state.value == "in_progress")
              && (n.state == COMPLETED <==> d.state.value == "completed")
  {
  }

  // ----- what is left -----

  /**
   * Removing a branch keeps every other node as it was, but for its parent, which forgets the branch and
   * no other child.
   */
  lemma RemovedIsExact(t: Shape, a: string, k: string)
    requires WellFormed(t) && a in t.nodes && a != t.root && k in t.nodes
    ensures var t' := Removed(t, a);
            && t'.root == t.root && (k in t'.nodes <==> !Under(t, t.nodes.Keys, a, k))
            && t'.nodes.Keys <= t.nodes.Keys
            && (k in t'.nodes ==> t'.nodes[k] == t.nodes[k].(children := t'.nodes[k].children))
            && (k in t'.nodes && t.nodes[a].parent != Some(k) ==> t'.nodes[k] == t.nodes[k])
            && (k in t'.nodes && t.nodes[a].parent == Some(k) ==>
                  exists before, after :: t.nodes[k].children == before + [a] + after
                                          && t'.nodes[k].children == before + after)
    ensures forall s :: s in Removed(t, a).statusToNode <==>
                          s in t.statusToNode && t.statusToNode[s] !in Subtree(t, a)
    ensures forall s | s in Removed(t, a).statusToNode :: Removed(t, a).statusToNode[s] == t.statusToNode[s]
  {
    if t.nodes[a].parent == Some(k) {
      assert a in t.nodes[k].children;
      var before, after := ExceptOne(t.nodes[k].children, a);
    }
  }

  lemma {:induction false} ExceptOne(s: seq<string>, x: string) returns (before: seq<string>, after: seq<string>)
    requires x in s && Distinct(s)
    ensures s == before + [x] + after && Except(s, x) == before + after
    decreases |s|
  {
    if s[0] == x {
      before, after := [], s[1..];
      assert x !in s[1..];
      ExceptNone(s[1..], x);
    } else {
      before, after := ExceptOne(s[1..], x);
      before := [s[0]] + before;
      assert s == [s[0]] + s[1..];
    }
  }

  lemma {:induction false} ExceptNone(s: seq<string>, x: string)
    requires x !in s
    ensures Except(s, x) == s
  {
    if s != [] {
      ExceptNone(s[1..], x);
      assert s == [s[0]] + s[1..];
    }
  }
}
