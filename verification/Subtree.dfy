// The subtree that a kill takes away: everything reachable through live children of the same user.

module Subtrees {
  import opened Types
  import opened Sequences
  import opened ProcessTable

  // The i-th step of a walk goes to a child of the process before it.
  ghost predicate StepAt(pcbs: PcbMap, path: seq<uint32>, i: nat)
    requires 0 < i < |path|
  {
    path[i - 1] in pcbs && path[i] in pcbs[path[i - 1]].children
  }

  // A walk from parent to child over live processes of one user.
  ghost predicate IsPath(pcbs: PcbMap, owner: Text, path: seq<uint32>) {
    && path != []
    && (forall i :: 0 <= i < |path| ==> Owned(pcbs, owner, path[i]))
    && (forall i :: 0 < i < |path| ==> StepAt(pcbs, path, i))
  }

  ghost predicate Connects(pcbs: PcbMap, owner: Text, path: seq<uint32>, a: uint32, b: uint32) {
    IsPath(pcbs, owner, path) && path[0] == a && path[|path| - 1] == b
  }

  ghost predicate Reach(pcbs: PcbMap, owner: Text, a: uint32, b: uint32) {
    exists path :: Connects(pcbs, owner, path, a, b)
  }

  ghost function Subtree(pcbs: PcbMap, owner: Text, root: uint32): set<uint32> {
    set p | p in pcbs && Reach(pcbs, owner, root, p)
  }

  lemma ReachSelf(pcbs: PcbMap, owner: Text, a: uint32)
    requires Owned(pcbs, owner, a)
    ensures Reach(pcbs, owner, a, a)
  {
    assert Connects(pcbs, owner, [a], a, a);
  }

  lemma ReachOwned(pcbs: PcbMap, owner: Text, a: uint32, b: uint32)
    requires Reach(pcbs, owner, a, b)
    ensures Owned(pcbs, owner, a) && Owned(pcbs, owner, b)
  {
    var path :| Connects(pcbs, owner, path, a, b);
  }

  lemma ReachChild(pcbs: PcbMap, owner: Text, a: uint32, b: uint32, c: uint32)
    requires Reach(pcbs, owner, a, b) && Owned(pcbs, owner, c)
    requires b in pcbs ==> c in pcbs[b].children
    ensures Reach(pcbs, owner, a, c)
  {
    var path :| Connects(pcbs, owner, path, a, b);
    Extend(pcbs, owner, path, c);
    assert Connects(pcbs, owner, path + [c], a, c);
  }

  lemma Extend(pcbs: PcbMap, owner: Text, path: seq<uint32>, c: uint32)
    requires IsPath(pcbs, owner, path) && Owned(pcbs, owner, c) && c in pcbs[path[|path| - 1]].children
    ensures IsPath(pcbs, owner, path + [c])
  {
    var r := path + [c];
    forall i | 0 < i < |r| ensures StepAt(pcbs, r, i) {
      if i < |path| {
        assert StepAt(pcbs, path, i);
      }
    }
  }

  lemma {:induction false} ReachAlong(pcbs: PcbMap, owner: Text, a: uint32, path: seq<uint32>, k: nat)
    requires IsPath(pcbs, owner, path) && k < |path| && Reach(pcbs, owner, a, path[0])
    ensures Reach(pcbs, owner, a, path[k])
  {
    if k > 0 {
      ReachAlong(pcbs, owner, a, path, k - 1);
      assert StepAt(pcbs, path, k);
      ReachChild(pcbs, owner, a, path[k - 1], path[k]);
    }
  }

  lemma ReachTransitive(pcbs: PcbMap, owner: Text, a: uint32, b: uint32, c: uint32)
    requires Reach(pcbs, owner, a, b) && Reach(pcbs, owner, b, c)
    ensures Reach(pcbs, owner, a, c)
  {
    var path :| Connects(pcbs, owner, path, b, c);
    ReachAlong(pcbs, owner, a, path, |path| - 1);
  }

  lemma ReachedThrough(pcbs: PcbMap, owner: Text, a: uint32, child: uint32, found: set<uint32>)
    requires Owned(pcbs, owner, a) && child in pcbs[a].children
    requires forall x :: x in found ==> Reach(pcbs, owner, child, x)
    ensures forall x :: x in found ==> Reach(pcbs, owner, a, x)
  {
    forall x | x in found ensures Reach(pcbs, owner, a, x) {
      ReachOwned(pcbs, owner, child, x);
      ReachSelf(pcbs, owner, a);
      ReachChild(pcbs, owner, a, a, child);
      ReachTransitive(pcbs, owner, a, child, x);
    }
  }

  // A set holds every live child of its members that the user owns.
  ghost predicate ChildClosed(pcbs: PcbMap, owner: Text, s: set<uint32>) {
    forall p, c :: p in s && p in pcbs && c in pcbs[p].children && Owned(pcbs, owner, c) ==> c in s
  }

  lemma {:induction false} ClosedHoldsPath(pcbs: PcbMap, owner: Text, s: set<uint32>, path: seq<uint32>, k: nat)
    requires ChildClosed(pcbs, owner, s) && IsPath(pcbs, owner, path) && path[0] in s && k < |path|
    ensures path[k] in s
  {
    if k > 0 {
      ClosedHoldsPath(pcbs, owner, s, path, k - 1);
      assert StepAt(pcbs, path, k);
    }
  }

  // The subtree is the least child-closed set that holds its root.
  lemma SubtreeIsLeast(pcbs: PcbMap, owner: Text, root: uint32, s: set<uint32>)
    requires ChildClosed(pcbs, owner, s) && root in s
    ensures Subtree(pcbs, owner, root) <= s
  {
    forall p | p in Subtree(pcbs, owner, root) ensures p in s {
      var path :| Connects(pcbs, owner, path, root, p);
      ClosedHoldsPath(pcbs, owner, s, path, |path| - 1);
    }
  }

  lemma SubtreeOwned(pcbs: PcbMap, owner: Text, root: uint32)
    ensures forall p :: p in Subtree(pcbs, owner, root) ==> Owned(pcbs, owner, p)
    ensures Owned(pcbs, owner, root) ==> root in Subtree(pcbs, owner, root)
  {
    forall p | p in Subtree(pcbs, owner, root) ensures Owned(pcbs, owner, p) {
      ReachOwned(pcbs, owner, root, p);
    }
    if Owned(pcbs, owner, root) {
      ReachSelf(pcbs, owner, root);
    }
  }

  // In a well-formed forest no process outlives its parent: the subtree holds all children of its members.
  lemma SubtreeClosed(ps: Proc, owner: Text, root: uint32)
    requires ProcOk(ps)
    ensures Closed(ps.pcbs, Subtree(ps.pcbs, owner, root))
  {
    var pcbs := ps.pcbs;
    forall p | p in pcbs && pcbs[p].ppid in Subtree(pcbs, owner, root) ensures p in Subtree(pcbs, owner, root) {
      var parent := pcbs[p].ppid;
      assert ParentOk(pcbs, p) && ChildrenOk(pcbs, parent);
      assert p in pcbs[parent].children;
      ReachOwned(pcbs, owner, root, parent);
      ReachChild(pcbs, owner, root, parent, p);
    }
  }

  // Smaller tables with shorter children lists reach less.
  lemma ReachShrinks(pcbs: PcbMap, after: PcbMap, owner: Text, a: uint32, b: uint32)
    requires forall p :: p in after ==> p in pcbs && after[p].owner == pcbs[p].owner
    requires forall p, c :: p in after && c in after[p].children ==> c in pcbs[p].children
    requires Reach(after, owner, a, b)
    ensures Reach(pcbs, owner, a, b)
  {
    var path :| Connects(after, owner, path, a, b);
    forall i | 0 < i < |path| ensures StepAt(pcbs, path, i) {
      assert StepAt(after, path, i);
    }
    assert Connects(pcbs, owner, path, a, b);
  }

  // Only ids, owners and children lists matter.
  lemma SameTree(pcbs: PcbMap, after: PcbMap, owner: Text, root: uint32)
    requires after.Keys == pcbs.Keys
    requires forall p :: p in pcbs ==> after[p].owner == pcbs[p].owner && after[p].children == pcbs[p].children
    ensures Subtree(after, owner, root) == Subtree(pcbs, owner, root)
  {
    forall p | p in pcbs ensures Reach(pcbs, owner, root, p) <==> Reach(after, owner, root, p) {
      if Reach(pcbs, owner, root, p) {
        ReachShrinks(after, pcbs, owner, root, p);
      }
      if Reach(after, owner, root, p) {
        ReachShrinks(pcbs, after, owner, root, p);
      }
    }
  }

  // ----- the order of the walk -----

  // The walk with a list of processes still to visit, which holds the children of a process before its siblings:
  // every process comes before its descendants, and the children of one process in the order of their pids.
  ghost function Walk(pcbs: PcbMap, owner: Text, todo: seq<uint32>, seen: set<uint32>): seq<uint32>
    decreases pcbs.Keys - seen, |todo|
  {
    if todo == [] then []
    else if todo[0] in seen || !Owned(pcbs, owner, todo[0]) then Walk(pcbs, owner, todo[1..], seen)
    else
      assert todo[0] in pcbs.Keys - seen && todo[0] !in pcbs.Keys - (seen + {todo[0]});
      [todo[0]] + Walk(pcbs, owner, SortIds(pcbs[todo[0]].children) + todo[1..], seen + {todo[0]})
  }

  // Only ids, owners and children lists matter to the walk.
  lemma {:induction false} SameWalk(pcbs: PcbMap, after: PcbMap, owner: Text, todo: seq<uint32>, seen: set<uint32>)
    requires after.Keys == pcbs.Keys
    requires forall p :: p in pcbs ==> after[p].owner == pcbs[p].owner && after[p].children == pcbs[p].children
    ensures Walk(after, owner, todo, seen) == Walk(pcbs, owner, todo, seen)
    decreases pcbs.Keys - seen, |todo|
  {
    if todo != [] {
      if todo[0] in seen || !Owned(pcbs, owner, todo[0]) {
        SameWalk(pcbs, after, owner, todo[1..], seen);
      } else {
        assert todo[0] in pcbs.Keys - seen && todo[0] !in pcbs.Keys - (seen + {todo[0]});
        SameWalk(pcbs, after, owner, SortIds(pcbs[todo[0]].children) + todo[1..], seen + {todo[0]});
      }
    }
  }

  // Each process in w can be reached from one in todo.
  ghost predicate AllReached(pcbs: PcbMap, owner: Text, todo: seq<uint32>, w: seq<uint32>) {
    forall x :: x in w ==> ReachedFrom(pcbs, owner, todo, x)
  }

  ghost predicate ReachedFrom(pcbs: PcbMap, owner: Text, todo: seq<uint32>, x: uint32) {
    exists t :: t in todo && Reach(pcbs, owner, t, x)
  }

  // Every live process that the user owns in todo, and every such child of a process in w, is in w or has been seen.
  ghost predicate NoneMissed(pcbs: PcbMap, owner: Text, todo: seq<uint32>, seen: set<uint32>, w: seq<uint32>) {
    && (forall t :: t in todo && Owned(pcbs, owner, t) ==> t in w || t in seen)
    && forall p, c :: p in w && p in pcbs && c in pcbs[p].children && Owned(pcbs, owner, c) ==> c in w || c in seen
  }

  // The walk lists no process twice and none seen before, only what can be reached, and misses nothing. It ends on
  // any table, cyclic children lists included.
  lemma {:induction false} WalkCorrect(pcbs: PcbMap, owner: Text, todo: seq<uint32>, seen: set<uint32>)
    ensures var w := Walk(pcbs, owner, todo, seen);
      && Distinct(w) && (forall x :: x in w ==> x !in seen)
      && AllReached(pcbs, owner, todo, w) && NoneMissed(pcbs, owner, todo, seen, w)
    decreases pcbs.Keys - seen, |todo|
  {
    if todo != [] {
      var head, tail := todo[0], todo[1..];
      assert todo == [head] + tail;
      if head in seen || !Owned(pcbs, owner, head) {
        WalkCorrect(pcbs, owner, tail, seen);
      } else {
        assert head in pcbs.Keys - seen && head !in pcbs.Keys - (seen + {head});
        var more := SortIds(pcbs[head].children) + tail;
        WalkCorrect(pcbs, owner, more, seen + {head});
        WalkReachesMore(pcbs, owner, head, tail, Walk(pcbs, owner, more, seen + {head}));
        WalkMissesNone(pcbs, owner, head, tail, Walk(pcbs, owner, more, seen + {head}), seen);
      }
    }
  }

  lemma WalkReachesMore(pcbs: PcbMap, owner: Text, head: uint32, tail: seq<uint32>, w: seq<uint32>)
    requires Owned(pcbs, owner, head)
    requires AllReached(pcbs, owner, SortIds(pcbs[head].children) + tail, w)
    ensures AllReached(pcbs, owner, [head] + tail, [head] + w)
  {
    var children := SortIds(pcbs[head].children);
    SortIdsCorrect(pcbs[head].children);
    forall x | x in [head] + w ensures ReachedFrom(pcbs, owner, [head] + tail, x) {
      if x == head {
        ReachSelf(pcbs, owner, head);
      } else {
        assert ReachedFrom(pcbs, owner, children + tail, x);
        var t :| t in children + tail && Reach(pcbs, owner, t, x);
        if t in tail {
          assert t in [head] + tail;
        } else {
          ReachedThrough(pcbs, owner, head, t, {x});
        }
      }
    }
  }

  lemma WalkMissesNone(pcbs: PcbMap, owner: Text, head: uint32, tail: seq<uint32>, w: seq<uint32>, seen: set<uint32>)
    requires Owned(pcbs, owner, head)
    requires NoneMissed(pcbs, owner, SortIds(pcbs[head].children) + tail, seen + {head}, w)
    ensures NoneMissed(pcbs, owner, [head] + tail, seen, [head] + w)
  {
    SortIdsCorrect(pcbs[head].children);
    assert forall t :: t in tail ==> t in SortIds(pcbs[head].children) + tail;
    assert forall c :: c in pcbs[head].children ==> c in SortIds(pcbs[head].children) + tail;
  }

  // From one process the walk lists its subtree, each process once.
  lemma WalkIsSubtree(pcbs: PcbMap, owner: Text, root: uint32)
    requires Owned(pcbs, owner, root)
    ensures var w := Walk(pcbs, owner, [root], {});
      Distinct(w) && forall p :: p in w <==> p in Subtree(pcbs, owner, root)
  {
    var w := Walk(pcbs, owner, [root], {});
    WalkCorrect(pcbs, owner, [root], {});
    assert root in [root];
    forall p | p in w ensures p in Subtree(pcbs, owner, root) {
      assert ReachedFrom(pcbs, owner, [root], p);
      ReachOwned(pcbs, owner, root, p);
    }
    SubtreeIsLeast(pcbs, owner, root, set p | p in w);
  }

  // Visiting the processes in todo, whatever else is to be visited after them, takes one listing to another.
  ghost predicate Visits(pcbs: PcbMap, owner: Text, todo: seq<uint32>, ordered: seq<uint32>, seen: set<uint32>,
    o: seq<uint32>, v: set<uint32>)
  {
    forall rest {:trigger Walk(pcbs, owner, todo + rest, seen)} ::
      ordered + Walk(pcbs, owner, todo + rest, seen) == o + Walk(pcbs, owner, rest, v)
  }

  lemma VisitNothing(pcbs: PcbMap, owner: Text, ordered: seq<uint32>, seen: set<uint32>)
    ensures Visits(pcbs, owner, [], ordered, seen, ordered, seen)
  {
    forall rest: seq<uint32> ensures [] + rest == rest {}
  }

  lemma VisitAgain(pcbs: PcbMap, owner: Text, p: uint32, ordered: seq<uint32>, seen: set<uint32>)
    requires p in seen || !Owned(pcbs, owner, p)
    ensures Visits(pcbs, owner, [p], ordered, seen, ordered, seen)
  {
    forall rest ensures Walk(pcbs, owner, [p] + rest, seen) == Walk(pcbs, owner, rest, seen) {
      assert ([p] + rest)[1..] == rest;
    }
  }

  lemma VisitBoth(pcbs: PcbMap, owner: Text, a: seq<uint32>, b: seq<uint32>, o0: seq<uint32>, v0: set<uint32>,
    o1: seq<uint32>, v1: set<uint32>, o2: seq<uint32>, v2: set<uint32>)
    requires Visits(pcbs, owner, a, o0, v0, o1, v1) && Visits(pcbs, owner, b, o1, v1, o2, v2)
    ensures Visits(pcbs, owner, a + b, o0, v0, o2, v2)
  {
    forall rest ensures o0 + Walk(pcbs, owner, (a + b) + rest, v0) == o2 + Walk(pcbs, owner, rest, v2) {
      assert (a + b) + rest == a + (b + rest);
    }
  }

  // A new process is listed, and then its children are visited.
  lemma VisitNew(pcbs: PcbMap, owner: Text, p: uint32, ordered: seq<uint32>, seen: set<uint32>, o: seq<uint32>,
    v: set<uint32>)
    requires p !in seen && Owned(pcbs, owner, p)
    requires Visits(pcbs, owner, SortIds(pcbs[p].children), ordered + [p], seen + {p}, o, v)
    ensures Visits(pcbs, owner, [p], ordered, seen, o, v)
  {
    var children := SortIds(pcbs[p].children);
    forall rest ensures ordered + Walk(pcbs, owner, [p] + rest, seen) == o + Walk(pcbs, owner, rest, v) {
      assert ([p] + rest)[1..] == rest;
      var w := Walk(pcbs, owner, children + rest, seen + {p});
      assert Walk(pcbs, owner, [p] + rest, seen) == [p] + w;
      assert ordered + ([p] + w) == (ordered + [p]) + w;
    }
  }

  lemma VisitsAll(pcbs: PcbMap, owner: Text, todo: seq<uint32>, o: seq<uint32>, v: set<uint32>)
    requires Visits(pcbs, owner, todo, [], {}, o, v)
    ensures o == Walk(pcbs, owner, todo, {})
  {
    var w := Walk(pcbs, owner, todo + [], {});
    assert todo + [] == todo;
    assert w == [] + w == o + Walk(pcbs, owner, [], v) == o;
  }

  // In a well-formed forest pids grow along a walk, so there is no cycle.
  lemma {:induction false} PathsAscend(ps: Proc, owner: Text, path: seq<uint32>, i: nat, j: nat)
    requires ProcOk(ps) && IsPath(ps.pcbs, owner, path) && i < j < |path|
    ensures path[i] < path[j]
    decreases j
  {
    assert StepAt(ps.pcbs, path, j);
    assert ChildrenOk(ps.pcbs, path[j - 1]);
    assert ParentOk(ps.pcbs, path[j]);
    if i < j - 1 {
      PathsAscend(ps, owner, path, i, j - 1);
    }
  }
}
