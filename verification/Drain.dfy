// Repeated scheduler steps drain a user's workload, within a bound that is exact.

module Drain {
  import opened Types
  import opened Sequences
  import opened ProcessTable
  import opened Subtrees
  import opened Scheduling

  // Work is left exactly when a process is READY.
  lemma WorkMeansReady(ps: Proc, owner: Text)
    requires ProcOk(ps)
    ensures Work(ps, owner) == 0 <==> Select(ps, owner).None?
  {
    NoWork(ps.pcbs, owner, ps.queues[0]);
    NoWork(ps.pcbs, owner, ps.queues[1]);
    NoWork(ps.pcbs, owner, ps.queues[2]);
  }

  // A queue's work without one process, over a table that differs only there.
  lemma WorkWithoutOne(pcbs: PcbMap, after: PcbMap, owner: Text, queue: seq<uint32>, pid: uint32)
    requires Distinct(queue)
    requires forall p :: p != pid ==> CostOf(after, owner, p) == CostOf(pcbs, owner, p)
    ensures QueueWork(after, owner, Without(queue, {pid})) + (if pid in queue then CostOf(pcbs, owner, pid) else 0) ==
      QueueWork(pcbs, owner, queue)
  {
    WithoutMembers(queue, {pid});
    WorkSplits(pcbs, owner, queue, {pid});
    WorkOfOne(pcbs, owner, queue, pid);
    SameWork(pcbs, after, owner, Without(queue, {pid}));
  }

  // Requeueing a process with a new PCB changes the work by the change of that process's cost.
  lemma PlaceWork(ps: Proc, owner: Text, x: PCB)
    requires ProcOk(ps) && ReadyOf(ps.pcbs, owner, x.pid) && Revises(ps.pcbs, x) && PcbOk(x) && x.state.READY?
    ensures Work(Place(ps, x), owner) + CostOf(ps.pcbs, owner, x.pid) ==
      Work(ps, owner) + Cost(x.queueLevel, x.remainingTime)
  {
    var q, after := ps.queues, Place(ps, x);
    WorkWithoutOne(ps.pcbs, after.pcbs, owner, q[0], x.pid);
    WorkWithoutOne(ps.pcbs, after.pcbs, owner, q[1], x.pid);
    WorkWithoutOne(ps.pcbs, after.pcbs, owner, q[2], x.pid);
    assert x.pid in q[0] <==> ReadyAt(ps.pcbs, x.pid, 0);
    assert x.pid in q[1] <==> ReadyAt(ps.pcbs, x.pid, 1);
    assert x.pid in q[2] <==> ReadyAt(ps.pcbs, x.pid, 2);
    QueueWorkSnoc(after.pcbs, owner, Without(q[x.queueLevel], {x.pid}), x.pid);
  }

  // Removing processes removes their work.
  lemma RemoveWork(ps: Proc, owner: Text, dead: set<uint32>)
    ensures Work(Remove(ps, dead), owner) + WorkIn(ps, owner, dead) == Work(ps, owner)
  {
    var after := Remove(ps, dead);
    forall l | 0 <= l < 3
      ensures QueueWork(after.pcbs, owner, after.queues[l]) + QueueWork(ps.pcbs, owner, Only(ps.queues[l], dead)) ==
        QueueWork(ps.pcbs, owner, ps.queues[l])
    {
      WorkSplits(ps.pcbs, owner, ps.queues[l], dead);
      WithoutMembers(ps.queues[l], dead);
      SameWork(ps.pcbs, after.pcbs, owner, Without(ps.queues[l], dead));
    }
  }

  lemma {:induction false} OnlyMembers(queue: seq<uint32>, some: set<uint32>)
    ensures forall p :: p in Only(queue, some) <==> p in queue && p in some
  {
    if queue != [] {
      OnlyMembers(queue[..|queue| - 1], some);
      assert queue == queue[..|queue| - 1] + [queue[|queue| - 1]];
    }
  }

  lemma {:induction false} WorkInUnion(pcbs: PcbMap, owner: Text, queue: seq<uint32>, a: set<uint32>, b: set<uint32>)
    requires a !! b
    ensures QueueWork(pcbs, owner, Only(queue, a + b)) ==
      QueueWork(pcbs, owner, Only(queue, a)) + QueueWork(pcbs, owner, Only(queue, b))
  {
    if queue != [] {
      var n := |queue| - 1;
      WorkInUnion(pcbs, owner, queue[..n], a, b);
      QueueWorkSnoc(pcbs, owner, Only(queue[..n], a), queue[n]);
      QueueWorkSnoc(pcbs, owner, Only(queue[..n], b), queue[n]);
      QueueWorkSnoc(pcbs, owner, Only(queue[..n], a + b), queue[n]);
    }
  }

  lemma WorkInNone(ps: Proc, owner: Text, some: set<uint32>)
    requires ProcOk(ps)
    ensures WorkIn(ps, owner, some) == 0 <==> forall p :: p in some ==> !ReadyOf(ps.pcbs, owner, p)
  {
    var q := ps.queues;
    NoWork(ps.pcbs, owner, Only(q[0], some));
    NoWork(ps.pcbs, owner, Only(q[1], some));
    NoWork(ps.pcbs, owner, Only(q[2], some));
    OnlyMembers(q[0], some);
    OnlyMembers(q[1], some);
    OnlyMembers(q[2], some);
    forall p
      ensures ReadyOf(ps.pcbs, owner, p) <==> Owned(ps.pcbs, owner, p) && (p in q[0] || p in q[1] || p in q[2])
    {
      QueuedIsReady(ps, p);
    }
  }

  // The work in a set of processes is the work of one READY member plus the work in the others.
  lemma WorkInOneAndOthers(ps: Proc, owner: Text, some: set<uint32>, p: uint32)
    requires ProcOk(ps) && p in some && ReadyOf(ps.pcbs, owner, p)
    ensures WorkIn(ps, owner, some) == CostOf(ps.pcbs, owner, p) + WorkIn(ps, owner, some - {p})
  {
    var q := ps.queues;
    assert {p} + (some - {p}) == some;
    WorkInUnion(ps.pcbs, owner, q[0], {p}, some - {p});
    WorkInUnion(ps.pcbs, owner, q[1], {p}, some - {p});
    WorkInUnion(ps.pcbs, owner, q[2], {p}, some - {p});
    WorkOfOne(ps.pcbs, owner, q[0], p);
    WorkOfOne(ps.pcbs, owner, q[1], p);
    WorkOfOne(ps.pcbs, owner, q[2], p);
    assert p in q[0] <==> ReadyAt(ps.pcbs, p, 0);
    assert p in q[1] <==> ReadyAt(ps.pcbs, p, 1);
    assert p in q[2] <==> ReadyAt(ps.pcbs, p, 2);
  }

  // The work a step takes away with the descendants of the process it ends.
  ghost function Collateral(ps: Proc, owner: Text): nat {
    var p := Select(ps, owner);
    if p.Some? then WorkIn(ps, owner, Finished(ps, owner) - {p.value}) else 0
  }

  // A step that runs a process lowers the work by exactly one and whatever READY descendants die with it.
  lemma StepWork(ps: Proc, owner: Text)
    requires ProcOk(ps) && Select(ps, owner).Some?
    ensures Work(StepProc(ps, owner), owner) + 1 + Collateral(ps, owner) == Work(ps, owner)
  {
    SelectCorrect(ps, owner);
    var p := Select(ps, owner).value;
    var x := ps.pcbs[p];
    if x.remainingTime <= Quantum(x.queueLevel) {
      var dead := Finished(ps, owner);
      RemoveWork(ps, owner, dead);
      SubtreeOwned(ps.pcbs, owner, p);
      WorkInOneAndOthers(ps, owner, dead, p);
    } else {
      PlaceWork(ps, owner, Demoted(x));
      WorkInNone(ps, owner, {} - {p});
    }
  }

  // So it lowers it by one alone exactly when no READY descendant dies.
  lemma StepCollateral(ps: Proc, owner: Text)
    requires ProcOk(ps) && Select(ps, owner).Some?
    ensures Collateral(ps, owner) == 0 <==>
      forall p :: p in Finished(ps, owner) && ReadyOf(ps.pcbs, owner, p) ==> p == Select(ps, owner).value
  {
    WorkInNone(ps, owner, Finished(ps, owner) - {Select(ps, owner).value});
  }

  // ----- whole runs of steps -----

  ghost function Steps(ps: Proc, owner: Text, n: nat): (r: Proc)
    requires ProcOk(ps)
    ensures ProcOk(r)
    decreases n
  {
    if n == 0 then ps
    else
      StepOk(ps, owner);
      Steps(StepProc(ps, owner), owner, n - 1)
  }

  lemma {:induction false} StepsLast(ps: Proc, owner: Text, n: nat)
    requires ProcOk(ps)
    ensures Steps(ps, owner, n + 1) == StepProc(Steps(ps, owner, n), owner)
    decreases n
  {
    if n > 0 {
      StepOk(ps, owner);
      StepsLast(StepProc(ps, owner), owner, n - 1);
    }
  }

  // As many steps as there is work leave the user without READY processes.
  lemma {:induction false} Drains(ps: Proc, owner: Text, n: nat)
    requires ProcOk(ps) && n >= Work(ps, owner)
    ensures Select(Steps(ps, owner, n), owner).None?
    decreases n
  {
    WorkMeansReady(ps, owner);
    if n > 0 {
      StepOk(ps, owner);
      if Select(ps, owner).Some? {
        StepWork(ps, owner);
      }
      Drains(StepProc(ps, owner), owner, n - 1);
    }
  }

  // No READY process of the user has a READY descendant.
  ghost predicate Independent(ps: Proc, owner: Text) {
    forall p, q :: ReadyOf(ps.pcbs, owner, p) && ReadyOf(ps.pcbs, owner, q) && Reach(ps.pcbs, owner, p, q) ==> p == q
  }

  lemma IndependentStep(ps: Proc, owner: Text)
    requires ProcOk(ps) && Independent(ps, owner)
    ensures Independent(StepProc(ps, owner), owner)
  {
    var after := StepProc(ps, owner);
    var r := Select(ps, owner);
    if r.Some? {
      SelectCorrect(ps, owner);
      forall p | p in after.pcbs
        ensures forall c :: c in after.pcbs[p].children ==> c in ps.pcbs[p].children
      {
        WithoutMembers(ps.pcbs[p].children, Finished(ps, owner));
      }
      forall p, q | ReadyOf(after.pcbs, owner, p) && ReadyOf(after.pcbs, owner, q) && Reach(after.pcbs, owner, p, q)
        ensures p == q
      {
        ReachShrinks(ps.pcbs, after.pcbs, owner, p, q);
      }
    }
  }

  // Without READY descendants the bound is exact: each step does one unit, until none is left.
  lemma {:induction false} DrainsExactly(ps: Proc, owner: Text, n: nat)
    requires ProcOk(ps) && Independent(ps, owner) && n <= Work(ps, owner)
    ensures Work(Steps(ps, owner, n), owner) == Work(ps, owner) - n
    ensures Select(Steps(ps, owner, n), owner).None? <==> n == Work(ps, owner)
    decreases n
  {
    WorkMeansReady(ps, owner);
    if n > 0 {
      StepOk(ps, owner);
      SelectCorrect(ps, owner);
      StepWork(ps, owner);
      StepCollateral(ps, owner);
      IndependentStep(ps, owner);
      DrainsExactly(StepProc(ps, owner), owner, n - 1);
    }
  }
}
