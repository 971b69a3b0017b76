// One scheduler step as a function of the process table, and how many steps a workload takes.

module Scheduling {
  import opened Types
  import opened Sequences
  import opened ProcessTable
  import opened Subtrees

  // ----- selection -----

  // p is the user's process that has waited longest in a queue.
  ghost predicate Longest(pcbs: PcbMap, queue: seq<uint32>, owner: Text, p: uint32) {
    exists i :: 0 <= i < |queue| && queue[i] == p && forall j :: 0 <= j < i ==> !Owned(pcbs, owner, queue[j])
  }

  function FirstOf(pcbs: PcbMap, queue: seq<uint32>, owner: Text): (r: Option<uint32>)
    ensures r.None? ==> forall p :: p in queue ==> !Owned(pcbs, owner, p)
    ensures r.Some? ==> r.value in queue && Owned(pcbs, owner, r.value) && Longest(pcbs, queue, owner, r.value)
  {
    if queue == [] then None
    else if Owned(pcbs, owner, queue[0]) then
      assert queue[0] == queue[0];
      Some(queue[0])
    else
      var r := FirstOf(pcbs, queue[1..], owner);
      if r.Some? then LongestLater(pcbs, queue, owner, r.value); r else r
  }

  lemma LongestLater(pcbs: PcbMap, queue: seq<uint32>, owner: Text, p: uint32)
    requires queue != [] && !Owned(pcbs, owner, queue[0]) && Longest(pcbs, queue[1..], owner, p)
    ensures Longest(pcbs, queue, owner, p)
  {
    var i :| 0 <= i < |queue| - 1 && queue[1..][i] == p &&
      forall j :: 0 <= j < i ==> !Owned(pcbs, owner, queue[1..][j]);
    assert queue[i + 1] == p;
    forall j | 0 <= j < i + 1 ensures !Owned(pcbs, owner, queue[j]) {
      if j > 0 {
        assert queue[1..][j - 1] == queue[j];
      }
    }
  }

  function Select(ps: Proc, owner: Text): Option<uint32> {
    var r0 := FirstOf(ps.pcbs, ps.queues[0], owner);
    var r1 := FirstOf(ps.pcbs, ps.queues[1], owner);
    if r0.Some? then r0 else if r1.Some? then r1 else FirstOf(ps.pcbs, ps.queues[2], owner)
  }

  predicate ReadyOf(pcbs: PcbMap, owner: Text, p: uint32) {
    Owned(pcbs, owner, p) && pcbs[p].state.READY?
  }

  // A READY process of the user is selected whenever there is one, and from the lowest level that has one.
  lemma SelectCorrect(ps: Proc, owner: Text)
    requires ProcOk(ps)
    ensures Select(ps, owner).None? <==> forall p :: !ReadyOf(ps.pcbs, owner, p)
    ensures Select(ps, owner).Some? ==>
      && ReadyOf(ps.pcbs, owner, Select(ps, owner).value)
      && forall p :: ReadyOf(ps.pcbs, owner, p) ==>
        ps.pcbs[Select(ps, owner).value].queueLevel <= ps.pcbs[p].queueLevel
  {
    var q := ps.queues;
    forall p
      ensures ReadyOf(ps.pcbs, owner, p) <==> Owned(ps.pcbs, owner, p) && (p in q[0] || p in q[1] || p in q[2])
    {
      assert p in q[0] <==> ReadyAt(ps.pcbs, p, 0);
      assert p in q[1] <==> ReadyAt(ps.pcbs, p, 1);
      assert p in q[2] <==> ReadyAt(ps.pcbs, p, 2);
    }
  }

  // ----- clean-up and scan, as the code does them on any queues -----

  function KeepRunnable(pcbs: PcbMap, queue: seq<uint32>): seq<uint32> {
    if queue == [] then []
    else if Runnable(pcbs, queue[0]) then [queue[0]] + KeepRunnable(pcbs, queue[1..])
    else KeepRunnable(pcbs, queue[1..])
  }

  // On queues in good order the clean-up removes nothing.
  lemma {:induction false} CleanQueueStays(pcbs: PcbMap, queue: seq<uint32>)
    requires forall p :: p in queue ==> Runnable(pcbs, p)
    ensures KeepRunnable(pcbs, queue) == queue
  {
    if queue != [] {
      assert queue[0] in queue && queue == [queue[0]] + queue[1..];
      CleanQueueStays(pcbs, queue[1..]);
    }
  }

  function Cleaned(pcbs: PcbMap, qs: Queues): Queues {
    [KeepRunnable(pcbs, qs[0]), KeepRunnable(pcbs, qs[1]), KeepRunnable(pcbs, qs[2])]
  }

  // The scan of one queue: entries that cannot run are dropped on the way, other users' entries are kept.
  function Scan(pcbs: PcbMap, queue: seq<uint32>, owner: Text): (seq<uint32>, Option<uint32>) {
    if queue == [] then ([], None)
    else if !Runnable(pcbs, queue[0]) then Scan(pcbs, queue[1..], owner)
    else if Owned(pcbs, owner, queue[0]) then (queue[1..], Some(queue[0]))
    else
      var (rest, r) := Scan(pcbs, queue[1..], owner);
      ([queue[0]] + rest, r)
  }

  // The scan of all levels, which stops at the first hit.
  function Pick(pcbs: PcbMap, qs: Queues, owner: Text): (Queues, Option<uint32>) {
    var (q0, r0) := Scan(pcbs, qs[0], owner);
    var (q1, r1) := Scan(pcbs, qs[1], owner);
    var (q2, r2) := Scan(pcbs, qs[2], owner);
    if r0.Some? then ([q0, qs[1], qs[2]], r0)
    else if r1.Some? then ([q0, q1, qs[2]], r1)
    else ([q0, q1, q2], r2)
  }

  lemma {:induction false} ScanIsFirst(pcbs: PcbMap, queue: seq<uint32>, owner: Text)
    requires Distinct(queue) && forall p :: p in queue ==> Runnable(pcbs, p)
    ensures var r := FirstOf(pcbs, queue, owner);
      Scan(pcbs, queue, owner) == (if r.Some? then Without(queue, {r.value}) else queue, r)
  {
    if queue != [] {
      var head, tail := queue[0], queue[1..];
      assert queue == [head] + tail;
      assert head in queue && forall p :: p in tail ==> p in queue;
      if Owned(pcbs, owner, head) {
        WithoutCons(head, tail, {head});
        WithoutNone(tail, {head});
        assert Without(queue, {head}) == tail;
      } else {
        ScanIsFirst(pcbs, tail, owner);
        var r := FirstOf(pcbs, tail, owner);
        if r.Some? {
          WithoutCons(head, tail, {r.value});
        }
      }
    }
  }

  lemma ScansAreFirst(ps: Proc, owner: Text)
    requires ProcOk(ps)
    ensures forall l :: 0 <= l < 3 ==>
      var r := FirstOf(ps.pcbs, ps.queues[l], owner);
      Scan(ps.pcbs, ps.queues[l], owner) == (if r.Some? then Without(ps.queues[l], {r.value}) else ps.queues[l], r)
  {
    var q := ps.queues;
    assert forall p :: p in q[0] ==> ReadyAt(ps.pcbs, p, 0);
    assert forall p :: p in q[1] ==> ReadyAt(ps.pcbs, p, 1);
    assert forall p :: p in q[2] ==> ReadyAt(ps.pcbs, p, 2);
    ScanIsFirst(ps.pcbs, q[0], owner);
    ScanIsFirst(ps.pcbs, q[1], owner);
    ScanIsFirst(ps.pcbs, q[2], owner);
  }

  // On queues in good order the pick is the selection, taken out of its queue.
  lemma PickIsSelect(ps: Proc, owner: Text)
    requires ProcOk(ps)
    ensures var r := Select(ps, owner);
      Pick(ps.pcbs, ps.queues, owner) == (if r.Some? then Dequeued(ps.queues, {r.value}) else ps.queues, r)
  {
    var q := ps.queues;
    var r := Select(ps, owner);
    ScansAreFirst(ps, owner);
    if r.Some? {
      SelectedLevel(ps, owner);
      OtherQueues(ps, r.value);
      assert Pick(ps.pcbs, q, owner).0 == Dequeued(q, {r.value});
    } else {
      assert Pick(ps.pcbs, q, owner).0 == q;
    }
  }

  // The selected process was found in the queue of its level.
  lemma SelectedLevel(ps: Proc, owner: Text)
    requires ProcOk(ps) && Select(ps, owner).Some?
    ensures var p := Select(ps, owner).value;
      && p in ps.pcbs && 0 <= ps.pcbs[p].queueLevel < 3
      && FirstOf(ps.pcbs, ps.queues[ps.pcbs[p].queueLevel], owner) == Some(p)
      && forall l :: 0 <= l < ps.pcbs[p].queueLevel ==> FirstOf(ps.pcbs, ps.queues[l], owner).None?
  {
    var p := Select(ps, owner).value;
    assert p in ps.queues[0] <==> ReadyAt(ps.pcbs, p, 0);
    assert p in ps.queues[1] <==> ReadyAt(ps.pcbs, p, 1);
    assert p in ps.queues[2] <==> ReadyAt(ps.pcbs, p, 2);
  }

  // Removing a process touches only the queue of its level.
  lemma OtherQueues(ps: Proc, p: uint32)
    requires ProcOk(ps) && p in ps.pcbs
    ensures forall l: int32 :: 0 <= l < 3 && l != ps.pcbs[p].queueLevel ==>
      Without(ps.queues[l], {p}) == ps.queues[l]
  {
    var q := ps.queues;
    assert p in q[0] <==> ReadyAt(ps.pcbs, p, 0);
    assert p in q[1] <==> ReadyAt(ps.pcbs, p, 1);
    assert p in q[2] <==> ReadyAt(ps.pcbs, p, 2);
    forall l: int32 | 0 <= l < 3 && l != ps.pcbs[p].queueLevel ensures Without(q[l], {p}) == q[l] {
      WithoutNone(q[l], {p});
    }
  }

  // ----- one step -----

  function NextLevel(level: int32): int32 {
    if level < 2 then level + 1 else level
  }

  // The PCB after a full quantum that did not finish it.
  function Demoted(x: PCB): PCB {
    var q := Quantum(x.queueLevel);
    x.(executedTime := Add32(x.executedTime, q),
       remainingTime := if x.remainingTime > q then x.remainingTime - q else 0,
       queueLevel := NextLevel(x.queueLevel),
       timeSliceLeft := Quantum(NextLevel(x.queueLevel)),
       state := READY)
  }

  // The processes that one step ends: none, or the subtree of the one that ran out its time.
  ghost function Finished(ps: Proc, owner: Text): set<uint32> {
    var p := Select(ps, owner);
    if p.Some? && ps.pcbs[p.value].remainingTime <= Quantum(ps.pcbs[p.value].queueLevel) then
      Subtree(ps.pcbs, owner, p.value)
    else
      {}
  }

  ghost function StepProc(ps: Proc, owner: Text): Proc {
    var r := Select(ps, owner);
    if r.None? then
      ps
    else
      var x := ps.pcbs[r.value];
      if x.remainingTime <= Quantum(x.queueLevel) then Remove(ps, Finished(ps, owner)) else Place(ps, Demoted(x))
  }

  lemma FinishedClosed(ps: Proc, owner: Text)
    requires ProcOk(ps)
    ensures Closed(ps.pcbs, Finished(ps, owner))
    ensures forall p :: p in Finished(ps, owner) ==> Owned(ps.pcbs, owner, p)
  {
    var r := Select(ps, owner);
    if r.Some? {
      SubtreeClosed(ps, owner, r.value);
      SubtreeOwned(ps.pcbs, owner, r.value);
    }
    assert 0 !in ps.pcbs;
  }

  lemma StepOk(ps: Proc, owner: Text)
    requires ProcOk(ps)
    ensures ProcOk(StepProc(ps, owner))
  {
    var r := Select(ps, owner);
    if r.Some? {
      SelectCorrect(ps, owner);
      var x := ps.pcbs[r.value];
      if x.remainingTime <= Quantum(x.queueLevel) {
        FinishedClosed(ps, owner);
        RemoveOk(ps, Finished(ps, owner));
      } else {
        PlaceOk(ps, Demoted(x));
      }
    }
  }

  // One process runs. Either it is gone with its subtree, having had at most a quantum left, or it has run for
  // exactly its quantum, has moved down a level, and waits behind everybody there; all others keep everything but
  // children that are gone.
  lemma StepRunsOne(ps: Proc, owner: Text)
    requires ProcOk(ps) && Select(ps, owner).Some?
    ensures var p := Select(ps, owner).value;
      var x, after := ps.pcbs[p], StepProc(ps, owner);
      var q := Quantum(x.queueLevel);
      && (forall o :: o in after.pcbs && o != p ==>
          o in ps.pcbs && after.pcbs[o] == ps.pcbs[o].(children := after.pcbs[o].children))
      && (p in after.pcbs <==> x.remainingTime > q)
      && (p in after.pcbs ==> after.pcbs.Keys == ps.pcbs.Keys)
      && (p in after.pcbs ==>
          && after.pcbs[p] == x.(
            executedTime := after.pcbs[p].executedTime, remainingTime := after.pcbs[p].remainingTime,
            queueLevel := after.pcbs[p].queueLevel, timeSliceLeft := after.pcbs[p].timeSliceLeft)
          && after.pcbs[p].timeSliceLeft == (if x.queueLevel == 0 then 4 else 8)
          && after.pcbs[p].executedTime == x.executedTime + q
          && after.pcbs[p].remainingTime == x.remainingTime - q
          && after.pcbs[p].queueLevel == NextLevel(x.queueLevel)
          && var queue := after.queues[NextLevel(x.queueLevel)]; queue != [] && queue[|queue| - 1] == p)
  {
    SelectCorrect(ps, owner);
    SubtreeOwned(ps.pcbs, owner, Select(ps, owner).value);
  }

  // ----- how much work is left -----

  // The steps a process needs from a level with some time remaining.
  function Cost(level: int32, remaining: nat): (c: nat)
    ensures c >= 1
    decreases remaining
  {
    if remaining <= Quantum(level) then 1 else 1 + Cost(NextLevel(level), remaining - Quantum(level))
  }

  lemma {:induction false} CostAtBottom(remaining: nat)
    requires remaining > 0
    ensures Cost(2, remaining) == (remaining + 7) / 8
  {
    if remaining > 8 {
      CostAtBottom(remaining - 8);
    }
  }

  lemma CostFromMiddle(total: nat)
    requires total > 0
    ensures Cost(1, total) == if total <= 4 then 1 else 1 + (total - 4 + 7) / 8
  {
    if total > 4 {
      CostAtBottom(total - 4);
    }
  }

  // A new process of the top level needs one step, two, or two and an eighth of the rest, rounded up.
  lemma CostFromTop(total: nat)
    requires total > 0
    ensures Cost(0, total) == if total <= 2 then 1 else if total <= 6 then 2 else 2 + (total - 6 + 7) / 8
  {
    if total > 6 {
      CostAtBottom(total - 6);
      assert Cost(1, total - 2) == 1 + Cost(2, total - 6);
    }
  }

  function CostOf(pcbs: PcbMap, owner: Text, p: uint32): nat {
    if Owned(pcbs, owner, p) then Cost(pcbs[p].queueLevel, pcbs[p].remainingTime) else 0
  }

  function QueueWork(pcbs: PcbMap, owner: Text, queue: seq<uint32>): nat {
    if queue == [] then 0
    else QueueWork(pcbs, owner, queue[..|queue| - 1]) + CostOf(pcbs, owner, queue[|queue| - 1])
  }

  function Work(ps: Proc, owner: Text): nat {
    QueueWork(ps.pcbs, owner, ps.queues[0])
    + QueueWork(ps.pcbs, owner, ps.queues[1])
    + QueueWork(ps.pcbs, owner, ps.queues[2])
  }

  // The part of the work that belongs to a set of processes.
  function WorkIn(ps: Proc, owner: Text, some: set<uint32>): nat {
    QueueWork(ps.pcbs, owner, Only(ps.queues[0], some))
    + QueueWork(ps.pcbs, owner, Only(ps.queues[1], some))
    + QueueWork(ps.pcbs, owner, Only(ps.queues[2], some))
  }

  lemma QueueWorkSnoc(pcbs: PcbMap, owner: Text, queue: seq<uint32>, p: uint32)
    ensures QueueWork(pcbs, owner, queue + [p]) == QueueWork(pcbs, owner, queue) + CostOf(pcbs, owner, p)
  {
    assert (queue + [p])[..|queue|] == queue;
  }

  lemma {:induction false} SameWork(pcbs: PcbMap, after: PcbMap, owner: Text, queue: seq<uint32>)
    requires forall p :: p in queue ==> CostOf(pcbs, owner, p) == CostOf(after, owner, p)
    ensures QueueWork(pcbs, owner, queue) == QueueWork(after, owner, queue)
  {
    if queue != [] {
      SameWork(pcbs, after, owner, queue[..|queue| - 1]);
    }
  }

  lemma {:induction false} WorkSplits(pcbs: PcbMap, owner: Text, queue: seq<uint32>, some: set<uint32>)
    ensures QueueWork(pcbs, owner, queue) ==
      QueueWork(pcbs, owner, Without(queue, some)) + QueueWork(pcbs, owner, Only(queue, some))
  {
    if queue != [] {
      var n := |queue| - 1;
      WorkSplits(pcbs, owner, queue[..n], some);
      QueueWorkSnoc(pcbs, owner, Without(queue[..n], some), queue[n]);
      QueueWorkSnoc(pcbs, owner, Only(queue[..n], some), queue[n]);
    }
  }

  lemma {:induction false} NoWork(pcbs: PcbMap, owner: Text, queue: seq<uint32>)
    ensures QueueWork(pcbs, owner, queue) == 0 <==> forall p :: p in queue ==> !Owned(pcbs, owner, p)
  {
    if queue != [] {
      var n := |queue| - 1;
      NoWork(pcbs, owner, queue[..n]);
      assert queue == queue[..n] + [queue[n]];
    }
  }

  lemma {:induction false} WorkOfOne(pcbs: PcbMap, owner: Text, queue: seq<uint32>, p: uint32)
    requires Distinct(queue)
    ensures QueueWork(pcbs, owner, Only(queue, {p})) == if p in queue then CostOf(pcbs, owner, p) else 0
  {
    if queue != [] {
      var n := |queue| - 1;
      assert Distinct(queue[..n]);
      WorkOfOne(pcbs, owner, queue[..n], p);
      QueueWorkSnoc(pcbs, owner, Only(queue[..n], {p}), queue[n]);
      assert queue == queue[..n] + [queue[n]];
      assert queue[n] !in queue[..n];
    }
  }
}
