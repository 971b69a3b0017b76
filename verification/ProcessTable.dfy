// The process table as a value: PCBs, the parent/child forest, the three ready queues, and what each operation
// makes of them.

module ProcessTable {
  import opened Types
  import opened Sequences

  type PcbMap = map<uint32, PCB>

  datatype Proc = Proc(pcbs: PcbMap, queues: Queues, nextPid: uint32)

  function LevelOf(priority: int32): (level: int32)
    ensures 0 <= level <= 2
    ensures (level == 0 <==> priority <= 3) && (level == 2 <==> priority >= 8)
  {
    if priority <= 3 then 0 else if priority <= 7 then 1 else 2
  }

  function Quantum(level: int32): uint32 {
    if level == 0 then 2 else if level == 1 then 4 else 8
  }

  predicate Owned(pcbs: PcbMap, owner: Text, pid: uint32) {
    pid in pcbs && pcbs[pid].owner == owner
  }

  predicate Runnable(pcbs: PcbMap, pid: uint32) {
    pid in pcbs && pcbs[pid].state.READY? && !pcbs[pid].swappedOut
  }

  // ----- the invariant -----

  // A PCB between two kernel steps.
  predicate PcbOk(x: PCB) {
    && x.pid > 0
    && !x.state.NEW? && !x.state.RUNNING? && !x.state.TERMINATED?
    && (x.state.SWAPPED? <==> x.swappedOut)
    && 0 <= x.priority <= 15
    && LevelOf(x.priority) <= x.queueLevel <= 2
    && x.executedTime + x.remainingTime == x.totalTime
    && x.remainingTime > 0
    && x.timeSliceLeft == Quantum(x.queueLevel)
    && x.memSize > 0
  }

  // The table is keyed by pid, whatever else it holds.
  ghost predicate Keyed(pcbs: PcbMap) {
    forall p :: p in pcbs ==> pcbs[p].pid == p
  }

  ghost predicate PcbsOk(pcbs: PcbMap) {
    forall p :: p in pcbs ==> pcbs[p].pid == p && PcbOk(pcbs[p])
  }

  // The parent is an older process of the same user.
  ghost predicate ParentOk(pcbs: PcbMap, p: uint32)
    requires p in pcbs
  {
    pcbs[p].ppid != 0 ==> pcbs[p].ppid < p && Owned(pcbs, pcbs[p].owner, pcbs[p].ppid)
  }

  // The children list is the ascending list of exactly the PCBs that name p as their parent.
  ghost predicate ChildrenOk(pcbs: PcbMap, p: uint32)
    requires p in pcbs
  {
    && Ascending(pcbs[p].children)
    && forall c :: c in pcbs[p].children <==> c in pcbs && pcbs[c].ppid == p
  }

  ghost predicate ForestOk(pcbs: PcbMap) {
    forall p {:trigger ParentOk(pcbs, p)} {:trigger ChildrenOk(pcbs, p)} :: p in pcbs ==>
      ParentOk(pcbs, p) && ChildrenOk(pcbs, p)
  }

  predicate ReadyAt(pcbs: PcbMap, p: uint32, level: int32) {
    p in pcbs && pcbs[p].state.READY? && pcbs[p].queueLevel == level
  }

  ghost predicate QueueOk(pcbs: PcbMap, queue: seq<uint32>, level: int32) {
    Distinct(queue) && forall p :: p in queue <==> ReadyAt(pcbs, p, level)
  }

  // A pid is queued exactly when it is READY, once, and at its level.
  ghost predicate QueuesOk(pcbs: PcbMap, queues: Queues) {
    QueueOk(pcbs, queues[0], 0) && QueueOk(pcbs, queues[1], 1) && QueueOk(pcbs, queues[2], 2)
  }

  ghost predicate NextPidOk(pcbs: PcbMap, nextPid: uint32) {
    nextPid > 0 && forall p :: p in pcbs ==> p < nextPid
  }

  ghost predicate PcbTableOk(ps: Proc) {
    PcbsOk(ps.pcbs) && ForestOk(ps.pcbs) && QueuesOk(ps.pcbs, ps.queues)
  }

  ghost predicate ProcOk(ps: Proc) {
    PcbTableOk(ps) && NextPidOk(ps.pcbs, ps.nextPid)
  }

  // ----- queues -----

  function Dequeued(qs: Queues, dead: set<uint32>): Queues {
    [Without(qs[0], dead), Without(qs[1], dead), Without(qs[2], dead)]
  }

  // A level out of range leaves the process unqueued.
  function Enqueued(qs: Queues, level: int32, pid: uint32): Queues {
    var d := Dequeued(qs, {pid});
    if 0 <= level <= 2 then d[level := d[level] + [pid]] else d
  }

  // A READY process goes to the end of its queue; nothing else is queued.
  function Requeued(pcbs: PcbMap, qs: Queues, pid: uint32): Queues {
    if pid in pcbs && pcbs[pid].state.READY? then Enqueued(qs, pcbs[pid].queueLevel, pid) else qs
  }

  // A queue without some pids, over a table that differs only there, is again in order.
  lemma QueueWithout(pcbs: PcbMap, queue: seq<uint32>, level: int32, dead: set<uint32>, after: PcbMap)
    requires QueueOk(pcbs, queue, level)
    requires forall p :: ReadyAt(after, p, level) <==> ReadyAt(pcbs, p, level) && p !in dead
    ensures QueueOk(after, Without(queue, dead), level)
  {
    WithoutMembers(queue, dead);
    WithoutDistinct(queue, dead);
  }

  lemma QueueAppend(pcbs: PcbMap, queue: seq<uint32>, level: int32, pid: uint32, after: PcbMap)
    requires QueueOk(pcbs, queue, level)
    requires forall p :: ReadyAt(after, p, level) <==> p == pid || ReadyAt(pcbs, p, level)
    ensures QueueOk(after, Without(queue, {pid}) + [pid], level)
  {
    WithoutMembers(queue, {pid});
    WithoutDistinct(queue, {pid});
  }

  lemma QueuedIsReady(ps: Proc, p: uint32)
    requires ProcOk(ps)
    ensures p in ps.queues[0] || p in ps.queues[1] || p in ps.queues[2] <==> p in ps.pcbs && ps.pcbs[p].state.READY?
  {
    assert p in ps.queues[0] <==> ReadyAt(ps.pcbs, p, 0);
    assert p in ps.queues[1] <==> ReadyAt(ps.pcbs, p, 1);
    assert p in ps.queues[2] <==> ReadyAt(ps.pcbs, p, 2);
  }

  // ----- one process changes -----

  // Replace a PCB, take it out of the queues, and append it to the queue of its level if it is READY.
  function Place(ps: Proc, x: PCB): Proc {
    Proc(
      ps.pcbs[x.pid := x],
      if x.state.READY? then Enqueued(ps.queues, x.queueLevel, x.pid) else Dequeued(ps.queues, {x.pid}),
      ps.nextPid)
  }

  // Replace a PCB and leave the queues alone.
  function Replace(ps: Proc, x: PCB): Proc {
    ps.(pcbs := ps.pcbs[x.pid := x])
  }

  // Between states that are not READY there is nothing to do on the queues.
  lemma ReplaceIsPlace(ps: Proc, x: PCB)
    requires ProcOk(ps) && x.pid in ps.pcbs && !ps.pcbs[x.pid].state.READY? && !x.state.READY?
    ensures Replace(ps, x) == Place(ps, x)
  {
    QueuedIsReady(ps, x.pid);
    DequeuedNone(ps.queues, {x.pid});
  }

  // x is the PCB of a live process with nothing but its scheduling and memory fields changed.
  ghost predicate Revises(pcbs: PcbMap, x: PCB) {
    && x.pid in pcbs
    && x.ppid == pcbs[x.pid].ppid
    && x.owner == pcbs[x.pid].owner
    && x.name == pcbs[x.pid].name
    && x.children == pcbs[x.pid].children
    && x.memSize == pcbs[x.pid].memSize
  }

  lemma PlaceQueues(ps: Proc, x: PCB)
    requires QueuesOk(ps.pcbs, ps.queues)
    requires x.state.READY? ==> 0 <= x.queueLevel <= 2
    ensures QueuesOk(Place(ps, x).pcbs, Place(ps, x).queues)
  {
    PlaceQueue(ps.pcbs, ps.queues[0], 0, x);
    PlaceQueue(ps.pcbs, ps.queues[1], 1, x);
    PlaceQueue(ps.pcbs, ps.queues[2], 2, x);
    forall l: int32 | 0 <= l < 3
      ensures Place(ps, x).queues[l] ==
        Without(ps.queues[l], {x.pid}) + if x.state.READY? && x.queueLevel == l then [x.pid] else []
    {
    }
  }

  lemma PlaceQueue(pcbs: PcbMap, queue: seq<uint32>, level: int32, x: PCB)
    requires QueueOk(pcbs, queue, level)
    ensures QueueOk(pcbs[x.pid := x],
      Without(queue, {x.pid}) + if x.state.READY? && x.queueLevel == level then [x.pid] else [], level)
  {
    var after := pcbs[x.pid := x];
    if x.state.READY? && x.queueLevel == level {
      QueueAppend(pcbs, queue, level, x.pid, after);
    } else {
      QueueWithout(pcbs, queue, level, {x.pid}, after);
      assert Without(queue, {x.pid}) + [] == Without(queue, {x.pid});
    }
  }

  // Forest facts depend on ids, owners, parents and children lists only.
  lemma SameForest(pcbs: PcbMap, after: PcbMap)
    requires ForestOk(pcbs) && after.Keys == pcbs.Keys
    requires forall p :: p in pcbs ==>
      after[p].owner == pcbs[p].owner && after[p].ppid == pcbs[p].ppid && after[p].children == pcbs[p].children
    ensures ForestOk(after)
  {
    forall p | p in after ensures ParentOk(after, p) && ChildrenOk(after, p) {
      assert ParentOk(pcbs, p) && ChildrenOk(pcbs, p);
    }
  }

  lemma PlaceOk(ps: Proc, x: PCB)
    requires ProcOk(ps) && Revises(ps.pcbs, x) && PcbOk(x)
    ensures ProcOk(Place(ps, x))
  {
    PlaceQueues(ps, x);
    SameForest(ps.pcbs, Place(ps, x).pcbs);
  }

  function BlockProc(ps: Proc, owner: Text, pid: uint32): Option<Proc> {
    if Owned(ps.pcbs, owner, pid) && (ps.pcbs[pid].state.READY? || ps.pcbs[pid].state.RUNNING?) then
      Some(Place(ps, ps.pcbs[pid].(state := BLOCKED)))
    else
      None
  }

  function WakeupProc(ps: Proc, owner: Text, pid: uint32): Option<Proc> {
    if Owned(ps.pcbs, owner, pid) && ps.pcbs[pid].state.BLOCKED? then
      Some(Place(ps, ps.pcbs[pid].(state := READY)))
    else
      None
  }

  function SuspendProc(ps: Proc, owner: Text, pid: uint32): Option<Proc> {
    if !Owned(ps.pcbs, owner, pid) then None
    else
      match ps.pcbs[pid].state
      case READY => Some(Place(ps, ps.pcbs[pid].(state := SUSPENDED_READY)))
      case RUNNING => Some(Place(ps, ps.pcbs[pid].(state := SUSPENDED_READY)))
      case BLOCKED => Some(Replace(ps, ps.pcbs[pid].(state := SUSPENDED_BLOCKED)))
      case _ => None
  }

  function ResumeProc(ps: Proc, owner: Text, pid: uint32): Option<Proc> {
    if !Owned(ps.pcbs, owner, pid) then None
    else
      match ps.pcbs[pid].state
      case SUSPENDED_READY => Some(Place(ps, ps.pcbs[pid].(state := READY)))
      case SUSPENDED_BLOCKED => Some(Replace(ps, ps.pcbs[pid].(state := BLOCKED)))
      case _ => None
  }

  function ReniceProc(ps: Proc, owner: Text, pid: uint32, priority: int32): Option<Proc> {
    if 0 <= priority <= 15 && Owned(ps.pcbs, owner, pid) then
      var level := LevelOf(priority);
      var x := ps.pcbs[pid].(priority := priority, queueLevel := level, timeSliceLeft := Quantum(level));
      Some(if x.state.READY? then Place(ps, x) else Replace(ps, x))
    else
      None
  }

  function SwapProc(ps: Proc, owner: Text, pid: uint32): Option<Proc> {
    if Owned(ps.pcbs, owner, pid) && !ps.pcbs[pid].swappedOut && !ps.pcbs[pid].state.SWAPPED? then
      Some(Place(ps, ps.pcbs[pid].(swappedOut := true, memStart := 0, state := SWAPPED)))
    else
      None
  }

  // Suspending and then resuming gives back the same PCBs; the only trace is that a READY process has gone to the
  // back of its queue. A blocked process leaves no trace at all.
  lemma SuspendThenResume(ps: Proc, owner: Text, pid: uint32)
    requires ProcOk(ps)
    ensures
      match SuspendProc(ps, owner, pid)
      case None => true
      case Some(s) =>
        && var r := ResumeProc(s, owner, pid);
        && r.Some?
        && r.value.pcbs == ps.pcbs
        && r.value.nextPid == ps.nextPid
        && r.value.queues ==
          if ps.pcbs[pid].state.READY? then Enqueued(ps.queues, ps.pcbs[pid].queueLevel, pid) else ps.queues
  {
    if SuspendProc(ps, owner, pid).Some? {
      DequeuedTwice(ps.queues, {pid});
    }
  }

  lemma DequeuedTwice(qs: Queues, dead: set<uint32>)
    ensures Dequeued(Dequeued(qs, dead), dead) == Dequeued(qs, dead)
  {
    WithoutWithout(qs[0], dead, dead);
    WithoutWithout(qs[1], dead, dead);
    WithoutWithout(qs[2], dead, dead);
    assert dead + dead == dead;
  }

  lemma DequeuedMore(qs: Queues, a: set<uint32>, b: set<uint32>)
    ensures Dequeued(Dequeued(qs, a), b) == Dequeued(qs, a + b)
  {
    WithoutWithout(qs[0], a, b);
    WithoutWithout(qs[1], a, b);
    WithoutWithout(qs[2], a, b);
  }

  lemma DequeuedNone(qs: Queues, dead: set<uint32>)
    requires forall p :: p in qs[0] || p in qs[1] || p in qs[2] ==> p !in dead
    ensures Dequeued(qs, dead) == qs
  {
    WithoutNone(qs[0], dead);
    WithoutNone(qs[1], dead);
    WithoutNone(qs[2], dead);
  }

  // ----- creation -----

  function FreshPcb(ps: Proc, owner: Text, name: Text, memKB: uint32, memStart: uint32, priority: int32,
    totalTime: uint32, parent: uint32): PCB
  {
    var level := LevelOf(priority);
    PCB(ps.nextPid, parent, name, owner, READY, priority, level, totalTime, 0, totalTime, Quantum(level),
        memStart, memKB, false, [])
  }

  function Adopt(pcbs: PcbMap, parent: uint32, child: uint32): PcbMap {
    if parent in pcbs then
      pcbs[parent := pcbs[parent].(children := pcbs[parent].children + [child])]
    else
      pcbs
  }

  // Add a PCB under a pid that is not in use; a pid in use keeps its PCB.
  function Insert(pcbs: PcbMap, x: PCB): PcbMap {
    if x.pid in pcbs then pcbs else pcbs[x.pid := x]
  }

  function CreateProc(ps: Proc, owner: Text, name: Text, memKB: uint32, memStart: uint32, priority: int32,
    totalTime: uint32, ppid: Option<uint32>): Option<Proc>
  {
    var parent := if ppid.Some? then ppid.value else 0;
    if owner == [] || name == [] || memKB == 0 || !(0 <= priority <= 15) || totalTime == 0 then None
    else if parent != 0 && !Owned(ps.pcbs, owner, parent) then None
    else
      var x := FreshPcb(ps, owner, name, memKB, memStart, priority, totalTime, parent);
      var table := if parent != 0 then Adopt(Insert(ps.pcbs, x), parent, x.pid) else Insert(ps.pcbs, x);
      Some(Proc(table, Requeued(table, ps.queues, x.pid), Add32(ps.nextPid, 1)))
  }

  lemma CreateForest(pcbs: PcbMap, x: PCB)
    requires ForestOk(pcbs) && (forall p :: p in pcbs ==> p < x.pid) && 0 !in pcbs && x.pid > 0 && x.children == []
    requires x.ppid != 0 ==> Owned(pcbs, x.owner, x.ppid)
    ensures ForestOk(if x.ppid != 0 then Adopt(pcbs[x.pid := x], x.ppid, x.pid) else pcbs[x.pid := x])
  {
    var after := if x.ppid != 0 then Adopt(pcbs[x.pid := x], x.ppid, x.pid) else pcbs[x.pid := x];
    forall p | p in after ensures ParentOk(after, p) && ChildrenOk(after, p) {
      if p != x.pid {
        assert ParentOk(pcbs, p) && ChildrenOk(pcbs, p);
        if p == x.ppid {
          AscendingSnoc(pcbs[p].children, x.pid);
        }
      }
      forall c ensures c in after[p].children <==> c in after && after[c].ppid == p {
        if c in pcbs {
          assert ParentOk(pcbs, c);
        }
      }
    }
  }

  lemma CreateQueues(ps: Proc, x: PCB, after: PcbMap)
    requires QueuesOk(ps.pcbs, ps.queues) && 0 <= x.queueLevel <= 2 && x.state.READY?
    requires after.Keys == ps.pcbs.Keys + {x.pid}
    requires forall p :: p in after ==>
      after[p] == (if p == x.pid then x else ps.pcbs[p]).(children := after[p].children)
    ensures QueuesOk(after, Enqueued(ps.queues, x.queueLevel, x.pid))
  {
    PlaceQueues(ps, x);
    assert Place(ps, x).queues == Enqueued(ps.queues, x.queueLevel, x.pid);
    assert forall p, l :: ReadyAt(after, p, l) <==> ReadyAt(Place(ps, x).pcbs, p, l);
  }

  lemma CreatePcbs(ps: Proc, x: PCB, after: PcbMap)
    requires PcbsOk(ps.pcbs) && PcbOk(x) && after.Keys == ps.pcbs.Keys + {x.pid}
    requires forall p :: p in after ==>
      after[p] == (if p == x.pid then x else ps.pcbs[p]).(children := after[p].children)
    ensures PcbsOk(after)
  {
  }

  // A creation adds one PCB; of the others it changes at most a children list.
  ghost predicate Adds(ps: Proc, x: PCB, after: Proc) {
    && after.pcbs.Keys == ps.pcbs.Keys + {x.pid}
    && (forall p :: p in after.pcbs ==>
        after.pcbs[p] == (if p == x.pid then x else ps.pcbs[p]).(children := after.pcbs[p].children))
    && after.queues == Enqueued(ps.queues, x.queueLevel, x.pid)
    && after.nextPid == Add32(ps.nextPid, 1)
  }

  lemma CreateAdds(ps: Proc, owner: Text, name: Text, memKB: uint32, memStart: uint32, priority: int32,
    totalTime: uint32, ppid: Option<uint32>)
    requires ProcOk(ps)
    ensures var parent := if ppid.Some? then ppid.value else 0;
      var x := FreshPcb(ps, owner, name, memKB, memStart, priority, totalTime, parent);
      match CreateProc(ps, owner, name, memKB, memStart, priority, totalTime, ppid)
      case None => true
      case Some(after) => PcbOk(x) && Adds(ps, x, after) && ForestOk(after.pcbs)
  {
    var r := CreateProc(ps, owner, name, memKB, memStart, priority, totalTime, ppid);
    if r.Some? {
      CreateForest(ps.pcbs,
        FreshPcb(ps, owner, name, memKB, memStart, priority, totalTime, if ppid.Some? then ppid.value else 0));
    }
  }

  // Creation keeps the invariant, save that the counter of pids may wrap.
  lemma CreateOk(ps: Proc, owner: Text, name: Text, memKB: uint32, memStart: uint32, priority: int32,
    totalTime: uint32, ppid: Option<uint32>)
    requires ProcOk(ps)
    ensures var r := CreateProc(ps, owner, name, memKB, memStart, priority, totalTime, ppid);
      r.Some? ==>
        && PcbTableOk(r.value)
        && (NextPidOk(r.value.pcbs, r.value.nextPid) <==> ps.nextPid + 1 < 0x1_0000_0000)
  {
    CreateAdds(ps, owner, name, memKB, memStart, priority, totalTime, ppid);
    var r := CreateProc(ps, owner, name, memKB, memStart, priority, totalTime, ppid);
    if r.Some? {
      var x := FreshPcb(ps, owner, name, memKB, memStart, priority, totalTime, if ppid.Some? then ppid.value else 0);
      CreateQueues(ps, x, r.value.pcbs);
      CreatePcbs(ps, x, r.value.pcbs);
    }
  }

  // ----- removal -----

  function Remove(ps: Proc, dead: set<uint32>): Proc {
    Proc(
      map p | p in ps.pcbs && p !in dead :: ps.pcbs[p].(children := Without(ps.pcbs[p].children, dead)),
      Dequeued(ps.queues, dead),
      ps.nextPid)
  }

  // After a removal nothing mentions a removed pid, whatever the table was.
  lemma RemoveLeavesNoTrace(ps: Proc, dead: set<uint32>)
    ensures var r := Remove(ps, dead);
      && r.pcbs.Keys == ps.pcbs.Keys - dead
      && (forall p :: p in r.queues[0] || p in r.queues[1] || p in r.queues[2] ==> p !in dead)
      && (forall p, c :: p in r.pcbs && c in r.pcbs[p].children ==> c !in dead)
  {
    WithoutMembers(ps.queues[0], dead);
    WithoutMembers(ps.queues[1], dead);
    WithoutMembers(ps.queues[2], dead);
    forall p | p in ps.pcbs ensures forall c :: c in Without(ps.pcbs[p].children, dead) ==> c !in dead {
      WithoutMembers(ps.pcbs[p].children, dead);
    }
  }

  // The set contains the children of its members.
  ghost predicate Closed(pcbs: PcbMap, dead: set<uint32>) {
    forall p :: p in pcbs && pcbs[p].ppid in dead ==> p in dead
  }

  lemma RemoveForest(ps: Proc, dead: set<uint32>)
    requires ForestOk(ps.pcbs) && Closed(ps.pcbs, dead)
    ensures ForestOk(Remove(ps, dead).pcbs)
  {
    var r := Remove(ps, dead).pcbs;
    forall p | p in r ensures ParentOk(r, p) && ChildrenOk(r, p) {
      assert ParentOk(ps.pcbs, p) && ChildrenOk(ps.pcbs, p);
      WithoutMembers(ps.pcbs[p].children, dead);
      WithoutAscending(ps.pcbs[p].children, dead);
    }
  }

  lemma RemoveOk(ps: Proc, dead: set<uint32>)
    requires ProcOk(ps) && Closed(ps.pcbs, dead)
    ensures ProcOk(Remove(ps, dead))
  {
    RemoveForest(ps, dead);
    QueueWithout(ps.pcbs, ps.queues[0], 0, dead, Remove(ps, dead).pcbs);
    QueueWithout(ps.pcbs, ps.queues[1], 1, dead, Remove(ps, dead).pcbs);
    QueueWithout(ps.pcbs, ps.queues[2], 2, dead, Remove(ps, dead).pcbs);
  }

  // ----- new memory addresses -----

  function Relocate(ps: Proc, starts: map<uint32, uint32>): Proc {
    ps.(pcbs := map p | p in ps.pcbs :: if p in starts then ps.pcbs[p].(memStart := starts[p]) else ps.pcbs[p])
  }

  lemma RelocateOk(ps: Proc, starts: map<uint32, uint32>)
    requires ProcOk(ps)
    ensures ProcOk(Relocate(ps, starts))
  {
    var r := Relocate(ps, starts).pcbs;
    SameForest(ps.pcbs, r);
    assert forall p, l :: ReadyAt(r, p, l) <==> ReadyAt(ps.pcbs, p, l);
  }
}
