// What create_pcb, kill_pcb, swap_out and a scheduler step do to processes and memory together, in figures and field
// by field, without the functions that carry them out.

module SystemBehaviour {
  import opened Types
  import opened Allocation
  import opened ProcessTable
  import opened Subtrees
  import opened Scheduling
  import opened Coherence
  import opened Transactions
  import opened Users
  import opened KernelState
  import opened Behaviour

  // k with its processes and its memory changed.
  ghost predicate OnlySystemChanges(k: KState, after: KState) {
    after == k.(sys := after.sys)
  }

  lemma SystemCommandOnly(k: KState, u: Text, e: Event)
    requires k.session == Some(u) && IsSystemCommand(e)
    ensures Apply(k, e) == SystemCommand(k, u, e)
  {
  }

  // ----- create_pcb -----

  // A parent gets one more child, at the end.
  function WithChild(pcbs: PcbMap, parent: uint32, child: uint32): PcbMap {
    if parent in pcbs then pcbs[parent := pcbs[parent].(children := pcbs[parent].children + [child])] else pcbs
  }

  // One READY process more, with exactly what was asked for, last in the queue of its priority and last child of its
  // parent, and its memory where the policy says.
  ghost predicate CreatedAt(before: Sys, after: Sys, u: Text, name: Text, memKB: uint32, priority: int32,
    totalTime: uint32, parent: uint32, start: uint32)
  {
    var pid := before.proc.nextPid;
    var level := LevelFor(priority);
    && after.proc.pcbs == WithChild(before.proc.pcbs, parent, pid)[pid := PCB(
        pid, parent, name, u, READY, priority, level, totalTime, 0, totalTime, SliceOf(level), start, memKB, false, [])]
    && (forall l :: 0 <= l < 3 ==>
        after.proc.queues[l] == before.proc.queues[l] + if l == level then [pid] else [])
    && after.proc.nextPid == (if pid == 4294967295 then 0 else pid + 1)
    && ChosenStart(before.mem, memKB, start)
    && BlockAdded(before.mem, after.mem, Block(start, memKB, PROCESS, pid, u, name))
  }

  ghost predicate Created(before: Sys, after: Sys, u: Text, name: Text, memKB: uint32, priority: int32,
    totalTime: uint32, parent: uint32)
  {
    exists start :: CreatedAt(before, after, u, name, memKB, priority, totalTime, parent, start)
  }

  predicate InRange(name: Text, memKB: uint32, priority: int32, totalTime: uint32) {
    name != [] && memKB > 0 && totalTime > 0 && 0 <= priority <= 15
  }

  predicate AdmissibleParent(pcbs: PcbMap, u: Text, parent: uint32) {
    parent == 0 || (parent in pcbs && pcbs[parent].owner == u)
  }

  lemma CreateQueuesGrow(ps: Proc, level: int32, pid: uint32)
    requires ProcOk(ps) && pid == ps.nextPid
    ensures forall l :: 0 <= l < 3 ==>
      Enqueued(ps.queues, level, pid)[l] == ps.queues[l] + if l == level then [pid] else []
  {
    QueuedIsReady(ps, pid);
    DequeuedNone(ps.queues, {pid});
  }

  lemma CreateProcIs(ps: Proc, u: Text, name: Text, memKB: uint32, start: uint32, priority: int32, totalTime: uint32,
    ppid: Option<uint32>)
    requires ProcOk(ps) && u != []
    ensures var parent := if ppid.Some? then ppid.value else 0;
      var r := CreateProc(ps, u, name, memKB, start, priority, totalTime, ppid);
      var level := LevelFor(priority);
      && (r.Some? <==> InRange(name, memKB, priority, totalTime) && AdmissibleParent(ps.pcbs, u, parent))
      && (r.Some? ==>
          && r.value.pcbs == WithChild(ps.pcbs, parent, ps.nextPid)[ps.nextPid := PCB(
              ps.nextPid, parent, name, u, READY, priority, level, totalTime, 0, totalTime, SliceOf(level), start,
              memKB, false, [])]
          && r.value.nextPid == (if ps.nextPid == 4294967295 then 0 else ps.nextPid + 1)
          && forall l :: 0 <= l < 3 ==>
            r.value.queues[l] == ps.queues[l] + if l == level then [ps.nextPid] else [])
  {
    CreateQueuesGrow(ps, LevelFor(priority), ps.nextPid);
    assert ps.nextPid !in ps.pcbs && 0 !in ps.pcbs;
  }

  // create_pcb is refused exactly if an argument is out of range, no FREE block is large enough, or the parent is not
  // the user's; then nothing changes. Otherwise it creates what was asked for and changes nothing else.
  lemma CreateIs(k: KState, u: Text, name: Text, memKB: uint32, priority: int32, totalTime: uint32,
    ppid: Option<uint32>)
    requires KernelOk(k) && k.session == Some(u)
    ensures var parent := if ppid.Some? then ppid.value else 0;
      var (after, ok) := Apply(k, CreatePcb(name, memKB, priority, totalTime, ppid));
      && (ok <==> (
          && InRange(name, memKB, priority, totalTime)
          && SomeFit(k.sys.mem, memKB)
          && AdmissibleParent(k.sys.proc.pcbs, u, parent)))
      && OnlySystemChanges(k, after)
      && (!ok ==> after == k)
      && (ok ==> Created(k.sys, after.sys, u, name, memKB, priority, totalTime, parent))
  {
    assert AccountOk(k.users[u]);
    SystemCommandOnly(k, u, CreatePcb(name, memKB, priority, totalTime, ppid));
    CreateSysIs(k.sys, u, name, memKB, priority, totalTime, ppid);
  }

  lemma CreateSysIs(s: Sys, u: Text, name: Text, memKB: uint32, priority: int32, totalTime: uint32,
    ppid: Option<uint32>)
    requires SysOk(s) && u != []
    ensures var parent := if ppid.Some? then ppid.value else 0;
      var (after, ok) := CreatePcbOn(s, u, name, memKB, priority, totalTime, ppid);
      && (ok <==> (
          && InRange(name, memKB, priority, totalTime)
          && SomeFit(s.mem, memKB)
          && AdmissibleParent(s.proc.pcbs, u, parent)))
      && (!ok ==> after == s)
      && (ok ==> Created(s, after, u, name, memKB, priority, totalTime, parent))
  {
    CreatePcbOnOk(s, u, name, memKB, priority, totalTime, ppid);
    AllocationIs(s.mem, u, s.proc.nextPid, name, memKB, PROCESS);
    var r := AllocateMem(s.mem, u, s.proc.nextPid, name, memKB, PROCESS);
    if r.Some? {
      CreateProcIs(s.proc, u, name, memKB, r.value.1, priority, totalTime, ppid);
      var (after, ok) := CreatePcbOn(s, u, name, memKB, priority, totalTime, ppid);
      if ok {
        var parent := if ppid.Some? then ppid.value else 0;
        assert CreatedAt(s, after, u, name, memKB, priority, totalTime, parent, r.value.1);
      }
    }
  }

  // ----- kill_pcb -----

  // The root and everything whose parent is in the family. On a forest there is only one such set.
  ghost predicate IsFamily(pcbs: PcbMap, root: uint32, dead: set<uint32>) {
    && root in dead && dead <= pcbs.Keys
    && forall p :: p in pcbs && p != root ==> (p in dead <==> pcbs[p].ppid in dead)
  }

  lemma {:induction false} FamilyUnique(ps: Proc, root: uint32, a: set<uint32>, b: set<uint32>, p: uint32)
    requires ProcOk(ps) && IsFamily(ps.pcbs, root, a) && IsFamily(ps.pcbs, root, b) && p in ps.pcbs
    ensures p in a <==> p in b
    decreases p
  {
    assert ParentOk(ps.pcbs, p);
    if p != root && ps.pcbs[p].ppid != 0 {
      FamilyUnique(ps, root, a, b, ps.pcbs[p].ppid);
    }
  }

  lemma SubtreeIsFamily(ps: Proc, u: Text, root: uint32)
    requires ProcOk(ps) && Owned(ps.pcbs, u, root)
    ensures IsFamily(ps.pcbs, root, Subtree(ps.pcbs, u, root))
  {
    var dead := Subtree(ps.pcbs, u, root);
    SubtreeOwned(ps.pcbs, u, root);
    SubtreeClosed(ps, u, root);
    forall p | p in ps.pcbs && p != root && p in dead ensures ps.pcbs[p].ppid in dead {
      ParentOfReached(ps, u, root, p);
    }
  }

  lemma ParentOfReached(ps: Proc, u: Text, root: uint32, p: uint32)
    requires ProcOk(ps) && p != root && Reach(ps.pcbs, u, root, p)
    ensures p in ps.pcbs && ps.pcbs[p].ppid in Subtree(ps.pcbs, u, root)
  {
    var path :| Connects(ps.pcbs, u, path, root, p);
    var n := |path| - 1;
    assert StepAt(ps.pcbs, path, n);
    assert ChildrenOk(ps.pcbs, path[n - 1]);
    var front := path[..n];
    forall i | 0 < i < |front| ensures StepAt(ps.pcbs, front, i) {
      assert StepAt(ps.pcbs, path, i);
    }
    assert Connects(ps.pcbs, u, front, root, path[n - 1]);
  }

  // A family is gone from the table, from every children list and from the queues, and its blocks are free.
  ghost predicate FamilyGone(before: Sys, after: Sys, root: uint32) {
    var dead := before.proc.pcbs.Keys - after.proc.pcbs.Keys;
    && after.proc.pcbs.Keys <= before.proc.pcbs.Keys
    && IsFamily(before.proc.pcbs, root, dead)
    && (forall p :: p in after.proc.pcbs ==>
        after.proc.pcbs[p] == before.proc.pcbs[p].(children := Minus(before.proc.pcbs[p].children, dead)))
    && (forall l :: 0 <= l < 3 ==> after.proc.queues[l] == Minus(before.proc.queues[l], dead))
    && after.proc.nextPid == before.proc.nextPid
    && BlocksGone(before.mem, after.mem, set b | b in before.mem.blocks && b.kind == PROCESS && b.pid in dead)
  }

  lemma RemovalIs(s: Sys, u: Text, root: uint32)
    requires SysOk(s) && Owned(s.proc.pcbs, u, root)
    ensures FamilyGone(s, RemoveSys(s, u, Subtree(s.proc.pcbs, u, root)), root)
  {
    var dead := Subtree(s.proc.pcbs, u, root);
    var after := RemoveSys(s, u, dead);
    SubtreeIsFamily(s.proc, u, root);
    SubtreeOwned(s.proc.pcbs, u, root);
    assert s.proc.pcbs.Keys - after.proc.pcbs.Keys == dead;
    MinusAre(s.proc.queues, dead);
    forall p | p in after.proc.pcbs
      ensures after.proc.pcbs[p] == s.proc.pcbs[p].(children := Minus(s.proc.pcbs[p].children, dead))
    {
      MinusIs(s.proc.pcbs[p].children, dead);
    }
    FreedWithFamily(s, u, dead);
  }

  lemma FreedWithFamily(s: Sys, u: Text, dead: set<uint32>)
    requires SysOk(s) && forall p :: p in dead ==> Owned(s.proc.pcbs, u, p)
    ensures BlocksGone(s.mem, FreeOwned(s.mem, u, dead),
      set b | b in s.mem.blocks && b.kind == PROCESS && b.pid in dead)
  {
    var gone := BlocksOf(s.mem.blocks, u, dead);
    ReleaseTable(s.mem.blocks, s.mem.total, gone);
    forall b | b in s.mem.blocks && b.kind == PROCESS && b.pid in dead ensures b in gone {
      assert HasPcb(s.proc.pcbs, b);
    }
  }

  // kill_pcb succeeds exactly for a process of the user's; the process and its descendants are gone, and nothing else
  // changes.
  lemma KillIs(k: KState, u: Text, pid: uint32)
    requires KernelOk(k) && k.session == Some(u)
    ensures var (after, ok) := Apply(k, KillPcb(pid));
      && (ok <==> pid in k.sys.proc.pcbs && k.sys.proc.pcbs[pid].owner == u)
      && OnlySystemChanges(k, after)
      && (!ok ==> after == k)
      && (ok ==> FamilyGone(k.sys, after.sys, pid))
  {
    SystemCommandOnly(k, u, KillPcb(pid));
    KillPcbOnOk(k.sys, u, pid);
    if Owned(k.sys.proc.pcbs, u, pid) {
      RemovalIs(k.sys, u, pid);
    }
  }

  // ----- swap_out -----

  // The process is marked and off the queues, and its block is free.
  ghost predicate SwappedOut(before: Sys, after: Sys, pid: uint32)
    requires pid in before.proc.pcbs
  {
    var x := before.proc.pcbs[pid];
    && OnePcbChanges(before.proc, after.proc, pid, x.(state := SWAPPED, swappedOut := true, memStart := 0))
    && QueuesBecome(before.proc.queues, after.proc.queues, pid, -1)
    && BlocksGone(before.mem, after.mem, {Block(x.memStart, x.memSize, PROCESS, pid, x.owner, x.name)})
  }

  // swap_out succeeds exactly for a process of the user's that is not swapped out, and changes nothing else.
  lemma SwapIs(k: KState, u: Text, pid: uint32)
    requires KernelOk(k) && k.session == Some(u)
    ensures var (after, ok) := Apply(k, SwapOut(pid));
      var pcbs := k.sys.proc.pcbs;
      && (ok <==> pid in pcbs && pcbs[pid].owner == u && pcbs[pid].state != SWAPPED)
      && OnlySystemChanges(k, after)
      && (!ok ==> after == k)
      && (ok ==> SwappedOut(k.sys, after.sys, pid))
  {
    SystemCommandOnly(k, u, SwapOut(pid));
    SwapOutOnOk(k.sys, u, pid);
    SwapSysIs(k.sys, u, pid);
  }

  lemma SwapSysIs(s: Sys, u: Text, pid: uint32)
    requires SysOk(s)
    ensures SwapSys(s, u, pid).Some? <==> Owned(s.proc.pcbs, u, pid) && s.proc.pcbs[pid].state != SWAPPED
    ensures SwapSys(s, u, pid).Some? ==> SwappedOut(s, SwapSys(s, u, pid).value, pid)
  {
    if SwapSys(s, u, pid).Some? {
      PlaceBecomes(s.proc, s.proc.pcbs[pid].(state := SWAPPED, swappedOut := true, memStart := 0));
      BlocksOfOne(s, u, pid);
      ReleaseTable(s.mem.blocks, s.mem.total, BlocksOf(s.mem.blocks, u, {pid}));
    }
  }

  // ----- the scheduler step -----

  ghost predicate NoneOf(pcbs: PcbMap, queue: seq<uint32>, u: Text) {
    forall p :: p in queue && p in pcbs ==> pcbs[p].owner != u
  }

  // The user's process that has waited longest in the lowest level where one of the user's waits.
  ghost predicate NextUp(ps: Proc, u: Text, p: uint32) {
    exists l, i :: 0 <= l < 3 && 0 <= i < |ps.queues[l]| && InFront(ps, u, l, i) && ps.queues[l][i] == p
  }

  ghost predicate InFront(ps: Proc, u: Text, l: int, i: int)
    requires 0 <= l < 3 && 0 <= i < |ps.queues[l]|
  {
    && Owned(ps.pcbs, u, ps.queues[l][i])
    && NoneOf(ps.pcbs, ps.queues[l][..i], u)
    && forall m :: 0 <= m < l ==> NoneOf(ps.pcbs, ps.queues[m], u)
  }

  // It has run for its whole quantum and waits behind everybody of the next level, with a new quantum. Of its record
  // nothing else has changed, and of anything else nothing at all.
  ghost predicate RanAndMoved(before: Sys, after: Sys, p: uint32)
    requires p in before.proc.pcbs && p in after.proc.pcbs
  {
    var x, y := before.proc.pcbs[p], after.proc.pcbs[p];
    var level := if x.queueLevel < 2 then x.queueLevel + 1 else 2;
    && y == x.(executedTime := y.executedTime, remainingTime := y.remainingTime, queueLevel := level,
               timeSliceLeft := SliceOf(level))
    && y.executedTime == x.executedTime + SliceOf(x.queueLevel)
    && y.remainingTime == x.remainingTime - SliceOf(x.queueLevel)
    && OnePcbChanges(before.proc, after.proc, p, y)
    && QueuesBecome(before.proc.queues, after.proc.queues, p, level)
    && after.mem == before.mem
  }

  ghost predicate Stepped(before: Sys, after: Sys, u: Text) {
    && ((forall p :: p in before.proc.pcbs && before.proc.pcbs[p].owner == u ==> before.proc.pcbs[p].state != READY) ==>
        after == before)
    && (forall p :: p in before.proc.pcbs && before.proc.pcbs[p].owner == u && before.proc.pcbs[p].state == READY ==>
        exists q :: NextUp(before.proc, u, q))
    && forall p :: NextUp(before.proc, u, p) ==>
      && p in before.proc.pcbs
      && var x := before.proc.pcbs[p];
        if x.remainingTime > SliceOf(x.queueLevel) then p in after.proc.pcbs && RanAndMoved(before, after, p)
        else FamilyGone(before, after, p)
  }

  lemma FirstInFront(pcbs: PcbMap, queue: seq<uint32>, u: Text, i: nat)
    requires i < |queue| && Owned(pcbs, u, queue[i]) && NoneOf(pcbs, queue[..i], u)
    ensures FirstOf(pcbs, queue, u) == Some(queue[i])
    decreases i
  {
    if i > 0 {
      assert queue[0] in queue[..i];
      forall p | p in queue[1..][..i - 1] ensures p in queue[..i] {
        var j :| 0 <= j < i - 1 && queue[1..][j] == p;
        assert queue[..i][j + 1] == p;
      }
      FirstInFront(pcbs, queue[1..], u, i - 1);
    }
  }

  lemma NoneIsNone(pcbs: PcbMap, queue: seq<uint32>, u: Text)
    ensures FirstOf(pcbs, queue, u).None? <==> NoneOf(pcbs, queue, u)
  {
  }

  lemma NextUpIsSelected(ps: Proc, u: Text, p: uint32)
    requires NextUp(ps, u, p)
    ensures Select(ps, u) == Some(p)
  {
    var l, i :| 0 <= l < 3 && 0 <= i < |ps.queues[l]| && InFront(ps, u, l, i) && ps.queues[l][i] == p;
    FirstInFront(ps.pcbs, ps.queues[l], u, i);
    NoneIsNone(ps.pcbs, ps.queues[0], u);
    NoneIsNone(ps.pcbs, ps.queues[1], u);
  }

  lemma SelectedIsNextUp(ps: Proc, u: Text)
    requires Select(ps, u).Some?
    ensures NextUp(ps, u, Select(ps, u).value)
  {
    var p := Select(ps, u).value;
    var l :=
      if FirstOf(ps.pcbs, ps.queues[0], u).Some? then 0
      else if FirstOf(ps.pcbs, ps.queues[1], u).Some? then 1
      else 2;
    assert Longest(ps.pcbs, ps.queues[l], u, p);
    var i :| 0 <= i < |ps.queues[l]| && ps.queues[l][i] == p &&
      forall j :: 0 <= j < i ==> !Owned(ps.pcbs, u, ps.queues[l][j]);
    NoneIsNone(ps.pcbs, ps.queues[0], u);
    NoneIsNone(ps.pcbs, ps.queues[1], u);
    assert InFront(ps, u, l, i);
  }

  lemma StepSysIs(s: Sys, u: Text)
    requires SysOk(s)
    ensures Stepped(s, StepSys(s, u), u)
  {
    SelectCorrect(s.proc, u);
    var r := Select(s.proc, u);
    if r.Some? {
      SelectedIsNextUp(s.proc, u);
      SelectedSteps(s, u, r.value);
    } else {
      ReleaseNothing(s.mem.blocks, s.mem.total, BlocksOf(s.mem.blocks, u, {}));
      forall p | p in s.proc.pcbs && s.proc.pcbs[p].owner == u ensures s.proc.pcbs[p].state != READY {
        assert !ReadyOf(s.proc.pcbs, u, p);
      }
    }
    forall p: uint32 | NextUp(s.proc, u, p) ensures r == Some(p) {
      NextUpIsSelected(s.proc, u, p);
    }
  }

  lemma SelectedSteps(s: Sys, u: Text, p: uint32)
    requires SysOk(s) && Select(s.proc, u) == Some(p) && ReadyOf(s.proc.pcbs, u, p)
    ensures var x, after := s.proc.pcbs[p], StepSys(s, u);
      if x.remainingTime > SliceOf(x.queueLevel) then p in after.proc.pcbs && RanAndMoved(s, after, p)
      else FamilyGone(s, after, p)
  {
    var x := s.proc.pcbs[p];
    if x.remainingTime > SliceOf(x.queueLevel) {
      ReleaseNothing(s.mem.blocks, s.mem.total, BlocksOf(s.mem.blocks, u, {}));
      PlaceBecomes(s.proc, Demoted(x));
    } else {
      RemovalIs(s, u, p);
    }
  }

  // A step of a logged-in user; and a turn of the scheduler thread, which does nothing while the scheduler is stopped.
  lemma StepIs(k: KState, u: Text)
    requires KernelOk(k) && k.session == Some(u)
    ensures var (after, ok) := Apply(k, Step);
      ok && OnlySystemChanges(k, after) && Stepped(k.sys, after.sys, u)
  {
    SystemCommandOnly(k, u, Step);
    StepOnOk(k.sys, u);
    StepSysIs(k.sys, u);
  }

  lemma TurnIs(k: KState)
    requires KernelOk(k)
    ensures var after := Apply(k, AutoStep).0;
      if k.schedulerRunning then OnlySystemChanges(k, after) && Stepped(k.sys, after.sys, k.schedulerOwner)
      else after == k
  {
    TurnCommandIs(k);
    if k.schedulerRunning {
      assert AccountOk(k.users[k.schedulerOwner]);
      StepOnOk(k.sys, k.schedulerOwner);
      StepSysIs(k.sys, k.schedulerOwner);
    }
  }

  lemma TurnCommandIs(k: KState)
    ensures Apply(k, AutoStep).0 ==
      if k.schedulerRunning && k.schedulerOwner != [] then k.(sys := StepOn(k.sys, k.schedulerOwner)) else k
  {
  }
}
