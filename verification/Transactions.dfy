// What the commands that touch both managers, and the scheduler step, do to any pair of tables, and what that comes
// to on well-formed ones.

module Transactions {
  import opened Types
  import opened BlockTable
  import opened Allocation
  import opened ProcessTable
  import opened Subtrees
  import opened Scheduling
  import opened Coherence

  // A refusal that changes nothing, or the state meant.
  ghost function Answered(s: Sys, r: Option<Sys>): (Sys, bool) {
    match r
    case None => (s, false)
    case Some(after) => (after, true)
  }

  // ----- create_pcb -----

  // Memory first, then the PCB; a refused PCB gives the first block of the expected pid back.
  function CreatePcbOn(s: Sys, owner: Text, name: Text, memKB: uint32, priority: int32, totalTime: uint32,
    ppid: Option<uint32>): (Sys, bool)
  {
    if name == [] || memKB == 0 || totalTime == 0 || priority < 0 || priority > 15 then (s, false)
    else
      match AllocateMem(s.mem, owner, s.proc.nextPid, name, memKB, PROCESS)
      case None => (s, false)
      case Some((m, start)) =>
        match CreateProc(s.proc, owner, name, memKB, start, priority, totalTime, ppid)
        case None => (s.(mem := m.(blocks := FreeFirst(m.blocks, owner, s.proc.nextPid))), false)
        case Some(p) => (Sys(p, m), true)
  }

  lemma CoherentMeansOneBlock(s: Sys)
    requires SysOk(s)
    ensures UniquePids(s.mem.blocks)
  {
    assert forall b :: b in s.mem.blocks ==> HasPcb(s.proc.pcbs, b);
  }

  // A block of a new pid is the only one of that pid.
  lemma OneMoreBlock(s: Sys, bs: seq<Block>, placed: Block)
    requires SysOk(s) && placed.kind.PROCESS? && placed.pid == s.proc.nextPid
    requires forall x :: Allocated(bs, x) <==> Allocated(s.mem.blocks, x) || x == placed
    ensures UniquePids(bs) && BlocksOf(bs, placed.owner, {placed.pid}) == {placed}
  {
    CoherentMeansOneBlock(s);
    assert Allocated(bs, placed);
    forall x | x in bs && x.kind.PROCESS? ensures x == placed || (x in s.mem.blocks && x.pid != placed.pid) {
      assert Allocated(bs, x);
      assert x in s.mem.blocks ==> HasPcb(s.proc.pcbs, x);
    }
  }

  // Freeing the first block of the expected pid after the allocation restores the very same table.
  lemma RollbackRestores(s: Sys, owner: Text, name: Text, memKB: uint32)
    requires SysOk(s) && AllocateMem(s.mem, owner, s.proc.nextPid, name, memKB, PROCESS).Some?
    ensures var (m, start) := AllocateMem(s.mem, owner, s.proc.nextPid, name, memKB, PROCESS).value;
      m.(blocks := FreeFirst(m.blocks, owner, s.proc.nextPid)) == s.mem
  {
    AllocateAdds(s.mem, owner, s.proc.nextPid, name, memKB, PROCESS);
    ReleaseUndoesAllocate(s.mem, owner, s.proc.nextPid, name, memKB, PROCESS);
    var (m, start) := AllocateMem(s.mem, owner, s.proc.nextPid, name, memKB, PROCESS).value;
    OneMoreBlock(s, m.blocks, Block(start, memKB, PROCESS, s.proc.nextPid, owner, name));
    FreeFirstIsRelease(m.blocks, m.total, owner, s.proc.nextPid);
  }

  // On a well-formed state a refused creation leaves no trace at all.
  lemma CreatePcbOnOk(s: Sys, owner: Text, name: Text, memKB: uint32, priority: int32, totalTime: uint32,
    ppid: Option<uint32>)
    requires SysOk(s)
    ensures CreatePcbOn(s, owner, name, memKB, priority, totalTime, ppid) ==
      Answered(s, CreateSys(s, owner, name, memKB, priority, totalTime, ppid))
  {
    if AllocateMem(s.mem, owner, s.proc.nextPid, name, memKB, PROCESS).Some? {
      RollbackRestores(s, owner, name, memKB);
    }
  }

  // ----- kill_pcb -----

  // The subtree goes, and then the first process block of each pid in it, in the order of the walk.
  ghost function KillPcbOn(s: Sys, owner: Text, pid: uint32): (Sys, bool) {
    if !Owned(s.proc.pcbs, owner, pid) then (s, false)
    else
      var freed := FreeEach(s.mem.blocks, owner, Walk(s.proc.pcbs, owner, [pid], {}));
      (Sys(Remove(s.proc, Subtree(s.proc.pcbs, owner, pid)), s.mem.(blocks := freed)), true)
  }

  lemma KillPcbOnOk(s: Sys, owner: Text, pid: uint32)
    requires SysOk(s)
    ensures KillPcbOn(s, owner, pid) == Answered(s, KillSys(s, owner, pid))
  {
    if Owned(s.proc.pcbs, owner, pid) {
      CoherentMeansOneBlock(s);
      WalkIsSubtree(s.proc.pcbs, owner, pid);
      FreeEachIsRelease(s.mem.blocks, s.mem.total, owner, Walk(s.proc.pcbs, owner, [pid], {}),
                        Subtree(s.proc.pcbs, owner, pid));
    }
  }

  // ----- swap_out -----

  function SwapOutOn(s: Sys, owner: Text, pid: uint32): (Sys, bool) {
    if !Owned(s.proc.pcbs, owner, pid) || s.proc.pcbs[pid].swappedOut then (s, false)
    else if FirstOfPid(s.mem.blocks, owner, pid).None? then (s, false)
    else
      var m := s.mem.(blocks := FreeFirst(s.mem.blocks, owner, pid));
      match SwapProc(s.proc, owner, pid)
      case None => (s.(mem := m), false)
      case Some(p) => (Sys(p, m), true)
  }

  // On a well-formed state both managers change or neither.
  lemma SwapOutOnOk(s: Sys, owner: Text, pid: uint32)
    requires SysOk(s)
    ensures SwapOutOn(s, owner, pid) == Answered(s, SwapSys(s, owner, pid))
  {
    CoherentMeansOneBlock(s);
    BlocksOfOne(s, owner, pid);
    FreeFirstIsRelease(s.mem.blocks, s.mem.total, owner, pid);
  }

  // ----- the scheduler step -----

  // Clean the queues, pick, and let the process run for its quantum or to its end: it is requeued a level down, or
  // killed with its subtree.
  ghost function StepOn(s: Sys, owner: Text): Sys {
    var (queues, picked) := Pick(s.proc.pcbs, Cleaned(s.proc.pcbs, s.proc.queues), owner);
    var rest := s.(proc := s.proc.(queues := queues));
    match picked
    case None => rest
    case Some(p) =>
      if p !in s.proc.pcbs then rest
      else
        var x := s.proc.pcbs[p];
        if x.remainingTime <= Quantum(x.queueLevel) then KillPcbOn(rest, owner, p).0
        else rest.(proc := Place(rest.proc, Demoted(x)))
  }

  lemma NothingToClean(ps: Proc)
    requires ProcOk(ps)
    ensures Cleaned(ps.pcbs, ps.queues) == ps.queues
  {
    forall p | p in ps.queues[0] || p in ps.queues[1] || p in ps.queues[2] ensures Runnable(ps.pcbs, p) {
      QueuedIsReady(ps, p);
    }
    CleanQueueStays(ps.pcbs, ps.queues[0]);
    CleanQueueStays(ps.pcbs, ps.queues[1]);
    CleanQueueStays(ps.pcbs, ps.queues[2]);
  }

  lemma StepOnOk(s: Sys, owner: Text)
    requires SysOk(s)
    ensures StepOn(s, owner) == StepSys(s, owner)
  {
    NothingToClean(s.proc);
    PickIsSelect(s.proc, owner);
    SelectCorrect(s.proc, owner);
    var r := Select(s.proc, owner);
    if r.Some? {
      StepOfOne(s, owner, r.value);
    } else {
      ReleaseNothing(s.mem.blocks, s.mem.total, BlocksOf(s.mem.blocks, owner, {}));
    }
  }

  // The one picked is off the queues when it is requeued or killed; that makes no difference.
  lemma StepOfOne(s: Sys, owner: Text, p: uint32)
    requires SysOk(s) && Select(s.proc, owner) == Some(p) && ReadyOf(s.proc.pcbs, owner, p)
    ensures var rest := s.(proc := s.proc.(queues := Dequeued(s.proc.queues, {p})));
      var x := s.proc.pcbs[p];
      StepSys(s, owner) ==
        if x.remainingTime <= Quantum(x.queueLevel) then KillPcbOn(rest, owner, p).0
        else rest.(proc := Place(rest.proc, Demoted(x)))
  {
    var dead := Subtree(s.proc.pcbs, owner, p);
    var x := s.proc.pcbs[p];
    if x.remainingTime <= Quantum(x.queueLevel) {
      SubtreeOwned(s.proc.pcbs, owner, p);
      DequeuedMore(s.proc.queues, {p}, dead);
      assert {p} + dead == dead;
      KillPcbOnOk(s, owner, p);
    } else {
      DequeuedTwice(s.proc.queues, {p});
      ReleaseNothing(s.mem.blocks, s.mem.total, BlocksOf(s.mem.blocks, owner, {}));
    }
  }
}
