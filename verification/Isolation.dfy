// What a user does leaves every other user's processes, memory and place in the queues alone.

module Isolation {
  import opened Types
  import opened Sequences
  import opened BlockTable
  import opened Allocation
  import opened Compaction
  import opened ProcessTable
  import opened Subtrees
  import opened Scheduling
  import opened Coherence
  import opened Transactions
  import opened KernelState
  import opened VirtualFileSystems

  ghost function Others(pcbs: PcbMap, u: Text): set<uint32> {
    set p | p in pcbs && pcbs[p].owner != u
  }

  // The other users have the same processes, children lists included, in the same order in every queue.
  ghost predicate SameProcesses(before: Proc, after: Proc, u: Text) {
    && Others(after.pcbs, u) == Others(before.pcbs, u)
    && (forall p :: p in Others(before.pcbs, u) ==> after.pcbs[p] == before.pcbs[p])
    && (forall l :: 0 <= l < 3 ==>
        Only(after.queues[l], Others(before.pcbs, u)) == Only(before.queues[l], Others(before.pcbs, u)))
  }

  // The other users have the same blocks at the same addresses.
  ghost predicate SameMemory(before: Mem, after: Mem, u: Text) {
    forall b: Block :: b.owner != u ==> (Allocated(after.blocks, b) <==> Allocated(before.blocks, b))
  }

  ghost predicate Untouched(before: Sys, after: Sys, u: Text) {
    SameProcesses(before.proc, after.proc, u) && SameMemory(before.mem, after.mem, u)
  }

  lemma OnlyDequeued(qs: Queues, dead: set<uint32>, keep: set<uint32>)
    requires dead !! keep
    ensures forall l :: 0 <= l < 3 ==> Only(Dequeued(qs, dead)[l], keep) == Only(qs[l], keep)
  {
    OnlyWithout(qs[0], dead, keep);
    OnlyWithout(qs[1], dead, keep);
    OnlyWithout(qs[2], dead, keep);
  }

  lemma OnlyEnqueued(qs: Queues, level: int32, pid: uint32, keep: set<uint32>)
    requires pid !in keep
    ensures forall l :: 0 <= l < 3 ==> Only(Enqueued(qs, level, pid)[l], keep) == Only(qs[l], keep)
  {
    OnlyDequeued(qs, {pid}, keep);
    if 0 <= level <= 2 {
      OnlySnoc(Dequeued(qs, {pid})[level], pid, keep);
    }
  }

  lemma PlaceLeavesOthers(ps: Proc, x: PCB, u: Text)
    requires Owned(ps.pcbs, u, x.pid) && x.owner == u
    ensures SameProcesses(ps, Place(ps, x), u)
  {
    var keep := Others(ps.pcbs, u);
    OnlyDequeued(ps.queues, {x.pid}, keep);
    OnlyEnqueued(ps.queues, x.queueLevel, x.pid, keep);
  }

  lemma CreateLeavesOthers(ps: Proc, u: Text, name: Text, memKB: uint32, memStart: uint32, priority: int32,
    totalTime: uint32, ppid: Option<uint32>)
    requires ProcOk(ps)
    ensures var r := CreateProc(ps, u, name, memKB, memStart, priority, totalTime, ppid);
      r.Some? ==> SameProcesses(ps, r.value, u)
  {
    var r := CreateProc(ps, u, name, memKB, memStart, priority, totalTime, ppid);
    if r.Some? {
      CreateAdds(ps, u, name, memKB, memStart, priority, totalTime, ppid);
      OnlyEnqueued(ps.queues, LevelOf(priority), ps.nextPid, Others(ps.pcbs, u));
      assert Others(r.value.pcbs, u) == Others(ps.pcbs, u);
    }
  }

  lemma RemoveLeavesOthers(ps: Proc, dead: set<uint32>, u: Text)
    requires ProcOk(ps) && forall p :: p in dead ==> Owned(ps.pcbs, u, p)
    ensures SameProcesses(ps, Remove(ps, dead), u)
  {
    var keep := Others(ps.pcbs, u);
    OnlyDequeued(ps.queues, dead, keep);
    forall p | p in keep ensures Without(ps.pcbs[p].children, dead) == ps.pcbs[p].children {
      assert ChildrenOk(ps.pcbs, p);
      forall c | c in ps.pcbs[p].children ensures c !in dead { assert ParentOk(ps.pcbs, c); }
      WithoutNone(ps.pcbs[p].children, dead);
    }
  }

  lemma ReleaseLeavesOthers(m: Mem, gone: set<Block>, u: Text)
    requires MemOk(m) && forall b :: b in gone ==> b.owner == u
    ensures SameMemory(m, m.(blocks := Release(m.blocks, gone)), u)
  {
    ReleaseTable(m.blocks, m.total, gone);
  }

  lemma AllocateLeavesOthers(m: Mem, u: Text, pid: uint32, tag: Text, size: uint32, kind: BlockKind)
    requires MemOk(m) && !kind.FREE? && AllocateMem(m, u, pid, tag, size, kind).Some?
    ensures SameMemory(m, AllocateMem(m, u, pid, tag, size, kind).value.0, u)
  {
    AllocateAdds(m, u, pid, tag, size, kind);
  }

  // A scheduler step for a user touches nobody else.
  lemma StepIsIsolated(s: Sys, u: Text)
    requires SysOk(s)
    ensures Untouched(s, StepSys(s, u), u)
  {
    var dead := Finished(s.proc, u);
    var r := Select(s.proc, u);
    FinishedClosed(s.proc, u);
    ReleaseLeavesOthers(s.mem, BlocksOf(s.mem.blocks, u, dead), u);
    if r.Some? {
      SelectCorrect(s.proc, u);
      var x := s.proc.pcbs[r.value];
      if x.remainingTime <= Quantum(x.queueLevel) {
        RemoveLeavesOthers(s.proc, dead, u);
      } else {
        PlaceLeavesOthers(s.proc, Demoted(x), u);
      }
    }
  }

  lemma KillIsIsolated(s: Sys, u: Text, pid: uint32)
    requires SysOk(s)
    ensures KillSys(s, u, pid).Some? ==> Untouched(s, KillSys(s, u, pid).value, u)
  {
    var dead := Subtree(s.proc.pcbs, u, pid);
    SubtreeOwned(s.proc.pcbs, u, pid);
    RemoveLeavesOthers(s.proc, dead, u);
    ReleaseLeavesOthers(s.mem, BlocksOf(s.mem.blocks, u, dead), u);
  }

  lemma CreateIsIsolated(s: Sys, u: Text, name: Text, memKB: uint32, priority: int32, totalTime: uint32,
    ppid: Option<uint32>)
    requires SysOk(s)
    ensures var r := CreateSys(s, u, name, memKB, priority, totalTime, ppid); r.Some? ==> Untouched(s, r.value, u)
  {
    var r := CreateSys(s, u, name, memKB, priority, totalTime, ppid);
    if r.Some? {
      AllocateLeavesOthers(s.mem, u, s.proc.nextPid, name, memKB, PROCESS);
      var start := AllocateMem(s.mem, u, s.proc.nextPid, name, memKB, PROCESS).value.1;
      CreateLeavesOthers(s.proc, u, name, memKB, start, priority, totalTime, ppid);
    }
  }

  lemma SwapIsIsolated(s: Sys, u: Text, pid: uint32)
    requires SysOk(s)
    ensures SwapSys(s, u, pid).Some? ==> Untouched(s, SwapSys(s, u, pid).value, u)
  {
    if SwapSys(s, u, pid).Some? {
      PlaceLeavesOthers(s.proc, s.proc.pcbs[pid].(swappedOut := true, memStart := 0, state := SWAPPED), u);
      ReleaseLeavesOthers(s.mem, BlocksOf(s.mem.blocks, u, {pid}), u);
    }
  }

  ghost predicate Supersedes(ps: Proc, x: PCB, after: Proc) {
    after == Place(ps, x) || after == Replace(ps, x)
  }

  // r is a refusal or a change of one process of u.
  lemma StateLeavesOthers(k: KState, u: Text, pid: uint32, r: Option<Proc>)
    requires KernelOk(k)
    requires r.Some? ==> Owned(k.sys.proc.pcbs, u, pid) && Owned(r.value.pcbs, u, pid)
    requires r.Some? ==> r.value.pcbs[pid].pid == pid && Supersedes(k.sys.proc, r.value.pcbs[pid], r.value)
    ensures Untouched(k.sys, ProcOutcome(k, r).0.sys, u)
  {
    if r.Some? {
      PlaceLeavesOthers(k.sys.proc, r.value.pcbs[pid], u);
    }
  }

  lemma StatesAreIsolated(k: KState, u: Text, e: Event)
    requires KernelOk(k) && IsStateCommand(e)
    ensures Untouched(k.sys, StateCommand(k, u, e).0.sys, u)
  {
    match e
    case BlockPcb(pid) => StateLeavesOthers(k, u, pid, BlockProc(k.sys.proc, u, pid));
    case WakeupPcb(pid) => StateLeavesOthers(k, u, pid, WakeupProc(k.sys.proc, u, pid));
    case Suspend(pid) => StateLeavesOthers(k, u, pid, SuspendProc(k.sys.proc, u, pid));
    case Resume(pid) => StateLeavesOthers(k, u, pid, ResumeProc(k.sys.proc, u, pid));
    case Renice(pid, priority) => StateLeavesOthers(k, u, pid, ReniceProc(k.sys.proc, u, pid, priority));
  }

  lemma MemoryIsIsolated(k: KState, u: Text, e: Event)
    requires KernelOk(k) && IsMemoryCommand(e) && !e.Compact?
    ensures Untouched(k.sys, MemoryCommand(k, u, e).0.sys, u)
  {
    match e
    case Alloc(tag, sizeKB) =>
      if AllocSys(k.sys, u, tag, sizeKB).Some? {
        AllocateLeavesOthers(k.sys.mem, u, 0, tag, sizeKB, KERNEL);
      }
    case FreeMem(addr) =>
      FreeAddressIsFreeMem(k.sys.mem, u, addr);
      if Allocation.FreeMem(k.sys.mem, u, addr).Some? {
        ReleaseLeavesOthers(k.sys.mem, {At(k.sys.mem.blocks, addr).value}, u);
      }
    case SetAlgorithm(algorithm) =>
  }

  lemma SystemIsIsolated(k: KState, u: Text, e: Event)
    requires KernelOk(k) && IsSystemCommand(e)
    ensures Untouched(k.sys, SystemCommand(k, u, e).0.sys, u)
  {
    match e
    case CreatePcb(name, memKB, priority, totalTime, ppid) =>
      CreatePcbOnOk(k.sys, u, name, memKB, priority, totalTime, ppid);
      CreateIsIsolated(k.sys, u, name, memKB, priority, totalTime, ppid);
    case KillPcb(pid) =>
      KillPcbOnOk(k.sys, u, pid);
      KillIsIsolated(k.sys, u, pid);
    case SwapOut(pid) =>
      SwapOutOnOk(k.sys, u, pid);
      SwapIsIsolated(k.sys, u, pid);
    case Step =>
      StepOnOk(k.sys, u);
      StepIsIsolated(k.sys, u);
  }

  lemma FileCommandsAreIsolated(k: KState, u: Text, e: Event)
    requires IsFileCommand(e)
    ensures OthersFiles(FileCommand(k, u, e).0.vfs.files, u) == OthersFiles(k.vfs.files, u)
    ensures FileCommand(k, u, e).0.sys == k.sys
  {
    match e
    case TouchFile(name, now) => FilesAreIsolated(k.vfs, u, name, [], now);
    case WriteFile(name, content, now) => FilesAreIsolated(k.vfs, u, name, content, now);
    case RemoveFile(name) => FilesAreIsolated(k.vfs, u, name, [], 0);
  }

  lemma OnlyFileCommandsTouchFiles(k: KState, u: Text, e: Event)
    requires IsUserCommand(e) && !IsFileCommand(e)
    ensures UserCommand(k, u, e).0.vfs == k.vfs
  {
  }

  // No command of a user but compact changes any process, memory or file that belongs to anybody else.
  lemma CommandsAreIsolated(k: KState, u: Text, e: Event)
    requires KernelOk(k) && IsUserCommand(e) && !e.Compact?
    ensures Untouched(k.sys, UserCommand(k, u, e).0.sys, u)
    ensures OthersFiles(UserCommand(k, u, e).0.vfs.files, u) == OthersFiles(k.vfs.files, u)
  {
    if IsFileCommand(e) {
      FileCommandsAreIsolated(k, u, e);
    } else {
      OnlyFileCommandsTouchFiles(k, u, e);
    }
    if IsStateCommand(e) {
      StatesAreIsolated(k, u, e);
    } else if IsMemoryCommand(e) {
      MemoryIsIsolated(k, u, e);
    } else if IsSystemCommand(e) {
      SystemIsIsolated(k, u, e);
    } else if IsSchedulerCommand(e) {
      NothingToClean(k.sys.proc);
    }
  }

  // compact moves blocks, and with them the addresses in the PCBs, and changes nothing else of anybody's.
  lemma CompactOnlyMoves(s: Sys)
    requires SysOk(s)
    ensures UsedKB(s.mem.blocks) <= s.mem.total
    ensures var after := CompactSys(s);
      && after.proc.queues == s.proc.queues && after.proc.pcbs.Keys == s.proc.pcbs.Keys
      && (forall p :: p in s.proc.pcbs ==>
          after.proc.pcbs[p] == s.proc.pcbs[p].(memStart := after.proc.pcbs[p].memStart))
      && (forall p :: p in s.proc.pcbs && !s.proc.pcbs[p].swappedOut ==>
          BlockOf(after.proc.pcbs[p]) in after.mem.blocks)
  {
    CompactSysOk(s);
    var after := CompactSys(s);
    forall p | p in s.proc.pcbs && !s.proc.pcbs[p].swappedOut ensures BlockOf(after.proc.pcbs[p]) in after.mem.blocks {
      assert HasBlock(after.proc.pcbs, after.mem.blocks, p);
    }
  }

  // The scheduler thread, when it acts at all, acts for the user who is logged in, and so touches nobody else.
  lemma AutoTurnIsIsolated(k: KState)
    requires KernelOk(k)
    ensures AutoTurn(k) == k ||
      (k.session.Some? && AutoTurn(k) == k.(sys := StepSys(k.sys, k.session.value))
       && Untouched(k.sys, AutoTurn(k).sys, k.session.value))
  {
    if k.schedulerRunning {
      StepOnOk(k.sys, k.schedulerOwner);
      StepIsIsolated(k.sys, k.schedulerOwner);
    }
  }
}
