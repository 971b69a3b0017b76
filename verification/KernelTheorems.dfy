// What holds in every state the kernel can reach, and what saving and restoring do to it.

module KernelTheorems {
  import opened Types
  import opened Sequences
  import opened BlockTable
  import opened Allocation
  import opened Compaction
  import opened ProcessTable
  import opened ProcessRestore
  import opened Subtrees
  import opened Scheduling
  import opened Coherence
  import opened Transactions
  import opened Users
  import opened Codec
  import opened RecordFormat
  import opened SnapshotFormat
  import opened FileLayout
  import opened KernelState
  import opened VirtualFileSystems
  import SnapshotStores

  // ----- exports are valid -----

  lemma ExportedUsers(k: KState)
    requires KernelOk(k)
    ensures UsersValid(Export(k).users) && IndexUsers(Export(k).users) == k.users
  {
    ListUsersDistinct(k.users);
    IndexOfUserList(k.users);
    forall x | x in ListUsers(k.users) ensures x.username != [] {
      ListUsersMember(k.users, x);
      assert AccountOk(k.users[x.username]);
    }
  }

  lemma ExportedPcbs(k: KState)
    requires KernelOk(k)
    ensures PcbsValid(Export(k)) && IndexPcbs(Export(k).pcbs) == k.sys.proc.pcbs
    ensures forall x: PCB {:trigger x in Export(k).pcbs} ::
      x in Export(k).pcbs <==> x.pid in k.sys.proc.pcbs && k.sys.proc.pcbs[x.pid] == x
  {
    var pcbs := k.sys.proc.pcbs;
    ExportedUsers(k);
    ListMembers(pcbs);
    IndexOfList(pcbs);
    forall x | x in Export(k).pcbs
      ensures PcbValid(x) && x.owner in k.users && x.pid < k.sys.proc.nextPid
      ensures (x.ppid != 0 ==> x.ppid in pcbs) && forall c :: c in x.children ==> c in pcbs
    {
      assert PcbOk(pcbs[x.pid]) && ParentOk(pcbs, x.pid) && ChildrenOk(pcbs, x.pid);
    }
  }

  lemma TableOneBlockPerPid(s: Sys)
    requires SysOk(s)
    ensures OneBlockPerPid(s.mem.blocks)
  {
    var bs := s.mem.blocks;
    forall i, j | 0 <= i < j < |bs| && bs[i].kind.PROCESS? && bs[j].kind.PROCESS? ensures bs[i].pid != bs[j].pid {
      Ordered(bs, 0, s.mem.total, i, j);
      assert HasPcb(s.proc.pcbs, bs[i]) && HasPcb(s.proc.pcbs, bs[j]);
    }
  }

  lemma ExportedBlocks(k: KState)
    requires KernelOk(k)
    ensures BlocksValid(Export(k))
  {
    var s := Export(k);
    var pcbs, bs := k.sys.proc.pcbs, k.sys.mem.blocks;
    ExportedUsers(k);
    ExportedPcbs(k);
    TableOneBlockPerPid(k.sys);
    forall b | b in bs ensures BlockValid(s, b) {
      assert HasPcb(pcbs, b);
      assert !b.kind.FREE? ==> Allocated(bs, b);
      if b.kind.PROCESS? {
        assert PcbOk(pcbs[b.pid]);
      }
    }
    forall x | x in s.pcbs && !IsSwapped(x) ensures OwnsBlock(bs, x.pid) {
      assert HasBlock(pcbs, bs, x.pid);
      assert BlockOf(x) in bs;
    }
  }

  // The kernel's own check accepts every snapshot the kernel takes of itself.
  lemma ExportIsValid(k: KState)
    requires KernelOk(k)
    ensures ValidSnapshot(Export(k))
  {
    ExportedUsers(k);
    ExportedPcbs(k);
    ExportedBlocks(k);
    NormalizedTable(k.sys.mem.blocks, k.sys.mem.total);
  }

  // ----- restoring an export -----

  // Importing an export restores everything but the session and the scheduler.
  lemma RestoreUndoesExport(k: KState, disk: Option<seq<byte>>)
    requires KernelOk(k)
    ensures Restored(Export(k), disk) == Halted(k).(session := None, disk := disk)
  {
    IndexOfUserList(k.users);
    ImportUndoesExport(k.sys.proc);
    NormalizedTable(k.sys.mem.blocks, k.sys.mem.total);
    FilesAreSorted(k.vfs.files);
  }

  // ----- every event keeps the invariant -----

  // The invariant afterwards, with the same accounts and state file.
  ghost predicate Advances(k: KState, after: KState) {
    KernelOk(after) && after.users == k.users && after.disk == k.disk
  }

  ghost predicate PcbOwners(ps: Proc, users: UserMap) {
    forall p :: p in ps.pcbs ==> ps.pcbs[p].owner in users
  }

  ghost predicate BlockOwners(m: Mem, users: UserMap) {
    forall b :: Allocated(m.blocks, b) ==> b.owner in users
  }

  lemma NewSysOk(k: KState, sys: Sys)
    requires KernelOk(k) && SysOk(sys) && PcbOwners(sys.proc, k.users) && BlockOwners(sys.mem, k.users)
    ensures KernelOk(k.(sys := sys))
  {
  }

  lemma AllocatedOwners(m: Mem, users: UserMap, owner: Text, pid: uint32, tag: Text, size: uint32, kind: BlockKind)
    requires MemOk(m) && !kind.FREE? && AllocateMem(m, owner, pid, tag, size, kind).Some?
    requires BlockOwners(m, users) && owner in users
    ensures BlockOwners(AllocateMem(m, owner, pid, tag, size, kind).value.0, users)
  {
    AllocateAdds(m, owner, pid, tag, size, kind);
  }

  lemma ReleasedOwners(m: Mem, users: UserMap, gone: set<Block>)
    requires MemOk(m) && BlockOwners(m, users)
    ensures BlockOwners(m.(blocks := Release(m.blocks, gone)), users)
  {
    ReleaseTable(m.blocks, m.total, gone);
  }

  lemma CompactedOwners(m: Mem, users: UserMap)
    requires MemOk(m) && BlockOwners(m, users)
    ensures UsedKB(m.blocks) <= m.total
    ensures BlockOwners(m.(blocks := Compacted(m.blocks, m.total)), users)
  {
    CompactionKeepsBlocks(m);
    var before, c := Kept(m.blocks, false), Compacted(m.blocks, m.total);
    forall b | Allocated(c, b) ensures b.owner in users {
      var i :| 0 <= i < |c| && c[i] == b;
      CompactedOwner(m, users, i);
    }
  }

  lemma CompactedOwner(m: Mem, users: UserMap, i: nat)
    requires MemOk(m) && BlockOwners(m, users) && UsedKB(m.blocks) <= m.total
    requires i < |Compacted(m.blocks, m.total)| && !Compacted(m.blocks, m.total)[i].kind.FREE?
    ensures Compacted(m.blocks, m.total)[i].owner in users
  {
    CompactionKeepsBlocks(m);
    KeptMembers(m.blocks, false);
    assert Kept(m.blocks, false)[i] in Kept(m.blocks, false);
    assert Allocated(m.blocks, Kept(m.blocks, false)[i]);
  }

  // Events that change the processes alone.
  lemma ProcEventOk(k: KState, x: PCB)
    requires KernelOk(k)
    requires Revises(k.sys.proc.pcbs, x) && PcbOk(x) && KeepsMemory(k.sys.proc.pcbs, x)
    ensures KernelOk(k.(sys := k.sys.(proc := Place(k.sys.proc, x))))
    ensures Place(k.sys.proc, x).nextPid == k.sys.proc.nextPid
  {
    PlaceSys(k.sys, x);
    NewSysOk(k, k.sys.(proc := Place(k.sys.proc, x)));
  }

  lemma StepEventOk(k: KState, u: Text)
    requires KernelOk(k) && u in k.users
    ensures Advances(k, k.(sys := StepOn(k.sys, u)))
  {
    StepOnOk(k.sys, u);
    StepSysOk(k.sys, u);
    ReleasedOwners(k.sys.mem, k.users, BlocksOf(k.sys.mem.blocks, u, Finished(k.sys.proc, u)));
    StepOwners(k.sys.proc, u, k.users);
    NewSysOk(k, StepSys(k.sys, u));
  }

  lemma StepOwners(ps: Proc, u: Text, users: UserMap)
    requires ProcOk(ps) && PcbOwners(ps, users)
    ensures PcbOwners(StepProc(ps, u), users)
  {
    SelectCorrect(ps, u);
  }

  lemma SwapEventOk(k: KState, u: Text, pid: uint32)
    requires KernelOk(k) && u in k.users
    ensures Advances(k, SysOutcome(k, SwapOutOn(k.sys, u, pid)).0)
  {
    SwapOutOnOk(k.sys, u, pid);
    if SwapSys(k.sys, u, pid).Some? {
      SwapSysOk(k.sys, u, pid);
      ReleasedOwners(k.sys.mem, k.users, BlocksOf(k.sys.mem.blocks, u, {pid}));
      NewSysOk(k, SwapSys(k.sys, u, pid).value);
    }
  }

  lemma CreatedOwners(s: Sys, users: UserMap, u: Text, name: Text, memKB: uint32, priority: int32, totalTime: uint32,
    ppid: Option<uint32>)
    requires SysOk(s) && u in users && PcbOwners(s.proc, users) && BlockOwners(s.mem, users)
    requires CreateSys(s, u, name, memKB, priority, totalTime, ppid).Some?
    ensures var r := CreateSys(s, u, name, memKB, priority, totalTime, ppid).value;
      PcbOwners(r.proc, users) && BlockOwners(r.mem, users) && r.proc.nextPid == Add32(s.proc.nextPid, 1)
  {
    AllocatedOwners(s.mem, users, u, s.proc.nextPid, name, memKB, PROCESS);
    var start := AllocateMem(s.mem, u, s.proc.nextPid, name, memKB, PROCESS).value.1;
    CreateAdds(s.proc, u, name, memKB, start, priority, totalTime, ppid);
  }

  lemma CreateEventOk(k: KState, u: Text, e: Event)
    requires KernelOk(k) && u in k.users && e.CreatePcb?
    requires SystemCommand(k, u, e).1 ==> k.sys.proc.nextPid != 0xFFFF_FFFF
    ensures Advances(k, SystemCommand(k, u, e).0)
  {
    var r := CreateSys(k.sys, u, e.name, e.memKB, e.priority, e.totalTime, e.ppid);
    CreatePcbOnOk(k.sys, u, e.name, e.memKB, e.priority, e.totalTime, e.ppid);
    if r.Some? {
      CreateSysOk(k.sys, u, e.name, e.memKB, e.priority, e.totalTime, e.ppid);
      CreatedOwners(k.sys, k.users, u, e.name, e.memKB, e.priority, e.totalTime, e.ppid);
      NewSysOk(k, r.value);
    }
  }

  lemma AllocEventOk(k: KState, u: Text, tag: Text, sizeKB: uint32)
    requires KernelOk(k) && u in k.users
    ensures Advances(k, SysOutcome(k, Answered(k.sys, AllocSys(k.sys, u, tag, sizeKB))).0)
  {
    AllocSysOk(k.sys, u, tag, sizeKB);
    if AllocSys(k.sys, u, tag, sizeKB).Some? {
      AllocatedOwners(k.sys.mem, k.users, u, 0, tag, sizeKB, KERNEL);
      NewSysOk(k, AllocSys(k.sys, u, tag, sizeKB).value);
    }
  }

  lemma FreeEventOk(k: KState, u: Text, addr: uint32)
    requires KernelOk(k)
    ensures Advances(k, MemOutcome(k, FreeAddress(k.sys.mem, u, addr)).0)
  {
    FreeAddressIsFreeMem(k.sys.mem, u, addr);
    var b := At(k.sys.mem.blocks, addr);
    if b.Some? && b.value.start == addr && b.value.owner == u && !b.value.kind.PROCESS? {
      ReleaseOthers(k.sys, {b.value});
      ReleasedOwners(k.sys.mem, k.users, {b.value});
      NewSysOk(k, k.sys.(mem := k.sys.mem.(blocks := Release(k.sys.mem.blocks, {b.value}))));
    }
  }

  lemma CompactEventOk(k: KState)
    requires KernelOk(k)
    ensures UsedKB(k.sys.mem.blocks) <= k.sys.mem.total
    ensures Advances(k, k.(sys := CompactSys(k.sys)))
  {
    CompactSysOk(k.sys);
    CompactedOwners(k.sys.mem, k.users);
    NewSysOk(k, CompactSys(k.sys));
  }

  lemma MemoryEventOk(k: KState, u: Text, e: Event)
    requires KernelOk(k) && u in k.users && IsMemoryCommand(e)
    ensures Advances(k, MemoryCommand(k, u, e).0)
  {
    match e
    case Alloc(tag, sizeKB) => AllocEventOk(k, u, tag, sizeKB);
    case FreeMem(addr) => FreeEventOk(k, u, addr);
    case SetAlgorithm(algorithm) => NewSysOk(k, k.sys.(mem := k.sys.mem.(algorithm := algorithm)));
    case Compact => CompactEventOk(k);
  }

  // A refusal, or a change of one PCB that keeps it in order.
  ghost predicate OneRevised(ps: Proc, r: Option<Proc>) {
    r.Some? ==> exists x ::
      Revises(ps.pcbs, x) && PcbOk(x) && KeepsMemory(ps.pcbs, x) && r.value == Place(ps, x)
  }

  lemma RevisedOk(k: KState, r: Option<Proc>)
    requires KernelOk(k) && OneRevised(k.sys.proc, r)
    ensures Advances(k, ProcOutcome(k, r).0)
  {
    if r.Some? {
      var x :| Revises(k.sys.proc.pcbs, x) && PcbOk(x) && KeepsMemory(k.sys.proc.pcbs, x)
        && r.value == Place(k.sys.proc, x);
      ProcEventOk(k, x);
    }
  }

  lemma RevisedBy(ps: Proc, x: PCB, r: Option<Proc>)
    requires ProcOk(ps) && Revises(ps.pcbs, x) && PcbOk(x) && KeepsMemory(ps.pcbs, x)
    requires r == Some(Place(ps, x)) ||
      (r == Some(Replace(ps, x)) && !x.state.READY? && !ps.pcbs[x.pid].state.READY?)
    ensures OneRevised(ps, r)
  {
    if r != Some(Place(ps, x)) {
      ReplaceIsPlace(ps, x);
    }
  }

  lemma StateCommandsRevise(ps: Proc, u: Text, pid: uint32)
    requires ProcOk(ps)
    ensures OneRevised(ps, BlockProc(ps, u, pid)) && OneRevised(ps, WakeupProc(ps, u, pid))
  {
    if Owned(ps.pcbs, u, pid) && ps.pcbs[pid].state.READY? {
      RevisedBy(ps, ps.pcbs[pid].(state := BLOCKED), BlockProc(ps, u, pid));
    } else if Owned(ps.pcbs, u, pid) && ps.pcbs[pid].state.BLOCKED? {
      RevisedBy(ps, ps.pcbs[pid].(state := READY), WakeupProc(ps, u, pid));
    }
  }

  lemma SuspensionsRevise(ps: Proc, u: Text, pid: uint32)
    requires ProcOk(ps)
    ensures OneRevised(ps, SuspendProc(ps, u, pid)) && OneRevised(ps, ResumeProc(ps, u, pid))
  {
    if Owned(ps.pcbs, u, pid) {
      var x := ps.pcbs[pid];
      match x.state
      case READY => RevisedBy(ps, x.(state := SUSPENDED_READY), SuspendProc(ps, u, pid));
      case BLOCKED => RevisedBy(ps, x.(state := SUSPENDED_BLOCKED), SuspendProc(ps, u, pid));
      case SUSPENDED_READY => RevisedBy(ps, x.(state := READY), ResumeProc(ps, u, pid));
      case SUSPENDED_BLOCKED => RevisedBy(ps, x.(state := BLOCKED), ResumeProc(ps, u, pid));
      case _ =>
    }
  }

  lemma ReniceRevises(ps: Proc, u: Text, pid: uint32, priority: int32)
    requires ProcOk(ps)
    ensures OneRevised(ps, ReniceProc(ps, u, pid, priority))
  {
    if 0 <= priority <= 15 && Owned(ps.pcbs, u, pid) {
      var level := LevelOf(priority);
      RevisedBy(ps, ps.pcbs[pid].(priority := priority, queueLevel := level, timeSliceLeft := Quantum(level)),
                ReniceProc(ps, u, pid, priority));
    }
  }

  lemma StateEventOk(k: KState, u: Text, e: Event)
    requires KernelOk(k) && IsStateCommand(e)
    ensures Advances(k, StateCommand(k, u, e).0)
  {
    var ps := k.sys.proc;
    match e
    case BlockPcb(pid) => StateCommandsRevise(ps, u, pid); RevisedOk(k, BlockProc(ps, u, pid));
    case WakeupPcb(pid) => StateCommandsRevise(ps, u, pid); RevisedOk(k, WakeupProc(ps, u, pid));
    case Suspend(pid) => SuspensionsRevise(ps, u, pid); RevisedOk(k, SuspendProc(ps, u, pid));
    case Resume(pid) => SuspensionsRevise(ps, u, pid); RevisedOk(k, ResumeProc(ps, u, pid));
    case Renice(pid, priority) => ReniceRevises(ps, u, pid, priority); RevisedOk(k, ReniceProc(ps, u, pid, priority));
  }

  lemma KillEventOk(k: KState, u: Text, pid: uint32)
    requires KernelOk(k) && u in k.users
    ensures Advances(k, SysOutcome(k, KillPcbOn(k.sys, u, pid)).0)
  {
    KillPcbOnOk(k.sys, u, pid);
    var r := KillSys(k.sys, u, pid);
    if r.Some? {
      KillSysOk(k.sys, u, pid);
      ReleasedOwners(k.sys.mem, k.users, BlocksOf(k.sys.mem.blocks, u, Subtree(k.sys.proc.pcbs, u, pid)));
      NewSysOk(k, r.value);
    }
  }

  lemma SystemEventOk(k: KState, u: Text, e: Event)
    requires KernelOk(k) && u in k.users && IsSystemCommand(e)
    requires e.CreatePcb? && SystemCommand(k, u, e).1 ==> k.sys.proc.nextPid != 0xFFFF_FFFF
    ensures Advances(k, SystemCommand(k, u, e).0)
  {
    match e
    case CreatePcb(_, _, _, _, _) => CreateEventOk(k, u, e);
    case KillPcb(pid) => KillEventOk(k, u, pid);
    case SwapOut(pid) => SwapEventOk(k, u, pid);
    case Step => StepEventOk(k, u);
  }

  // Only a command that makes a file can use up the counter.
  lemma FileEventOk(k: KState, u: Text, e: Event)
    requires KernelOk(k) && k.session == Some(u) && IsFileCommand(e)
    requires MakesFile(k, e) && FileCommand(k, u, e).1 ==> k.vfs.nextFileId != 0xFFFF_FFFF
    ensures Advances(k, FileCommand(k, u, e).0)
  {
    match e
    case TouchFile(name, now) =>
      if Touch(k.vfs, u, name, now).Some? {
        AddedOk(k.vfs, u, name, [], now);
      }
    case WriteFile(name, content, now) => WriteOk(k.vfs, u, name, content, now);
    case RemoveFile(name) => DeleteOk(k.vfs, u, name);
  }

  lemma SchedulerEventOk(k: KState, u: Text, e: Event)
    requires KernelOk(k) && k.session == Some(u) && IsSchedulerCommand(e)
    ensures Advances(k, SchedulerCommand(k, u, e))
    ensures SchedulerCommand(k, u, e).sys == k.sys
  {
    NothingToClean(k.sys.proc);
  }

  // A command of a logged-in user keeps the invariant unless it uses up a counter.
  lemma UserCommandOk(k: KState, u: Text, e: Event)
    requires KernelOk(k) && k.session == Some(u) && IsUserCommand(e) && HasRoom(k, e)
    ensures Advances(k, UserCommand(k, u, e).0)
  {
    if IsStateCommand(e) {
      StateEventOk(k, u, e);
    } else if IsMemoryCommand(e) {
      MemoryEventOk(k, u, e);
    } else if IsSystemCommand(e) {
      SystemEventOk(k, u, e);
    } else if IsFileCommand(e) {
      FileEventOk(k, u, e);
    } else {
      SchedulerEventOk(k, u, e);
    }
  }

  // ----- a state always fits the lengths of the file format -----

  lemma {:induction false} TilingLength(bs: seq<Block>, lo: nat, hi: nat)
    requires Tiling(bs, lo, hi)
    ensures |bs| <= hi - lo
  {
    if bs != [] {
      var front, b := bs[..|bs| - 1], bs[|bs| - 1];
      assert bs == front + [b];
      TilingSnoc(front, lo, b);
      TilingLength(front, lo, b.start);
    }
  }

  lemma PcbsBounded(k: KState)
    requires KernelOk(k)
    ensures |Export(k).pcbs| < 0x1_0000_0000
    ensures forall x :: x in Export(k).pcbs ==> |x.children| < 0x1_0000_0000
  {
    var pcbs := k.sys.proc.pcbs;
    assert 0 !in pcbs;
    AscendingBounded(Listed(pcbs.Keys));
    ExportedPcbs(k);
    forall x | x in Export(k).pcbs ensures |x.children| < 0x1_0000_0000 {
      assert ChildrenOk(pcbs, x.pid);
      AscendingBounded(x.children);
    }
  }

  lemma QueuesBounded(k: KState)
    requires KernelOk(k)
    ensures forall l :: 0 <= l < 3 ==> |k.sys.proc.queues[l]| < 0x1_0000_0000
  {
    var ps := k.sys.proc;
    QueuedIsReady(ps, 0);
    DistinctBounded(ps.queues[0]);
    DistinctBounded(ps.queues[1]);
    DistinctBounded(ps.queues[2]);
  }

  // With fewer than 2^32 accounts, nothing but an overlong string can keep a state from being written in full.
  lemma ExportFits(k: KState)
    requires KernelOk(k) && |k.users| < 0x1_0000_0000 && SnapshotStores.SnapshotWritable(Export(k))
    ensures SnapshotFits(WIDE_LIMITS, Export(k))
  {
    var s := Export(k);
    ListUsersCorrect(k.users);
    PcbsBounded(k);
    QueuesBounded(k);
    TilingLength(k.sys.mem.blocks, 0, k.sys.mem.total);
    FilesAreSorted(k.vfs.files);
    FilesBounded(k.vfs.files, k.vfs.nextFileId);
    WritableFits(s);
  }

  lemma WritableFits(s: Snapshot)
    requires SnapshotStores.SnapshotWritable(s)
    requires |s.users| < 0x1_0000_0000 && |s.pcbs| < 0x1_0000_0000 && |s.memoryBlocks| < 0x1_0000_0000
    requires |s.virtualFiles| < 0x1_0000_0000
    requires forall l :: 0 <= l < 3 ==> |s.readyQueues[l]| < 0x1_0000_0000
    requires forall x :: x in s.pcbs ==> |x.children| < 0x1_0000_0000
    ensures SnapshotFits(WIDE_LIMITS, s)
  {
    forall i | 0 <= i < |s.users| ensures UserWithin(WIDE_LIMITS)(s.users[i]) {
      assert SnapshotStores.UserWritable(s.users[i]);
    }
    forall i | 0 <= i < |s.pcbs| ensures PcbWithin(WIDE_LIMITS)(s.pcbs[i]) {
      assert SnapshotStores.PcbWritable(s.pcbs[i]) && s.pcbs[i] in s.pcbs;
    }
    forall i | 0 <= i < |s.memoryBlocks| ensures BlockWithin(WIDE_LIMITS)(s.memoryBlocks[i]) {
      assert SnapshotStores.BlockWritable(s.memoryBlocks[i]);
    }
    forall i | 0 <= i < |s.virtualFiles| ensures FileWithin(WIDE_LIMITS)(s.virtualFiles[i]) {
      assert SnapshotStores.FileWritable(s.virtualFiles[i]);
    }
  }

  // ----- save and load -----

  // A file that the kernel has just saved loads exactly when the snapshot is within the reader's limits; then it
  // restores the state that was saved, with nobody logged in and the scheduler off.
  lemma SavedFileImports(k: KState)
    requires KernelOk(k) && |k.users| < 0x1_0000_0000 && SnapshotStores.SnapshotWritable(Export(k))
    ensures var disk := Some(Saved(Export(k)));
      ImportFile(disk) ==
        if WithinLimits(Export(k)) then Some(Halted(k).(session := None, disk := disk)) else None
  {
    ExportFits(k);
    ExportIsValid(k);
    LimitsAre(Export(k));
    SavedLoads(Export(k), []);
    assert Saved(Export(k)) + [] == Saved(Export(k));
    RestoreUndoesExport(k, Some(Saved(Export(k))));
  }

  // Save and then load: either everything but the session and the scheduler comes back, or, exactly when the
  // snapshot breaks the reader's limits, the load fails and only the scheduler has stopped.
  lemma SaveThenLoad(k: KState)
    requires KernelOk(k) && |k.users| < 0x1_0000_0000 && SaveFile(k).1
    ensures var saved := SaveFile(k).0;
      var (loaded, ok) := LoadFile(saved);
      && (ok <==> WithinLimits(Export(k)))
      && loaded == if ok then Halted(saved).(session := None) else Halted(saved)
  {
    SavedFileImports(k);
  }

  // ----- the counter of files -----

  // A new file leaves a state that an export and import give back if and only if the counter of files did not wrap.
  lemma NewFileRestoresUnlessWrapped(k: KState, u: Text, e: Event, disk: Option<seq<byte>>)
    requires KernelOk(k) && k.session == Some(u) && MakesFile(k, e) && FileCommand(k, u, e).1
    ensures var after := FileCommand(k, u, e).0;
      (Restored(Export(after), disk) == Halted(after).(session := None, disk := disk)) <==>
        k.vfs.nextFileId != 0xFFFF_FFFF
  {
    var after := FileCommand(k, u, e).0;
    if k.vfs.nextFileId != 0xFFFF_FFFF {
      FileEventOk(k, u, e);
      RestoreUndoesExport(after, disk);
    } else {
      assert after.vfs.nextFileId == 0;
    }
  }

  // ----- events -----

  lemma CleanOk(disk: Option<seq<byte>>)
    ensures KernelOk(Clean(disk))
  {
    var k := Clean(disk);
    assert ProcOk(k.sys.proc);
    assert BlockTable.TableOk(k.sys.mem.blocks, 1024);
    assert Coherent(k.sys.proc.pcbs, k.sys.mem.blocks);
  }

  lemma NewAccountsOk(k: KState, users: UserMap, session: Option<Text>)
    requires KernelOk(k) && UsersOk(users) && k.users.Keys <= users.Keys
    requires session == k.session || (k.session.None? && session.Some? && session.value in users)
    ensures KernelOk(k.(users := users, session := session))
  {
  }

  lemma LoginOk(k: KState, name: Text, password: Text)
    requires KernelOk(k)
    ensures KernelOk(LoggingIn(k, name, password).0)
  {
    if name in k.users {
      assert AccountOk(k.users[name]);
    }
    var after := LoggingIn(k, name, password).0;
    NewAccountsOk(k, after.users, after.session);
  }

  lemma SaveEventOk(k: KState)
    requires Sound(k) && |k.users| < 0x1_0000_0000
    ensures Sound(SaveFile(k).0)
  {
    if SnapshotStores.SnapshotWritable(Export(k)) {
      SavedFileImports(k);
    }
  }

  lemma SessionCommandOk(k: KState, e: Event)
    requires Sound(k) && IsSessionCommand(e)
    ensures Sound(SessionCommand(k, e).0)
  {
    match e
    case Register(name, password, salt) =>
      NewAccountsOk(k, Registering(k, name, password, salt).0.users, k.session);
    case Login(name, password) => LoginOk(k, name, password);
    case Logout =>
    case Exit =>
  }

  lemma DiskCommandOk(k: KState, e: Event)
    requires Sound(k) && IsDiskCommand(e) && (e.Save? ==> |k.users| < 0x1_0000_0000)
    ensures Sound(DiskCommand(k, e).0)
  {
    match e
    case Save => SaveEventOk(k);
    case Load =>
    case Boot => CleanOk(k.disk);
  }

  lemma AutoEventOk(k: KState)
    requires Sound(k)
    ensures Sound(AutoTurn(k))
  {
    if k.schedulerRunning {
      StepEventOk(k, k.schedulerOwner);
    }
  }

  // One event keeps the invariant, unless it uses up a counter.
  lemma EventOk(k: KState, e: Event)
    requires Sound(k) && HasRoom(k, e)
    ensures Sound(Apply(k, e).0)
  {
    if IsSessionCommand(e) {
      SessionCommandOk(k, e);
    } else if IsDiskCommand(e) {
      DiskCommandOk(k, e);
    } else if e.AutoStep? {
      AutoEventOk(k);
    } else if k.session.Some? {
      UserCommandOk(k, k.session.value, e);
    }
  }

  // ----- tables stay keyed -----

  lemma ImportKeyed(s: Snapshot, disk: Option<seq<byte>>)
    ensures StateKeyed(Restored(s, disk))
  {
    IndexKeys(s.pcbs);
    forall u | u in IndexUsers(s.users) ensures IndexUsers(s.users)[u].username == u {
      IndexUsersFrom(s.users, u);
    }
  }

  lemma StepKeyed(s: Sys, u: Text)
    requires Keyed(s.proc.pcbs)
    ensures Keyed(StepOn(s, u).proc.pcbs)
  {
  }

  lemma SystemKeyed(k: KState, u: Text, e: Event)
    requires StateKeyed(k) && IsSystemCommand(e)
    ensures StateKeyed(SystemCommand(k, u, e).0)
  {
    match e
    case CreatePcb(name, memKB, priority, totalTime, ppid) =>
      CreateKeyed(k.sys, u, name, memKB, priority, totalTime, ppid);
    case KillPcb(pid) =>
    case SwapOut(pid) =>
    case Step => StepKeyed(k.sys, u);
  }

  lemma CreateKeyed(s: Sys, u: Text, name: Text, memKB: uint32, priority: int32, totalTime: uint32,
    ppid: Option<uint32>)
    requires Keyed(s.proc.pcbs)
    ensures Keyed(CreatePcbOn(s, u, name, memKB, priority, totalTime, ppid).0.proc.pcbs)
  {
  }

  lemma CommandKeyed(k: KState, u: Text, e: Event)
    requires StateKeyed(k) && IsUserCommand(e)
    ensures StateKeyed(UserCommand(k, u, e).0)
  {
    if IsStateCommand(e) {
      StateCommandKeyed(k, u, e);
    } else if IsSystemCommand(e) {
      SystemKeyed(k, u, e);
    }
  }

  lemma StateCommandKeyed(k: KState, u: Text, e: Event)
    requires StateKeyed(k) && IsStateCommand(e)
    ensures StateKeyed(StateCommand(k, u, e).0)
  {
  }

  lemma DiskCommandKeyed(k: KState, e: Event)
    requires StateKeyed(k) && IsDiskCommand(e)
    ensures StateKeyed(DiskCommand(k, e).0)
  {
    if k.disk.Some? && Loaded(k.disk.value).Some? {
      ImportKeyed(Loaded(k.disk.value).value, k.disk);
    }
  }

  // Whatever the state, every event leaves the tables keyed.
  lemma ApplyKeyed(k: KState, e: Event)
    requires StateKeyed(k)
    ensures StateKeyed(Apply(k, e).0)
  {
    if IsDiskCommand(e) {
      DiskCommandKeyed(k, e);
    } else if e.AutoStep? {
      StepKeyed(k.sys, k.schedulerOwner);
    } else if IsUserCommand(e) && k.session.Some? {
      CommandKeyed(k, k.session.value, e);
    }
  }
}
