// Whole runs of the kernel: commands of users, scheduler turns, saves, loads and restarts in any order.

module Runs {
  import opened Types
  import opened Sequences
  import opened BlockTable
  import opened Allocation
  import opened Compaction
  import opened ProcessTable
  import opened ProcessRestore
  import opened Coherence
  import opened Transactions
  import opened Users
  import opened FileLayout
  import opened KernelState
  import opened KernelTheorems
  import opened VirtualFileSystems
  import SnapshotStores

  // ----- whole runs -----

  // The kernel after more events.
  ghost function Run(k: KState, events: seq<Event>): KState {
    if events == [] then k
    else
      var n := |events| - 1;
      Apply(Run(k, events[..n]), events[n]).0
  }

  // Nothing runs out on the way. There is no bound on the length of a run.
  ghost predicate RoomAlong(k: KState, events: seq<Event>) {
    forall i :: 0 <= i < |events| ==> HasRoom(Run(k, events[..i]), events[i])
  }

  lemma RoomAlongFront(k: KState, events: seq<Event>)
    requires RoomAlong(k, events) && events != []
    ensures var n := |events| - 1; RoomAlong(k, events[..n]) && HasRoom(Run(k, events[..n]), events[n])
  {
    var n := |events| - 1;
    forall i | 0 <= i < n ensures HasRoom(Run(k, events[..n][..i]), events[..n][i]) {
      assert events[..n][..i] == events[..i];
    }
  }

  lemma {:induction false} RunSound(k: KState, events: seq<Event>)
    requires Sound(k) && RoomAlong(k, events)
    ensures Sound(Run(k, events))
  {
    if events != [] {
      RoomAlongFront(k, events);
      RunSound(k, events[..|events| - 1]);
      EventOk(Run(k, events[..|events| - 1]), events[|events| - 1]);
    }
  }

  // In every state that any interleaving of commands and scheduler turns reaches from a clean start, restarts and
  // loads of the kernel's own saves included, the invariant holds, and the kernel exports a snapshot that its own
  // check accepts and whose import restores that state. Runs may be of any length; they may not use up the last of
  // the 32-bit pids and file ids.
  lemma EveryRunExportsValid(events: seq<Event>, disk: Option<seq<byte>>)
    requires RoomAlong(Clean(None), events)
    ensures var k := Run(Clean(None), events);
      KernelOk(k) && ValidSnapshot(Export(k)) && Restored(Export(k), disk) == Halted(k).(session := None, disk := disk)
  {
    CleanOk(None);
    RunSound(Clean(None), events);
    OkMeansValid(Run(Clean(None), events), disk);
  }

  lemma OkMeansValid(k: KState, disk: Option<seq<byte>>)
    requires KernelOk(k)
    ensures ValidSnapshot(Export(k)) && Restored(Export(k), disk) == Halted(k).(session := None, disk := disk)
  {
    ExportIsValid(k);
    RestoreUndoesExport(k, disk);
  }

  // Nobody is running between events, and the time counters add up.
  predicate AtRest(pcbs: PcbMap, p: uint32)
    requires p in pcbs
  {
    var x := pcbs[p];
    && !x.state.NEW? && !x.state.RUNNING? && !x.state.TERMINATED?
    && x.executedTime + x.remainingTime == x.totalTime && x.remainingTime > 0
    && x.timeSliceLeft == Quantum(x.queueLevel) && LevelOf(x.priority) <= x.queueLevel <= 2
  }

  // The children are exactly the processes that name p as their parent; parents are older and of the same user.
  ghost predicate InForest(pcbs: PcbMap, p: uint32)
    requires p in pcbs
  {
    && Ascending(pcbs[p].children)
    && (forall c :: c in pcbs[p].children <==> c in pcbs && pcbs[c].ppid == p)
    && (forall c :: c in pcbs[p].children ==> p < c && pcbs[c].owner == pcbs[p].owner)
    && (pcbs[p].ppid != 0 ==> pcbs[p].ppid in pcbs)
  }

  // A process has one block, of its size and at its address, or none if it is swapped out.
  ghost predicate InMemory(s: Sys, p: uint32)
    requires p in s.proc.pcbs
  {
    var x := s.proc.pcbs[p];
    var own := BlocksOf(s.mem.blocks, x.owner, {p});
    own == if x.swappedOut then {} else {Block(x.memStart, x.memSize, PROCESS, p, x.owner, x.name)}
  }

  lemma PlainForest(ps: Proc, p: uint32)
    requires ProcOk(ps) && p in ps.pcbs
    ensures InForest(ps.pcbs, p)
  {
    assert ParentOk(ps.pcbs, p) && ChildrenOk(ps.pcbs, p);
    forall c | c in ps.pcbs[p].children ensures p < c && ps.pcbs[c].owner == ps.pcbs[p].owner {
      assert ParentOk(ps.pcbs, c);
    }
  }

  lemma PlainMemory(s: Sys, p: uint32)
    requires SysOk(s) && p in s.proc.pcbs
    ensures InMemory(s, p)
  {
    BlocksOfOne(s, s.proc.pcbs[p].owner, p);
  }

  ghost predicate PlainlyOk(s: Sys) {
    var pcbs, queues, bs := s.proc.pcbs, s.proc.queues, s.mem.blocks;
    && (forall p :: p in pcbs ==> AtRest(pcbs, p) && InForest(pcbs, p) && InMemory(s, p))
    && (forall b :: b in bs && b.kind.PROCESS? ==> b.pid in pcbs && b.owner == pcbs[b.pid].owner)
    && (forall l :: 0 <= l < 3 ==> Distinct(queues[l]))
    && (forall l: int32, p :: 0 <= l < 3 ==>
        (p in queues[l] <==> p in pcbs && pcbs[p].state.READY? && pcbs[p].queueLevel == l))
    && UsedKB(bs) + FreeKB(bs) == s.mem.total
  }

  lemma PlainTerms(s: Sys)
    requires SysOk(s)
    ensures PlainlyOk(s)
  {
    UsedPlusFree(s.mem);
    PlainQueues(s.proc);
    PlainProcesses(s);
    forall b | b in s.mem.blocks && b.kind.PROCESS?
      ensures b.pid in s.proc.pcbs && b.owner == s.proc.pcbs[b.pid].owner
    {
      assert HasPcb(s.proc.pcbs, b);
    }
  }

  lemma PlainProcesses(s: Sys)
    requires SysOk(s)
    ensures forall p :: p in s.proc.pcbs ==>
      AtRest(s.proc.pcbs, p) && InForest(s.proc.pcbs, p) && InMemory(s, p)
  {
    forall p | p in s.proc.pcbs ensures AtRest(s.proc.pcbs, p) && InForest(s.proc.pcbs, p) && InMemory(s, p) {
      PlainForest(s.proc, p);
      PlainMemory(s, p);
    }
  }

  lemma PlainQueues(ps: Proc)
    requires ProcOk(ps)
    ensures forall l :: 0 <= l < 3 ==> Distinct(ps.queues[l])
    ensures forall l: int32, p :: 0 <= l < 3 ==>
      (p in ps.queues[l] <==> p in ps.pcbs && ps.pcbs[p].state.READY? && ps.pcbs[p].queueLevel == l)
  {
    forall l: int32, p | 0 <= l < 3
      ensures p in ps.queues[l] <==> p in ps.pcbs && ps.pcbs[p].state.READY? && ps.pcbs[p].queueLevel == l
    {
      assert p in ps.queues[l] <==> ReadyAt(ps.pcbs, p, l);
    }
  }

  // The invariant in plain terms, for every process, block and queue of every state that a run reaches.
  lemma EveryRunKeepsOrder(events: seq<Event>)
    requires RoomAlong(Clean(None), events)
    ensures PlainlyOk(Run(Clean(None), events).sys)
  {
    CleanOk(None);
    RunSound(Clean(None), events);
    PlainTerms(Run(Clean(None), events).sys);
  }

  // ----- the pid counter -----

  // A creation from a well-formed state exports a valid snapshot if and only if the counter did not wrap.
  lemma CreationExportsValidUnlessWrapped(k: KState, u: Text, e: Event)
    requires KernelOk(k) && k.session == Some(u) && e.CreatePcb?
    requires SystemCommand(k, u, e).1
    ensures ValidSnapshot(Export(SystemCommand(k, u, e).0)) <==> k.sys.proc.nextPid != 0xFFFF_FFFF
  {
    var k' := SystemCommand(k, u, e).0;
    if k.sys.proc.nextPid != 0xFFFF_FFFF {
      SystemEventOk(k, u, e);
      ExportIsValid(k');
    } else {
      CreatedNextPid(k.sys, u, e.name, e.memKB, e.priority, e.totalTime, e.ppid);
      assert k'.sys.proc.nextPid == 0;
    }
  }

  lemma CreatedNextPid(s: Sys, u: Text, name: Text, memKB: uint32, priority: int32, totalTime: uint32,
    ppid: Option<uint32>)
    ensures var (after, ok) := CreatePcbOn(s, u, name, memKB, priority, totalTime, ppid);
      after.proc.nextPid == if ok then Add32(s.proc.nextPid, 1) else s.proc.nextPid
  {
  }

  // In empty memory a creation with admissible arguments succeeds.
  lemma FirstCreationSucceeds(k: KState, u: Text, e: Event)
    requires k.sys.mem == CLEAN_SYS.mem && u != [] && e.CreatePcb? && e.name != [] && 0 < e.memKB <= 1024
    requires e.totalTime > 0 && 0 <= e.priority <= 15 && e.ppid == None
    ensures SystemCommand(k, u, e).1
  {
    PoliciesAgree(k.sys.mem.blocks, FIRST_FIT, FIRST_FIT, e.memKB);
    assert FreeBlock(0, 1024) in k.sys.mem.blocks && Fits(FreeBlock(0, 1024), e.memKB);
  }

  // ----- what was saved comes back -----

  lemma DiskKept(k: KState, e: Event)
    requires !e.Save?
    ensures Apply(k, e).0.disk == k.disk
  {
  }

  lemma {:induction false} DiskKeptByRun(k: KState, events: seq<Event>)
    requires forall i :: 0 <= i < |events| ==> !events[i].Save?
    ensures Run(k, events).disk == k.disk
  {
    if events != [] {
      var n := |events| - 1;
      DiskKeptByRun(k, events[..n]);
      DiskKept(Run(k, events[..n]), events[n]);
    }
  }

  // Save, then do anything but save again, for as long as you like, restarts included: a load or a restart gives
  // back the state that was saved, exactly when its snapshot is within the reader's limits.
  lemma SavedStateComesBack(k: KState, events: seq<Event>)
    requires KernelOk(k) && |k.users| < 0x1_0000_0000 && SaveFile(k).1
    requires forall i :: 0 <= i < |events| ==> !events[i].Save?
    ensures var saved := SaveFile(k).0;
      var later := Run(saved, events);
      && (LoadFile(later).1 <==> WithinLimits(Export(k)))
      && (LoadFile(later).1 ==> LoadFile(later).0 == Booted(later) == Halted(saved).(session := None))
  {
    DiskKeptByRun(SaveFile(k).0, events);
    SavedFileImports(k);
  }

  // ----- a save that does not load -----

  // create_pcb does not bound the name, and save does not bound it either below 2^32 bytes; load does. Whatever the
  // state before, after a creation with a longer name what is saved does not load.
  lemma OverlongNameDoesNotLoad(k: KState, u: Text, e: Event)
    requires KernelOk(k) && k.session == Some(u) && e.CreatePcb? && SystemCommand(k, u, e).1
    requires k.sys.proc.nextPid != 0xFFFF_FFFF && |k.users| < 0x1_0000_0000
    requires |e.name| > 1048576
    ensures var after := SystemCommand(k, u, e).0;
      KernelOk(after) && (SaveFile(after).1 ==> !LoadFile(SaveFile(after).0).1)
  {
    var after := SystemCommand(k, u, e).0;
    SystemEventOk(k, u, e);
    CreatePcbOnOk(k.sys, u, e.name, e.memKB, e.priority, e.totalTime, e.ppid);
    var start := AllocateMem(k.sys.mem, u, k.sys.proc.nextPid, e.name, e.memKB, PROCESS).value.1;
    CreateAdds(k.sys.proc, u, e.name, e.memKB, start, e.priority, e.totalTime, e.ppid);
    OverlongPcb(after, k.sys.proc.nextPid);
  }

  lemma OverlongPcb(k: KState, p: uint32)
    requires KernelOk(k) && |k.users| < 0x1_0000_0000
    requires p in k.sys.proc.pcbs && |k.sys.proc.pcbs[p].name| > 1048576
    ensures SaveFile(k).1 ==> !LoadFile(SaveFile(k).0).1
  {
    ExportedPcbs(k);
    var x := k.sys.proc.pcbs[p];
    assert x in Export(k).pcbs && |x.name| > 1048576;
    if SaveFile(k).1 {
      SaveThenLoad(k);
    }
  }

  // Register, log in, create one process.
  function FirstProcess(salt: Text, name: Text): seq<Event> {
    [Register([97], [112], salt), Login([97], [112]), CreatePcb(name, 1, 0, 1, None)]
  }

  function FirstUser(salt: Text): UserAccount {
    UserAccount([97], HashPassword(salt, [112]), salt, 0, NORMAL)
  }

  lemma AfterLogin(salt: Text, name: Text)
    ensures Run(Clean(None), FirstProcess(salt, name)[..2]) ==
      Clean(None).(users := map[[97] := FirstUser(salt)], session := Some([97]))
  {
    var events := FirstProcess(salt, name)[..2];
    var k0 := Clean(None);
    var k1 := k0.(users := map[[97] := FirstUser(salt)]);
    assert events[..1] == [events[0]] && events[..1][..0] == [];
    RegisteredLogsIn(map[], [97], [112], salt, [112]);
    assert SessionCommand(k0, events[0]) == (k1, true);
    assert Run(k0, events[..1]) == k1;
    assert SessionCommand(k1, events[1]) == (k1.(session := Some([97])), true);
  }

  lemma RunLast(k: KState, events: seq<Event>)
    requires events != []
    ensures Run(k, events) == Apply(Run(k, events[..|events| - 1]), events[|events| - 1]).0
  {
  }

  // A well-formed state that saves; but the file does not load, and a restart starts from nothing.
  ghost predicate SavesInVain(k: KState) {
    var (saved, ok) := SaveFile(k);
    KernelOk(k) && ok && !LoadFile(saved).1 && Booted(saved) == Clean(saved.disk)
  }

  // From a clean start, three commands lead to such a state, for every name over the limit and every salt.
  lemma SaveIsLostInRestart(salt: Text, name: Text)
    requires 1048576 < |name| < 0x1_0000_0000 && |salt| < 0x1_0000_0000
    ensures SavesInVain(Run(Clean(None), FirstProcess(salt, name)))
  {
    var before := Clean(None).(users := map[[97] := FirstUser(salt)], session := Some([97]));
    AfterCreation(salt, name);
    OverlongFirstProcess(salt, before, FirstProcess(salt, name)[2]);
  }

  lemma AfterCreation(salt: Text, name: Text)
    ensures Run(Clean(None), FirstProcess(salt, name)) ==
      SystemCommand(Clean(None).(users := map[[97] := FirstUser(salt)], session := Some([97])), [97],
                    FirstProcess(salt, name)[2]).0
  {
    AfterLogin(salt, name);
    RunLast(Clean(None), FirstProcess(salt, name));
  }

  lemma OverlongFirstProcess(salt: Text, k: KState, e: Event)
    requires |salt| < 0x1_0000_0000
    requires k == Clean(None).(users := map[[97] := FirstUser(salt)], session := Some([97]))
    requires e.CreatePcb? && e == CreatePcb(e.name, 1, 0, 1, None) && 1048576 < |e.name| < 0x1_0000_0000
    ensures SavesInVain(SystemCommand(k, [97], e).0)
  {
    LoggedInOk(salt);
    FirstCreationSucceeds(k, [97], e);
    OverlongNameDoesNotLoad(k, [97], e);
    FirstProcessIsWritten(salt, k, e.name);
    RefusedFile(SystemCommand(k, [97], e).0);
  }

  lemma LoggedInOk(salt: Text)
    ensures KernelOk(Clean(None).(users := map[[97] := FirstUser(salt)], session := Some([97])))
  {
    CleanOk(None);
    assert AccountOk(FirstUser(salt));
    NewAccountsOk(Clean(None), map[[97] := FirstUser(salt)], Some([97]));
  }

  // A restart after a save that does not load starts from nothing.
  lemma RefusedFile(k: KState)
    ensures SaveFile(k).1 && !LoadFile(SaveFile(k).0).1 ==> Booted(SaveFile(k).0) == Clean(SaveFile(k).0.disk)
  {
  }

  lemma FirstProcessIsWritten(salt: Text, k: KState, name: Text)
    requires |salt| < 0x1_0000_0000
    requires KernelOk(k) && k.sys == CLEAN_SYS && k.vfs == Vfs(1, []) && |name| < 0x1_0000_0000
    requires k.session == Some([97]) && k.schedulerOwner == [] && k.users == map[[97] := FirstUser(salt)]
    requires name != []
    ensures SaveFile(SystemCommand(k, [97], CreatePcb(name, 1, 0, 1, None)).0).1
  {
    FirstCreationSucceeds(k, [97], CreatePcb(name, 1, 0, 1, None));
    var after := SystemCommand(k, [97], CreatePcb(name, 1, 0, 1, None)).0;
    CreatePcbOnOk(CLEAN_SYS, [97], name, 1, 0, 1, None);
    AllocateAdds(CLEAN_SYS.mem, [97], 1, name, 1, PROCESS);
    var start := AllocateMem(CLEAN_SYS.mem, [97], 1, name, 1, PROCESS).value.1;
    CreateAdds(CLEAN_SYS.proc, [97], name, 1, start, 0, 1, None);
    ShortStrings(salt, after, name);
  }

  // A state whose strings are those of its first process is written in full.
  lemma ShortStrings(salt: Text, k: KState, name: Text)
    requires |salt| < 0x1_0000_0000
    requires k.users == map[[97] := FirstUser(salt)] && k.vfs.files == [] && k.schedulerOwner == []
    requires |name| < 0x1_0000_0000 && Keyed(k.sys.proc.pcbs)
    requires forall p :: p in k.sys.proc.pcbs ==> k.sys.proc.pcbs[p].name == name && k.sys.proc.pcbs[p].owner == [97]
    requires CleanFree(k.sys.mem.blocks)
    requires forall b :: Allocated(k.sys.mem.blocks, b) ==> b.owner == [97] && b.tag == name
    ensures SaveFile(k).1
  {
    var s := Export(k);
    ListUsersCorrect(k.users);
    ListMembers(k.sys.proc.pcbs);
    forall i | 0 <= i < |s.users| ensures SnapshotStores.UserWritable(s.users[i]) {
      assert s.users[i] in s.users;
    }
    forall i | 0 <= i < |s.pcbs| ensures SnapshotStores.PcbWritable(s.pcbs[i]) {
      assert s.pcbs[i] in s.pcbs;
    }
    forall i | 0 <= i < |s.memoryBlocks| ensures SnapshotStores.BlockWritable(s.memoryBlocks[i]) {
      var b := s.memoryBlocks[i];
      assert b in s.memoryBlocks;
      assert !b.kind.FREE? ==> Allocated(s.memoryBlocks, b);
    }
  }
}
