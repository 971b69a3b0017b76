// The kernel object: it owns the managers and carries out one event at a time, under its state lock.

module Kernels {
  import opened Types
  import opened BlockTable
  import opened ProcessRestore
  import opened Scheduling
  import opened Coherence
  import opened Users
  import opened KernelState
  import opened KernelTheorems
  import opened MemoryManagers
  import opened ProcessManagers
  import opened VirtualFileSystems
  import opened Runs
  import SnapshotStores
  import Scheduler
  import CommandDispatcher
  import Validation

  class Kernel {
    const pm: ProcessManager
    const mm: MemoryManager
    const vfs: VirtualFileSystem
    var users: UserMap
    var currentUser: Option<Text>
    var schedulerRunning: bool
    var schedulerOwner: Text
    var disk: Option<seq<byte>>  // the state file

    ghost function View(): KState
      reads this, pm, mm, vfs
    {
      KState(users, currentUser, Sys(pm.View(), mm.View()), schedulerRunning, schedulerOwner, vfs.View(), disk)
    }

    // The tables are keyed by what they index; nothing else is asked of a state.
    ghost predicate Valid()
      reads this, pm, mm, vfs
    {
      StateKeyed(View())
    }

    constructor ()
      ensures fresh(pm) && fresh(mm) && fresh(vfs) && Valid() && View() == Clean(None)
    {
      pm := new ProcessManager();
      mm := new MemoryManager();
      vfs := new VirtualFileSystem();
      users, currentUser, schedulerRunning, schedulerOwner := map[], None, false, [];
      disk := None;
    }

    // ----- snapshots -----

    method ExportUsers() returns (list: seq<UserAccount>)
      requires NamesKeyed(users)
      ensures list == ListUsers(users)
    {
      list := [];
      var todo := users.Keys;
      while todo != {}
        invariant todo <= users.Keys && DistinctNames(list)
        invariant forall x: UserAccount {:trigger x in list} ::
          x in list <==> x.username in users && x.username !in todo && users[x.username] == x
      {
        var u :| u in todo;
        assert forall i :: 0 <= i < |list| ==> list[i] in list;
        list := list + [users[u]];
        todo := todo - {u};
      }
      SortUsersCorrect(list);
      ListUsersCorrect(users);
      InOrderUnique(SortUsers(list), ListUsers(users));
      list := SortUsers(list);
    }

    method ExportSnapshot() returns (s: Snapshot)
      requires Valid()
      ensures s == Export(View())
    {
      var accounts := ExportUsers();
      var pcbs := pm.ExportPcbs();
      s := Snapshot(accounts, pm.nextPid, pcbs, pm.readyQueues, mm.totalMemoryKB, mm.algorithm, mm.blocks,
                    schedulerRunning, schedulerOwner, vfs.nextFileId, SortFiles(vfs.files));
    }

    // A rejected snapshot changes nothing; an accepted one replaces the whole state. The check of the table after
    // the import repeats one that has already succeeded, so it cannot fail.
    method ImportSnapshot(s: Snapshot) returns (ok: bool)
      modifies this, pm, mm, vfs
      ensures ok <==> ValidSnapshot(s)
      ensures View() == if ok then Restored(s, old(disk)) else old(View())
    {
      ok := Validation.ValidateSnapshot(s);
      if !ok {
        return;
      }
      StopScheduler();
      users := ImportUsers(s.users);
      currentUser := None;
      ImportProcesses(s);
      mm.SetTotalMemoryKB(s.totalMemoryKB);
      mm.SetAlgorithm(s.allocAlgorithm);
      mm.ImportBlocks(s.memoryBlocks);
      var tableOk := mm.ValidateBlocks();
      assert tableOk;
      vfs.ImportFiles(s.nextFileId, s.virtualFiles);
    }

    method ImportUsers(list: seq<UserAccount>) returns (table: UserMap)
      ensures table == IndexUsers(list)
    {
      table := map[];
      for i := 0 to |list|
        invariant table == IndexUsers(list[..i])
      {
        assert list[..i + 1][..i] == list[..i];
        table := table[list[i].username := list[i]];
      }
      assert list[..|list|] == list;
    }

    method ImportProcesses(s: Snapshot)
      modifies pm
      ensures pm.View() == ImportedProc(s.pcbs, s.readyQueues, s.nextPid)
    {
      pm.ImportPcbs(s.pcbs);
      pm.ImportNextPid(s.nextPid);
      pm.ImportReadyQueues(s.readyQueues);
      pm.RebuildParentChildRelations();
      pm.ValidateReadyQueues();
    }

    method StopScheduler()
      modifies this`schedulerRunning, this`schedulerOwner
      ensures !schedulerRunning && schedulerOwner == []
    {
      schedulerRunning := false;
      schedulerOwner := [];
    }

    method Reset()
      modifies this, pm, mm, vfs
      ensures View() == Clean(old(disk))
    {
      users := ImportUsers([]);
      currentUser := None;
      pm.ImportPcbs([]);
      pm.ImportNextPid(1);
      pm.ImportReadyQueues([[], [], []]);
      mm.SetTotalMemoryKB(1024);
      mm.SetAlgorithm(FIRST_FIT);
      vfs.ImportFiles(1, []);
      CleanOk(None);
      NormalizedTable([FreeBlock(0, 1024)], 1024);
      mm.ImportBlocks([FreeBlock(0, 1024)]);
      StopScheduler();
    }

    // ----- persistence -----

    method Save() returns (ok: bool)
      requires Valid()
      modifies this`disk
      ensures (View(), ok) == SaveFile(old(View()))
    {
      var s := ExportSnapshot();
      var file := SnapshotStores.Save(s);
      if file.None? {
        return false;
      }
      disk := file;
      ok := true;
    }

    method Load() returns (ok: bool)
      modifies this, pm, mm, vfs
      ensures (View(), ok) == LoadFile(old(View()))
    {
      StopScheduler();
      if disk.None? {
        return false;
      }
      var s := SnapshotStores.Load(disk.value);
      if s.None? {
        return false;
      }
      ok := ImportSnapshot(s.value);
    }

    method Boot()
      modifies this, pm, mm, vfs
      ensures View() == Booted(old(View()))
    {
      Reset();
      if disk.Some? {
        var s := SnapshotStores.Load(disk.value);
        if s.Some? {
          var ok := ImportSnapshot(s.value);
          if ok {
            return;
          }
        }
        Reset();
      }
    }

    // ----- commands -----

    // One turn of the scheduler thread.
    method SchedulerTurn()
      requires Valid()
      modifies pm, mm
      ensures View() == AutoTurn(old(View()))
    {
      if schedulerRunning && schedulerOwner != [] {
        Scheduler.Step(schedulerOwner, pm, mm);
      }
    }

    method ChangeState(u: Text, e: Event) returns (ok: bool)
      requires Valid() && IsStateCommand(e)
      modifies pm
      ensures (View(), ok) == StateCommand(old(View()), u, e)
    {
      match e
      case BlockPcb(pid) => ok := pm.BlockProcess(u, pid);
      case WakeupPcb(pid) => ok := pm.WakeupProcess(u, pid);
      case Suspend(pid) => ok := pm.SuspendProcess(u, pid);
      case Resume(pid) => ok := pm.ResumeProcess(u, pid);
      case Renice(pid, priority) => ok := pm.ReniceProcess(u, pid, priority);
    }

    method UseMemory(u: Text, e: Event) returns (ok: bool)
      requires IsMemoryCommand(e)
      modifies pm, mm
      ensures (View(), ok) == MemoryCommand(old(View()), u, e)
    {
      match e
      case Alloc(tag, sizeKB) =>
        if !ValidTag(tag) {
          return false;
        }
        ok := CommandDispatcher.Alloc(u, tag, sizeKB, pm, mm);
      case FreeMem(addr) => ok := mm.FreeByAddress(u, addr);
      case SetAlgorithm(algorithm) =>
        mm.SetAlgorithm(algorithm);
        ok := true;
      case Compact =>
        CommandDispatcher.Compact(pm, mm);
        ok := true;
    }

    method UseBothManagers(u: Text, e: Event) returns (ok: bool)
      requires Valid() && IsSystemCommand(e)
      modifies pm, mm
      ensures (View(), ok) == SystemCommand(old(View()), u, e)
    {
      match e
      case CreatePcb(name, memKB, priority, totalTime, ppid) =>
        ok := CommandDispatcher.CreatePcb(u, name, memKB, priority, totalTime, ppid, pm, mm);
      case KillPcb(pid) => ok := CommandDispatcher.KillPcb(u, pid, pm, mm);
      case SwapOut(pid) => ok := CommandDispatcher.SwapOut(u, pid, pm, mm);
      case Step =>
        Scheduler.Step(u, pm, mm);
        ok := true;
    }

    method HandleSchedulerCommand(u: Text, e: Event) returns (ok: bool)
      requires IsSchedulerCommand(e)
      modifies this`schedulerRunning, this`schedulerOwner, pm
      ensures (View(), ok) == (SchedulerCommand(old(View()), u, e), true)
    {
      ok := true;
      match e
      case StartSched =>
        if !schedulerRunning {
          schedulerOwner := u;
          schedulerRunning := true;
        }
      case StopSched =>
        schedulerRunning := false;
      case RestartSched =>
        schedulerRunning := false;
        ghost var was := pm.View();
        var removed := pm.CleanupInvalidReadyQueueEntries();
        assert pm.readyQueues == Cleaned(was.pcbs, was.queues);
        schedulerOwner := u;
        schedulerRunning := true;
    }

    method Register(name: Text, password: Text, salt: Text) returns (ok: bool)
      modifies this`users
      ensures (View(), ok) == Registering(old(View()), name, password, salt)
    {
      if !ValidUsername(name) || !ValidPassword(password) || name in users {
        return false;
      }
      var hash := ComputeHash(salt, password);
      users := users[name := UserAccount(name, hash, salt, 0, NORMAL)];
      ok := true;
    }

    method LogOut() returns (ok: bool)
      modifies this`currentUser, this`schedulerRunning, this`schedulerOwner
      ensures (View(), ok) == LoggingOut(old(View()))
    {
      if currentUser.None? {
        return false;
      }
      currentUser := None;
      StopScheduler();
      ok := true;
    }

    method LogIn(name: Text, password: Text) returns (ok: bool)
      modifies this`users, this`currentUser
      ensures (View(), ok) == LoggingIn(old(View()), name, password)
    {
      if currentUser.Some? || name !in users {
        return false;
      }
      var account := users[name];
      if account.status.LOCKED? {
        return false;
      }
      var hash := ComputeHash(account.salt, password);
      if account.passwordHash != hash {
        if account.failedAttempts < 0x7FFF_FFFF {
          account := account.(failedAttempts := account.failedAttempts + 1);
        }
        if account.failedAttempts >= 3 {
          account := account.(status := LOCKED);
        }
        users := users[name := account];
        return false;
      }
      users := users[name := account.(failedAttempts := 0)];
      currentUser := Some(name);
      ok := true;
    }

    method UseFiles(u: Text, e: Event) returns (ok: bool)
      requires IsFileCommand(e)
      modifies vfs
      ensures (View(), ok) == FileCommand(old(View()), u, e)
    {
      match e
      case TouchFile(name, now) => ok := vfs.CreateFile(u, name, now);
      case WriteFile(name, content, now) => ok := vfs.WriteFile(u, name, content, now);
      case RemoveFile(name) => ok := vfs.DeleteFile(u, name);
    }

    // The commands that need a login.
    method Dispatch(u: Text, e: Event) returns (ok: bool)
      requires Valid() && IsUserCommand(e)
      modifies this`schedulerRunning, this`schedulerOwner, pm, mm, vfs
      ensures (View(), ok) == UserCommand(old(View()), u, e)
    {
      if IsStateCommand(e) {
        ok := ChangeState(u, e);
      } else if IsMemoryCommand(e) {
        ok := UseMemory(u, e);
      } else if IsSystemCommand(e) {
        ok := UseBothManagers(u, e);
      } else if IsFileCommand(e) {
        ok := UseFiles(u, e);
      } else {
        ok := HandleSchedulerCommand(u, e);
      }
    }

    method Session(e: Event) returns (ok: bool)
      requires IsSessionCommand(e)
      modifies this, pm
      ensures (View(), ok) == SessionCommand(old(View()), e)
    {
      match e
      case Register(name, password, salt) => ok := Register(name, password, salt);
      case Login(name, password) => ok := LogIn(name, password);
      case Logout => ok := LogOut();
      case Exit =>
        StopScheduler();
        ok := true;
    }

    method Persistence(e: Event) returns (ok: bool)
      requires Valid() && IsDiskCommand(e)
      modifies this, pm, mm, vfs
      ensures (View(), ok) == DiskCommand(old(View()), e)
    {
      match e
      case Save => ok := Save();
      case Load => ok := Load();
      case Boot =>
        Boot();
        ok := true;
    }

    // One event does to the kernel, in any state, what the transition function says.
    method Execute(e: Event) returns (ok: bool)
      requires Valid()
      modifies this, pm, mm, vfs
      ensures Valid() && (View(), ok) == Apply(old(View()), e)
    {
      ApplyKeyed(View(), e);
      if IsSessionCommand(e) {
        ok := Session(e);
      } else if IsDiskCommand(e) {
        ok := Persistence(e);
      } else if e.AutoStep? {
        SchedulerTurn();
        ok := true;
      } else if currentUser.None? {
        ok := false;
      } else {
        ok := Dispatch(currentUser.value, e);
      }
    }

    // A whole run on the object is the run on its value.
    method Serve(events: seq<Event>)
      requires Valid()
      modifies this, pm, mm, vfs
      ensures Valid() && View() == Run(old(View()), events)
    {
      for i := 0 to |events|
        invariant Valid() && View() == Run(old(View()), events[..i])
      {
        assert events[..i + 1][..i] == events[..i];
        var ok := Execute(events[i]);
      }
      assert events[..|events|] == events;
    }
  }
}
