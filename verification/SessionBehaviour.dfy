// What the session, scheduler and file commands do, in figures and field by field, and what follows for runs.

module SessionBehaviour {
  import opened Types
  import opened Allocation
  import opened ProcessTable
  import opened Coherence
  import opened Transactions
  import opened Users
  import opened VirtualFileSystems
  import opened KernelState
  import opened Runs
  import opened Behaviour

  // A clean kernel: 1024 KB of memory in one FREE block, first fit, and nothing else.
  lemma CleanIs(disk: Option<seq<byte>>)
    ensures Clean(disk) == KState(
      map[], None, Sys(Proc(map[], [[], [], []], 1), Mem(1024, FIRST_FIT, [Block(0, 1024, FREE, 0, [], [])])),
      false, [], Vfs(1, []), disk)
  {
  }

  // ----- accounts -----

  predicate UserNameByte(c: byte) {
    48 <= c <= 57 || 65 <= c <= 90 || 97 <= c <= 122 || c == 95 || c == 45
  }

  // In any state: a new name of 1 to 32 admissible bytes and a password of 1 to 64.
  lemma RegisterIs(k: KState, name: Text, password: Text, salt: Text)
    ensures var (after, ok) := Apply(k, Register(name, password, salt));
      && (ok <==> (
          && 1 <= |name| <= 32 && (forall i :: 0 <= i < |name| ==> UserNameByte(name[i]))
          && 1 <= |password| <= 64 && name !in k.users))
      && after ==
        if ok then k.(users := k.users[name := UserAccount(name, HashPassword(salt, password), salt, 0, NORMAL)])
        else k
  {
  }

  // In any state: nobody is logged in, the account is there and not locked, and the hash is the one stored. A wrong
  // password is counted, and the third locks the account.
  lemma LoginIs(k: KState, name: Text, password: Text)
    ensures var (after, ok) := Apply(k, Login(name, password));
      var tried := k.session == None && name in k.users && k.users[name].status == NORMAL;
      && (ok <==> tried && HashPassword(k.users[name].salt, password) == k.users[name].passwordHash)
      && (!tried ==> after == k)
      && (tried ==>
          var x := k.users[name];
          var failed := if x.failedAttempts < 2147483647 then x.failedAttempts + 1 else x.failedAttempts;
          after ==
            if ok then k.(session := Some(name), users := k.users[name := x.(failedAttempts := 0)])
            else k.(users := k.users[name := x.(
              failedAttempts := failed, status := if failed >= 3 then LOCKED else NORMAL)]))
  {
  }

  // Salt and password are hashed as one string, the salt first.
  lemma HashOfBoth(salt: Text, password: Text)
    ensures HashPassword(salt, password) == HashPassword([], salt + password)
  {
    assert [] + (salt + password) == salt + password;
  }

  function Digit(d: nat): byte
    requires d < 16
  {
    if d < 10 then 48 + d else 87 + d
  }

  lemma HexStep(n: nat, v: nat, d: nat)
    requires d < 16
    ensures Hex(n + 1, 16 * v + d) == Hex(n, v) + [Digit(d)]
  {
    assert (16 * v + d) / 16 == v && (16 * v + d) % 16 == d;
  }

  lemma HexFour(n: nat, v: nat, a: nat, b: nat, c: nat, d: nat)
    requires a < 16 && b < 16 && c < 16 && d < 16
    ensures Hex(n + 4, 65536 * v + 4096 * a + 256 * b + 16 * c + d) ==
      Hex(n, v) + [Digit(a), Digit(b), Digit(c), Digit(d)]
  {
    HexStep(n, v, a);
    HexStep(n + 1, 16 * v + a, b);
    HexStep(n + 2, 256 * v + 16 * a + b, c);
    HexStep(n + 3, 4096 * v + 256 * a + 16 * b + c, d);
  }

  // The hash in figures, of the empty string and of the letter a: cbf29ce484222325 and af63dc4c8601ec8c.
  lemma HashOfEmpty()
    ensures HashPassword([], []) == [99, 98, 102, 50, 57, 99, 101, 52, 56, 52, 50, 50, 50, 51, 50, 53]
  {
    var none: Text := [];
    assert none + none == none;
    StoredForm(none, 0xcbf29ce484222325);
    HexFour(0, 0x0, 12, 11, 15, 2);
    HexFour(4, 0xcbf2, 9, 12, 14, 4);
    HexFour(8, 0xcbf29ce4, 8, 4, 2, 2);
    HexFour(12, 0xcbf29ce48422, 2, 3, 2, 5);
  }

  lemma HashOfA()
    ensures HashPassword([], [97]) == [97, 102, 54, 51, 100, 99, 52, 99, 56, 54, 48, 49, 101, 99, 56, 99]
  {
    FnvOfA();
    StoredForm([97], 0xaf63dc4c8601ec8c);
    HexFour(0, 0x0, 10, 15, 6, 3);
    HexFour(4, 0xaf63, 13, 12, 4, 12);
    HexFour(8, 0xaf63dc4c, 8, 6, 0, 1);
    HexFour(12, 0xaf63dc4c8601, 14, 12, 8, 12);
  }

  lemma FnvOfA()
    ensures Fnv(OFFSET_BASIS, [97]) == 0xaf63dc4c8601ec8c
  {
    var none: Text := [];
    assert [97][1..] == none;
    assert ((0x25 as bv8) ^ (97 as bv8)) as int == 0x44;
    assert Mix(0xcbf29ce484222325, 97) == 0xaf63dc4c8601ec8c;
  }

  lemma StoredForm(password: Text, hash: uint64)
    requires Fnv(OFFSET_BASIS, password) == hash
    ensures HashPassword([], password) == Hex(16, hash)
  {
    assert [] + password == password;
  }

  // In any state: the session ends, and the scheduler with it.
  lemma LogoutIs(k: KState)
    ensures var (after, ok) := Apply(k, Logout);
      && (ok <==> k.session != None)
      && after == if ok then k.(session := None, schedulerRunning := false, schedulerOwner := []) else k
    ensures Apply(k, Exit) == (k.(schedulerRunning := false, schedulerOwner := []), true)
  {
  }

  // Nobody who is not logged in can do anything: without a session every user command is refused and changes nothing.
  lemma NeedsLogin(k: KState, e: Event)
    requires k.session == None
    requires !(e.Register? || e.Login? || e.Logout? || e.Exit? || e.Save? || e.Load? || e.Boot? || e.AutoStep?)
    ensures Apply(k, e) == (k, false)
  {
  }

  lemma StaysLoggedOut(k: KState, e: Event)
    requires k.session == None && !e.Login?
    ensures Apply(k, e).0.session == None
  {
  }

  // After a logout that holds until somebody logs in.
  lemma {:induction false} LoggedOutUntilLogin(k: KState, events: seq<Event>)
    requires forall i :: 0 <= i < |events| ==> !events[i].Login?
    ensures Run(Apply(k, Logout).0, events).session == None
  {
    if events == [] {
      LogoutIs(k);
    } else {
      LoggedOutUntilLogin(k, events[..|events| - 1]);
      StaysLoggedOut(Run(Apply(k, Logout).0, events[..|events| - 1]), events[|events| - 1]);
    }
  }

  // ----- the scheduler -----

  lemma SchedulerCommandOnly(k: KState, u: Text, e: Event)
    requires k.session == Some(u) && IsSchedulerCommand(e)
    ensures Apply(k, e) == (SchedulerCommand(k, u, e), true)
  {
  }

  // start_sched does nothing while the scheduler runs, and else starts it for the user; stop_sched stops it;
  // restart_sched starts it for the user in any case. Nothing else changes.
  lemma SchedulerControl(k: KState, u: Text)
    requires KernelOk(k) && k.session == Some(u)
    ensures Apply(k, StartSched) ==
      (if k.schedulerRunning then k else k.(schedulerRunning := true, schedulerOwner := u), true)
    ensures Apply(k, StopSched) == (k.(schedulerRunning := false), true)
    ensures Apply(k, RestartSched) == (k.(schedulerRunning := true, schedulerOwner := u), true)
  {
    SchedulerCommandOnly(k, u, StartSched);
    SchedulerCommandOnly(k, u, StopSched);
    SchedulerCommandOnly(k, u, RestartSched);
    NothingToClean(k.sys.proc);
  }

  lemma StaysStopped(k: KState, e: Event)
    requires !k.schedulerRunning && !e.StartSched? && !e.RestartSched?
    ensures !Apply(k, e).0.schedulerRunning
  {
  }

  // While the scheduler is stopped its thread does nothing, whatever else happens, until it is started again.
  lemma {:induction false} IdleUntilStarted(k: KState, events: seq<Event>)
    requires !k.schedulerRunning
    requires forall i :: 0 <= i < |events| ==> !events[i].StartSched? && !events[i].RestartSched?
    ensures !Run(k, events).schedulerRunning && Apply(Run(k, events), AutoStep).0 == Run(k, events)
  {
    if events != [] {
      IdleUntilStarted(k, events[..|events| - 1]);
      StaysStopped(Run(k, events[..|events| - 1]), events[|events| - 1]);
    }
  }

  // While it runs, a turn of its thread is a step for the user it was started for.
  lemma TurnIsStep(k: KState)
    requires KernelOk(k) && k.schedulerRunning
    ensures k.session == Some(k.schedulerOwner) && Apply(k, AutoStep).0 == Apply(k, Step).0
  {
    assert AccountOk(k.users[k.schedulerOwner]);
  }

  // What can stop it or change its owner.
  predicate StopsScheduler(e: Event) {
    e.StopSched? || e.RestartSched? || e.Logout? || e.Exit? || e.Load? || e.Boot?
  }

  lemma StaysRunning(k: KState, e: Event)
    requires k.schedulerRunning && !StopsScheduler(e)
    ensures Apply(k, e).0.schedulerRunning && Apply(k, e).0.schedulerOwner == k.schedulerOwner
  {
  }

  lemma {:induction false} RunsUntilStopped(k: KState, events: seq<Event>)
    requires k.schedulerRunning && forall i :: 0 <= i < |events| ==> !StopsScheduler(events[i])
    ensures Run(k, events).schedulerRunning && Run(k, events).schedulerOwner == k.schedulerOwner
  {
    if events != [] {
      RunsUntilStopped(k, events[..|events| - 1]);
      StaysRunning(Run(k, events[..|events| - 1]), events[|events| - 1]);
    }
  }

  // ----- files -----

  predicate FileNameAdmissible(name: Text) {
    1 <= |name| <= 64 && forall i :: 0 <= i < |name| ==> NameByte(name[i])
  }

  // The i-th file is the user's of that name, and none before it is.
  ghost predicate IsFirst(files: seq<VirtualFile>, u: Text, name: Text, i: int) {
    && 0 <= i < |files| && files[i].owner == u && files[i].name == name
    && forall j :: 0 <= j < i ==> !(files[j].owner == u && files[j].name == name)
  }

  ghost predicate HasFile(files: seq<VirtualFile>, u: Text, name: Text) {
    exists i :: 0 <= i < |files| && files[i].owner == u && files[i].name == name
  }

  lemma FileCommandOnly(k: KState, u: Text, e: Event)
    requires k.session == Some(u) && IsFileCommand(e)
    ensures Apply(k, e) == FileCommand(k, u, e)
  {
  }

  // k with one file more, under the next id.
  function WithFile(k: KState, u: Text, name: Text, content: Text, now: uint64): KState {
    k.(vfs := Vfs(
      if k.vfs.nextFileId == 4294967295 then 0 else k.vfs.nextFileId + 1,
      k.vfs.files + [VirtualFile(k.vfs.nextFileId, u, name, content, now, now)]))
  }

  // touch_file makes an empty file under a new name; write_file makes one, or replaces the content and the time of the
  // user's file of that name; rm_file takes that file out. Nothing else changes.
  lemma TouchIs(k: KState, u: Text, name: Text, now: uint64)
    requires k.session == Some(u) && u != []
    ensures var (after, ok) := Apply(k, TouchFile(name, now));
      && (ok <==> FileNameAdmissible(name) && !HasFile(k.vfs.files, u, name))
      && after == if ok then WithFile(k, u, name, [], now) else k
  {
    FileCommandOnly(k, u, TouchFile(name, now));
  }

  lemma WriteIs(k: KState, u: Text, name: Text, content: Text, now: uint64)
    requires k.session == Some(u) && u != []
    ensures var (after, ok) := Apply(k, WriteFile(name, content, now));
      && (ok <==> FileNameAdmissible(name))
      && (!ok ==> after == k)
      && (ok && !HasFile(k.vfs.files, u, name) ==> after == WithFile(k, u, name, content, now))
      && (ok ==> forall i :: IsFirst(k.vfs.files, u, name, i) ==>
          after == k.(vfs := Vfs(k.vfs.nextFileId,
            k.vfs.files[i := k.vfs.files[i].(content := content, modifiedAt := now)])))
  {
    FileCommandOnly(k, u, WriteFile(name, content, now));
  }

  lemma RemoveIs(k: KState, u: Text, name: Text)
    requires k.session == Some(u) && u != []
    ensures var (after, ok) := Apply(k, RemoveFile(name));
      && (ok <==> HasFile(k.vfs.files, u, name))
      && (!ok ==> after == k)
      && (ok ==> forall i :: IsFirst(k.vfs.files, u, name, i) ==>
          after == k.(vfs := Vfs(k.vfs.nextFileId, k.vfs.files[..i] + k.vfs.files[i + 1..])))
  {
    FileCommandOnly(k, u, RemoveFile(name));
  }
}
