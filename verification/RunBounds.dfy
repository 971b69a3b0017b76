// Runs that use up little, and runs of scheduler steps.

module RunBounds {
  import opened Types
  import opened Scheduling
  import opened Drain
  import opened Coherence
  import opened Transactions
  import opened Users
  import opened KernelState
  import opened KernelTheorems
  import opened Runs
  import SnapshotStores

  // ----- short runs -----

  // What has been handed out so far, at most.
  datatype Used = Used(pids: nat, accounts: nat, files: nat) {
    function Plus(more: Used): Used {
      Used(pids + more.pids, accounts + more.accounts, files + more.files)
    }

    predicate Fits() {
      pids < 0xFFFF_FFFF && accounts < 0x1_0000_0000 && files < 0xFFFF_FFFF
    }
  }

  // What an event can use up at most; all others use up nothing.
  function Needs(e: Event): Used {
    Used(if e.CreatePcb? then 1 else 0, if e.Register? then 1 else 0, if e.TouchFile? || e.WriteFile? then 1 else 0)
  }

  function Growth(events: seq<Event>): Used {
    if events == [] then Used(0, 0, 0) else Growth(events[..|events| - 1]).Plus(Needs(events[|events| - 1]))
  }

  ghost predicate Counts(k: KState, used: Used) {
    && k.sys.proc.nextPid <= used.pids + 1
    && |k.users| <= used.accounts
    && k.vfs.nextFileId <= used.files + 1
  }

  ghost predicate Counted(k: KState, used: Used) {
    Counts(k, used) && (ImportFile(k.disk).Some? ==> Counts(ImportFile(k.disk).value, used))
  }

  lemma SystemCounts(k: KState, u: Text, e: Event)
    requires IsSystemCommand(e)
    ensures SystemCommand(k, u, e).0.sys.proc.nextPid <= k.sys.proc.nextPid + Needs(e).pids
  {
    if e.CreatePcb? {
      CreatedNextPid(k.sys, u, e.name, e.memKB, e.priority, e.totalTime, e.ppid);
    }
  }

  lemma CommandCounts(k: KState, u: Text, e: Event)
    requires IsUserCommand(e)
    ensures var after := UserCommand(k, u, e).0;
      && after.users == k.users && after.disk == k.disk
      && after.sys.proc.nextPid <= k.sys.proc.nextPid + Needs(e).pids
      && after.vfs.nextFileId <= k.vfs.nextFileId + Needs(e).files
  {
    if IsSystemCommand(e) {
      SystemCounts(k, u, e);
    }
  }

  lemma SessionCounts(k: KState, e: Event, used: Used)
    requires Counted(k, used) && IsSessionCommand(e)
    ensures Counted(SessionCommand(k, e).0, used.Plus(Needs(e)))
  {
    if e.Login? && e.name in k.users {
      var after := LoggingIn(k, e.name, e.password).0;
      assert after.users.Keys == k.users.Keys;
      assert |after.users| == |after.users.Keys| == |k.users|;
    }
  }

  lemma DiskCounts(k: KState, e: Event, used: Used)
    requires Sound(k) && Counted(k, used) && IsDiskCommand(e) && (e.Save? ==> |k.users| < 0x1_0000_0000)
    ensures Counted(DiskCommand(k, e).0, used)
  {
    if e.Save? && SnapshotStores.SnapshotWritable(Export(k)) {
      SavedFileImports(k);
    }
  }

  lemma EventCounts(k: KState, e: Event, used: Used)
    requires Sound(k) && Counted(k, used) && (e.Save? ==> |k.users| < 0x1_0000_0000)
    ensures Counted(Apply(k, e).0, used.Plus(Needs(e)))
  {
    if IsSessionCommand(e) {
      SessionCounts(k, e, used);
    } else if IsDiskCommand(e) {
      DiskCounts(k, e, used);
    } else if !e.AutoStep? && k.session.Some? {
      CommandCounts(k, k.session.value, e);
    }
  }

  lemma {:induction false} GrowthSoFar(events: seq<Event>, i: nat)
    requires i <= |events|
    ensures var g, all := Growth(events[..i]), Growth(events);
      g.pids <= all.pids && g.accounts <= all.accounts && g.files <= all.files
  {
    if i == |events| {
      assert events[..i] == events;
    } else {
      var n := |events| - 1;
      GrowthSoFar(events[..n], i);
      assert events[..n][..i] == events[..i];
    }
  }

  lemma CountsGiveRoom(k: KState, e: Event, used: Used)
    requires Counts(k, used) && used.Plus(Needs(e)).Fits()
    ensures HasRoom(k, e)
  {
  }

  lemma RoomForOneMore(k: KState, events: seq<Event>)
    requires events != []
    requires var n := |events| - 1; RoomAlong(k, events[..n]) && HasRoom(Run(k, events[..n]), events[n])
    ensures RoomAlong(k, events)
  {
    forall i | 0 <= i < |events| - 1 {
      RoomStays(k, events, i);
    }
  }

  lemma RoomStays(k: KState, events: seq<Event>, i: nat)
    requires i < |events| - 1 && RoomAlong(k, events[..|events| - 1])
    ensures HasRoom(Run(k, events[..i]), events[i])
  {
    var front := events[..|events| - 1];
    assert front[..i] == events[..i] && front[i] == events[i];
  }

  // With fewer than 2^32 - 1 creations, as few commands that may make a file, and fewer than 2^32 registrations,
  // nothing runs out, whatever else happens and however often.
  lemma {:induction false} ShortRunsHaveRoom(events: seq<Event>)
    requires Growth(events).Fits()
    ensures RoomAlong(Clean(None), events)
    ensures Counted(Run(Clean(None), events), Growth(events))
  {
    if events != [] {
      var n := |events| - 1;
      GrowthSoFar(events, n);
      ShortRunsHaveRoom(events[..n]);
      ShortRunGoesOn(events);
    }
  }

  lemma ShortRunGoesOn(events: seq<Event>)
    requires events != [] && Growth(events).Fits()
    requires var front := events[..|events| - 1];
      RoomAlong(Clean(None), front) && Counted(Run(Clean(None), front), Growth(front))
    ensures RoomAlong(Clean(None), events)
    ensures Counted(Run(Clean(None), events), Growth(events))
  {
    var front, e := events[..|events| - 1], events[|events| - 1];
    var k := Run(Clean(None), front);
    CleanOk(None);
    RunSound(Clean(None), front);
    CountsGiveRoom(k, e, Growth(front));
    RoomForOneMore(Clean(None), events);
    EventCounts(k, e, Growth(front));
  }

  // ----- runs of steps -----

  // Steps for one user, as commands or as turns of the scheduler thread in any mixture.
  ghost predicate StepsFor(k: KState, u: Text, events: seq<Event>) {
    && k.session == Some(u)
    && forall i :: 0 <= i < |events| ==> events[i].Step? || (events[i].AutoStep? && k.schedulerRunning)
  }

  lemma OneStepFor(k: KState, u: Text, e: Event)
    requires KernelOk(k) && StepsFor(k, u, [e])
    ensures Apply(k, e).0 == k.(sys := StepSys(k.sys, u)) && KernelOk(Apply(k, e).0)
  {
    assert [e][0].Step? || [e][0].AutoStep?;
    assert AccountOk(k.users[u]);
    StepCommandIs(k, u, e);
    StepOnOk(k.sys, u);
    StepEventOk(k, u);
  }

  lemma StepCommandIs(k: KState, u: Text, e: Event)
    requires k.session == Some(u)
    requires e.Step? || (e.AutoStep? && k.schedulerRunning && k.schedulerOwner == u && u != [])
    ensures Apply(k, e).0 == k.(sys := StepOn(k.sys, u))
  {
  }

  // On the kernel they are so many steps of the process table.
  lemma {:induction false} StepsOnKernel(k: KState, u: Text, events: seq<Event>)
    requires KernelOk(k) && StepsFor(k, u, events)
    ensures var after := Run(k, events);
      KernelOk(after) && after == k.(sys := after.sys) && after.sys.proc == Steps(k.sys.proc, u, |events|)
  {
    if events != [] {
      var n := |events| - 1;
      StepsOnKernel(k, u, events[..n]);
      OneStepFor(Run(k, events[..n]), u, events[n]);
      StepsLast(k.sys.proc, u, n);
    }
  }

  // As many steps as there is work leave the user without READY processes; where no READY process has a READY
  // descendant, no fewer do.
  lemma RunDrains(k: KState, u: Text, events: seq<Event>)
    requires KernelOk(k) && StepsFor(k, u, events)
    ensures |events| >= Work(k.sys.proc, u) ==> Select(Run(k, events).sys.proc, u).None?
    ensures Independent(k.sys.proc, u) && |events| < Work(k.sys.proc, u) ==> Select(Run(k, events).sys.proc, u).Some?
  {
    StepsOnKernel(k, u, events);
    if |events| >= Work(k.sys.proc, u) {
      Drains(k.sys.proc, u, |events|);
    } else if Independent(k.sys.proc, u) {
      DrainsExactly(k.sys.proc, u, |events|);
    }
  }
}
