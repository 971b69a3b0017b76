// The commands that touch both managers, as the dispatcher carries them out, on any pair of tables.

module CommandDispatcher {
  import opened Types
  import opened ProcessTable
  import opened Coherence
  import opened Transactions
  import opened MemoryManagers
  import opened ProcessManagers
  import opened Scheduler

  // Memory first, then the PCB; a refused PCB gives the memory back.
  method CreatePcb(owner: Text, name: Text, memKB: uint32, priority: int32, totalTime: uint32, ppid: Option<uint32>,
    pm: ProcessManager, mm: MemoryManager) returns (ok: bool)
    modifies pm, mm
    ensures (SysView(pm, mm), ok) ==
      CreatePcbOn(old(SysView(pm, mm)), owner, name, memKB, priority, totalTime, ppid)
  {
    if name == [] || memKB == 0 || totalTime == 0 || priority < 0 || priority > 15 {
      return false;
    }
    var expectedPid := pm.nextPid;
    var memStart := mm.Allocate(owner, expectedPid, name, memKB, PROCESS);
    if memStart.None? {
      return false;
    }
    var actualPid := pm.CreateProcess(owner, name, memKB, memStart.value, priority, totalTime, ppid);
    if actualPid.None? {
      var released := mm.FreeByPid(owner, expectedPid);
      return false;
    }
    ok := true;
  }

  method KillPcb(owner: Text, pid: uint32, pm: ProcessManager, mm: MemoryManager) returns (ok: bool)
    modifies pm, mm
    ensures (SysView(pm, mm), ok) == KillPcbOn(old(SysView(pm, mm)), owner, pid)
  {
    ok := KillAndFree(owner, pid, pm, mm);
  }

  method SwapOut(owner: Text, pid: uint32, pm: ProcessManager, mm: MemoryManager) returns (ok: bool)
    requires Keyed(pm.pcbTable)
    modifies pm, mm
    ensures (SysView(pm, mm), ok) == SwapOutOn(old(SysView(pm, mm)), owner, pid)
  {
    if pid !in pm.pcbTable || pm.pcbTable[pid].owner != owner {
      return false;
    }
    if pm.pcbTable[pid].swappedOut {
      return false;
    }
    var released := mm.FreeByPid(owner, pid);
    if !released {
      return false;
    }
    ok := pm.MarkSwappedOut(owner, pid);
  }

  // Compact, then write the new addresses back, in no particular order.
  method Compact(pm: ProcessManager, mm: MemoryManager)
    modifies pm, mm
    ensures SysView(pm, mm) == CompactSys(old(SysView(pm, mm)))
  {
    var pidNewStart := mm.Compact();
    WriteBack(pidNewStart, pm);
  }

  method WriteBack(pidNewStart: map<uint32, uint32>, pm: ProcessManager)
    modifies pm`pcbTable
    ensures pm.View() == Relocate(old(pm.View()), pidNewStart)
  {
    ghost var was := pm.View();
    var todo := pidNewStart.Keys;
    while todo != {}
      invariant todo <= pidNewStart.Keys && pm.View() == Relocate(was, pidNewStart - todo)
    {
      var pid :| pid in todo;
      todo := todo - {pid};
      pm.UpdateProcessMemoryStart(pid, pidNewStart[pid]);
    }
    assert pidNewStart - {} == pidNewStart;
  }

  method Alloc(owner: Text, tag: Text, sizeKB: uint32, pm: ProcessManager, mm: MemoryManager) returns (ok: bool)
    modifies mm
    ensures (SysView(pm, mm), ok) ==
      Answered(old(SysView(pm, mm)), AllocSys(old(SysView(pm, mm)), owner, tag, sizeKB))
  {
    var start := mm.Allocate(owner, 0, tag, sizeKB, KERNEL);
    ok := start.Some?;
  }
}
