// The scheduler step, carried out on both managers.

module Scheduler {
  import opened Types
  import opened Allocation
  import opened ProcessTable
  import opened Subtrees
  import opened Scheduling
  import opened Coherence
  import opened Transactions
  import opened MemoryManagers
  import opened ProcessManagers

  ghost function SysView(pm: ProcessManager, mm: MemoryManager): Sys
    reads pm, mm
  {
    Sys(pm.View(), mm.View())
  }

  method FreeAll(owner: Text, pids: seq<uint32>, mm: MemoryManager)
    modifies mm`blocks
    ensures mm.blocks == FreeEach(old(mm.blocks), owner, pids)
  {
    for i := 0 to |pids|
      invariant mm.blocks == FreeEach(old(mm.blocks), owner, pids[..i])
    {
      assert pids[..i + 1][..i] == pids[..i];
      var freed := mm.FreeByPid(owner, pids[i]);
    }
    assert pids[..|pids|] == pids;
  }

  // One step, on any pair of tables. It runs at most one process, for the smaller of its quantum and its remaining
  // time; what is left of it always used the whole quantum.
  method Step(owner: Text, pm: ProcessManager, mm: MemoryManager)
    requires Keyed(pm.pcbTable)
    modifies pm, mm
    ensures SysView(pm, mm) == StepOn(old(SysView(pm, mm)), owner)
  {
    ghost var was := pm.View();
    var cleaned := pm.CleanupInvalidReadyQueueEntries();
    assert pm.readyQueues == Cleaned(was.pcbs, was.queues);
    PickIsRunnable(pm.pcbTable, pm.readyQueues, owner);
    var selected := pm.PickNextReadyProcess(owner);
    if selected.None? {
      return;
    }
    var pid := selected.value;
    var before := pm.pcbTable[pid];
    ghost var picked := pm.readyQueues;
    var quantum := Quantum(before.queueLevel);
    RunSelected(pid, quantum, pm);
    var after := pm.pcbTable[pid];
    var ticksUsed := Sub32(after.executedTime, before.executedTime);
    if after.remainingTime == 0 {
      KilledWhileRunning(was.(queues := picked), owner, pid);
      var ended := KillAndFree(owner, pid, pm, mm);
    } else {
      assert ticksUsed == quantum;
      RequeueSelected(pid, pm, was.(queues := picked), ticksUsed >= quantum);
    }
  }

  // What the pick finds is runnable and the user's.
  lemma {:induction false} ScanIsRunnable(pcbs: PcbMap, queue: seq<uint32>, owner: Text)
    ensures var r := Scan(pcbs, queue, owner).1; r.Some? ==> Runnable(pcbs, r.value) && Owned(pcbs, owner, r.value)
  {
    if queue != [] {
      ScanIsRunnable(pcbs, queue[1..], owner);
    }
  }

  lemma PickIsRunnable(pcbs: PcbMap, queues: Queues, owner: Text)
    ensures var r := Pick(pcbs, queues, owner).1; r.Some? ==> Runnable(pcbs, r.value) && Owned(pcbs, owner, r.value)
  {
    ScanIsRunnable(pcbs, queues[0], owner);
    ScanIsRunnable(pcbs, queues[1], owner);
    ScanIsRunnable(pcbs, queues[2], owner);
  }

  // The PCB while its process holds the processor, after its ticks.
  function Ran(x: PCB): PCB {
    var q := Quantum(x.queueLevel);
    var run := if q <= x.remainingTime then q else x.remainingTime;
    var slice := if x.timeSliceLeft == 0 then q else x.timeSliceLeft;
    x.(state := RUNNING, executedTime := Add32(x.executedTime, run), remainingTime := x.remainingTime - run,
       timeSliceLeft := if slice <= run then 0 else slice - run)
  }

  method RunSelected(pid: uint32, quantum: uint32, pm: ProcessManager)
    requires Runnable(pm.pcbTable, pid) && quantum == Quantum(pm.pcbTable[pid].queueLevel)
    modifies pm`pcbTable, pm`readyQueues
    ensures pm.pcbTable == old(pm.pcbTable)[pid := Ran(old(pm.pcbTable)[pid])]
    ensures pm.readyQueues == Dequeued(old(pm.readyQueues), {pid})
  {
    var running := pm.MarkRunning(pid);
    var ticked := pm.TickProcess(pid, quantum);
  }

  // Kill a subtree and free the memory of everything in it.
  method KillAndFree(owner: Text, pid: uint32, pm: ProcessManager, mm: MemoryManager) returns (ok: bool)
    modifies pm`pcbTable, pm`readyQueues, mm`blocks
    ensures (SysView(pm, mm), ok) == KillPcbOn(old(SysView(pm, mm)), owner, pid)
  {
    var removed: seq<uint32>;
    ok, removed := pm.KillProcess(owner, pid);
    if ok {
      FreeAll(owner, removed, mm);
    }
  }

  // Killing a process that has just run leaves what killing it at rest would have left, in the same order.
  lemma KilledWhileRunning(ps: Proc, owner: Text, pid: uint32)
    requires Owned(ps.pcbs, owner, pid)
    ensures var ran := Proc(ps.pcbs[pid := Ran(ps.pcbs[pid])], Dequeued(ps.queues, {pid}), ps.nextPid);
      var dead := Subtree(ps.pcbs, owner, pid);
      && Subtree(ran.pcbs, owner, pid) == dead && Remove(ran, dead) == Remove(ps, dead)
      && Walk(ran.pcbs, owner, [pid], {}) == Walk(ps.pcbs, owner, [pid], {})
  {
    var ran := Proc(ps.pcbs[pid := Ran(ps.pcbs[pid])], Dequeued(ps.queues, {pid}), ps.nextPid);
    var dead := Subtree(ps.pcbs, owner, pid);
    SameTree(ps.pcbs, ran.pcbs, owner, pid);
    SameWalk(ps.pcbs, ran.pcbs, owner, [pid], {});
    SubtreeOwned(ps.pcbs, owner, pid);
    DequeuedMore(ps.queues, {pid}, dead);
    assert {pid} + dead == dead;
    assert Remove(ran, dead).pcbs == Remove(ps, dead).pcbs;
  }

  // Demote it if it used its whole quantum, mark it ready and queue it.
  method RequeueSelected(pid: uint32, pm: ProcessManager, ghost was: Proc, usedFullQuantum: bool)
    requires Keyed(was.pcbs) && Runnable(was.pcbs, pid)
    requires was.pcbs[pid].remainingTime > Quantum(was.pcbs[pid].queueLevel) && usedFullQuantum
    requires pm.View() == Proc(was.pcbs[pid := Ran(was.pcbs[pid])], Dequeued(was.queues, {pid}), was.nextPid)
    modifies pm
    ensures pm.View() == Place(was, Demoted(was.pcbs[pid]))
  {
    DequeuedTwice(was.queues, {pid});
    if usedFullQuantum {
      var demoted := pm.DemoteProcess(pid);
    }
    var ready := pm.MarkReady(pid);
    var queued := pm.EnqueueReadyProcess(pid);
    assert pm.pcbTable == Place(was, Demoted(was.pcbs[pid])).pcbs;
  }
}
