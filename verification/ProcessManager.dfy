// The process manager: the PCB table, the ready queues and the pid counter, updated in place.

module ProcessManagers {
  import opened Types
  import opened Sequences
  import opened ProcessTable
  import opened Subtrees
  import opened Scheduling
  import opened ProcessRestore

  class ProcessManager {
    var nextPid: uint32
    var pcbTable: PcbMap
    var readyQueues: Queues

    ghost function View(): Proc
      reads this
    {
      Proc(pcbTable, readyQueues, nextPid)
    }

    constructor ()
      ensures View() == Proc(map[], [[], [], []], 1)
    {
      nextPid := 1;
      pcbTable := map[];
      readyQueues := [[], [], []];
    }

    // ----- queues -----

    method RemoveFromReadyQueues(pid: uint32)
      modifies this`readyQueues
      ensures readyQueues == Dequeued(old(readyQueues), {pid})
    {
      for l := 0 to 3
        invariant forall k :: 0 <= k < l ==> readyQueues[k] == Without(old(readyQueues)[k], {pid})
        invariant forall k :: l <= k < 3 ==> readyQueues[k] == old(readyQueues)[k]
      {
        readyQueues := readyQueues[l := Without(readyQueues[l], {pid})];
      }
    }

    method EnqueueReady(pid: uint32)
      modifies this`readyQueues
      ensures readyQueues == Requeued(pcbTable, old(readyQueues), pid)
    {
      if pid !in pcbTable || !pcbTable[pid].state.READY? {
        return;
      }
      RemoveFromReadyQueues(pid);
      var level := pcbTable[pid].queueLevel;
      if 0 <= level < 3 {
        readyQueues := readyQueues[level := readyQueues[level] + [pid]];
      }
    }

    // Erase from every queue the entries that cannot run.
    method CleanupInvalidReadyQueueEntries() returns (removed: seq<uint32>)
      modifies this`readyQueues
      ensures forall l :: 0 <= l < 3 ==> readyQueues[l] == KeepRunnable(pcbTable, old(readyQueues)[l])
      ensures removed == Stale(pcbTable, old(readyQueues)[0]) + Stale(pcbTable, old(readyQueues)[1])
        + Stale(pcbTable, old(readyQueues)[2])
    {
      var q0 := CleanLevel(0);
      var q1 := CleanLevel(1);
      var q2 := CleanLevel(2);
      removed := q0 + q1 + q2;
    }

    // The same for one queue, erasing while iterating.
    method CleanLevel(l: nat) returns (removed: seq<uint32>)
      requires l < 3
      modifies this`readyQueues
      ensures readyQueues == old(readyQueues)[l := KeepRunnable(pcbTable, old(readyQueues)[l])]
      ensures removed == Stale(pcbTable, old(readyQueues)[l])
    {
      removed := [];
      var queue := readyQueues[l];
      var it := 0;
      while it < |queue|
        invariant it <= |queue| && readyQueues == old(readyQueues)
        invariant KeepRunnable(pcbTable, readyQueues[l]) == queue[..it] + KeepRunnable(pcbTable, queue[it..])
        invariant Stale(pcbTable, readyQueues[l]) == removed + Stale(pcbTable, queue[it..])
        decreases |queue| - it
      {
        if !Runnable(pcbTable, queue[it]) {
          removed := removed + [queue[it]];
          ghost var before := queue;
          queue := queue[..it] + queue[it + 1..];
          assert queue[..it] == before[..it] && queue[it..] == before[it..][1..];
        } else {
          assert queue[..it + 1] == queue[..it] + [queue[it]] && queue[it + 1..] == queue[it..][1..];
          it := it + 1;
        }
      }
      assert queue[..it] + [] == queue;
      readyQueues := readyQueues[l := queue];
    }

    method ScanLevel(l: nat, owner: Text) returns (found: Option<uint32>)
      requires l < 3
      modifies this`readyQueues
      ensures readyQueues == old(readyQueues)[l := Scan(pcbTable, old(readyQueues)[l], owner).0]
      ensures found == Scan(pcbTable, old(readyQueues)[l], owner).1
    {
      var queue := readyQueues[l];
      var it := 0;
      while it < |queue|
        invariant it <= |queue| && readyQueues == old(readyQueues)
        invariant Scan(pcbTable, old(readyQueues)[l], owner).0 == queue[..it] + Scan(pcbTable, queue[it..], owner).0
        invariant Scan(pcbTable, old(readyQueues)[l], owner).1 == Scan(pcbTable, queue[it..], owner).1
        decreases |queue| - it
      {
        var pid := queue[it];
        ghost var before := queue;
        if !Runnable(pcbTable, pid) {
          queue := queue[..it] + queue[it + 1..];
          assert queue[..it] == before[..it] && queue[it..] == before[it..][1..];
        } else if pcbTable[pid].owner != owner {
          assert queue[..it + 1] == queue[..it] + [queue[it]] && queue[it + 1..] == queue[it..][1..];
          it := it + 1;
        } else {
          queue := queue[..it] + queue[it + 1..];
          assert queue == before[..it] + before[it..][1..];
          readyQueues := readyQueues[l := queue];
          return Some(pid);
        }
      }
      assert queue[..it] + [] == queue;
      readyQueues := readyQueues[l := queue];
      found := None;
    }

    method PickNextReadyProcess(owner: Text) returns (found: Option<uint32>)
      modifies this`readyQueues
      ensures (readyQueues, found) == Pick(pcbTable, old(readyQueues), owner)
    {
      for l := 0 to 3
        invariant forall k :: 0 <= k < l ==> (readyQueues[k], None) == Scan(pcbTable, old(readyQueues)[k], owner)
        invariant forall k :: l <= k < 3 ==> readyQueues[k] == old(readyQueues)[k]
      {
        found := ScanLevel(l, owner);
        if found.Some? {
          assert readyQueues == Pick(pcbTable, old(readyQueues), owner).0;
          return;
        }
      }
      assert readyQueues == Pick(pcbTable, old(readyQueues), owner).0;
      found := None;
    }

    // ----- state changes of one process -----

    method MarkRunning(pid: uint32) returns (ok: bool)
      modifies this`readyQueues, this`pcbTable
      ensures ok <==> Runnable(old(pcbTable), pid)
      ensures !ok ==> View() == old(View())
      ensures ok ==>
        && readyQueues == Dequeued(old(readyQueues), {pid})
        && var x := old(pcbTable)[pid];
        && pcbTable == old(pcbTable)[pid := x.(state := RUNNING,
          timeSliceLeft := if x.timeSliceLeft == 0 then Quantum(x.queueLevel) else x.timeSliceLeft)]
    {
      if !Runnable(pcbTable, pid) {
        return false;
      }
      RemoveFromReadyQueues(pid);
      var x := pcbTable[pid].(state := RUNNING);
      if x.timeSliceLeft == 0 {
        x := x.(timeSliceLeft := Quantum(x.queueLevel));
      }
      pcbTable := pcbTable[pid := x];
      ok := true;
    }

    // Run a process tick by tick, at most until its time is used up. The 32-bit count of executed time may wrap.
    method TickProcess(pid: uint32, ticks: uint32) returns (ok: bool)
      modifies this`pcbTable
      ensures ok <==> pid in old(pcbTable) && old(pcbTable)[pid].state.RUNNING? && ticks > 0
      ensures !ok ==> pcbTable == old(pcbTable)
      ensures ok ==>
        var x := old(pcbTable)[pid];
        var run := if ticks <= x.remainingTime then ticks else x.remainingTime;
        pcbTable == old(pcbTable)[pid := x.(
          executedTime := Add32(x.executedTime, run),
          remainingTime := x.remainingTime - run,
          timeSliceLeft := if x.timeSliceLeft <= run then 0 else x.timeSliceLeft - run)]
    {
      if pid !in pcbTable || !pcbTable[pid].state.RUNNING? || ticks == 0 {
        return false;
      }
      var pcb := pcbTable[pid];
      ghost var x := pcb;
      var tick: nat := 1;
      while tick <= ticks && pcb.remainingTime > 0
        invariant 1 <= tick <= ticks + 1 && tick - 1 <= x.remainingTime
        invariant pcb == x.(
          executedTime := Add32(x.executedTime, tick - 1),
          remainingTime := x.remainingTime - (tick - 1),
          timeSliceLeft := if x.timeSliceLeft <= tick - 1 then 0 else x.timeSliceLeft - (tick - 1))
      {
        pcb := pcb.(executedTime := Add32(pcb.executedTime, 1), remainingTime := pcb.remainingTime - 1);
        if pcb.timeSliceLeft > 0 {
          pcb := pcb.(timeSliceLeft := pcb.timeSliceLeft - 1);
        }
        tick := tick + 1;
      }
      pcbTable := pcbTable[pid := pcb];
      ok := true;
    }

    method DemoteProcess(pid: uint32) returns (ok: bool)
      modifies this`pcbTable
      ensures ok <==> pid in old(pcbTable)
      ensures pcbTable ==
        if ok then
          var level := NextLevel(old(pcbTable)[pid].queueLevel);
          old(pcbTable)[pid := old(pcbTable)[pid].(queueLevel := level, timeSliceLeft := Quantum(level))]
        else
          old(pcbTable)
    {
      if pid !in pcbTable {
        return false;
      }
      var pcb := pcbTable[pid];
      if pcb.queueLevel < 2 {
        pcb := pcb.(queueLevel := pcb.queueLevel + 1);
      }
      pcbTable := pcbTable[pid := pcb.(timeSliceLeft := Quantum(pcb.queueLevel))];
      ok := true;
    }

    method MarkReady(pid: uint32) returns (ok: bool)
      modifies this`pcbTable
      ensures ok <==> (
        && pid in old(pcbTable)
        && !old(pcbTable)[pid].state.TERMINATED?
        && !old(pcbTable)[pid].state.SWAPPED?
        && !old(pcbTable)[pid].swappedOut)
      ensures pcbTable ==
        if ok then
          var x := old(pcbTable)[pid];
          old(pcbTable)[pid := x.(state := READY,
            timeSliceLeft := if x.timeSliceLeft == 0 then Quantum(x.queueLevel) else x.timeSliceLeft)]
        else
          old(pcbTable)
    {
      if pid !in pcbTable || pcbTable[pid].state.TERMINATED? || pcbTable[pid].state.SWAPPED? ||
         pcbTable[pid].swappedOut
      {
        return false;
      }
      var pcb := pcbTable[pid].(state := READY);
      if pcb.timeSliceLeft == 0 {
        pcb := pcb.(timeSliceLeft := Quantum(pcb.queueLevel));
      }
      pcbTable := pcbTable[pid := pcb];
      ok := true;
    }

    method EnqueueReadyProcess(pid: uint32) returns (ok: bool)
      modifies this`readyQueues
      ensures ok <==> Runnable(pcbTable, pid)
      ensures readyQueues ==
        if ok then Enqueued(old(readyQueues), pcbTable[pid].queueLevel, pid) else old(readyQueues)
    {
      if !Runnable(pcbTable, pid) {
        return false;
      }
      EnqueueReady(pid);
      ok := true;
    }

    method BlockProcess(owner: Text, pid: uint32) returns (ok: bool)
      requires Keyed(pcbTable)
      modifies this`readyQueues, this`pcbTable
      ensures Answers(ok, old(View()), View(), BlockProc(old(View()), owner, pid))
    {
      if pid !in pcbTable || pcbTable[pid].owner != owner {
        return false;
      }
      var pcb := pcbTable[pid];
      if !pcb.state.READY? && !pcb.state.RUNNING? {
        return false;
      }
      RemoveFromReadyQueues(pid);
      pcbTable := pcbTable[pid := pcb.(state := BLOCKED)];
      ok := true;
    }

    method WakeupProcess(owner: Text, pid: uint32) returns (ok: bool)
      requires Keyed(pcbTable)
      modifies this`readyQueues, this`pcbTable
      ensures Answers(ok, old(View()), View(), WakeupProc(old(View()), owner, pid))
    {
      if pid !in pcbTable || pcbTable[pid].owner != owner {
        return false;
      }
      var pcb := pcbTable[pid];
      if !pcb.state.BLOCKED? {
        return false;
      }
      pcbTable := pcbTable[pid := pcb.(state := READY)];
      EnqueueReady(pid);
      ok := true;
    }

    method SuspendProcess(owner: Text, pid: uint32) returns (ok: bool)
      requires Keyed(pcbTable)
      modifies this`readyQueues, this`pcbTable
      ensures Answers(ok, old(View()), View(), SuspendProc(old(View()), owner, pid))
    {
      if pid !in pcbTable || pcbTable[pid].owner != owner {
        return false;
      }
      var pcb := pcbTable[pid];
      if pcb.state.READY? || pcb.state.RUNNING? {
        RemoveFromReadyQueues(pid);
        pcbTable := pcbTable[pid := pcb.(state := SUSPENDED_READY)];
      } else if pcb.state.BLOCKED? {
        pcbTable := pcbTable[pid := pcb.(state := SUSPENDED_BLOCKED)];
      } else {
        return false;
      }
      ok := true;
    }

    method ResumeProcess(owner: Text, pid: uint32) returns (ok: bool)
      requires Keyed(pcbTable)
      modifies this`readyQueues, this`pcbTable
      ensures Answers(ok, old(View()), View(), ResumeProc(old(View()), owner, pid))
    {
      if pid !in pcbTable || pcbTable[pid].owner != owner {
        return false;
      }
      var pcb := pcbTable[pid];
      if pcb.state.SUSPENDED_READY? {
        pcbTable := pcbTable[pid := pcb.(state := READY)];
        EnqueueReady(pid);
      } else if pcb.state.SUSPENDED_BLOCKED? {
        pcbTable := pcbTable[pid := pcb.(state := BLOCKED)];
      } else {
        return false;
      }
      ok := true;
    }

    method ReniceProcess(owner: Text, pid: uint32, newPriority: int32) returns (ok: bool)
      requires Keyed(pcbTable)
      modifies this`readyQueues, this`pcbTable
      ensures Answers(ok, old(View()), View(), ReniceProc(old(View()), owner, pid, newPriority))
    {
      if !(0 <= newPriority <= 15) || pid !in pcbTable || pcbTable[pid].owner != owner {
        return false;
      }
      var pcb := pcbTable[pid];
      if pcb.state.READY? {
        RemoveFromReadyQueues(pid);
      }
      var level := LevelOf(newPriority);
      pcb := pcb.(priority := newPriority, queueLevel := level, timeSliceLeft := Quantum(level));
      pcbTable := pcbTable[pid := pcb];
      if pcb.state.READY? {
        DequeuedTwice(old(readyQueues), {pid});
        EnqueueReady(pid);
      }
      ok := true;
    }

    method MarkSwappedOut(owner: Text, pid: uint32) returns (ok: bool)
      requires Keyed(pcbTable)
      modifies this`readyQueues, this`pcbTable
      ensures Answers(ok, old(View()), View(), SwapProc(old(View()), owner, pid))
    {
      if pid !in pcbTable || pcbTable[pid].owner != owner {
        return false;
      }
      var pcb := pcbTable[pid];
      if pcb.swappedOut || pcb.state.SWAPPED? {
        return false;
      }
      RemoveFromReadyQueues(pid);
      pcbTable := pcbTable[pid := pcb.(swappedOut := true, memStart := 0, state := SWAPPED)];
      ok := true;
    }

    // ----- creation -----

    method CreateProcess(owner: Text, name: Text, memKB: uint32, memStart: uint32, priority: int32,
      totalTime: uint32, ppid: Option<uint32>) returns (outPid: Option<uint32>)
      modifies this
      ensures
        match CreateProc(old(View()), owner, name, memKB, memStart, priority, totalTime, ppid)
        case None => outPid == None && View() == old(View())
        case Some(ps) => outPid == Some(old(nextPid)) && View() == ps
    {
      if owner == [] || name == [] || memKB == 0 || !(0 <= priority <= 15) || totalTime == 0 {
        return None;
      }
      var parent := if ppid.Some? then ppid.value else 0;
      if parent != 0 && !(parent in pcbTable && pcbTable[parent].owner == owner) {
        return None;
      }
      var pid := nextPid;
      nextPid := Add32(nextPid, 1);
      var level := LevelOf(priority);
      var pcb := PCB(pid, parent, name, owner, READY, priority, level, totalTime, 0, totalTime, Quantum(level),
                     memStart, memKB, false, []);
      if pid !in pcbTable {
        pcbTable := pcbTable[pid := pcb];
      }
      if parent != 0 {
        pcbTable := pcbTable[parent := pcbTable[parent].(children := pcbTable[parent].children + [pid])];
      }
      EnqueueReady(pid);
      outPid := Some(pid);
    }

    // ----- addresses -----

    method UpdateProcessMemoryStart(pid: uint32, newStart: uint32)
      modifies this`pcbTable
      ensures pcbTable ==
        if pid in old(pcbTable) then old(pcbTable)[pid := old(pcbTable)[pid].(memStart := newStart)] else old(pcbTable)
    {
      if pid in pcbTable {
        pcbTable := pcbTable[pid := pcbTable[pid].(memStart := newStart)];
      }
    }

    // ----- kill -----

    // Depth-first walk over live children of the same user, in the order of their pids.
    method CollectSubtree(owner: Text, pid: uint32, ordered: seq<uint32>, visited: set<uint32>)
      returns (o: seq<uint32>, v: set<uint32>)
      requires forall x :: x in ordered <==> x in visited
      ensures forall x :: x in o <==> x in v
      ensures visited <= v
      ensures Visits(pcbTable, owner, [pid], ordered, visited, o, v)
      decreases pcbTable.Keys - visited
    {
      o, v := ordered, visited;
      if pid in visited || pid !in pcbTable || pcbTable[pid].owner != owner {
        VisitAgain(pcbTable, owner, pid, ordered, visited);
        return;
      }
      v := v + {pid};
      o := o + [pid];
      var children := SortIds(pcbTable[pid].children);
      VisitNothing(pcbTable, owner, o, v);
      for i := 0 to |children|
        invariant forall x :: x in o <==> x in v
        invariant visited + {pid} <= v
        invariant Visits(pcbTable, owner, children[..i], ordered + [pid], visited + {pid}, o, v)
      {
        ghost var before, listed := v, o;
        var child := children[i];
        assert pcbTable.Keys - v < pcbTable.Keys - visited by {
          assert pid in pcbTable.Keys - visited && pid !in pcbTable.Keys - v;
        }
        o, v := CollectSubtree(owner, child, o, v);
        VisitBoth(pcbTable, owner, children[..i], [child], ordered + [pid], visited + {pid}, listed, before, o, v);
        assert children[..i + 1] == children[..i] + [child];
      }
      assert children[..|children|] == children;
      VisitNew(pcbTable, owner, pid, ordered, visited, o, v);
    }

    // The walk from a process finds exactly its subtree, each process once, cyclic children lists or not.
    method Collect(owner: Text, pid: uint32) returns (removed: seq<uint32>, visited: set<uint32>)
      requires Owned(pcbTable, owner, pid)
      ensures visited == Subtree(pcbTable, owner, pid)
      ensures Distinct(removed) && forall x :: x in removed <==> x in visited
      ensures removed == Walk(pcbTable, owner, [pid], {})
    {
      removed, visited := CollectSubtree(owner, pid, [], {});
      VisitsAll(pcbTable, owner, [pid], removed, visited);
      WalkIsSubtree(pcbTable, owner, pid);
    }

    method KillProcess(owner: Text, pid: uint32) returns (ok: bool, removedPids: seq<uint32>)
      modifies this`readyQueues, this`pcbTable
      ensures ok <==> Owned(old(pcbTable), owner, pid)
      ensures !ok ==> View() == old(View())
      ensures ok ==>
        && View() == Remove(old(View()), Subtree(old(pcbTable), owner, pid))
        && Distinct(removedPids)
        && (forall p :: p in removedPids <==> p in Subtree(old(pcbTable), owner, pid))
        && removedPids == Walk(old(pcbTable), owner, [pid], {})
    {
      removedPids := [];
      if !(pid in pcbTable && pcbTable[pid].owner == owner) {
        return false, [];
      }
      var removed, visited := Collect(owner, pid);
      Terminate(removed, visited);
      FilterChildren(visited);
      EraseAll(removed, visited);
      removedPids := removed;
      ok := true;
    }

    // Take the doomed processes out of the queues and mark them.
    method Terminate(removed: seq<uint32>, ghost dead: set<uint32>)
      requires forall p :: p in removed <==> p in dead
      modifies this`readyQueues, this`pcbTable
      ensures readyQueues == Dequeued(old(readyQueues), dead)
      ensures pcbTable == map p | p in old(pcbTable) ::
        if p in dead then old(pcbTable)[p].(state := TERMINATED) else old(pcbTable)[p]
    {
      ghost var done: set<uint32> := {};
      DequeuedNone(readyQueues, done);
      for i := 0 to |removed|
        invariant done == set j | 0 <= j < i :: removed[j]
        invariant readyQueues == Dequeued(old(readyQueues), done)
        invariant pcbTable.Keys == old(pcbTable).Keys
        invariant forall p :: p in pcbTable ==>
          pcbTable[p] == if p in done then old(pcbTable)[p].(state := TERMINATED) else old(pcbTable)[p]
      {
        var p := removed[i];
        assert p in removed;
        DequeuedMore(old(readyQueues), done, {p});
        RemoveFromReadyQueues(p);
        done := done + {p};
        if p in pcbTable {
          pcbTable := pcbTable[p := pcbTable[p].(state := TERMINATED)];
        }
      }
      assert done == dead;
    }

    // Erase the doomed from every children list, visiting the table in no particular order.
    method FilterChildren(dead: set<uint32>)
      modifies this`pcbTable
      ensures pcbTable == map p | p in old(pcbTable) ::
        old(pcbTable)[p].(children := Without(old(pcbTable)[p].children, dead))
    {
      var todo := pcbTable.Keys;
      while todo != {}
        invariant todo <= pcbTable.Keys == old(pcbTable).Keys
        invariant forall p :: p in todo ==> pcbTable[p] == old(pcbTable)[p]
        invariant forall p :: p in pcbTable && p !in todo ==>
          pcbTable[p] == old(pcbTable)[p].(children := Without(old(pcbTable)[p].children, dead))
      {
        var p :| p in todo;
        pcbTable := pcbTable[p := pcbTable[p].(children := Without(pcbTable[p].children, dead))];
        todo := todo - {p};
      }
    }

    method EraseAll(removed: seq<uint32>, ghost dead: set<uint32>)
      requires forall p :: p in removed <==> p in dead
      modifies this`pcbTable
      ensures pcbTable == old(pcbTable) - dead
    {
      for i := 0 to |removed|
        invariant pcbTable == old(pcbTable) - (set j | 0 <= j < i :: removed[j])
      {
        pcbTable := pcbTable - {removed[i]};
      }
      assert dead == set j | 0 <= j < |removed| :: removed[j];
    }

    // ----- snapshots -----

    // Copy the table in the order of the pids.
    method ExportPcbs() returns (pcbs: seq<PCB>)
      requires Keyed(pcbTable)
      ensures pcbs == ListPcbs(pcbTable)
    {
      var ids: seq<uint32> := [];
      var todo := pcbTable.Keys;
      while todo != {}
        invariant todo <= pcbTable.Keys && Distinct(ids)
        invariant forall p :: p in ids <==> p in pcbTable && p !in todo
      {
        var p :| p in todo;
        ids := ids + [p];
        todo := todo - {p};
      }
      var sorted := SortIds(ids);
      SortIdsCorrect(ids);
      AscendingUnique(sorted, Listed(pcbTable.Keys));
      pcbs := [];
      for i := 0 to |sorted|
        invariant |pcbs| == i && forall j :: 0 <= j < i ==> sorted[j] in pcbTable && pcbs[j] == pcbTable[sorted[j]]
      {
        assert sorted[i] in sorted;
        pcbs := pcbs + [pcbTable[sorted[i]]];
      }
    }

    // The table, queues that hold the READY processes in no particular order, and a counter past every pid.
    method ImportPcbs(pcbs: seq<PCB>)
      modifies this
      ensures pcbTable == IndexPcbs(pcbs)
      ensures QueuesOk(pcbTable, readyQueues)
      ensures IsNextPid(pcbs, nextPid)
    {
      IndexTable(pcbs);
      FillQueues();
    }

    method IndexTable(pcbs: seq<PCB>)
      modifies this`pcbTable, this`nextPid
      ensures pcbTable == IndexPcbs(pcbs) && IsNextPid(pcbs, nextPid)
    {
      pcbTable := map[];
      nextPid := 1;
      for i := 0 to |pcbs|
        invariant pcbTable == IndexPcbs(pcbs[..i]) && IsNextPid(pcbs[..i], nextPid)
      {
        assert pcbs[..i + 1] == pcbs[..i] + [pcbs[i]] && pcbs[..i + 1][..i] == pcbs[..i];
        NextPidAfter(pcbs[..i], nextPid, pcbs[i]);
        pcbTable := pcbTable[pcbs[i].pid := pcbs[i]];
        var next := Add32(pcbs[i].pid, 1);
        nextPid := if nextPid < next then next else nextPid;
      }
      assert pcbs[..|pcbs|] == pcbs;
    }

    method FillQueues()
      modifies this`readyQueues
      ensures QueuesOk(pcbTable, readyQueues)
    {
      readyQueues := [[], [], []];
      var todo := pcbTable.Keys;
      while todo != {}
        invariant todo <= pcbTable.Keys
        invariant forall l: int32 :: 0 <= l < 3 ==> Filled(pcbTable, readyQueues[l], l, todo)
      {
        var p :| p in todo;
        todo := todo - {p};
        var level := pcbTable[p].queueLevel;
        if pcbTable[p].state.READY? && 0 <= level < 3 {
          readyQueues := readyQueues[level := readyQueues[level] + [p]];
        }
      }
    }

    method ImportNextPid(next: uint32)
      modifies this`nextPid
      ensures nextPid == if next < 1 then 1 else next
    {
      nextPid := if next < 1 then 1 else next;
    }

    method ImportReadyQueues(queues: Queues)
      modifies this`readyQueues
      ensures readyQueues == queues
    {
      readyQueues := queues;
    }

    // Recompute every children list from the parents.
    method RebuildParentChildRelations()
      modifies this`pcbTable
      ensures pcbTable == Rebuilt(old(pcbTable))
    {
      var children := GatherChildren();
      var todo := pcbTable.Keys;
      while todo != {}
        invariant todo <= pcbTable.Keys == old(pcbTable).Keys == children.Keys
        invariant forall p :: p in todo ==> pcbTable[p] == old(pcbTable)[p]
        invariant forall p :: p in pcbTable && p !in todo ==> pcbTable[p] == Rebuilt(old(pcbTable))[p]
      {
        var p :| p in todo;
        SortIdsCorrect(children[p]);
        AscendingUnique(SortIds(children[p]), Listed(ChildrenOf(old(pcbTable), p)));
        pcbTable := pcbTable[p := pcbTable[p].(children := SortIds(children[p]))];
        todo := todo - {p};
      }
    }

    // Append every process to its parent's list, visiting the table in no particular order.
    method GatherChildren() returns (children: map<uint32, seq<uint32>>)
      ensures children.Keys == pcbTable.Keys
      ensures forall p :: p in pcbTable ==>
        Distinct(children[p]) && forall c :: c in children[p] <==> c in ChildrenOf(pcbTable, p)
    {
      children := map p | p in pcbTable :: [];
      var todo := pcbTable.Keys;
      while todo != {}
        invariant todo <= pcbTable.Keys == children.Keys
        invariant forall p :: p in pcbTable ==>
          Distinct(children[p]) && forall c :: c in children[p] <==> c in ChildrenOf(pcbTable, p) && c !in todo
      {
        var c :| c in todo;
        var parent := pcbTable[c].ppid;
        if parent != 0 && parent in pcbTable && pcbTable[parent].owner == pcbTable[c].owner {
          children := children[parent := children[parent] + [c]];
        }
        todo := todo - {c};
      }
    }

    // Erase the entries that do not belong in their queue, repetitions included, while iterating.
    method ValidateReadyQueues()
      modifies this`readyQueues
      ensures readyQueues == RepairedQueues(pcbTable, old(readyQueues))
    {
      var seen: set<uint32> := {};
      for l: int32 := 0 to 3
        invariant forall k: int32 :: 0 <= k < l ==> readyQueues[k] == Repaired(pcbTable, old(readyQueues)[k], k)
        invariant forall k :: l <= k < 3 ==> readyQueues[k] == old(readyQueues)[k]
        invariant forall p :: p in seen ==> p in pcbTable && 0 <= pcbTable[p].queueLevel < l
      {
        seen := RepairQueue(l, seen);
      }
    }

    method RepairQueue(l: int32, seenBefore: set<uint32>) returns (seen: set<uint32>)
      requires 0 <= l < 3
      requires forall p :: p in seenBefore ==> p in pcbTable && pcbTable[p].queueLevel < l
      modifies this`readyQueues
      ensures readyQueues == old(readyQueues)[l := Repaired(pcbTable, old(readyQueues)[l], l)]
      ensures forall p :: p in seen ==> p in seenBefore || (p in pcbTable && pcbTable[p].queueLevel == l)
    {
      seen := seenBefore;
      var queue := readyQueues[l];
      ghost var done := 0;
      var it := 0;
      while it < |queue|
        invariant it <= |queue| && it <= done <= |old(readyQueues)[l]| && readyQueues == old(readyQueues)
        invariant queue[it..] == old(readyQueues)[l][done..]
        invariant queue[..it] == Repaired(pcbTable, old(readyQueues)[l][..done], l)
        invariant forall p :: p in seen <==> p in seenBefore || p in queue[..it]
        invariant forall p :: p in queue[..it] ==> p in pcbTable && pcbTable[p].queueLevel == l
        decreases |queue| - it
      {
        var p := queue[it];
        ghost var before, was := queue, old(readyQueues)[l];
        assert p == queue[it..][0] == was[done];
        assert was[..done + 1][..done] == was[..done];
        assert was[done + 1..] == was[done..][1..] == queue[it..][1..];
        if p !in pcbTable || !pcbTable[p].state.READY? || pcbTable[p].swappedOut || pcbTable[p].queueLevel != l ||
           p in seen
        {
          queue := queue[..it] + queue[it + 1..];
          assert queue[..it] == before[..it] && queue[it..] == before[it + 1..];
        } else {
          seen := seen + {p};
          it := it + 1;
          assert queue[..it] == before[..it - 1] + [p];
        }
        done := done + 1;
      }
      assert queue[..it] == queue && old(readyQueues)[l][..done] == old(readyQueues)[l];
      readyQueues := readyQueues[l := queue];
    }
  }

  // A queue as far as it is filled: the READY processes of its level that have been visited.
  ghost predicate Filled(pcbs: PcbMap, queue: seq<uint32>, level: int32, todo: set<uint32>) {
    Distinct(queue) && forall p :: p in queue <==> ReadyAt(pcbs, p, level) && p !in todo
  }

  // The least counter past every pid, with the one after the largest pid wrapping to 0.
  ghost predicate IsNextPid(pcbs: seq<PCB>, next: uint32) {
    && 1 <= next
    && (forall x :: x in pcbs ==> Add32(x.pid, 1) <= next)
    && (next == 1 || exists x :: x in pcbs && next == Add32(x.pid, 1))
  }

  lemma NextPidAfter(pcbs: seq<PCB>, next: uint32, x: PCB)
    requires IsNextPid(pcbs, next)
    ensures IsNextPid(pcbs + [x], if next < Add32(x.pid, 1) then Add32(x.pid, 1) else next)
  {
    assert x in pcbs + [x];
    assert forall y :: y in pcbs ==> y in pcbs + [x];
  }

  // A call that may refuse: it changes nothing, or leaves the state it was meant to.
  ghost predicate Answers(ok: bool, before: Proc, after: Proc, meant: Option<Proc>) {
    match meant
    case None => !ok && after == before
    case Some(ps) => ok && after == ps
  }

  // What the clean-up drops, in order.
  function Stale(pcbs: PcbMap, queue: seq<uint32>): seq<uint32> {
    if queue == [] then []
    else if Runnable(pcbs, queue[0]) then Stale(pcbs, queue[1..])
    else [queue[0]] + Stale(pcbs, queue[1..])
  }
}
