// Processes and memory together: every process that is not swapped out owns exactly one process block, which
// agrees with its PCB, and there are no other process blocks.

module Coherence {
  import opened Types
  import opened BlockTable
  import opened Allocation
  import opened Compaction
  import opened ProcessTable
  import opened Subtrees
  import opened Scheduling

  datatype Sys = Sys(proc: Proc, mem: Mem)

  function BlockOf(x: PCB): Block {
    Block(x.memStart, x.memSize, PROCESS, x.pid, x.owner, x.name)
  }

  ghost predicate HasBlock(pcbs: PcbMap, bs: seq<Block>, p: uint32)
    requires p in pcbs
  {
    !pcbs[p].swappedOut ==> BlockOf(pcbs[p]) in bs
  }

  ghost predicate HasPcb(pcbs: PcbMap, b: Block) {
    b.kind.PROCESS? ==> b.pid in pcbs && !pcbs[b.pid].swappedOut && b == BlockOf(pcbs[b.pid])
  }

  ghost predicate Coherent(pcbs: PcbMap, bs: seq<Block>) {
    && (forall p :: p in pcbs ==> HasBlock(pcbs, bs, p))
    && (forall b :: b in bs ==> HasPcb(pcbs, b))
  }

  ghost predicate SysOk(s: Sys) {
    ProcOk(s.proc) && MemOk(s.mem) && Coherent(s.proc.pcbs, s.mem.blocks)
  }

  // ----- single processes -----

  // Changes that leave a process's memory fields alone keep coherence.
  lemma SameMemoryFields(pcbs: PcbMap, after: PcbMap, bs: seq<Block>)
    requires Coherent(pcbs, bs) && after.Keys == pcbs.Keys
    requires forall p :: p in pcbs ==>
      BlockOf(after[p]) == BlockOf(pcbs[p]) && after[p].swappedOut == pcbs[p].swappedOut
    ensures Coherent(after, bs)
  {
    forall p | p in after ensures HasBlock(after, bs, p) {
      assert HasBlock(pcbs, bs, p);
    }
    forall b | b in bs ensures HasPcb(after, b) {
      assert HasPcb(pcbs, b);
    }
  }

  ghost predicate KeepsMemory(pcbs: PcbMap, x: PCB) {
    x.pid in pcbs && BlockOf(x) == BlockOf(pcbs[x.pid]) && x.swappedOut == pcbs[x.pid].swappedOut
  }

  lemma PlaceSys(s: Sys, x: PCB)
    requires SysOk(s) && Revises(s.proc.pcbs, x) && PcbOk(x) && KeepsMemory(s.proc.pcbs, x)
    ensures SysOk(s.(proc := Place(s.proc, x)))
  {
    PlaceOk(s.proc, x);
    SameMemoryFields(s.proc.pcbs, Place(s.proc, x).pcbs, s.mem.blocks);
  }

  // ----- manual memory -----

  function AllocSys(s: Sys, owner: Text, tag: Text, size: uint32): Option<Sys>
  {
    var (m, start) :- AllocateMem(s.mem, owner, 0, tag, size, KERNEL);
    Some(s.(mem := m))
  }

  lemma AllocSysOk(s: Sys, owner: Text, tag: Text, size: uint32)
    requires SysOk(s)
    ensures AllocSys(s, owner, tag, size).Some? ==> SysOk(AllocSys(s, owner, tag, size).value)
  {
    AllocateAdds(s.mem, owner, 0, tag, size, KERNEL);
    var r := AllocSys(s, owner, tag, size);
    if r.Some? {
      var after := r.value.mem.blocks;
      forall p | p in s.proc.pcbs ensures HasBlock(s.proc.pcbs, after, p) {
        assert HasBlock(s.proc.pcbs, s.mem.blocks, p);
        assert Allocated(s.mem.blocks, BlockOf(s.proc.pcbs[p])) ==> Allocated(after, BlockOf(s.proc.pcbs[p]));
      }
      forall b | b in after ensures HasPcb(s.proc.pcbs, b) {
        if b.kind.PROCESS? {
          assert Allocated(after, b);
          assert Allocated(s.mem.blocks, b);
        }
      }
    }
  }

  // Releasing blocks that are not process blocks keeps coherence.
  lemma ReleaseOthers(s: Sys, gone: set<Block>)
    requires SysOk(s) && forall b :: b in gone ==> !b.kind.PROCESS?
    ensures SysOk(s.(mem := s.mem.(blocks := Release(s.mem.blocks, gone))))
  {
    ReleaseTable(s.mem.blocks, s.mem.total, gone);
    var after := Release(s.mem.blocks, gone);
    forall p | p in s.proc.pcbs ensures HasBlock(s.proc.pcbs, after, p) {
      assert HasBlock(s.proc.pcbs, s.mem.blocks, p);
      assert Allocated(s.mem.blocks, BlockOf(s.proc.pcbs[p])) ==> Allocated(after, BlockOf(s.proc.pcbs[p]));
    }
    forall b | b in after ensures HasPcb(s.proc.pcbs, b) {
      if b.kind.PROCESS? {
        assert Allocated(after, b);
      }
    }
  }

  // ----- create_pcb -----

  function CreateSys(s: Sys, owner: Text, name: Text, memKB: uint32, priority: int32, totalTime: uint32,
    ppid: Option<uint32>): Option<Sys>
  {
    if name == [] || memKB == 0 || totalTime == 0 || !(0 <= priority <= 15) then None
    else
      var (m, start) :- AllocateMem(s.mem, owner, s.proc.nextPid, name, memKB, PROCESS);
      var p :- CreateProc(s.proc, owner, name, memKB, start, priority, totalTime, ppid);
      Some(Sys(p, m))
  }

  lemma CreateCoherent(pcbs: PcbMap, bs: seq<Block>, x: PCB, after: PcbMap, afterBs: seq<Block>)
    requires Coherent(pcbs, bs) && x.pid !in pcbs && !x.swappedOut && after.Keys == pcbs.Keys + {x.pid}
    requires forall p :: p in after ==>
      after[p] == (if p == x.pid then x else pcbs[p]).(children := after[p].children)
    requires forall b :: Allocated(afterBs, b) <==> Allocated(bs, b) || b == BlockOf(x)
    ensures Coherent(after, afterBs)
  {
    forall p | p in after ensures HasBlock(after, afterBs, p) {
      if p != x.pid {
        assert HasBlock(pcbs, bs, p);
      }
      assert BlockOf(after[p]) == BlockOf(if p == x.pid then x else pcbs[p]);
      var b := BlockOf(after[p]);
      assert Allocated(afterBs, b) <==> Allocated(bs, b) || b == BlockOf(x);
    }
    forall b | b in afterBs ensures HasPcb(after, b) {
      if b.kind.PROCESS? {
        assert Allocated(afterBs, b);
        assert b != BlockOf(x) ==> HasPcb(pcbs, b);
      }
    }
  }

  // A creation keeps everything, save that the pid counter may wrap.
  lemma CreateSysOk(s: Sys, owner: Text, name: Text, memKB: uint32, priority: int32, totalTime: uint32,
    ppid: Option<uint32>)
    requires SysOk(s)
    ensures var r := CreateSys(s, owner, name, memKB, priority, totalTime, ppid);
      r.Some? ==>
        && PcbTableOk(r.value.proc) && MemOk(r.value.mem) && Coherent(r.value.proc.pcbs, r.value.mem.blocks)
        && (SysOk(r.value) <==> s.proc.nextPid + 1 < 0x1_0000_0000)
  {
    var r := CreateSys(s, owner, name, memKB, priority, totalTime, ppid);
    if r.Some? {
      AllocateAdds(s.mem, owner, s.proc.nextPid, name, memKB, PROCESS);
      var start := AllocateMem(s.mem, owner, s.proc.nextPid, name, memKB, PROCESS).value.1;
      CreateOk(s.proc, owner, name, memKB, start, priority, totalTime, ppid);
      CreateAdds(s.proc, owner, name, memKB, start, priority, totalTime, ppid);
      var x := FreshPcb(s.proc, owner, name, memKB, start, priority, totalTime,
                        if ppid.Some? then ppid.value else 0);
      CreateCoherent(s.proc.pcbs, s.mem.blocks, x, r.value.proc.pcbs, r.value.mem.blocks);
    }
  }

  // ----- kill, completion, swap-out -----

  ghost function FreeOwned(m: Mem, owner: Text, pids: set<uint32>): Mem {
    m.(blocks := Release(m.blocks, BlocksOf(m.blocks, owner, pids)))
  }

  ghost function RemoveSys(s: Sys, owner: Text, dead: set<uint32>): Sys {
    Sys(Remove(s.proc, dead), FreeOwned(s.mem, owner, dead))
  }

  lemma RemoveSysOk(s: Sys, owner: Text, dead: set<uint32>)
    requires SysOk(s) && Closed(s.proc.pcbs, dead)
    requires forall p :: p in dead && p in s.proc.pcbs ==> Owned(s.proc.pcbs, owner, p)
    ensures SysOk(RemoveSys(s, owner, dead))
  {
    var gone := BlocksOf(s.mem.blocks, owner, dead);
    var r := RemoveSys(s, owner, dead);
    RemoveOk(s.proc, dead);
    ReleaseTable(s.mem.blocks, s.mem.total, gone);
    forall p | p in r.proc.pcbs ensures HasBlock(r.proc.pcbs, r.mem.blocks, p) {
      assert HasBlock(s.proc.pcbs, s.mem.blocks, p);
      var b := BlockOf(s.proc.pcbs[p]);
      assert b.pid == p && b == BlockOf(r.proc.pcbs[p]);
      assert b in s.mem.blocks ==> Allocated(s.mem.blocks, b) && Allocated(r.mem.blocks, b);
    }
    forall b | b in r.mem.blocks ensures HasPcb(r.proc.pcbs, b) {
      if b.kind.PROCESS? {
        assert Allocated(r.mem.blocks, b);
        assert HasPcb(s.proc.pcbs, b);
      }
    }
  }

  ghost function KillSys(s: Sys, owner: Text, pid: uint32): Option<Sys> {
    if Owned(s.proc.pcbs, owner, pid) then Some(RemoveSys(s, owner, Subtree(s.proc.pcbs, owner, pid))) else None
  }

  ghost function StepSys(s: Sys, owner: Text): Sys {
    Sys(StepProc(s.proc, owner), FreeOwned(s.mem, owner, Finished(s.proc, owner)))
  }

  lemma KillSysOk(s: Sys, owner: Text, pid: uint32)
    requires SysOk(s)
    ensures KillSys(s, owner, pid).Some? ==> SysOk(KillSys(s, owner, pid).value)
  {
    SubtreeClosed(s.proc, owner, pid);
    SubtreeOwned(s.proc.pcbs, owner, pid);
    if Owned(s.proc.pcbs, owner, pid) {
      RemoveSysOk(s, owner, Subtree(s.proc.pcbs, owner, pid));
    }
  }

  lemma StepSysOk(s: Sys, owner: Text)
    requires SysOk(s)
    ensures SysOk(StepSys(s, owner))
  {
    var dead := Finished(s.proc, owner);
    var r := Select(s.proc, owner);
    FinishedClosed(s.proc, owner);
    if r.Some? && s.proc.pcbs[r.value].remainingTime <= Quantum(s.proc.pcbs[r.value].queueLevel) {
      RemoveSysOk(s, owner, dead);
      assert StepSys(s, owner) == RemoveSys(s, owner, dead);
    } else {
      ReleaseNothing(s.mem.blocks, s.mem.total, BlocksOf(s.mem.blocks, owner, dead));
      if r.Some? {
        SelectCorrect(s.proc, owner);
        PlaceSys(s, Demoted(s.proc.pcbs[r.value]));
      }
    }
  }

  ghost function SwapSys(s: Sys, owner: Text, pid: uint32): Option<Sys> {
    var p :- SwapProc(s.proc, owner, pid);
    Some(Sys(p, FreeOwned(s.mem, owner, {pid})))
  }

  lemma SwapSysOk(s: Sys, owner: Text, pid: uint32)
    requires SysOk(s)
    ensures SwapSys(s, owner, pid).Some? ==> SysOk(SwapSys(s, owner, pid).value)
  {
    var r := SwapSys(s, owner, pid);
    if r.Some? {
      var x := s.proc.pcbs[pid].(swappedOut := true, memStart := 0, state := SWAPPED);
      PlaceOk(s.proc, x);
      ReleaseTable(s.mem.blocks, s.mem.total, BlocksOf(s.mem.blocks, owner, {pid}));
      var pcbs, bs := r.value.proc.pcbs, r.value.mem.blocks;
      forall p | p in pcbs ensures HasBlock(pcbs, bs, p) {
        if p != pid {
          assert HasBlock(s.proc.pcbs, s.mem.blocks, p);
          var b := BlockOf(s.proc.pcbs[p]);
          assert b in s.mem.blocks ==> Allocated(s.mem.blocks, b) && Allocated(bs, b);
        }
      }
      forall b | b in bs ensures HasPcb(pcbs, b) {
        if b.kind.PROCESS? {
          assert Allocated(bs, b);
          assert HasPcb(s.proc.pcbs, b);
        }
      }
    }
  }

  // The one block of a live process that is not swapped out, and none otherwise.
  lemma BlocksOfOne(s: Sys, owner: Text, pid: uint32)
    requires SysOk(s)
    ensures BlocksOf(s.mem.blocks, owner, {pid}) ==
      if Owned(s.proc.pcbs, owner, pid) && !s.proc.pcbs[pid].swappedOut then {BlockOf(s.proc.pcbs[pid])} else {}
  {
    forall b | b in BlocksOf(s.mem.blocks, owner, {pid}) ensures HasPcb(s.proc.pcbs, b) {}
    if pid in s.proc.pcbs {
      assert HasBlock(s.proc.pcbs, s.mem.blocks, pid);
    }
  }

  // ----- compact -----

  function CompactSys(s: Sys): Sys {
    var c := Compacted(s.mem.blocks, s.mem.total);
    Sys(Relocate(s.proc, Starts(c)), s.mem.(blocks := c))
  }

  // In a coherent table no pid has two blocks.
  lemma OneBlockEach(s: Sys)
    requires SysOk(s)
    ensures OneBlockPerPid(Kept(s.mem.blocks, false))
  {
    var before := Kept(s.mem.blocks, false);
    KeptMembers(s.mem.blocks, false);
    KeptIncreasing(s.mem.blocks, 0, s.mem.total);
    forall i, j | 0 <= i < j < |before| && before[i].kind.PROCESS? && before[j].kind.PROCESS?
      ensures before[i].pid != before[j].pid
    {
      assert before[i] in before && before[j] in before;
      assert HasPcb(s.proc.pcbs, before[i]) && HasPcb(s.proc.pcbs, before[j]);
    }
  }

  lemma CompactOneBlockEach(s: Sys)
    requires SysOk(s)
    ensures UsedKB(s.mem.blocks) <= s.mem.total
    ensures OneBlockPerPid(Compacted(s.mem.blocks, s.mem.total))
    ensures forall i :: |Kept(s.mem.blocks, false)| <= i < |Compacted(s.mem.blocks, s.mem.total)| ==>
      Compacted(s.mem.blocks, s.mem.total)[i].kind.FREE?
  {
    CompactionKeepsBlocks(s.mem);
    OneBlockEach(s);
    var before, c := Kept(s.mem.blocks, false), Compacted(s.mem.blocks, s.mem.total);
    forall i, j | 0 <= i < j < |c| && c[i].kind.PROCESS? && c[j].kind.PROCESS? ensures c[i].pid != c[j].pid {
      assert j < |before|;
      assert before[i].pid == c[i].pid && before[j].pid == c[j].pid;
    }
  }

  lemma CompactedProcess(s: Sys, k: nat)
    requires SysOk(s) && k < |Kept(s.mem.blocks, false)| && Kept(s.mem.blocks, false)[k].kind.PROCESS?
    ensures UsedKB(s.mem.blocks) <= s.mem.total
    ensures var c := Compacted(s.mem.blocks, s.mem.total);
      var pid := Kept(s.mem.blocks, false)[k].pid;
      && k < |c| && pid in s.proc.pcbs && !s.proc.pcbs[pid].swappedOut
      && c[k] == BlockOf(Relocate(s.proc, Starts(c)).pcbs[pid])
  {
    var b := Kept(s.mem.blocks, false)[k];
    KeptMembers(s.mem.blocks, false);
    assert b in Kept(s.mem.blocks, false);
    assert HasPcb(s.proc.pcbs, b);
    CompactionKeepsBlocks(s.mem);
    CompactOneBlockEach(s);
    StartsExact(Compacted(s.mem.blocks, s.mem.total));
  }

  // After compact every PCB carries the new address of its block.
  lemma CompactSysOk(s: Sys)
    requires SysOk(s)
    ensures UsedKB(s.mem.blocks) <= s.mem.total && SysOk(CompactSys(s))
  {
    CompactedTable(s.mem);
    var before, c := Kept(s.mem.blocks, false), Compacted(s.mem.blocks, s.mem.total);
    RelocateOk(s.proc, Starts(c));
    CompactCoherent(s);
  }

  lemma CompactedHasBlock(s: Sys, p: uint32)
    requires SysOk(s) && p in s.proc.pcbs
    ensures UsedKB(s.mem.blocks) <= s.mem.total
    ensures var c := Compacted(s.mem.blocks, s.mem.total); HasBlock(Relocate(s.proc, Starts(c)).pcbs, c, p)
  {
    UsedFits(s.mem);
    var before := Kept(s.mem.blocks, false);
    if !s.proc.pcbs[p].swappedOut {
      assert HasBlock(s.proc.pcbs, s.mem.blocks, p);
      KeptMembers(s.mem.blocks, false);
      var k :| 0 <= k < |before| && before[k] == BlockOf(s.proc.pcbs[p]);
      CompactedProcess(s, k);
    }
  }

  lemma CompactedHasPcb(s: Sys, b: Block)
    requires SysOk(s)
    ensures UsedKB(s.mem.blocks) <= s.mem.total
    ensures var c := Compacted(s.mem.blocks, s.mem.total); b in c ==> HasPcb(Relocate(s.proc, Starts(c)).pcbs, b)
  {
    UsedFits(s.mem);
    var c := Compacted(s.mem.blocks, s.mem.total);
    if b in c && b.kind.PROCESS? {
      var k :| 0 <= k < |c| && c[k] == b;
      CompactOneBlockEach(s);
      CompactionKeepsBlocks(s.mem);
      CompactedProcess(s, k);
    }
  }

  lemma CompactCoherent(s: Sys)
    requires SysOk(s)
    ensures UsedKB(s.mem.blocks) <= s.mem.total
    ensures var c := Compacted(s.mem.blocks, s.mem.total); Coherent(Relocate(s.proc, Starts(c)).pcbs, c)
  {
    UsedFits(s.mem);
    forall p | p in s.proc.pcbs {
      CompactedHasBlock(s, p);
    }
    forall b {
      CompactedHasPcb(s, b);
    }
  }
}
