// Listing the process table for a snapshot, and what an import rebuilds from such a list.

module ProcessRestore {
  import opened Types
  import opened Sequences
  import opened ProcessTable

  // ----- listing and indexing -----

  // A list of PCBs as a table; of two with one pid the later counts.
  function IndexPcbs(s: seq<PCB>): PcbMap {
    if s == [] then map[] else IndexPcbs(s[..|s| - 1])[s[|s| - 1].pid := s[|s| - 1]]
  }

  ghost predicate DistinctPids(s: seq<PCB>) {
    forall i, j :: 0 <= i < j < |s| ==> s[i].pid != s[j].pid
  }

  lemma {:induction false} IndexKeys(s: seq<PCB>)
    ensures forall p :: p in IndexPcbs(s) ==> IndexPcbs(s)[p] in s && IndexPcbs(s)[p].pid == p
    ensures forall x :: x in s ==> x.pid in IndexPcbs(s)
    ensures DistinctPids(s) ==> forall x :: x in s ==> IndexPcbs(s)[x.pid] == x
  {
    if s != [] {
      var n := |s| - 1;
      IndexKeys(s[..n]);
      assert s == s[..n] + [s[n]];
    }
  }

  // The PCBs of a table in the order of their pids.
  ghost function ListPcbs(pcbs: PcbMap): (r: seq<PCB>)
    ensures |r| == |Listed(pcbs.Keys)|
    ensures forall i :: 0 <= i < |r| ==> Listed(pcbs.Keys)[i] in pcbs && r[i] == pcbs[Listed(pcbs.Keys)[i]]
  {
    var ids := Listed(pcbs.Keys);
    assert forall i :: 0 <= i < |ids| ==> ids[i] in pcbs;
    seq(|ids|, i requires 0 <= i < |ids| => pcbs[ids[i]])
  }

  lemma ListMembers(pcbs: PcbMap)
    requires forall p :: p in pcbs ==> pcbs[p].pid == p
    ensures forall x: PCB :: x in ListPcbs(pcbs) <==> x.pid in pcbs && pcbs[x.pid] == x
    ensures DistinctPids(ListPcbs(pcbs))
  {
    var ids, r := Listed(pcbs.Keys), ListPcbs(pcbs);
    forall x: PCB | x.pid in pcbs && pcbs[x.pid] == x ensures x in r {
      var i :| 0 <= i < |ids| && ids[i] == x.pid;
      assert r[i] == x;
    }
  }

  // Indexing the list of a table gives the table back.
  lemma IndexOfList(pcbs: PcbMap)
    requires forall p :: p in pcbs ==> pcbs[p].pid == p
    ensures IndexPcbs(ListPcbs(pcbs)) == pcbs
  {
    ListMembers(pcbs);
    IndexKeys(ListPcbs(pcbs));
    assert forall p :: p in pcbs ==> pcbs[p] in ListPcbs(pcbs);
  }

  // ----- the forest -----

  ghost function ChildrenOf(pcbs: PcbMap, p: uint32): set<uint32> {
    set c | c in pcbs && pcbs[c].ppid != 0 && pcbs[c].ppid == p && p in pcbs && pcbs[c].owner == pcbs[p].owner
  }

  // Children lists recomputed from the parents.
  ghost function Rebuilt(pcbs: PcbMap): PcbMap {
    map p | p in pcbs :: pcbs[p].(children := Listed(ChildrenOf(pcbs, p)))
  }

  lemma RebuiltIsIdentity(pcbs: PcbMap)
    requires ForestOk(pcbs) && 0 !in pcbs
    ensures Rebuilt(pcbs) == pcbs
  {
    forall p | p in pcbs ensures Listed(ChildrenOf(pcbs, p)) == pcbs[p].children {
      assert ChildrenOk(pcbs, p);
      forall c ensures c in Listed(ChildrenOf(pcbs, p)) <==> c in pcbs[p].children {
        if c in pcbs {
          assert ParentOk(pcbs, c);
        }
      }
      AscendingUnique(Listed(ChildrenOf(pcbs, p)), pcbs[p].children);
    }
  }

  // ----- the queues -----

  predicate Queueable(pcbs: PcbMap, p: uint32, level: int32) {
    Runnable(pcbs, p) && pcbs[p].queueLevel == level
  }

  // The first occurrences of the entries that belong in a queue.
  function Repaired(pcbs: PcbMap, queue: seq<uint32>, level: int32): seq<uint32> {
    if queue == [] then []
    else
      var n := |queue| - 1;
      var r := Repaired(pcbs, queue[..n], level);
      if Queueable(pcbs, queue[n], level) && queue[n] !in r then r + [queue[n]] else r
  }

  // Whatever is imported, the repaired queue holds each entry that belongs there, once, and nothing else.
  lemma {:induction false} RepairedCorrect(pcbs: PcbMap, queue: seq<uint32>, level: int32)
    ensures Distinct(Repaired(pcbs, queue, level))
    ensures forall p :: p in Repaired(pcbs, queue, level) <==> p in queue && Queueable(pcbs, p, level)
  {
    if queue != [] {
      var n := |queue| - 1;
      RepairedCorrect(pcbs, queue[..n], level);
      assert queue == queue[..n] + [queue[n]];
    }
  }

  lemma {:induction false} RepairedIsIdentity(pcbs: PcbMap, queue: seq<uint32>, level: int32)
    requires Distinct(queue) && forall p :: p in queue ==> Queueable(pcbs, p, level)
    ensures Repaired(pcbs, queue, level) == queue
  {
    if queue != [] {
      var n := |queue| - 1;
      assert Distinct(queue[..n]);
      assert queue[n] in queue && queue[n] !in queue[..n];
      RepairedIsIdentity(pcbs, queue[..n], level);
    }
  }

  function RepairedQueues(pcbs: PcbMap, qs: Queues): Queues {
    [Repaired(pcbs, qs[0], 0), Repaired(pcbs, qs[1], 1), Repaired(pcbs, qs[2], 2)]
  }

  lemma QueuesNeedNoRepair(ps: Proc)
    requires ProcOk(ps)
    ensures RepairedQueues(ps.pcbs, ps.queues) == ps.queues
  {
    var q := ps.queues;
    assert forall p :: p in q[0] ==> ReadyAt(ps.pcbs, p, 0);
    assert forall p :: p in q[1] ==> ReadyAt(ps.pcbs, p, 1);
    assert forall p :: p in q[2] ==> ReadyAt(ps.pcbs, p, 2);
    RepairedIsIdentity(ps.pcbs, q[0], 0);
    RepairedIsIdentity(ps.pcbs, q[1], 1);
    RepairedIsIdentity(ps.pcbs, q[2], 2);
  }

  // The process state that an import makes of a snapshot's fields.
  ghost function ImportedProc(pcbs: seq<PCB>, queues: Queues, nextPid: uint32): Proc {
    var t := Rebuilt(IndexPcbs(pcbs));
    Proc(t, RepairedQueues(t, queues), if nextPid < 1 then 1 else nextPid)
  }

  // Importing what was exported rebuilds the same process state, children lists and queue order included.
  lemma ImportUndoesExport(ps: Proc)
    requires ProcOk(ps)
    ensures ImportedProc(ListPcbs(ps.pcbs), ps.queues, ps.nextPid) == ps
  {
    IndexOfList(ps.pcbs);
    RebuiltIsIdentity(ps.pcbs);
    QueuesNeedNoRepair(ps);
  }
}
