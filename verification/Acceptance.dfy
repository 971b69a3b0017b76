// What passing the check says about a snapshot, and what it does not.

module Acceptance {
  import opened Types
  import opened Sequences
  import opened BlockTable
  import opened ProcessTable
  import opened ProcessRestore
  import opened Coherence
  import opened Users
  import opened SnapshotFormat
  import opened KernelState
  import opened VirtualFileSystems

  // ----- what acceptance alone guarantees -----

  // Any accepted snapshot, whoever wrote it, leaves a coalesced tiling, queues that hold only runnable processes of
  // their level and each once, children lists that agree with the parents, and one matching block for every process
  // that is not swapped out.
  lemma AcceptedSnapshotGuarantees(s: Snapshot, disk: Option<seq<byte>>)
    requires ValidSnapshot(s)
    ensures var k := Restored(s, disk);
      var ps, m := k.sys.proc, k.sys.mem;
      && ValidTable(m.blocks, m.total) && Coalesced(m.blocks)
      && (forall l :: 0 <= l < 3 ==> Distinct(ps.queues[l]))
      && (forall l: int32, p :: 0 <= l < 3 && p in ps.queues[l] ==>
          p in ps.pcbs && ps.pcbs[p].state == READY && !ps.pcbs[p].swappedOut && ps.pcbs[p].queueLevel == l)
      && (forall p, c :: p in ps.pcbs ==> (c in ps.pcbs[p].children <==> c in ChildrenOf(ps.pcbs, p)))
      && (forall x :: x in s.pcbs ==> FieldsInRange(x, s.nextPid))
      && (forall b :: b in m.blocks && b.kind.PROCESS? ==> MatchesPcb(ps.pcbs, b))
      && (forall p :: p in ps.pcbs && !IsSwapped(ps.pcbs[p]) ==> OwnsBlock(m.blocks, p))
  {
    RestoredQueuesFit(Rebuilt(IndexPcbs(s.pcbs)), s.readyQueues);
    AcceptedParts(s);
  }

  lemma AcceptedParts(s: Snapshot)
    requires ValidSnapshot(s)
    ensures var pcbs, bs := Rebuilt(IndexPcbs(s.pcbs)), Normalized(s.memoryBlocks);
      && ValidTable(bs, s.totalMemoryKB) && Coalesced(bs)
      && (forall p, c :: p in pcbs ==> (c in pcbs[p].children <==> c in ChildrenOf(pcbs, p)))
      && (forall x :: x in s.pcbs ==> FieldsInRange(x, s.nextPid))
      && (forall b :: b in bs && b.kind.PROCESS? ==> MatchesPcb(pcbs, b))
      && (forall p :: p in pcbs && !IsSwapped(pcbs[p]) ==> OwnsBlock(bs, p))
  {
    var table := IndexPcbs(s.pcbs);
    ValidImportIsCoalesced(s.memoryBlocks, s.totalMemoryKB);
    assert forall p :: p in table ==> ChildrenOf(Rebuilt(table), p) == ChildrenOf(table, p);
    AcceptedBlocks(s);
  }

  lemma RestoredQueuesFit(pcbs: PcbMap, qs: Queues)
    ensures var after := RepairedQueues(pcbs, qs);
      && (forall l :: 0 <= l < 3 ==> Distinct(after[l]))
      && (forall l: int32, p :: 0 <= l < 3 && p in after[l] ==>
          p in pcbs && pcbs[p].state == READY && !pcbs[p].swappedOut && pcbs[p].queueLevel == l)
  {
    RepairedCorrect(pcbs, qs[0], 0);
    RepairedCorrect(pcbs, qs[1], 1);
    RepairedCorrect(pcbs, qs[2], 2);
  }

  // The fields of a PCB alone.
  predicate FieldsInRange(x: PCB, nextPid: uint32) {
    && 0 < x.pid < nextPid && x.ppid != x.pid
    && 0 <= x.priority <= 15 && 0 <= x.queueLevel <= 2
    && x.executedTime <= x.totalTime && x.remainingTime <= x.totalTime
  }

  // The block agrees with the PCB of its pid.
  ghost predicate MatchesPcb(pcbs: PcbMap, b: Block) {
    && b.pid in pcbs && b.owner == pcbs[b.pid].owner && !IsSwapped(pcbs[b.pid])
    && b.start == pcbs[b.pid].memStart && b.size == pcbs[b.pid].memSize
  }

  lemma AcceptedBlocks(s: Snapshot)
    requires ValidSnapshot(s)
    ensures var pcbs, bs := Rebuilt(IndexPcbs(s.pcbs)), Normalized(s.memoryBlocks);
      && (forall b :: b in bs && b.kind.PROCESS? ==> MatchesPcb(pcbs, b))
      && (forall p :: p in pcbs && !IsSwapped(pcbs[p]) ==> OwnsBlock(bs, p))
  {
    var pcbs, bs := Rebuilt(IndexPcbs(s.pcbs)), Normalized(s.memoryBlocks);
    NormalizedKeepsAllocated(s.memoryBlocks);
    forall b | b in bs && b.kind.PROCESS? ensures MatchesPcb(pcbs, b) {
      assert Allocated(bs, b);
      assert Allocated(s.memoryBlocks, b);
      assert BlockValid(s, b);
    }
    IndexKeys(s.pcbs);
    forall p | p in pcbs && !IsSwapped(pcbs[p]) ensures OwnsBlock(bs, p) {
      assert IndexPcbs(s.pcbs)[p] in s.pcbs;
      var b :| b in s.memoryBlocks && b.kind.PROCESS? && b.pid == p;
      assert Allocated(s.memoryBlocks, b);
      assert Allocated(bs, b);
    }
  }

  // ----- what the check leaves out -----

  // Record by record, what the check would have to ask for besides: PCBs at rest with consistent counters, older
  // parents of the same user, READY processes queued, and so on.
  ghost predicate PcbInOrder(s: Snapshot, x: PCB) {
    var table := IndexPcbs(s.pcbs);
    && PcbOk(x)
    && (x.ppid != 0 ==> x.ppid < x.pid && x.ppid in table && table[x.ppid].owner == x.owner)
    && (x.state.READY? ==> x.pid in s.readyQueues[x.queueLevel])
  }

  ghost predicate BlockInOrder(s: Snapshot, b: Block) {
    var table := IndexPcbs(s.pcbs);
    && (b.kind.PROCESS? ==> b.pid in table && b.tag == table[b.pid].name)
    && (b.kind.SWAPPED_BLOCK? ==> b.owner in IndexUsers(s.users))
  }

  ghost predicate RecordsInOrder(s: Snapshot) {
    && (forall x :: x in s.pcbs ==> PcbInOrder(s, x))
    && (forall b :: b in s.memoryBlocks ==> BlockInOrder(s, b))
    && (forall b :: b in Normalized(s.memoryBlocks) && b.kind.FREE? ==> b.tag == [])
    && (forall x :: x in s.users ==> AccountOk(x))
    && VfsOk(Vfs(if s.nextFileId < 1 then 1 else s.nextFileId, s.virtualFiles))
  }

  lemma RestoredPcb(s: Snapshot, x: PCB)
    requires ValidSnapshot(s) && x in s.pcbs
    ensures var pcbs := Rebuilt(IndexPcbs(s.pcbs));
      x.pid in pcbs && IndexPcbs(s.pcbs)[x.pid] == x && pcbs[x.pid] == x.(children := pcbs[x.pid].children)
  {
    IndexKeys(s.pcbs);
  }

  lemma OrderedForest(s: Snapshot)
    requires ValidSnapshot(s) && forall x :: x in s.pcbs ==> PcbInOrder(s, x)
    ensures PcbsOk(Rebuilt(IndexPcbs(s.pcbs))) && ForestOk(Rebuilt(IndexPcbs(s.pcbs)))
  {
    var table := IndexPcbs(s.pcbs);
    var pcbs := Rebuilt(table);
    IndexKeys(s.pcbs);
    forall p | p in pcbs ensures pcbs[p].pid == p && PcbOk(pcbs[p]) && ParentOk(pcbs, p) {
      assert PcbInOrder(s, table[p]);
    }
    forall p | p in pcbs ensures ChildrenOk(pcbs, p) {
      forall c ensures c in ChildrenOf(table, p) <==> c in pcbs && pcbs[c].ppid == p {
        if c in pcbs {
          assert ParentOk(pcbs, c);
        }
      }
    }
  }

  lemma OrderedQueue(s: Snapshot, l: int32)
    requires ValidSnapshot(s) && (forall x :: x in s.pcbs ==> PcbInOrder(s, x)) && 0 <= l < 3
    ensures var pcbs := Rebuilt(IndexPcbs(s.pcbs)); QueueOk(pcbs, Repaired(pcbs, s.readyQueues[l], l), l)
  {
    var table := IndexPcbs(s.pcbs);
    var pcbs := Rebuilt(table);
    RepairedCorrect(pcbs, s.readyQueues[l], l);
    IndexKeys(s.pcbs);
    forall p ensures p in Repaired(pcbs, s.readyQueues[l], l) <==> ReadyAt(pcbs, p, l) {
      if p in pcbs {
        assert PcbInOrder(s, table[p]);
      }
    }
  }

  lemma OrderedBlocks(s: Snapshot)
    requires ValidSnapshot(s) && RecordsInOrder(s)
    ensures Coherent(Rebuilt(IndexPcbs(s.pcbs)), Normalized(s.memoryBlocks))
  {
    var table, bs := IndexPcbs(s.pcbs), Normalized(s.memoryBlocks);
    var pcbs := Rebuilt(table);
    IndexKeys(s.pcbs);
    NormalizedKeepsAllocated(s.memoryBlocks);
    AcceptedBlocks(s);
    forall b | b in bs ensures HasPcb(pcbs, b) {
      if b.kind.PROCESS? {
        assert Allocated(bs, b);
        assert Allocated(s.memoryBlocks, b);
        assert BlockInOrder(s, b) && MatchesPcb(pcbs, b);
      }
    }
    forall p | p in pcbs ensures HasBlock(pcbs, bs, p) {
      assert PcbInOrder(s, table[p]);
      if !pcbs[p].swappedOut {
        assert OwnsBlock(bs, p);
        var b :| b in bs && b.kind.PROCESS? && b.pid == p;
        assert HasPcb(pcbs, b);
      }
    }
  }

  lemma OrderedMemory(s: Snapshot)
    requires ValidSnapshot(s) && RecordsInOrder(s)
    ensures BlockTable.TableOk(Normalized(s.memoryBlocks), s.totalMemoryKB)
    ensures forall b :: Allocated(Normalized(s.memoryBlocks), b) ==> b.owner in IndexUsers(s.users)
  {
    ValidImportIsCoalesced(s.memoryBlocks, s.totalMemoryKB);
    NormalizedKeepsAllocated(s.memoryBlocks);
    forall b | Allocated(Normalized(s.memoryBlocks), b) ensures b.owner in IndexUsers(s.users) {
      assert Allocated(s.memoryBlocks, b);
      assert BlockValid(s, b) && BlockInOrder(s, b);
    }
  }

  lemma OrderedProcesses(s: Snapshot)
    requires ValidSnapshot(s) && RecordsInOrder(s)
    ensures ProcOk(ImportedProc(s.pcbs, s.readyQueues, s.nextPid))
    ensures forall p :: p in IndexPcbs(s.pcbs) ==> IndexPcbs(s.pcbs)[p].owner in IndexUsers(s.users)
  {
    IndexKeys(s.pcbs);
    OrderedForest(s);
    OrderedQueue(s, 0);
    OrderedQueue(s, 1);
    OrderedQueue(s, 2);
  }

  lemma OrderedIsOk(s: Snapshot, disk: Option<seq<byte>>)
    requires ValidSnapshot(s) && RecordsInOrder(s)
    ensures KernelOk(Restored(s, disk))
  {
    var k := Restored(s, disk);
    OrderedProcesses(s);
    OrderedBlocks(s);
    OrderedMemory(s);
    assert SysOk(k.sys) && OwnersOk(k);
    forall u | u in k.users ensures k.users[u].username == u && AccountOk(k.users[u]) {
      IndexUsersFrom(s.users, u);
    }
  }

  lemma PcbIsOrdered(s: Snapshot, x: PCB)
    requires ValidSnapshot(s) && ProcOk(ImportedProc(s.pcbs, s.readyQueues, s.nextPid)) && x in s.pcbs
    ensures PcbInOrder(s, x)
  {
    var pcbs := Rebuilt(IndexPcbs(s.pcbs));
    RestoredPcb(s, x);
    assert ParentOk(pcbs, x.pid);
    if x.state.READY? {
      ReadyIsQueued(pcbs, s.readyQueues, x.pid);
    }
  }

  lemma ReadyIsQueued(pcbs: PcbMap, qs: Queues, p: uint32)
    requires QueuesOk(pcbs, RepairedQueues(pcbs, qs))
    requires p in pcbs && pcbs[p].state.READY? && 0 <= pcbs[p].queueLevel < 3
    ensures p in qs[pcbs[p].queueLevel]
  {
    var level := pcbs[p].queueLevel;
    assert ReadyAt(pcbs, p, level);
    RepairedCorrect(pcbs, qs[level], level);
  }

  lemma OkIsOrdered(s: Snapshot, disk: Option<seq<byte>>)
    requires ValidSnapshot(s) && KernelOk(Restored(s, disk))
    ensures RecordsInOrder(s)
  {
    var k := Restored(s, disk);
    var pcbs, bs := k.sys.proc.pcbs, k.sys.mem.blocks;
    NormalizedKeepsAllocated(s.memoryBlocks);
    forall x | x in s.pcbs {
      PcbIsOrdered(s, x);
    }
    forall b | b in s.memoryBlocks ensures BlockInOrder(s, b) {
      assert !b.kind.FREE? ==> Allocated(s.memoryBlocks, b) && Allocated(bs, b);
      if b.kind.PROCESS? {
        assert HasPcb(pcbs, b);
      }
    }
    forall x | x in s.users ensures AccountOk(x) {
      IndexUsersHas(s.users, x);
    }
  }

  // An accepted snapshot leaves a state the kernel's own commands could work on safely if and only if its records
  // are in order; the check does not ask for that.
  lemma AcceptedRestoresWellFormed(s: Snapshot, disk: Option<seq<byte>>)
    requires ValidSnapshot(s)
    ensures KernelOk(Restored(s, disk)) <==> RecordsInOrder(s)
  {
    if RecordsInOrder(s) {
      OrderedIsOk(s, disk);
    }
    if KernelOk(Restored(s, disk)) {
      OkIsOrdered(s, disk);
    }
  }

  // Two processes that are each other's parents: the check accepts them, and the state that results is not one the
  // kernel could have reached.
  const CYCLE := BLANK.(
    users := [UserAccount([97], [], [], 0, NORMAL)],
    nextPid := 3,
    pcbs := [PCB(1, 2, [112], [97], BLOCKED, 0, 0, 1, 0, 1, 2, 0, 512, false, [2]),
             PCB(2, 1, [112], [97], BLOCKED, 0, 0, 1, 0, 1, 2, 512, 512, false, [1])],
    memoryBlocks := [Block(0, 512, PROCESS, 1, [97], [112]), Block(512, 512, PROCESS, 2, [97], [112])])

  lemma IndexTwo(a: PCB, b: PCB)
    ensures IndexPcbs([a, b]) == map[a.pid := a][b.pid := b]
  {
    assert [a, b][..1] == [a] && [a][..0] == [];
    assert IndexPcbs([a]) == map[a.pid := a];
  }

  lemma CycleHasValidRecords()
    ensures UsersValid(CYCLE.users) && PcbsValid(CYCLE)
    ensures IndexPcbs(CYCLE.pcbs) == map[1 := CYCLE.pcbs[0], 2 := CYCLE.pcbs[1]]
    ensures [97] in IndexUsers(CYCLE.users)
  {
    IndexTwo(CYCLE.pcbs[0], CYCLE.pcbs[1]);
    assert CYCLE.users[..0] == [];
    assert CYCLE.users[0].username in IndexUsers(CYCLE.users);
  }

  lemma CycleHasValidBlocks()
    ensures BlocksValid(CYCLE)
  {
    CycleHasValidRecords();
    var bs := CYCLE.memoryBlocks;
    assert bs[0] in bs && bs[1] in bs;
    assert OwnsBlock(bs, 1) && OwnsBlock(bs, 2);
    forall b | b in bs ensures BlockValid(CYCLE, b) {
      assert b == bs[0] || b == bs[1];
    }
  }

  // The check accepts the cycle; in the state that results no parent is older than its child.
  lemma AcceptanceIsNotEnough(disk: Option<seq<byte>>)
    ensures ValidSnapshot(CYCLE) && !KernelOk(Restored(CYCLE, disk))
  {
    CycleHasValidRecords();
    CycleHasValidBlocks();
    TilingIsSorted(CYCLE.memoryBlocks, 0, 1024);
    CoalescedIsMerged(CYCLE.memoryBlocks, 0, 1024);
    var pcbs := Restored(CYCLE, disk).sys.proc.pcbs;
    assert 1 in pcbs && pcbs[1].ppid == 2;
    assert !ParentOk(pcbs, 1);
  }
}
