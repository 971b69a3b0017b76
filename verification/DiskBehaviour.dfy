// What save, load and a restart do, field by field, and what the check asks of a snapshot, in figures.

module DiskBehaviour {
  import opened Types
  import opened Sequences
  import opened BlockTable
  import opened ProcessTable
  import opened ProcessRestore
  import opened Users
  import opened SnapshotFormat
  import opened FileLayout
  import opened VirtualFileSystems
  import opened KernelState
  import SnapshotStores

  // ----- save -----

  // A snapshot of the state: accounts in the order of their names, PCBs in the order of their pids, the rest as it is.
  ghost predicate IsSnapshotOf(k: KState, s: Snapshot) {
    && (forall x :: x in s.users <==> x.username in k.users && k.users[x.username] == x)
    && (forall i, j :: 0 <= i < j < |s.users| ==> Less(s.users[i].username, s.users[j].username))
    && (forall x :: x in s.pcbs <==> x.pid in k.sys.proc.pcbs && k.sys.proc.pcbs[x.pid] == x)
    && (forall i, j :: 0 <= i < j < |s.pcbs| ==> s.pcbs[i].pid < s.pcbs[j].pid)
    && s.nextPid == k.sys.proc.nextPid && s.readyQueues == k.sys.proc.queues
    && s.totalMemoryKB == k.sys.mem.total && s.allocAlgorithm == k.sys.mem.algorithm
    && s.memoryBlocks == k.sys.mem.blocks
    && s.schedulerRunning == k.schedulerRunning && s.schedulerOwner == k.schedulerOwner
    && s.nextFileId == k.vfs.nextFileId && s.virtualFiles == k.vfs.files
  }

  lemma ExportIs(k: KState)
    requires KernelOk(k)
    ensures IsSnapshotOf(k, Export(k))
  {
    ListUsersCorrect(k.users);
    ListMembers(k.sys.proc.pcbs);
    FilesAreSorted(k.vfs.files);
    ExportInOrder(k);
  }

  lemma ExportInOrder(k: KState)
    requires StateKeyed(k)
    ensures forall i, j :: 0 <= i < j < |Export(k).users| ==>
      Less(Export(k).users[i].username, Export(k).users[j].username)
    ensures forall i, j :: 0 <= i < j < |Export(k).pcbs| ==> Export(k).pcbs[i].pid < Export(k).pcbs[j].pid
  {
    ListUsersCorrect(k.users);
  }

  ghost predicate StringsBelow(s: Snapshot, n: nat) {
    && |s.schedulerOwner| < n
    && (forall x :: x in s.users ==> |x.username| < n && |x.passwordHash| < n && |x.salt| < n)
    && (forall x :: x in s.pcbs ==> |x.name| < n && |x.owner| < n)
    && (forall x :: x in s.memoryBlocks ==> |x.owner| < n && |x.tag| < n)
    && (forall x :: x in s.virtualFiles ==> |x.owner| < n && |x.name| < n && |x.content| < n)
  }

  lemma WritableMeans(s: Snapshot)
    ensures SnapshotStores.SnapshotWritable(s) <==> StringsBelow(s, 4294967296)
  {
    if StringsBelow(s, 4294967296) {
      assert forall i :: 0 <= i < |s.users| ==> s.users[i] in s.users;
      assert forall i :: 0 <= i < |s.pcbs| ==> s.pcbs[i] in s.pcbs;
      assert forall i :: 0 <= i < |s.memoryBlocks| ==> s.memoryBlocks[i] in s.memoryBlocks;
      assert forall i :: 0 <= i < |s.virtualFiles| ==> s.virtualFiles[i] in s.virtualFiles;
    }
  }

  // save writes a snapshot of the state in the layout of version 2, unless a string has 2^32 bytes or more.
  lemma SaveIs(k: KState)
    requires KernelOk(k)
    ensures IsSnapshotOf(k, Export(k))
    ensures var (after, ok) := Apply(k, Save);
      && (ok <==> StringsBelow(Export(k), 4294967296))
      && after == if ok then k.(disk := Some(SnapshotBytes(2, 0, Export(k)))) else k
  {
    ExportIs(k);
    WritableMeans(Export(k));
    SavedIs(Export(k));
    SaveCommandIs(k);
  }

  lemma SaveCommandIs(k: KState)
    ensures Apply(k, Save) == SaveFile(k)
  {
  }

  // ----- load -----

  // The first occurrences, in order, of the entries that are READY, in memory and of the level.
  function Firsts(pcbs: PcbMap, queue: seq<uint32>, level: int, seen: set<uint32>): seq<uint32> {
    if queue == [] then []
    else
      var p := queue[0];
      if p in pcbs && pcbs[p].state == READY && !pcbs[p].swappedOut && pcbs[p].queueLevel == level && p !in seen then
        [p] + Firsts(pcbs, queue[1..], level, seen + {p})
      else
        Firsts(pcbs, queue[1..], level, seen)
  }

  lemma {:induction false} FirstsLast(pcbs: PcbMap, queue: seq<uint32>, x: uint32, level: int32, seen: set<uint32>)
    ensures var before := Firsts(pcbs, queue, level, seen);
      Firsts(pcbs, queue + [x], level, seen) ==
        if Queueable(pcbs, x, level) && x !in seen && x !in before then before + [x] else before
  {
    if queue == [] {
      assert [x][1..] == [];
    } else {
      var p, tail := queue[0], queue[1..];
      assert (queue + [x])[1..] == tail + [x];
      FirstsLast(pcbs, tail, x, level, seen + {p});
      FirstsLast(pcbs, tail, x, level, seen);
    }
  }

  lemma {:induction false} RepairedIs(pcbs: PcbMap, queue: seq<uint32>, level: int32)
    ensures Repaired(pcbs, queue, level) == Firsts(pcbs, queue, level, {})
  {
    if queue != [] {
      var n := |queue| - 1;
      assert queue == queue[..n] + [queue[n]];
      RepairedIs(pcbs, queue[..n], level);
      FirstsLast(pcbs, queue[..n], queue[n], level, {});
    }
  }

  // The PCB as in the file, with the processes of the same user that name it as parent for children, ascending.
  ghost predicate ReadFrom(pcbs: PcbMap, x: PCB) {
    && x.pid in pcbs && pcbs[x.pid] == x.(children := pcbs[x.pid].children)
    && Ascending(pcbs[x.pid].children)
    && forall c :: c in pcbs[x.pid].children <==>
      c in pcbs && pcbs[c].ppid != 0 && pcbs[c].ppid == x.pid && pcbs[c].owner == x.owner
  }

  // The state that a snapshot describes: nobody logged in, the scheduler off, everything else as in the file, with the
  // queues cleaned of what does not belong in them and the FREE blocks coalesced.
  ghost predicate IsStateOf(s: Snapshot, after: KState, disk: Option<seq<byte>>) {
    && after.session == None && !after.schedulerRunning && after.schedulerOwner == [] && after.disk == disk
    && (forall x :: x in s.users ==> x.username in after.users && after.users[x.username] == x)
    && (forall u :: u in after.users ==> after.users[u] in s.users && after.users[u].username == u)
    && (forall x :: x in s.pcbs ==> ReadFrom(after.sys.proc.pcbs, x))
    && (forall p :: p in after.sys.proc.pcbs ==> exists x :: x in s.pcbs && x.pid == p)
    && (forall l :: 0 <= l < 3 ==>
        after.sys.proc.queues[l] == Firsts(after.sys.proc.pcbs, s.readyQueues[l], l, {}))
    && after.sys.proc.nextPid == s.nextPid
    && after.sys.mem.total == s.totalMemoryKB && after.sys.mem.algorithm == s.allocAlgorithm
    && ValidTable(after.sys.mem.blocks, s.totalMemoryKB) && Coalesced(after.sys.mem.blocks)
    && (forall b :: Allocated(after.sys.mem.blocks, b) <==> Allocated(s.memoryBlocks, b))
    && after.vfs.nextFileId == (if s.nextFileId == 0 then 1 else s.nextFileId) && after.vfs.files == s.virtualFiles
  }

  lemma RestoredPcbsAre(s: Snapshot)
    requires ValidSnapshot(s)
    ensures var pcbs := Rebuilt(IndexPcbs(s.pcbs));
      && (forall x :: x in s.pcbs ==> ReadFrom(pcbs, x))
      && (forall p :: p in pcbs ==> exists x :: x in s.pcbs && x.pid == p)
  {
    var table := IndexPcbs(s.pcbs);
    IndexKeys(s.pcbs);
    forall x | x in s.pcbs ensures ReadFrom(Rebuilt(table), x) {
      assert table[x.pid] == x;
    }
    forall p | p in table ensures exists x :: x in s.pcbs && x.pid == p {
      assert table[p] in s.pcbs;
    }
  }

  lemma RestoredUsersAre(s: Snapshot)
    requires ValidSnapshot(s)
    ensures var users := IndexUsers(s.users);
      && (forall x :: x in s.users ==> x.username in users && users[x.username] == x)
      && (forall u :: u in users ==> users[u] in s.users && users[u].username == u)
  {
    forall x | x in s.users ensures x.username in IndexUsers(s.users) && IndexUsers(s.users)[x.username] == x {
      IndexUsersHas(s.users, x);
    }
    forall u | u in IndexUsers(s.users)
      ensures IndexUsers(s.users)[u] in s.users && IndexUsers(s.users)[u].username == u
    {
      IndexUsersFrom(s.users, u);
    }
  }

  lemma RestoredIs(s: Snapshot, disk: Option<seq<byte>>)
    requires ValidSnapshot(s)
    ensures IsStateOf(s, Restored(s, disk), disk)
  {
    RestoredUsersAre(s);
    RestoredPcbsAre(s);
    RestoredQueuesAre(Rebuilt(IndexPcbs(s.pcbs)), s.readyQueues);
    RestoredTableIs(s);
  }

  lemma RestoredQueuesAre(pcbs: PcbMap, qs: Queues)
    ensures forall l :: 0 <= l < 3 ==> RepairedQueues(pcbs, qs)[l] == Firsts(pcbs, qs[l], l, {})
  {
    RepairedIs(pcbs, qs[0], 0);
    RepairedIs(pcbs, qs[1], 1);
    RepairedIs(pcbs, qs[2], 2);
  }

  lemma RestoredTableIs(s: Snapshot)
    requires ValidSnapshot(s)
    ensures var bs := Normalized(s.memoryBlocks);
      && ValidTable(bs, s.totalMemoryKB) && Coalesced(bs)
      && forall b :: Allocated(bs, b) <==> Allocated(s.memoryBlocks, b)
  {
    ValidImportIsCoalesced(s.memoryBlocks, s.totalMemoryKB);
    NormalizedKeepsAllocated(s.memoryBlocks);
  }

  // The snapshot in the state file, if there is a file, it has the layout of one, and the check accepts it.
  ghost function Readable(disk: Option<seq<byte>>): Option<Snapshot> {
    if disk.Some? && Loaded(disk.value).Some? && ValidSnapshot(Loaded(disk.value).value) then Loaded(disk.value)
    else None
  }

  // In any state: load takes over what the state file describes, or stops the scheduler and changes nothing else; a
  // restart takes it over or starts clean.
  lemma LoadIs(k: KState)
    ensures var s := Readable(k.disk);
      var (after, ok) := Apply(k, Load);
      && (ok <==> s.Some?)
      && (ok ==> IsStateOf(s.value, after, k.disk))
      && (!ok ==> after == k.(schedulerRunning := false, schedulerOwner := []))
    ensures var s := Readable(k.disk);
      var (after, ok) := Apply(k, Boot);
      && ok
      && (s.Some? ==> IsStateOf(s.value, after, k.disk))
      && (s.None? ==> after == Clean(k.disk))
  {
    var s := Readable(k.disk);
    if s.Some? {
      RestoredIs(s.value, k.disk);
    }
  }

  // ----- the check -----

  // What the check asks of a PCB, field by field.
  ghost predicate PcbAccepted(s: Snapshot, x: PCB) {
    && x.pid != 0 && x.pid < s.nextPid
    && (exists u :: u in s.users && u.username == x.owner)
    && x.ppid != x.pid
    && (x.ppid == 0 || exists y :: y in s.pcbs && y.pid == x.ppid)
    && (forall c :: c in x.children ==> exists y :: y in s.pcbs && y.pid == c)
    && 0 <= x.priority <= 15
    && 0 <= x.queueLevel <= 2
    && x.executedTime <= x.totalTime
    && x.remainingTime <= x.totalTime
  }

  // It is swapped out or owns a block.
  ghost predicate SwappedOrInMemory(s: Snapshot, x: PCB) {
    x.swappedOut || x.state == SWAPPED || exists b :: b in s.memoryBlocks && b.kind == PROCESS && b.pid == x.pid
  }

  ghost predicate OnePerPid(bs: seq<Block>) {
    forall i, j :: 0 <= i < j < |bs| ==> !(bs[i].kind == PROCESS && bs[j].kind == PROCESS && bs[i].pid == bs[j].pid)
  }

  // And of a block.
  ghost predicate BlockAccepted(s: Snapshot, b: Block) {
    && (b.kind == PROCESS || b.kind == KERNEL ==> exists u :: u in s.users && u.username == b.owner)
    && (b.kind == PROCESS ==> exists x :: x in s.pcbs && HoldsBlock(x, b))
  }

  predicate HoldsBlock(x: PCB, b: Block) {
    && x.pid == b.pid && x.owner == b.owner && !x.swappedOut && x.state != SWAPPED
    && x.memStart == b.start && x.memSize == b.size
  }

  // The block starts where the one before it ends, the first at 0.
  predicate FollowsOn(table: seq<Block>, i: nat)
    requires i < |table|
  {
    table[i].start == if i == 0 then 0 else table[i - 1].start + table[i - 1].size
  }

  ghost predicate TableAccepted(bs: seq<Block>, total: uint32) {
    && total > 0
    && var table := Normalized(bs);
    && (forall i :: 0 <= i < |table| ==> table[i].size > 0)
    && (forall i :: 0 <= i < |table| ==> FollowsOn(table, i))
    && |table| > 0 && End(table[|table| - 1]) == total
    && (forall b :: b in table && b.kind == FREE ==> b.pid == 0 && b.owner == [])
  }

  ghost predicate Accepted(s: Snapshot) {
    && (forall u :: u in s.users ==> u.username != [])
    && (forall i, j :: 0 <= i < j < |s.users| ==> s.users[i].username != s.users[j].username)
    && s.nextPid != 0
    && (forall i, j :: 0 <= i < j < |s.pcbs| ==> s.pcbs[i].pid != s.pcbs[j].pid)
    && (forall x :: x in s.pcbs ==> PcbAccepted(s, x) && SwappedOrInMemory(s, x))
    && (forall b :: b in s.memoryBlocks ==> BlockAccepted(s, b))
    && OnePerPid(s.memoryBlocks)
    && TableAccepted(s.memoryBlocks, s.totalMemoryKB)
  }

  lemma TableAcceptedMeans(bs: seq<Block>, total: uint32)
    ensures total != 0 && ValidTable(Normalized(bs), total) <==> TableAccepted(bs, total)
  {
    var table := Normalized(bs);
    if total != 0 && ValidTable(table, total) {
      forall i | 0 <= i < |table| ensures FollowsOn(table, i) {}
    }
    if TableAccepted(bs, total) {
      forall i | 0 < i < |table| ensures End(table[i - 1]) == table[i].start {
        assert FollowsOn(table, i);
      }
      assert FollowsOn(table, 0);
    }
  }

  lemma NamesMean(users: seq<UserAccount>, u: Text)
    ensures u in IndexUsers(users) <==> exists x :: x in users && x.username == u
  {
    if u in IndexUsers(users) {
      IndexUsersFrom(users, u);
    }
    if exists x :: x in users && x.username == u {
      NameIndexed(users, u);
    }
  }

  lemma {:induction false} NameIndexed(users: seq<UserAccount>, u: Text)
    requires exists x :: x in users && x.username == u
    ensures u in IndexUsers(users)
  {
    var n := |users| - 1;
    if users[n].username != u {
      var x :| x in users && x.username == u;
      assert users == users[..n] + [users[n]];
      assert x in users[..n];
      NameIndexed(users[..n], u);
    }
  }

  lemma PidsMean(pcbs: seq<PCB>, p: uint32)
    ensures p in IndexPcbs(pcbs) <==> exists x :: x in pcbs && x.pid == p
  {
    IndexKeys(pcbs);
  }

  lemma PcbsMean(s: Snapshot)
    ensures PcbsValid(s) <==> (
      && s.nextPid != 0
      && (forall i, j :: 0 <= i < j < |s.pcbs| ==> s.pcbs[i].pid != s.pcbs[j].pid)
      && (forall x :: x in s.pcbs ==> PcbAccepted(s, x)))
  {
    forall p ensures p in IndexPcbs(s.pcbs) <==> exists y :: y in s.pcbs && y.pid == p {
      PidsMean(s.pcbs, p);
    }
    forall u ensures u in IndexUsers(s.users) <==> exists x :: x in s.users && x.username == u {
      NamesMean(s.users, u);
    }
  }

  lemma BlockMeans(s: Snapshot, b: Block)
    requires DistinctPids(s.pcbs)
    ensures BlockValid(s, b) <==> BlockAccepted(s, b)
  {
    var table := IndexPcbs(s.pcbs);
    IndexKeys(s.pcbs);
    NamesMean(s.users, b.owner);
    if b.kind == PROCESS && b.pid in table {
      assert table[b.pid] in s.pcbs;
      assert forall x :: x in s.pcbs && x.pid == b.pid ==> x == table[b.pid];
    }
  }

  lemma BlocksMean(s: Snapshot)
    requires DistinctPids(s.pcbs)
    ensures BlocksValid(s) <==> (
      && (forall b :: b in s.memoryBlocks ==> BlockAccepted(s, b))
      && OnePerPid(s.memoryBlocks)
      && (forall x :: x in s.pcbs ==> SwappedOrInMemory(s, x)))
  {
    forall b ensures BlockValid(s, b) <==> BlockAccepted(s, b) {
      BlockMeans(s, b);
    }
    forall x | x in s.pcbs
      ensures (!IsSwapped(x) ==> OwnsBlock(s.memoryBlocks, x.pid)) <==> SwappedOrInMemory(s, x)
    {
    }
  }

  // The check accepts a snapshot exactly if every one of these conditions holds: a snapshot that breaks any of them, in
  // any record, is rejected.
  lemma AcceptedMeans(s: Snapshot)
    ensures ValidSnapshot(s) <==> Accepted(s)
  {
    PcbsMean(s);
    if DistinctPids(s.pcbs) {
      BlocksMean(s);
    }
    TableAcceptedMeans(s.memoryBlocks, s.totalMemoryKB);
  }
}
