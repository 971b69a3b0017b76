// What every process command does, in figures: when it succeeds, what it changes, and that it changes nothing else.
// Nothing here is stated through the functions that carry the commands out.

module Behaviour {
  import opened Types
  import opened Sequences
  import opened BlockTable
  import opened Allocation
  import opened Compaction
  import opened ProcessTable
  import opened Coherence
  import opened Users
  import opened KernelState

  // ----- figures -----

  function SliceOf(level: int): uint32 {
    if level == 0 then 2 else if level == 1 then 4 else 8
  }

  function LevelFor(priority: int): int32 {
    if priority <= 3 then 0 else if priority <= 7 then 1 else 2
  }

  // A queue without some pids.
  function Minus(queue: seq<uint32>, gone: set<uint32>): seq<uint32> {
    if queue == [] then []
    else if queue[0] in gone then Minus(queue[1..], gone)
    else [queue[0]] + Minus(queue[1..], gone)
  }

  lemma {:induction false} MinusIs(queue: seq<uint32>, gone: set<uint32>)
    ensures Without(queue, gone) == Minus(queue, gone)
  {
    if queue != [] {
      assert queue == [queue[0]] + queue[1..];
      WithoutCons(queue[0], queue[1..], gone);
      MinusIs(queue[1..], gone);
    }
  }

  lemma MinusAre(qs: Queues, gone: set<uint32>)
    ensures forall l :: 0 <= l < 3 ==> Dequeued(qs, gone)[l] == Minus(qs[l], gone)
  {
    MinusIs(qs[0], gone);
    MinusIs(qs[1], gone);
    MinusIs(qs[2], gone);
  }

  // The queues without a pid, and then with it at the end of one of them, if target is a level.
  ghost predicate QueuesBecome(before: Queues, after: Queues, pid: uint32, target: int) {
    forall l :: 0 <= l < 3 ==> after[l] == Minus(before[l], {pid}) + if l == target then [pid] else []
  }

  // The table with one PCB and the queues changed.
  ghost predicate OnePcbChanges(ps: Proc, after: Proc, pid: uint32, x: PCB) {
    after == ps.(pcbs := ps.pcbs[pid := x], queues := after.queues)
  }

  // k with its process table changed.
  ghost predicate OnlyProcessesChange(k: KState, after: KState) {
    after == k.(sys := k.sys.(proc := after.sys.proc))
  }

  lemma PlaceBecomes(ps: Proc, x: PCB)
    ensures QueuesBecome(ps.queues, Place(ps, x).queues, x.pid, if x.state.READY? then x.queueLevel else -1)
  {
    MinusAre(ps.queues, {x.pid});
  }

  // ----- block, wakeup, suspend, resume -----

  predicate IsTransition(e: Event) {
    e.BlockPcb? || e.WakeupPcb? || e.Suspend? || e.Resume?
  }

  // The table of transitions; no other is possible.
  function StateAfter(e: Event, s: ProcessState): Option<ProcessState> {
    if e.BlockPcb? && (s == READY || s == RUNNING) then Some(BLOCKED)
    else if e.WakeupPcb? && s == BLOCKED then Some(READY)
    else if e.Suspend? && (s == READY || s == RUNNING) then Some(SUSPENDED_READY)
    else if e.Suspend? && s == BLOCKED then Some(SUSPENDED_BLOCKED)
    else if e.Resume? && s == SUSPENDED_READY then Some(READY)
    else if e.Resume? && s == SUSPENDED_BLOCKED then Some(BLOCKED)
    else None
  }

  // The command succeeds exactly if the process is the user's and the table has an entry; then the state is the one in
  // the table, a process that becomes READY goes to the end of the queue of its level, one that was READY or RUNNING
  // leaves the queues, and nothing else changes at all.
  ghost predicate FollowsTable(ps: Proc, after: Proc, ok: bool, u: Text, e: Event)
    requires IsTransition(e)
  {
    && (ok <==> e.pid in ps.pcbs && ps.pcbs[e.pid].owner == u && StateAfter(e, ps.pcbs[e.pid].state).Some?)
    && (!ok ==> after == ps)
    && (ok ==>
        var x := ps.pcbs[e.pid];
        var next := StateAfter(e, x.state).value;
        && OnePcbChanges(ps, after, e.pid, x.(state := next))
        && if (e.Suspend? && x.state == BLOCKED) || (e.Resume? && x.state == SUSPENDED_BLOCKED) then
            after.queues == ps.queues
          else
            QueuesBecome(ps.queues, after.queues, e.pid, if next == READY then x.queueLevel else -1))
  }

  lemma BlockFollows(ps: Proc, u: Text, pid: uint32)
    requires Keyed(ps.pcbs)
    ensures var r := BlockProc(ps, u, pid); FollowsTable(ps, if r.Some? then r.value else ps, r.Some?, u, BlockPcb(pid))
  {
    if pid in ps.pcbs {
      PlaceBecomes(ps, ps.pcbs[pid].(state := BLOCKED));
    }
  }

  lemma WakeupFollows(ps: Proc, u: Text, pid: uint32)
    requires Keyed(ps.pcbs)
    ensures var r := WakeupProc(ps, u, pid);
      FollowsTable(ps, if r.Some? then r.value else ps, r.Some?, u, WakeupPcb(pid))
  {
    if pid in ps.pcbs {
      PlaceBecomes(ps, ps.pcbs[pid].(state := READY));
    }
  }

  lemma SuspendFollows(ps: Proc, u: Text, pid: uint32)
    requires Keyed(ps.pcbs)
    ensures var r := SuspendProc(ps, u, pid);
      FollowsTable(ps, if r.Some? then r.value else ps, r.Some?, u, Suspend(pid))
  {
    if pid in ps.pcbs {
      PlaceBecomes(ps, ps.pcbs[pid].(state := SUSPENDED_READY));
    }
  }

  lemma ResumeFollows(ps: Proc, u: Text, pid: uint32)
    requires Keyed(ps.pcbs)
    ensures var r := ResumeProc(ps, u, pid); FollowsTable(ps, if r.Some? then r.value else ps, r.Some?, u, Resume(pid))
  {
    if pid in ps.pcbs {
      PlaceBecomes(ps, ps.pcbs[pid].(state := READY));
    }
  }

  // In any state the four commands follow the table.
  lemma TransitionTable(k: KState, u: Text, e: Event)
    requires StateKeyed(k) && k.session == Some(u) && IsTransition(e)
    ensures var (after, ok) := Apply(k, e);
      OnlyProcessesChange(k, after) && FollowsTable(k.sys.proc, after.sys.proc, ok, u, e)
  {
    StateCommandOnly(k, u, e);
    match e
    case BlockPcb(pid) => BlockFollows(k.sys.proc, u, pid);
    case WakeupPcb(pid) => WakeupFollows(k.sys.proc, u, pid);
    case Suspend(pid) => SuspendFollows(k.sys.proc, u, pid);
    case Resume(pid) => ResumeFollows(k.sys.proc, u, pid);
  }

  lemma StateCommandOnly(k: KState, u: Text, e: Event)
    requires k.session == Some(u) && IsStateCommand(e)
    ensures Apply(k, e) == StateCommand(k, u, e)
  {
  }

  // ----- renice -----

  // In any state: priority, level and slice, and for a READY process the end of the queue of its new level.
  lemma ReniceTable(k: KState, u: Text, pid: uint32, priority: int32)
    requires StateKeyed(k) && k.session == Some(u)
    ensures var pcbs := k.sys.proc.pcbs;
      var (after, ok) := Apply(k, Renice(pid, priority));
      && (ok <==> 0 <= priority <= 15 && pid in pcbs && pcbs[pid].owner == u)
      && OnlyProcessesChange(k, after)
      && (!ok ==> after == k)
      && (ok ==>
          var x := pcbs[pid];
          var level := LevelFor(priority);
          var y := x.(priority := priority, queueLevel := level, timeSliceLeft := SliceOf(level));
          && OnePcbChanges(k.sys.proc, after.sys.proc, pid, y)
          && if x.state == READY then QueuesBecome(k.sys.proc.queues, after.sys.proc.queues, pid, level)
            else after.sys.proc.queues == k.sys.proc.queues)
  {
    if pid in k.sys.proc.pcbs {
      var level := LevelFor(priority);
      PlaceBecomes(k.sys.proc,
        k.sys.proc.pcbs[pid].(priority := priority, queueLevel := level, timeSliceLeft := SliceOf(level)));
    }
    StateCommandOnly(k, u, Renice(pid, priority));
  }

  // ----- memory -----

  // The same memory but for one more allocated block, or without one.
  ghost predicate BlockAdded(before: Mem, after: Mem, b: Block) {
    && after.total == before.total && after.algorithm == before.algorithm
    && !Allocated(before.blocks, b)
    && forall x :: Allocated(after.blocks, x) <==> Allocated(before.blocks, x) || x == b
  }

  ghost predicate BlocksGone(before: Mem, after: Mem, gone: set<Block>) {
    && after.total == before.total && after.algorithm == before.algorithm
    && forall x :: Allocated(after.blocks, x) <==> Allocated(before.blocks, x) && x !in gone
  }

  ghost predicate SomeFit(m: Mem, size: uint32) {
    exists b :: b in m.blocks && b.kind == FREE && b.size >= size
  }

  // A FREE block that is large enough, starts there, and is the one the policy asks for: the lowest, a smallest, or a
  // largest, the lowest address deciding.
  ghost predicate ChosenStart(m: Mem, size: uint32, start: uint32) {
    exists b :: b in m.blocks && b.kind == FREE && b.size >= size && b.start == start &&
      forall c :: c in m.blocks && c.kind == FREE && c.size >= size ==>
        if m.algorithm == FIRST_FIT then b.start <= c.start
        else if m.algorithm == BEST_FIT then b.size < c.size || (b.size == c.size && b.start <= c.start)
        else b.size > c.size || (b.size == c.size && b.start <= c.start)
  }

  lemma FoundIsChosen(m: Mem, size: uint32)
    requires MemOk(m)
    ensures var r := Find(m.blocks, m.algorithm, size);
      (r.Some? <==> SomeFit(m, size)) && (r.Some? ==> ChosenStart(m, size, m.blocks[r.value].start))
  {
    var r := Find(m.blocks, m.algorithm, size);
    if r.Some? {
      var b := m.blocks[r.value];
      assert b in m.blocks;
      Disjoint(m.blocks, 0, m.total);
      forall c | c in m.blocks && c.kind == FREE && c.size >= size
        ensures if m.algorithm == FIRST_FIT then b.start <= c.start
          else if m.algorithm == BEST_FIT then b.size < c.size || (b.size == c.size && b.start <= c.start)
          else b.size > c.size || (b.size == c.size && b.start <= c.start)
      {
        var j :| 0 <= j < |m.blocks| && m.blocks[j] == c;
        assert Fits(m.blocks[j], size);
      }
    }
  }

  // What a request for memory comes to.
  lemma AllocationIs(m: Mem, owner: Text, pid: uint32, tag: Text, size: uint32, kind: BlockKind)
    requires MemOk(m) && !kind.FREE? && owner != []
    ensures var r := AllocateMem(m, owner, pid, tag, size, kind);
      && (r.Some? <==> size > 0 && SomeFit(m, size))
      && (r.Some? ==>
          && ChosenStart(m, size, r.value.1)
          && BlockAdded(m, r.value.0, Block(r.value.1, size, kind, pid, owner, tag)))
  {
    FoundIsChosen(m, size);
    AllocateAdds(m, owner, pid, tag, size, kind);
    var r := AllocateMem(m, owner, pid, tag, size, kind);
    if r.Some? {
      var b := Block(r.value.1, size, kind, pid, owner, tag);
      var i := Find(m.blocks, m.algorithm, size).value;
      if Allocated(m.blocks, b) {
        SameStart(m.blocks, 0, m.total, b, m.blocks[i], b.start);
      }
    }
  }

  // k with its memory changed.
  ghost predicate OnlyMemoryChanges(k: KState, after: KState) {
    after == k.(sys := k.sys.(mem := after.sys.mem))
  }

  predicate NameByte(c: byte) {
    48 <= c <= 57 || 65 <= c <= 90 || 97 <= c <= 122 || c == 95 || c == 45 || c == 46
  }

  // One KERNEL block more, of pid 0, where the policy says.
  ghost predicate Placed(before: Mem, after: Mem, u: Text, tag: Text, sizeKB: uint32) {
    exists start: uint32 ::
      ChosenStart(before, sizeKB, start) && BlockAdded(before, after, Block(start, sizeKB, KERNEL, 0, u, tag))
  }

  // alloc succeeds exactly for a valid tag, a nonzero size and some FREE block of that size; it adds one KERNEL block
  // of pid 0 with that owner, tag and size where the policy says, and changes nothing else.
  lemma AllocIs(k: KState, u: Text, tag: Text, sizeKB: uint32)
    requires KernelOk(k) && k.session == Some(u)
    ensures var (after, ok) := Apply(k, Alloc(tag, sizeKB));
      && (ok <==>
          && 1 <= |tag| <= 32 && (forall i :: 0 <= i < |tag| ==> NameByte(tag[i]))
          && sizeKB > 0 && SomeFit(k.sys.mem, sizeKB))
      && (!ok ==> after == k)
      && (ok ==> OnlyMemoryChanges(k, after) && Placed(k.sys.mem, after.sys.mem, u, tag, sizeKB))
  {
    assert AccountOk(k.users[u]);
    AllocationIs(k.sys.mem, u, 0, tag, sizeKB, KERNEL);
    MemoryCommandOnly(k, u, Alloc(tag, sizeKB));
  }

  lemma MemoryCommandOnly(k: KState, u: Text, e: Event)
    requires k.session == Some(u) && IsMemoryCommand(e)
    ensures Apply(k, e) == MemoryCommand(k, u, e)
  {
  }

  // free_mem takes away the block that starts there, if it is the user's and neither FREE nor a process block, and
  // nothing else.
  lemma FreeMemIs(k: KState, u: Text, addr: uint32)
    requires KernelOk(k) && k.session == Some(u)
    ensures var (after, ok) := Apply(k, FreeMem(addr));
      && (ok <==> exists b :: Allocated(k.sys.mem.blocks, b) && b.start == addr && b.owner == u && b.kind != PROCESS)
      && (!ok ==> after == k)
      && (ok ==> OnlyMemoryChanges(k, after))
      && (ok ==> forall b :: Allocated(k.sys.mem.blocks, b) && b.start == addr ==>
          BlocksGone(k.sys.mem, after.sys.mem, {b}))
  {
    var m := k.sys.mem;
    FreeAddressIsFreeMem(m, u, addr);
    MemoryCommandOnly(k, u, KernelState.FreeMem(addr));
    forall b | Allocated(m.blocks, b) && b.start == addr ensures At(m.blocks, addr) == Some(b) {
      AtBlock(m, b);
    }
    var r := At(m.blocks, addr);
    if r.Some? {
      ReleaseTable(m.blocks, m.total, {r.value});
    }
  }

  lemma AtBlock(m: Mem, b: Block)
    requires MemOk(m) && Allocated(m.blocks, b)
    ensures At(m.blocks, b.start) == Some(b)
  {
    var i :| 0 <= i < |m.blocks| && m.blocks[i] == b;
    AtIs(m.blocks, 0, m.total, b, b.start);
  }

  // The policy is the one set, and the next request follows it.
  lemma PolicyIsUsed(k: KState, u: Text, a: AllocAlgorithm, tag: Text, sizeKB: uint32)
    requires KernelOk(k) && k.session == Some(u)
    ensures var (set', ok) := Apply(k, SetAlgorithm(a));
      && ok && set' == k.(sys := k.sys.(mem := Mem(k.sys.mem.total, a, k.sys.mem.blocks)))
      && var (after, placed) := Apply(set', Alloc(tag, sizeKB));
      (placed ==> Placed(Mem(k.sys.mem.total, a, k.sys.mem.blocks), after.sys.mem, u, tag, sizeKB))
  {
    var after := Apply(k, SetAlgorithm(a)).0;
    MemoryCommandOnly(k, u, SetAlgorithm(a));
    AllocIs(after, u, tag, sizeKB);
  }

  // The allocated blocks moved together, in their order, and one FREE block for the rest.
  ghost predicate MovedTogether(before: seq<Block>, after: seq<Block>, total: nat) {
    && |before| <= |after| <= |before| + 1
    && (forall i :: 0 <= i < |before| ==> after[i] == before[i].(start := after[i].start))
    && (forall i :: 0 <= i < |before| ==> after[i].start == if i == 0 then 0 else End(after[i - 1]))
    && (|after| > |before| ==> after[|before|].kind == FREE && End(after[|before|]) == total)
  }

  // A PCB is the same but for its address, which is that of its block if it has one.
  ghost predicate MovedWithBlock(x: PCB, y: PCB, bs: seq<Block>) {
    && y == x.(memStart := y.memStart)
    && (!x.swappedOut ==> exists b :: b in bs && b.kind == PROCESS && b.pid == x.pid && b.start == y.memStart)
  }

  // compact moves the allocated blocks together and gives each process the address of its block. Total, policy, queues
  // and everything else of the PCBs stay.
  lemma CompactIs(k: KState, u: Text)
    requires KernelOk(k) && k.session == Some(u)
    ensures var (after, ok) := Apply(k, Compact);
      && ok
      && after == k.(sys := Sys(k.sys.proc.(pcbs := after.sys.proc.pcbs),
                                Mem(k.sys.mem.total, k.sys.mem.algorithm, after.sys.mem.blocks)))
      && MovedTogether(Kept(k.sys.mem.blocks, false), after.sys.mem.blocks, k.sys.mem.total)
      && after.sys.proc.pcbs.Keys == k.sys.proc.pcbs.Keys
      && forall p :: p in k.sys.proc.pcbs ==>
        MovedWithBlock(k.sys.proc.pcbs[p], after.sys.proc.pcbs[p], after.sys.mem.blocks)
  {
    MemoryCommandOnly(k, u, Compact);
    CompactMoves(k.sys.mem);
    CompactProcesses(k.sys);
  }

  lemma CompactProcesses(s: Sys)
    requires SysOk(s)
    ensures var after := CompactSys(s);
      forall p :: p in s.proc.pcbs ==> MovedWithBlock(s.proc.pcbs[p], after.proc.pcbs[p], after.mem.blocks)
  {
    CompactSysOk(s);
    var after := CompactSys(s);
    forall p | p in s.proc.pcbs ensures MovedWithBlock(s.proc.pcbs[p], after.proc.pcbs[p], after.mem.blocks) {
      assert HasBlock(after.proc.pcbs, after.mem.blocks, p);
    }
  }

  lemma CompactMoves(m: Mem)
    requires MemOk(m)
    ensures MovedTogether(Kept(m.blocks, false), Compacted(m.blocks, m.total), m.total)
  {
    CompactionKeepsBlocks(m);
    CompactedTable(m);
  }
}
