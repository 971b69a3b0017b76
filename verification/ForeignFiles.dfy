// What becomes of an accepted file, whoever wrote it: what can be exported again, and when.

module ForeignFiles {
  import opened Types
  import opened Sequences
  import opened BlockTable
  import opened Allocation
  import opened Compaction
  import opened ProcessTable
  import opened ProcessRestore
  import opened Subtrees
  import opened Transactions
  import opened Users
  import opened SnapshotFormat
  import opened VirtualFileSystems
  import opened KernelState
  import opened KernelTheorems
  import opened Runs
  import opened Acceptance

  // ----- the check as a condition on states -----

  // What the check asks of the PCBs, as conditions on the table they come from.
  ghost predicate TableValid(pcbs: PcbMap, names: set<Text>, nextPid: uint32) {
    && 0 < nextPid
    && forall p :: p in pcbs ==>
      && PcbValid(pcbs[p]) && pcbs[p].owner in names && p < nextPid
      && (pcbs[p].ppid != 0 ==> pcbs[p].ppid in pcbs)
      && forall c :: c in pcbs[p].children ==> c in pcbs
  }

  // What the check asks of a block, of the blocks together, and of a whole state.
  ghost predicate BlockAgrees(pcbs: PcbMap, names: set<Text>, b: Block) {
    && (b.kind.PROCESS? ==> MatchesPcb(pcbs, b))
    && (b.kind.PROCESS? || b.kind.KERNEL? ==> b.owner in names)
  }

  ghost predicate BlocksAgree(pcbs: PcbMap, names: set<Text>, bs: seq<Block>) {
    && (forall b :: b in bs ==> BlockAgrees(pcbs, names, b))
    && OneBlockPerPid(bs)
    && (forall p :: p in pcbs && !IsSwapped(pcbs[p]) ==> OwnsBlock(bs, p))
  }

  ghost predicate ValidState(k: KState) {
    var names := k.users.Keys;
    && [] !in names
    && TableValid(k.sys.proc.pcbs, names, k.sys.proc.nextPid)
    && k.sys.mem.total != 0
    && BlocksAgree(k.sys.proc.pcbs, names, k.sys.mem.blocks)
    && ValidTable(Normalized(k.sys.mem.blocks), k.sys.mem.total)
  }

  lemma UsersValidMeans(users: UserMap)
    requires NamesKeyed(users)
    ensures UsersValid(ListUsers(users)) <==> [] !in users
    ensures IndexUsers(ListUsers(users)) == users
  {
    ListUsersDistinct(users);
    IndexOfUserList(users);
    if [] in users {
      ListUsersMember(users, users[[]]);
    }
    forall x | x in ListUsers(users) ensures x.username in users {
      ListUsersMember(users, x);
    }
  }

  lemma PcbsValidMeans(k: KState)
    requires StateKeyed(k)
    ensures PcbsValid(Export(k)) <==> TableValid(k.sys.proc.pcbs, k.users.Keys, k.sys.proc.nextPid)
  {
    var pcbs := k.sys.proc.pcbs;
    UsersValidMeans(k.users);
    ListMembers(pcbs);
    IndexOfList(pcbs);
    forall p | p in pcbs ensures pcbs[p] in ListPcbs(pcbs) {}
  }

  lemma BlocksValidMeans(k: KState)
    requires StateKeyed(k)
    ensures BlocksValid(Export(k)) <==> BlocksAgree(k.sys.proc.pcbs, k.users.Keys, k.sys.mem.blocks)
  {
    var pcbs, bs := k.sys.proc.pcbs, k.sys.mem.blocks;
    UsersValidMeans(k.users);
    ListMembers(pcbs);
    IndexOfList(pcbs);
    forall b | b in bs ensures BlockValid(Export(k), b) <==> BlockAgrees(pcbs, k.users.Keys, b) {}
    forall p | p in pcbs ensures pcbs[p] in ListPcbs(pcbs) {}
  }

  // The kernel accepts its own export exactly in these states.
  lemma ExportValidMeans(k: KState)
    requires StateKeyed(k)
    ensures ValidSnapshot(Export(k)) <==> ValidState(k)
  {
    UsersValidMeans(k.users);
    PcbsValidMeans(k);
    BlocksValidMeans(k);
  }

  // ----- after a load -----

  lemma SetOfBlocks(bs: seq<Block>)
    requires OneBlockPerPid(bs)
    ensures UniquePids(bs)
  {
    forall b, c | b in bs && c in bs && b.kind.PROCESS? && c.kind.PROCESS? && b.pid == c.pid ensures b == c {
      var i :| 0 <= i < |bs| && bs[i] == b;
      var j :| 0 <= j < |bs| && bs[j] == c;
    }
  }

  lemma ListOfBlocks(bs: seq<Block>, total: nat)
    requires Tiling(bs, 0, total) && UniquePids(bs)
    ensures OneBlockPerPid(bs)
  {
    forall i, j | 0 <= i < j < |bs| && bs[i].kind.PROCESS? && bs[j].kind.PROCESS? ensures bs[i].pid != bs[j].pid {
      Ordered(bs, 0, total, i, j);
    }
  }

  lemma RestoredBlocks(s: Snapshot)
    requires ValidSnapshot(s)
    ensures BlocksAgree(Rebuilt(IndexPcbs(s.pcbs)), IndexUsers(s.users).Keys, Normalized(s.memoryBlocks))
  {
    var bs := Normalized(s.memoryBlocks);
    AcceptedBlocks(s);
    NormalizedKeepsAllocated(s.memoryBlocks);
    SetOfBlocks(s.memoryBlocks);
    KeepsUniquePids(s.memoryBlocks, bs);
    ListOfBlocks(bs, s.totalMemoryKB);
    forall b | b in bs ensures BlockAgrees(Rebuilt(IndexPcbs(s.pcbs)), IndexUsers(s.users).Keys, b) {
      if !b.kind.FREE? {
        assert Allocated(bs, b);
        assert Allocated(s.memoryBlocks, b);
        assert BlockValid(s, b);
      }
    }
  }

  lemma RestoredPcbs(s: Snapshot)
    requires ValidSnapshot(s)
    ensures TableValid(Rebuilt(IndexPcbs(s.pcbs)), IndexUsers(s.users).Keys, s.nextPid)
  {
    var table := IndexPcbs(s.pcbs);
    IndexKeys(s.pcbs);
    forall p | p in table ensures table[p] in s.pcbs {}
  }

  // Whatever the check accepts, the kernel exports as acceptable again right after the load.
  lemma AcceptedIsAcceptedAgain(s: Snapshot, disk: Option<seq<byte>>)
    requires ValidSnapshot(s)
    ensures StateKeyed(Restored(s, disk)) && ValidState(Restored(s, disk))
    ensures ValidTable(Restored(s, disk).sys.mem.blocks, s.totalMemoryKB)
    ensures ValidSnapshot(Export(Restored(s, disk)))
  {
    var k := Restored(s, disk);
    ImportKeyed(s, disk);
    RestoredBlocks(s);
    RestoredPcbs(s);
    NormalizedTiling(k.sys.mem.blocks, s.totalMemoryKB);
    forall u | u in k.users ensures u != [] {
      IndexUsersFrom(s.users, u);
    }
    ExportValidMeans(k);
  }

  // A login leaves it so.
  lemma LoginKeepsValid(k: KState, name: Text, password: Text)
    requires StateKeyed(k) && ValidState(k)
    ensures var after := LoggingIn(k, name, password).0; StateKeyed(after) && ValidState(after) && after.sys == k.sys
  {
    var after := LoggingIn(k, name, password).0;
    assert after.users.Keys == k.users.Keys;
  }

  // ----- after a kill -----

  lemma RemovedTable(ps: Proc, dead: set<uint32>, names: set<Text>)
    requires TableValid(ps.pcbs, names, ps.nextPid) && 0 !in dead
    ensures TableValid(Remove(ps, dead).pcbs, names, ps.nextPid) <==>
      forall p :: p in ps.pcbs && p !in dead ==> ps.pcbs[p].ppid !in dead
  {
    var left := Remove(ps, dead).pcbs;
    forall p | p in left ensures forall c :: c in left[p].children <==> c in ps.pcbs[p].children && c !in dead {
      WithoutMembers(ps.pcbs[p].children, dead);
    }
    if p :| p in ps.pcbs && p !in dead && ps.pcbs[p].ppid in dead {
      assert p in left && left[p].ppid !in left;
    }
  }

  lemma FreedBlocks(ps: Proc, m: Mem, names: set<Text>, owner: Text, w: seq<uint32>, dead: set<uint32>)
    requires ValidTable(m.blocks, m.total) && BlocksAgree(ps.pcbs, names, m.blocks)
    requires forall p :: p in w <==> p in dead
    requires forall p :: p in dead ==> Owned(ps.pcbs, owner, p)
    ensures BlocksAgree(Remove(ps, dead).pcbs, names, FreeEach(m.blocks, owner, w))
    ensures ValidTable(Normalized(FreeEach(m.blocks, owner, w)), m.total)
  {
    var after, left := FreeEach(m.blocks, owner, w), Remove(ps, dead).pcbs;
    SetOfBlocks(m.blocks);
    FreeEachValid(m.blocks, m.total, owner, w);
    ListOfBlocks(after, m.total);
    NormalizedTiling(after, m.total);
    forall b | b in after ensures BlockAgrees(left, names, b) {
      FreedBlockAgrees(ps, m.blocks, after, names, owner, w, dead, b);
    }
    forall p | p in left && !IsSwapped(left[p]) ensures OwnsBlock(after, p) {
      KeptProcessOwnsBlock(m.blocks, after, owner, w, p);
    }
  }

  lemma KeptProcessOwnsBlock(bs: seq<Block>, after: seq<Block>, owner: Text, w: seq<uint32>, p: uint32)
    requires OwnsBlock(bs, p) && p !in w
    requires forall x :: Allocated(after, x) <==> Allocated(bs, x) && !Freed(x, owner, w)
    ensures OwnsBlock(after, p)
  {
    var b :| b in bs && b.kind.PROCESS? && b.pid == p;
    assert Allocated(bs, b) && !Freed(b, owner, w);
    assert Allocated(after, b);
  }

  lemma FreedBlockAgrees(ps: Proc, bs: seq<Block>, after: seq<Block>, names: set<Text>, owner: Text, w: seq<uint32>,
    dead: set<uint32>, b: Block)
    requires BlocksAgree(ps.pcbs, names, bs) && b in after
    requires forall x :: Allocated(after, x) <==> Allocated(bs, x) && !Freed(x, owner, w)
    requires forall p :: p in w <==> p in dead
    requires forall p :: p in dead ==> Owned(ps.pcbs, owner, p)
    ensures BlockAgrees(Remove(ps, dead).pcbs, names, b)
  {
    if !b.kind.FREE? {
      assert Allocated(after, b);
      assert Allocated(bs, b);
      assert BlockAgrees(ps.pcbs, names, b);
    }
  }

  // From any state whose export the kernel accepts, with its blocks in a valid table, a kill leaves such a state if and
  // only if no process that is left has lost its parent.
  lemma KillKeepsValid(k: KState, u: Text, pid: uint32)
    requires StateKeyed(k) && Owned(k.sys.proc.pcbs, u, pid) && ValidTable(k.sys.mem.blocks, k.sys.mem.total)
    requires ValidState(k)
    ensures var pcbs, dead := k.sys.proc.pcbs, Subtree(k.sys.proc.pcbs, u, pid);
      ValidSnapshot(Export(k.(sys := KillPcbOn(k.sys, u, pid).0))) <==>
        forall p :: p in pcbs && p !in dead ==> pcbs[p].ppid !in dead
  {
    var ps, dead := k.sys.proc, Subtree(k.sys.proc.pcbs, u, pid);
    var w := Walk(ps.pcbs, u, [pid], {});
    var after := k.(sys := KillPcbOn(k.sys, u, pid).0);
    WalkIsSubtree(ps.pcbs, u, pid);
    SubtreeOwned(ps.pcbs, u, pid);
    RemovedTable(ps, dead, k.users.Keys);
    FreedBlocks(ps, k.sys.mem, k.users.Keys, u, w, dead);
    ExportValidMeans(after);
  }

  // So for every accepted file, every user who can log in, and every process of that user.
  lemma KillAfterLoad(s: Snapshot, disk: Option<seq<byte>>, u: Text, password: Text, pid: uint32)
    requires ValidSnapshot(s)
    ensures var (k, entered) := LoggingIn(Restored(s, disk), u, password);
      var pcbs, dead := k.sys.proc.pcbs, Subtree(k.sys.proc.pcbs, u, pid);
      var (after, killed) := SystemCommand(k, u, KillPcb(pid));
      entered && killed ==>
        (ValidSnapshot(Export(after)) <==> forall p :: p in pcbs && p !in dead ==> pcbs[p].ppid !in dead)
  {
    AcceptedIsAcceptedAgain(s, disk);
    LoginKeepsValid(Restored(s, disk), u, password);
    var k := LoggingIn(Restored(s, disk), u, password).0;
    KillCommandIs(k, u, pid);
    if Owned(k.sys.proc.pcbs, u, pid) {
      KillKeepsValid(k, u, pid);
    }
  }

  lemma KillCommandIs(k: KState, u: Text, pid: uint32)
    ensures SystemCommand(k, u, KillPcb(pid)) ==
      (k.(sys := KillPcbOn(k.sys, u, pid).0), Owned(k.sys.proc.pcbs, u, pid))
  {
  }

  // A process of user b whose parent belongs to user a; the password of a is p.
  const STRANGERS := BLANK.(
    users := [UserAccount([97], HashPassword([], [112]), [], 0, NORMAL), UserAccount([98], [], [], 0, NORMAL)],
    nextPid := 3,
    pcbs := [PCB(1, 0, [112], [97], BLOCKED, 0, 0, 1, 0, 1, 2, 0, 512, false, []),
             PCB(2, 1, [112], [98], BLOCKED, 0, 0, 1, 0, 1, 2, 512, 512, false, [])],
    memoryBlocks := [Block(0, 512, PROCESS, 1, [97], [112]), Block(512, 512, PROCESS, 2, [98], [112])])

  lemma StrangersHaveValidRecords()
    ensures UsersValid(STRANGERS.users) && PcbsValid(STRANGERS)
    ensures IndexPcbs(STRANGERS.pcbs) == map[1 := STRANGERS.pcbs[0], 2 := STRANGERS.pcbs[1]]
    ensures IndexUsers(STRANGERS.users) == map[[97] := STRANGERS.users[0], [98] := STRANGERS.users[1]]
  {
    var us := STRANGERS.users;
    IndexTwo(STRANGERS.pcbs[0], STRANGERS.pcbs[1]);
    assert us[..1][..0] == [] && us[..1] == [us[0]];
    assert IndexUsers(us[..1]) == map[us[0].username := us[0]];
  }

  lemma StrangersHaveValidBlocks()
    ensures BlocksValid(STRANGERS)
  {
    StrangersHaveValidRecords();
    var bs := STRANGERS.memoryBlocks;
    assert bs[0] in bs && bs[1] in bs;
    assert OwnsBlock(bs, 1) && OwnsBlock(bs, 2);
    forall b | b in bs ensures BlockValid(STRANGERS, b) {
      assert b == bs[0] || b == bs[1];
    }
  }

  lemma StrangersAreAccepted()
    ensures ValidSnapshot(STRANGERS)
  {
    StrangersHaveValidRecords();
    StrangersHaveValidBlocks();
    TilingIsSorted(STRANGERS.memoryBlocks, 0, 1024);
    CoalescedIsMerged(STRANGERS.memoryBlocks, 0, 1024);
  }

  lemma RestoredStrangers(disk: Option<seq<byte>>)
    ensures var k := Restored(STRANGERS, disk);
      && Keyed(k.sys.proc.pcbs) && k.sys.proc.pcbs.Keys == {1, 2}
      && k.sys.proc.pcbs[1].owner == [97] && k.sys.proc.pcbs[2].owner == [98] && k.sys.proc.pcbs[2].ppid == 1
      && k.users == map[[97] := STRANGERS.users[0], [98] := STRANGERS.users[1]]
  {
    StrangersHaveValidRecords();
  }

  // The check accepts them. Once a has logged in and killed the parent, the kernel rejects its own export.
  lemma AcceptedThenRejected(disk: Option<seq<byte>>)
    ensures ValidSnapshot(STRANGERS)
    ensures var (k, entered) := LoggingIn(Restored(STRANGERS, disk), [97], [112]);
      var (after, killed) := SystemCommand(k, [97], KillPcb(1));
      entered && k.session == Some([97]) && killed && !ValidSnapshot(Export(after))
  {
    StrangersAreAccepted();
    RestoredStrangers(disk);
    LoginOfStranger(Restored(STRANGERS, disk));
    KillOfStranger(LoggingIn(Restored(STRANGERS, disk), [97], [112]).0);
  }

  lemma LoginOfStranger(k: KState)
    requires k.session == None && [97] in k.users && k.users[[97]] == STRANGERS.users[0]
    ensures var (after, entered) := LoggingIn(k, [97], [112]);
      entered && after.session == Some([97]) && after.sys == k.sys
  {
  }

  lemma KillOfStranger(k: KState)
    requires var pcbs := k.sys.proc.pcbs;
      && Keyed(pcbs) && Owned(pcbs, [97], 1) && Owned(pcbs, [98], 2) && pcbs[2].ppid == 1
    ensures var (after, killed) := SystemCommand(k, [97], KillPcb(1)); killed && !ValidSnapshot(Export(after))
  {
    SubtreeOwned(k.sys.proc.pcbs, [97], 1);
    assert 2 !in Subtree(k.sys.proc.pcbs, [97], 1);
    KillLosesParent(k, [97], 1, 2);
  }

  // If a process is left without its parent, the export after the kill is rejected.
  lemma KillLosesParent(k: KState, u: Text, pid: uint32, orphan: uint32)
    requires Keyed(k.sys.proc.pcbs) && Owned(k.sys.proc.pcbs, u, pid)
    requires var dead := Subtree(k.sys.proc.pcbs, u, pid);
      && orphan in k.sys.proc.pcbs && orphan !in dead
      && k.sys.proc.pcbs[orphan].ppid in dead && k.sys.proc.pcbs[orphan].ppid != 0
    ensures !ValidSnapshot(Export(SystemCommand(k, u, KillPcb(pid)).0))
  {
    var after := SystemCommand(k, u, KillPcb(pid)).0;
    var left := after.sys.proc.pcbs;
    assert orphan in left && left[orphan].ppid !in left;
    ListMembers(left);
    IndexOfList(left);
    assert left[orphan] in ListPcbs(left);
  }

  // ----- full counters -----

  // A user, and both counters at their last value.
  const FULL := BLANK.(
    users := [UserAccount([97], HashPassword([], [112]), [], 0, NORMAL)],
    nextPid := 0xFFFF_FFFF,
    nextFileId := 0xFFFF_FFFF,
    memoryBlocks := [FreeBlock(0, 1024)])

  lemma FullHasValidRecords()
    ensures UsersValid(FULL.users) && PcbsValid(FULL)
    ensures IndexUsers(FULL.users) == map[[97] := FULL.users[0]]
  {
    assert FULL.users[..0] == [];
  }

  lemma FullHasValidBlocks()
    ensures BlocksValid(FULL) && Normalized(FULL.memoryBlocks) == FULL.memoryBlocks
  {
    TilingIsSorted(FULL.memoryBlocks, 0, 1024);
    CoalescedIsMerged(FULL.memoryBlocks, 0, 1024);
  }

  lemma FullIsAccepted()
    ensures ValidSnapshot(FULL) && RecordsInOrder(FULL)
  {
    FullHasValidRecords();
    FullHasValidBlocks();
  }

  // The user logs in, and the state is well formed.
  lemma FullAfterLogin(disk: Option<seq<byte>>)
    ensures ValidSnapshot(FULL)
    ensures var (k, entered) := LoggingIn(Restored(FULL, disk), [97], [112]);
      && entered && KernelOk(k) && k.session == Some([97])
      && k.sys.proc.nextPid == 0xFFFF_FFFF && k.sys.mem == CLEAN_SYS.mem && k.vfs == Vfs(0xFFFF_FFFF, [])
  {
    FullIsAccepted();
    FullHasValidRecords();
    FullHasValidBlocks();
    AcceptedRestoresWellFormed(FULL, disk);
    LoginOk(Restored(FULL, disk), [97], [112]);
  }

  // From an accepted file: the next creation succeeds, and the kernel rejects its own export.
  lemma WrappedCounterIsRejected(disk: Option<seq<byte>>)
    ensures ValidSnapshot(FULL)
    ensures var (k, entered) := LoggingIn(Restored(FULL, disk), [97], [112]);
      var (after, created) := SystemCommand(k, [97], CreatePcb([112], 1, 0, 1, None));
      entered && k.session == Some([97]) && created && !ValidSnapshot(Export(after))
  {
    FullAfterLogin(disk);
    var k := LoggingIn(Restored(FULL, disk), [97], [112]).0;
    FirstCreationSucceeds(k, [97], CreatePcb([112], 1, 0, 1, None));
    CreationExportsValidUnlessWrapped(k, [97], CreatePcb([112], 1, 0, 1, None));
  }

  // From the same file: a touch or a write of a new file succeeds, and exporting and importing what it leaves gives
  // back another state.
  lemma WrappedFileCounterIsLost(disk: Option<seq<byte>>, e: Event)
    requires e.TouchFile? || e.WriteFile?
    requires e.name == [112]
    ensures ValidSnapshot(FULL)
    ensures var (k, entered) := LoggingIn(Restored(FULL, disk), [97], [112]);
      var (after, made) := FileCommand(k, [97], e);
      && entered && k.session == Some([97]) && made
      && Restored(Export(after), disk) != Halted(after).(session := None, disk := disk)
  {
    FullAfterLogin(disk);
    var k := LoggingIn(Restored(FULL, disk), [97], [112]).0;
    NewFileRestoresUnlessWrapped(k, [97], e, disk);
  }
}
