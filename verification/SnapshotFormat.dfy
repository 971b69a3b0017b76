// The layout of a whole snapshot file, and what save and load of it promise.

module SnapshotFormat {
  import opened Types
  import opened Codec
  import opened RecordFormat

  const MAGIC: Bytes := [79, 83, 83, 77, 50, 48, 50, 54]  // OSSM2026
  const HEADER_SIZE: uint32 := 20

  // A file: version 1 has no part for virtual files; the flags are stored and ignored.
  datatype Image = Image(version: uint32, flags: uint32, snapshot: Snapshot)

  const BLANK := Snapshot([], 1, [], [[], [], []], 1024, FIRST_FIT, [], false, [], 1, [])

  function AlgorithmCode(a: AllocAlgorithm): int32 {
    match a
    case FIRST_FIT => 0
    case BEST_FIT => 1
    case WORST_FIT => 2
  }

  function AlgorithmOf(n: int32): Option<AllocAlgorithm> {
    if n == 0 then Some(FIRST_FIT) else if n == 1 then Some(BEST_FIT) else if n == 2 then Some(WORST_FIT) else None
  }

  // ----- the parts of a snapshot -----

  function PutAccounts(s: Snapshot, t: Bytes): Bytes {
    PutList(PutUser, s.users, PutU32(s.nextPid, PutList(PutPcb, s.pcbs, t)))
  }

  function GetAccounts(lim: Limits, s: Snapshot, b0: Bytes): Option<(Snapshot, Bytes)> {
    var (users, b1) :- GetList(lim, UserGetter(lim), b0);
    var (nextPid, b2) :- GetU32(b1);
    var (pcbs, b3) :- GetList(lim, PcbGetter(lim), b2);
    Some((s.(users := users, nextPid := nextPid, pcbs := pcbs), b3))
  }

  function PutQueues(s: Snapshot, t: Bytes): Bytes {
    PutIds(s.readyQueues[0], PutIds(s.readyQueues[1], PutIds(s.readyQueues[2], t)))
  }

  function GetQueues(lim: Limits, s: Snapshot, b0: Bytes): Option<(Snapshot, Bytes)> {
    var (q0, b1) :- GetIds(lim, b0);
    var (q1, b2) :- GetIds(lim, b1);
    var (q2, b3) :- GetIds(lim, b2);
    Some((s.(readyQueues := [q0, q1, q2]), b3))
  }

  function PutTable(s: Snapshot, t: Bytes): Bytes {
    PutU32(s.totalMemoryKB, PutI32(AlgorithmCode(s.allocAlgorithm), PutList(PutBlock, s.memoryBlocks, t)))
  }

  function GetTable(lim: Limits, s: Snapshot, b0: Bytes): Option<(Snapshot, Bytes)> {
    var (total, b1) :- GetU32(b0);
    var (code, b2) :- GetI32(b1);
    var algorithm :- AlgorithmOf(code);
    var (blocks, b3) :- GetList(lim, BlockGetter(lim), b2);
    Some((s.(totalMemoryKB := total, allocAlgorithm := algorithm, memoryBlocks := blocks), b3))
  }

  function PutScheduler(s: Snapshot, t: Bytes): Bytes {
    PutBool(s.schedulerRunning, PutText(s.schedulerOwner, t))
  }

  function GetScheduler(lim: Limits, s: Snapshot, b0: Bytes): Option<(Snapshot, Bytes)> {
    var (running, b1) :- GetBool(b0);
    var (owner, b2) :- GetText(lim, b1);
    Some((s.(schedulerRunning := running, schedulerOwner := owner), b2))
  }

  function PutVfs(s: Snapshot, t: Bytes): Bytes {
    PutU32(s.nextFileId, PutList(PutFile, s.virtualFiles, t))
  }

  function GetVfs(lim: Limits, s: Snapshot, b0: Bytes): Option<(Snapshot, Bytes)> {
    var (next, b1) :- GetU32(b0);
    var (files, b2) :- GetList(lim, FileGetter(lim), b1);
    Some((s.(nextFileId := next, virtualFiles := files), b2))
  }

  function PutBody(version: uint32, s: Snapshot, t: Bytes): Bytes {
    PutAccounts(s, PutQueues(s, PutTable(s, PutScheduler(s, if version >= 2 then PutVfs(s, t) else t))))
  }

  function GetBody(lim: Limits, version: uint32, b0: Bytes): Option<(Snapshot, Bytes)> {
    var (s1, b1) :- GetAccounts(lim, BLANK, b0);
    var (s2, b2) :- GetQueues(lim, s1, b1);
    var (s3, b3) :- GetTable(lim, s2, b2);
    var (s4, b4) :- GetScheduler(lim, s3, b3);
    if version >= 2 then GetVfs(lim, s4, b4) else Some((s4, b4))
  }

  function PutHeader(version: uint32, flags: uint32, t: Bytes): Bytes {
    MAGIC + PutU32(version, PutU32(HEADER_SIZE, PutU32(flags, t)))
  }

  function GetHeader(b0: Bytes): Option<((uint32, uint32), Bytes)> {
    if !(MAGIC <= b0) then None
    else
      var (version, b1) :- GetU32(b0[|MAGIC|..]);
      if version != 1 && version != 2 then None
      else
        var (size, b2) :- GetU32(b1);
        if size != HEADER_SIZE then None
        else
          var (flags, b3) :- GetU32(b2);
          Some(((version, flags), b3))
  }

  function PutImage(f: Image, t: Bytes): Bytes {
    PutHeader(f.version, f.flags, PutBody(f.version, f.snapshot, t))
  }

  function GetImage(lim: Limits, b0: Bytes): Option<(Image, Bytes)> {
    var ((version, flags), b1) :- GetHeader(b0);
    var (s, b2) :- GetBody(lim, version, b1);
    Some((Image(version, flags, s), b2))
  }

  // What save writes, and what load makes of a file; bytes after the last field are not looked at.
  function Saved(s: Snapshot): Bytes {
    PutImage(Image(2, 0, s), [])
  }

  function Loaded(b: Bytes): Option<Snapshot> {
    var (f, t) :- GetImage(FILE_LIMITS, b);
    Some(f.snapshot)
  }

  // ----- which snapshots are within limits -----

  ghost predicate CoreFits(lim: Limits, s: Snapshot) {
    && ListOk(lim, UserWithin(lim), s.users)
    && ListOk(lim, PcbWithin(lim), s.pcbs)
    && (forall l :: 0 <= l < 3 ==> |s.readyQueues[l]| <= lim.count)
    && ListOk(lim, BlockWithin(lim), s.memoryBlocks)
    && |s.schedulerOwner| <= lim.text
  }

  ghost predicate VfsFits(lim: Limits, s: Snapshot) {
    ListOk(lim, FileWithin(lim), s.virtualFiles)
  }

  ghost predicate SnapshotFits(lim: Limits, s: Snapshot) {
    CoreFits(lim, s) && VfsFits(lim, s)
  }

  ghost predicate NoVfs(s: Snapshot) {
    s.nextFileId == 1 && s.virtualFiles == []
  }

  ghost predicate ImageFits(lim: Limits, f: Image) {
    && (f.version == 1 || f.version == 2)
    && SnapshotFits(lim, f.snapshot)
    && (f.version == 1 ==> NoVfs(f.snapshot))
  }

  // ----- round trips of the parts -----

  lemma AccountsRoundTrip(lim: Limits, base: Snapshot, s: Snapshot, t: Bytes)
    requires CoreFits(lim, s)
    ensures GetAccounts(lim, base, PutAccounts(s, t)) ==
      Some((base.(users := s.users, nextPid := s.nextPid, pcbs := s.pcbs), t))
  {
    UserLaws(lim);
    PcbLaws(lim);
    var t2 := PutList(PutPcb, s.pcbs, t);
    ListRoundTrip(lim, PutUser, UserGetter(lim), UserWithin(lim), s.users, PutU32(s.nextPid, t2));
    ListRoundTrip(lim, PutPcb, PcbGetter(lim), PcbWithin(lim), s.pcbs, t);
    RoundTripLE(4, s.nextPid, t2);
    NumberRules();
  }

  lemma QueuesRoundTrip(lim: Limits, base: Snapshot, s: Snapshot, t: Bytes)
    requires CoreFits(lim, s)
    ensures GetQueues(lim, base, PutQueues(s, t)) == Some((base.(readyQueues := s.readyQueues), t))
  {
    var q := s.readyQueues;
    IdsRoundTrip(lim, q[2], t);
    IdsRoundTrip(lim, q[1], PutIds(q[2], t));
    IdsRoundTrip(lim, q[0], PutIds(q[1], PutIds(q[2], t)));
    assert q == [q[0], q[1], q[2]];
  }

  lemma TableRoundTrip(lim: Limits, base: Snapshot, s: Snapshot, t: Bytes)
    requires CoreFits(lim, s)
    ensures GetTable(lim, base, PutTable(s, t)) ==
      Some((base.(totalMemoryKB := s.totalMemoryKB, allocAlgorithm := s.allocAlgorithm,
                  memoryBlocks := s.memoryBlocks), t))
  {
    NumberRules();
    BlockLaws(lim);
    ListRoundTrip(lim, PutBlock, BlockGetter(lim), BlockWithin(lim), s.memoryBlocks, t);
  }

  lemma SchedulerRoundTrip(lim: Limits, base: Snapshot, s: Snapshot, t: Bytes)
    requires CoreFits(lim, s)
    ensures GetScheduler(lim, base, PutScheduler(s, t)) ==
      Some((base.(schedulerRunning := s.schedulerRunning, schedulerOwner := s.schedulerOwner), t))
  {
    NumberRules();
    TextRule(lim);
  }

  lemma VfsRoundTrip(lim: Limits, base: Snapshot, s: Snapshot, t: Bytes)
    requires VfsFits(lim, s)
    ensures GetVfs(lim, base, PutVfs(s, t)) ==
      Some((base.(nextFileId := s.nextFileId, virtualFiles := s.virtualFiles), t))
  {
    NumberRules();
    FileLaws(lim);
    ListRoundTrip(lim, PutFile, FileGetter(lim), FileWithin(lim), s.virtualFiles, t);
  }

  lemma BodyRoundTrip(lim: Limits, version: uint32, s: Snapshot, t: Bytes)
    requires CoreFits(lim, s) && (version >= 2 ==> VfsFits(lim, s))
    ensures GetBody(lim, version, PutBody(version, s, t)) ==
      Some((if version >= 2 then s else s.(nextFileId := 1, virtualFiles := []), t))
  {
    var t4 := if version >= 2 then PutVfs(s, t) else t;
    var t3 := PutScheduler(s, t4);
    var t2 := PutTable(s, t3);
    var t1 := PutQueues(s, t2);
    var s1 := BLANK.(users := s.users, nextPid := s.nextPid, pcbs := s.pcbs);
    var s2 := s1.(readyQueues := s.readyQueues);
    var s3 := s2.(totalMemoryKB := s.totalMemoryKB, allocAlgorithm := s.allocAlgorithm,
                  memoryBlocks := s.memoryBlocks);
    var s4 := s3.(schedulerRunning := s.schedulerRunning, schedulerOwner := s.schedulerOwner);
    AccountsRoundTrip(lim, BLANK, s, t1);
    QueuesRoundTrip(lim, s1, s, t2);
    TableRoundTrip(lim, s2, s, t3);
    SchedulerRoundTrip(lim, s3, s, t4);
    if version >= 2 {
      VfsRoundTrip(lim, s4, s, t);
    }
  }

  lemma HeaderRoundTrip(version: uint32, flags: uint32, t: Bytes)
    requires version == 1 || version == 2
    ensures GetHeader(PutHeader(version, flags, t)) == Some(((version, flags), t))
  {
    NumberRules();
    var rest := PutU32(version, PutU32(HEADER_SIZE, PutU32(flags, t)));
    assert PutHeader(version, flags, t)[|MAGIC|..] == rest;
  }

  // Loading a file gives back what was laid out in it, whatever follows; version 1 leaves the defaults for files.
  lemma ImageRoundTrip(lim: Limits, f: Image, t: Bytes)
    requires f.version == 1 || f.version == 2
    requires CoreFits(lim, f.snapshot) && (f.version == 2 ==> VfsFits(lim, f.snapshot))
    ensures GetImage(lim, PutImage(f, t)) ==
      Some((if f.version == 2 then f else f.(snapshot := f.snapshot.(nextFileId := 1, virtualFiles := [])), t))
  {
    HeaderRoundTrip(f.version, f.flags, PutBody(f.version, f.snapshot, t));
    BodyRoundTrip(lim, f.version, f.snapshot, t);
  }

  // ----- nothing else is accepted -----

  lemma AccountsCanon(lim: Limits, base: Snapshot, b: Bytes)
    ensures GetAccounts(lim, base, b).Some? ==>
      var (s, t) := GetAccounts(lim, base, b).value;
      && b == PutAccounts(s, t) && ListOk(lim, UserWithin(lim), s.users) && ListOk(lim, PcbWithin(lim), s.pcbs)
      && s == base.(users := s.users, nextPid := s.nextPid, pcbs := s.pcbs)
  {
    UserLaws(lim);
    PcbLaws(lim);
    ListCanonical(lim, PutUser, UserGetter(lim), UserWithin(lim), b);
    if GetAccounts(lim, base, b).Some? {
      var b1 := GetList(lim, UserGetter(lim), b).value.1;
      var b2 := GetU32(b1).value.1;
      CanonicalLE(4, b1);
      ListCanonical(lim, PutPcb, PcbGetter(lim), PcbWithin(lim), b2);
    }
  }

  lemma QueuesCanon(lim: Limits, base: Snapshot, b: Bytes)
    ensures GetQueues(lim, base, b).Some? ==>
      var (s, t) := GetQueues(lim, base, b).value;
      && b == PutQueues(s, t) && (forall l :: 0 <= l < 3 ==> |s.readyQueues[l]| <= lim.count)
      && s == base.(readyQueues := s.readyQueues)
  {
    IdsCanon(lim, b);
    if GetQueues(lim, base, b).Some? {
      var b1 := GetIds(lim, b).value.1;
      IdsCanon(lim, b1);
      IdsCanon(lim, GetIds(lim, b1).value.1);
    }
  }

  lemma TableCanon(lim: Limits, base: Snapshot, b: Bytes)
    ensures GetTable(lim, base, b).Some? ==>
      var (s, t) := GetTable(lim, base, b).value;
      && b == PutTable(s, t) && ListOk(lim, BlockWithin(lim), s.memoryBlocks)
      && s == base.(totalMemoryKB := s.totalMemoryKB, allocAlgorithm := s.allocAlgorithm,
                    memoryBlocks := s.memoryBlocks)
  {
    NumberCanon();
    if GetTable(lim, base, b).Some? {
      BlockLaws(lim);
      ListCanonical(lim, PutBlock, BlockGetter(lim), BlockWithin(lim), GetI32(GetU32(b).value.1).value.1);
    }
  }

  lemma SchedulerCanon(lim: Limits, base: Snapshot, b: Bytes)
    ensures GetScheduler(lim, base, b).Some? ==>
      var (s, t) := GetScheduler(lim, base, b).value;
      && b == PutScheduler(s, t) && |s.schedulerOwner| <= lim.text
      && s == base.(schedulerRunning := s.schedulerRunning, schedulerOwner := s.schedulerOwner)
  {
    NumberCanon();
    TextCanon(lim);
  }

  lemma VfsCanon(lim: Limits, base: Snapshot, b: Bytes)
    ensures GetVfs(lim, base, b).Some? ==>
      var (s, t) := GetVfs(lim, base, b).value;
      && b == PutVfs(s, t) && VfsFits(lim, s)
      && s == base.(nextFileId := s.nextFileId, virtualFiles := s.virtualFiles)
  {
    NumberCanon();
    if GetVfs(lim, base, b).Some? {
      FileLaws(lim);
      ListCanonical(lim, PutFile, FileGetter(lim), FileWithin(lim), GetU32(b).value.1);
    }
  }

  lemma BodyCanon(lim: Limits, version: uint32, b: Bytes)
    ensures GetBody(lim, version, b).Some? ==>
      var (s, t) := GetBody(lim, version, b).value;
      b == PutBody(version, s, t) && SnapshotFits(lim, s) && (version < 2 ==> NoVfs(s))
  {
    if GetBody(lim, version, b).Some? {
      AccountsCanon(lim, BLANK, b);
      var (s1, b1) := GetAccounts(lim, BLANK, b).value;
      QueuesCanon(lim, s1, b1);
      var (s2, b2) := GetQueues(lim, s1, b1).value;
      TableCanon(lim, s2, b2);
      var (s3, b3) := GetTable(lim, s2, b2).value;
      SchedulerCanon(lim, s3, b3);
      var (s4, b4) := GetScheduler(lim, s3, b3).value;
      if version >= 2 {
        VfsCanon(lim, s4, b4);
      }
      var (s, t) := GetBody(lim, version, b).value;
      assert PutScheduler(s, b4) == PutScheduler(s4, b4);
      assert PutTable(s, b3) == PutTable(s3, b3);
      assert PutQueues(s, b2) == PutQueues(s2, b2);
      assert PutAccounts(s, b1) == PutAccounts(s1, b1);
    }
  }

  lemma HeaderCanon(b: Bytes)
    ensures GetHeader(b).Some? ==>
      var ((version, flags), t) := GetHeader(b).value;
      b == PutHeader(version, flags, t) && (version == 1 || version == 2)
  {
    NumberCanon();
    if GetHeader(b).Some? {
      assert b == MAGIC + b[|MAGIC|..];
    }
  }

  // Whatever is accepted is the layout of what was read from it: files are canonical.
  lemma ImageCanon(lim: Limits, b: Bytes)
    ensures GetImage(lim, b).Some? ==>
      b == PutImage(GetImage(lim, b).value.0, GetImage(lim, b).value.1) && ImageFits(lim, GetImage(lim, b).value.0)
  {
    if GetImage(lim, b).Some? {
      HeaderCanon(b);
      var ((version, flags), b1) := GetHeader(b).value;
      BodyCanon(lim, version, b1);
    }
  }

  // ----- bytes appended -----

  lemma BodyAppend(version: uint32, s: Snapshot, t: Bytes, c: Bytes)
    ensures PutBody(version, s, t) + c == PutBody(version, s, t + c)
  {
    var t4 := if version >= 2 then PutVfs(s, t) else t;
    var t3 := PutScheduler(s, t4);
    var t2 := PutTable(s, t3);
    var t1 := PutQueues(s, t2);
    assert version >= 2 ==> PutVfs(s, t) + c == PutVfs(s, t + c) by {
      NumberAppend();
      FileLaws(WIDE_LIMITS);
      ListAppend(PutFile, FileGetter(WIDE_LIMITS), FileWithin(WIDE_LIMITS), s.virtualFiles, t, c);
    }
    assert PutScheduler(s, t4) + c == PutScheduler(s, t4 + c) by { NumberAppend(); }
    assert PutTable(s, t3) + c == PutTable(s, t3 + c) by {
      NumberAppend();
      BlockLaws(WIDE_LIMITS);
      ListAppend(PutBlock, BlockGetter(WIDE_LIMITS), BlockWithin(WIDE_LIMITS), s.memoryBlocks, t3, c);
    }
    assert PutQueues(s, t2) + c == PutQueues(s, t2 + c) by {
      var q := s.readyQueues;
      IdsAppend(q[2], t2, c);
      IdsAppend(q[1], PutIds(q[2], t2), c);
      IdsAppend(q[0], PutIds(q[1], PutIds(q[2], t2)), c);
    }
    AccountsAppend(s, t1, c);
  }

  lemma AccountsAppend(s: Snapshot, t: Bytes, c: Bytes)
    ensures PutAccounts(s, t) + c == PutAccounts(s, t + c)
  {
    UserLaws(WIDE_LIMITS);
    PcbLaws(WIDE_LIMITS);
    var t2 := PutList(PutPcb, s.pcbs, t);
    ListAppend(PutPcb, PcbGetter(WIDE_LIMITS), PcbWithin(WIDE_LIMITS), s.pcbs, t, c);
    AppendLE(4, s.nextPid, t2, c);
    ListAppend(PutUser, UserGetter(WIDE_LIMITS), UserWithin(WIDE_LIMITS), s.users, PutU32(s.nextPid, t2), c);
  }

  lemma ImageAppend(f: Image, t: Bytes, c: Bytes)
    ensures PutImage(f, t) + c == PutImage(f, t + c)
  {
    var body := PutBody(f.version, f.snapshot, t);
    BodyAppend(f.version, f.snapshot, t, c);
    NumberAppend();
    var rest := PutU32(f.version, PutU32(HEADER_SIZE, PutU32(f.flags, body)));
    assert (MAGIC + rest) + c == MAGIC + (rest + c);
  }

  // ----- the promises -----

  lemma FitsWide(s: Snapshot)
    requires SnapshotFits(FILE_LIMITS, s)
    ensures SnapshotFits(WIDE_LIMITS, s)
  {
    assert ListOk(WIDE_LIMITS, UserWithin(WIDE_LIMITS), s.users);
    assert ListOk(WIDE_LIMITS, PcbWithin(WIDE_LIMITS), s.pcbs);
    assert ListOk(WIDE_LIMITS, BlockWithin(WIDE_LIMITS), s.memoryBlocks);
    assert ListOk(WIDE_LIMITS, FileWithin(WIDE_LIMITS), s.virtualFiles);
  }

  // A saved file, with anything after it, loads exactly when the snapshot is within the reader's limits, and then
  // it loads as what was saved. The only assumption is that every length fits the 32 bits it is written in.
  lemma SavedLoads(s: Snapshot, suffix: Bytes)
    requires SnapshotFits(WIDE_LIMITS, s)
    ensures Loaded(Saved(s) + suffix) == if SnapshotFits(FILE_LIMITS, s) then Some(s) else None
  {
    var f := Image(2, 0, s);
    ImageAppend(f, [], suffix);
    assert [] + suffix == suffix;
    var b := PutImage(f, suffix);
    ImageRoundTrip(WIDE_LIMITS, f, suffix);
    if SnapshotFits(FILE_LIMITS, s) {
      ImageRoundTrip(FILE_LIMITS, f, suffix);
    } else if GetImage(FILE_LIMITS, b).Some? {
      ImageCanon(FILE_LIMITS, b);
      var (g, t) := GetImage(FILE_LIMITS, b).value;
      FitsWide(g.snapshot);
      ImageRoundTrip(WIDE_LIMITS, g, t);
    }
  }

  // No strict prefix of a saved file loads.
  lemma PrefixRejected(s: Snapshot, b: Bytes, c: Bytes)
    requires SnapshotFits(WIDE_LIMITS, s) && b + c == Saved(s) && c != []
    ensures Loaded(b) == None
  {
    var r := GetImage(FILE_LIMITS, b);
    if r.Some? {
      var (g, t) := r.value;
      ImageCanon(FILE_LIMITS, b);
      FitsWide(g.snapshot);
      ImageAppend(g, t, c);
      assert t + c != [];
      ImageRoundTrip(WIDE_LIMITS, g, t + c);
      ImageRoundTrip(WIDE_LIMITS, Image(2, 0, s), []);
    }
  }

  // Saving what was loaded from a current file gives back the bytes that were read.
  lemma ResavedIsRead(b: Bytes)
    ensures match GetImage(FILE_LIMITS, b)
      case None => true
      case Some((f, t)) => f.version == 2 && f.flags == 0 ==> b == Saved(f.snapshot) + t
  {
    ImageCanon(FILE_LIMITS, b);
    if GetImage(FILE_LIMITS, b).Some? {
      var (f, t) := GetImage(FILE_LIMITS, b).value;
      ImageAppend(f, [], t);
      assert [] + t == t;
    }
  }

  // A version 1 file of a snapshot loads with all its fields but the files, which take their defaults.
  lemma Version1Loads(s: Snapshot, flags: uint32, suffix: Bytes)
    requires CoreFits(FILE_LIMITS, s)
    ensures Loaded(PutImage(Image(1, flags, s), suffix)) == Some(s.(nextFileId := 1, virtualFiles := []))
  {
    ImageRoundTrip(FILE_LIMITS, Image(1, flags, s), suffix);
  }
}
