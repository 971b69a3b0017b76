// The snapshot file byte by byte: offsets, codes and limits in figures, independently of the printer and the parser.

module FileLayout {
  import opened Types
  import opened Codec
  import opened RecordFormat
  import opened SnapshotFormat

  // ----- numbers and strings -----

  function U32(v: uint32): Bytes {
    [v % 256, v / 256 % 256, v / 65536 % 256, v / 16777216]
  }

  function U64(v: uint64): Bytes {
    var v1 := v / 256;
    var v2 := v1 / 256;
    var v3 := v2 / 256;
    var v4 := v3 / 256;
    var v5 := v4 / 256;
    var v6 := v5 / 256;
    [v % 256, v1 % 256, v2 % 256, v3 % 256, v4 % 256, v5 % 256, v6 % 256, v6 / 256]
  }

  function I32(v: int32): Bytes {
    U32(if v < 0 then v + 0x1_0000_0000 else v)
  }

  // The length, which is below 2^32 in every file that can be written, and the bytes.
  function Str(s: Text): Bytes {
    U32(|s| % 0x1_0000_0000) + s
  }

  function Ids(ids: seq<uint32>): Bytes {
    U32(|ids| % 0x1_0000_0000) + Cat(U32, ids)
  }

  function Cat<T>(f: T -> Bytes, xs: seq<T>): Bytes {
    if xs == [] then [] else f(xs[0]) + Cat(f, xs[1..])
  }

  function Many<T>(f: T -> Bytes, xs: seq<T>): Bytes {
    U32(|xs| % 0x1_0000_0000) + Cat(f, xs)
  }

  // ----- records -----

  function StateNumber(s: ProcessState): uint32 {
    if s == NEW then 0 else if s == READY then 1 else if s == RUNNING then 2 else if s == BLOCKED then 3
    else if s == SUSPENDED_READY then 4 else if s == SUSPENDED_BLOCKED then 5 else if s == TERMINATED then 6 else 7
  }

  function KindNumber(k: BlockKind): uint32 {
    if k == FREE then 0 else if k == PROCESS then 1 else if k == KERNEL then 2 else 3
  }

  function PcbBytes(x: PCB): Bytes {
    (U32(x.pid) + U32(x.ppid) + Str(x.name) + Str(x.owner))
    + (U32(StateNumber(x.state)) + I32(x.priority) + I32(x.queueLevel))
    + (U32(x.totalTime) + U32(x.executedTime) + U32(x.remainingTime) + U32(x.timeSliceLeft))
    + (U32(x.memStart) + U32(x.memSize) + U32(if x.swappedOut then 1 else 0) + Ids(x.children))
  }

  function BlockBytes(x: Block): Bytes {
    U32(x.start) + U32(x.size) + U32(KindNumber(x.kind)) + U32(x.pid) + Str(x.owner) + Str(x.tag)
  }

  function UserBytes(x: UserAccount): Bytes {
    Str(x.username) + Str(x.passwordHash) + Str(x.salt) + I32(x.failedAttempts)
    + U32(if x.status == NORMAL then 0 else 1)
  }

  function FileBytes(x: VirtualFile): Bytes {
    U32(x.fileId) + Str(x.owner) + Str(x.name) + Str(x.content) + U64(x.createdAt) + U64(x.modifiedAt)
  }

  function AlgorithmNumber(a: AllocAlgorithm): uint32 {
    if a == FIRST_FIT then 0 else if a == BEST_FIT then 1 else 2
  }

  // ----- the whole file -----

  // OSSM2026, the version, the size of the header, the flags.
  function HeaderBytes(version: uint32, flags: uint32): Bytes {
    [79, 83, 83, 77, 50, 48, 50, 54] + U32(version) + [20, 0, 0, 0] + U32(flags)
  }

  function AccountsBytes(s: Snapshot): Bytes {
    Many(UserBytes, s.users) + U32(s.nextPid) + Many(PcbBytes, s.pcbs)
  }

  function QueuesBytes(s: Snapshot): Bytes {
    Ids(s.readyQueues[0]) + Ids(s.readyQueues[1]) + Ids(s.readyQueues[2])
  }

  function TableBytes(s: Snapshot): Bytes {
    U32(s.totalMemoryKB) + U32(AlgorithmNumber(s.allocAlgorithm)) + Many(BlockBytes, s.memoryBlocks)
  }

  function SchedulerBytes(s: Snapshot): Bytes {
    U32(if s.schedulerRunning then 1 else 0) + Str(s.schedulerOwner)
  }

  function FilesBytes(s: Snapshot): Bytes {
    U32(s.nextFileId) + Many(FileBytes, s.virtualFiles)
  }

  function SnapshotBytes(version: uint32, flags: uint32, s: Snapshot): Bytes {
    HeaderBytes(version, flags) + AccountsBytes(s) + QueuesBytes(s) + TableBytes(s) + SchedulerBytes(s)
    + if version >= 2 then FilesBytes(s) else []
  }

  // No string longer than text, no list longer than count.
  ghost predicate LengthsAtMost(s: Snapshot, text: nat, count: nat) {
    && |s.users| <= count && |s.pcbs| <= count && |s.memoryBlocks| <= count && |s.virtualFiles| <= count
    && (forall l :: 0 <= l < 3 ==> |s.readyQueues[l]| <= count)
    && |s.schedulerOwner| <= text
    && (forall x :: x in s.users ==> |x.username| <= text && |x.passwordHash| <= text && |x.salt| <= text)
    && (forall x :: x in s.pcbs ==> |x.name| <= text && |x.owner| <= text && |x.children| <= count)
    && (forall x :: x in s.memoryBlocks ==> |x.owner| <= text && |x.tag| <= text)
    && (forall x :: x in s.virtualFiles ==> |x.owner| <= text && |x.name| <= text && |x.content| <= text)
  }

  // What a reader takes: strings of a mebibyte, lists of a million.
  ghost predicate WithinLimits(s: Snapshot) {
    LengthsAtMost(s, 1048576, 1000000)
  }

  // What the 32-bit lengths can express.
  ghost predicate Encodable(s: Snapshot) {
    LengthsAtMost(s, 4294967295, 4294967295)
  }

  // ----- the printer prints this layout -----

  lemma NumberBytes(v: uint32, t: Bytes)
    ensures PutU32(v, t) == U32(v) + t
  {
    var b, c, d := v / 256, v / 65536, v / 16777216;
    assert PutLE(1, d, t) == [d % 256] + t;
    assert PutLE(2, c, t) == [c % 256] + PutLE(1, d, t);
    assert PutLE(3, b, t) == [b % 256] + PutLE(2, c, t);
    assert PutLE(4, v, t) == [v % 256] + PutLE(3, b, t);
  }

  lemma WideBytes(v: uint64, t: Bytes)
    ensures PutU64(v, t) == U64(v) + t
  {
    var v1 := v / 256;
    var v2 := v1 / 256;
    var v3 := v2 / 256;
    var v4 := v3 / 256;
    var v5 := v4 / 256;
    var v6 := v5 / 256;
    var v7 := v6 / 256;
    assert v7 < 256;
    assert PutLE(1, v7, t) == [v7 % 256] + t;
    assert PutLE(2, v6, t) == [v6 % 256] + PutLE(1, v7, t);
    assert PutLE(3, v5, t) == [v5 % 256] + PutLE(2, v6, t);
    assert PutLE(4, v4, t) == [v4 % 256] + PutLE(3, v5, t);
    assert PutLE(5, v3, t) == [v3 % 256] + PutLE(4, v4, t);
    assert PutLE(6, v2, t) == [v2 % 256] + PutLE(5, v3, t);
    assert PutLE(7, v1, t) == [v1 % 256] + PutLE(6, v2, t);
    assert PutLE(8, v, t) == [v % 256] + PutLE(7, v1, t);
  }

  // For use on whole records.
  lemma Primitives()
    ensures forall v: uint32, t {:trigger PutU32(v, t)} :: PutU32(v, t) == U32(v) + t
    ensures forall v: int32, t {:trigger PutI32(v, t)} :: PutI32(v, t) == I32(v) + t
    ensures forall v: uint64, t {:trigger PutU64(v, t)} :: PutU64(v, t) == U64(v) + t
    ensures forall v, t {:trigger PutBool(v, t)} :: PutBool(v, t) == U32(if v then 1 else 0) + t
    ensures forall s, t {:trigger PutText(s, t)} :: PutText(s, t) == Str(s) + t
  {
    forall v: uint32, t ensures PutU32(v, t) == U32(v) + t { NumberBytes(v, t); }
    forall v: uint64, t ensures PutU64(v, t) == U64(v) + t { WideBytes(v, t); }
    forall s: Text, t ensures PutText(s, t) == Str(s) + t {
      NumberBytes(|s| % 0x1_0000_0000, s + t);
    }
  }

  lemma {:induction false} CatBytes<T>(put: (T, Bytes) -> Bytes, f: T -> Bytes, xs: seq<T>, t: Bytes)
    requires forall x, u {:trigger put(x, u)} :: put(x, u) == f(x) + u
    ensures PutAll(put, xs, t) == Cat(f, xs) + t
  {
    if xs != [] {
      CatBytes(put, f, xs[1..], t);
      assert f(xs[0]) + (Cat(f, xs[1..]) + t) == (f(xs[0]) + Cat(f, xs[1..])) + t;
    }
  }

  lemma ManyBytes<T>(put: (T, Bytes) -> Bytes, f: T -> Bytes, xs: seq<T>, t: Bytes)
    requires forall x, u {:trigger put(x, u)} :: put(x, u) == f(x) + u
    ensures PutList(put, xs, t) == Many(f, xs) + t
  {
    CatBytes(put, f, xs, t);
    NumberBytes(|xs| % 0x1_0000_0000, Cat(f, xs) + t);
  }

  lemma IdsBytes(ids: seq<uint32>, t: Bytes)
    ensures PutIds(ids, t) == Ids(ids) + t
  {
    Primitives();
    ManyBytes(PutU32, U32, ids, t);
  }

  lemma IdentityIs(x: PCB, t: Bytes)
    ensures PutIdentity(x, t) == (U32(x.pid) + U32(x.ppid) + Str(x.name) + Str(x.owner)) + t
  {
    Primitives();
  }

  lemma ScheduleIs(x: PCB, t: Bytes)
    ensures PutSchedule(x, t) == (U32(StateNumber(x.state)) + I32(x.priority) + I32(x.queueLevel)) + t
  {
    Primitives();
  }

  lemma TimesAre(x: PCB, t: Bytes)
    ensures PutTimes(x, t) ==
      (U32(x.totalTime) + U32(x.executedTime) + U32(x.remainingTime) + U32(x.timeSliceLeft)) + t
  {
    Primitives();
  }

  lemma MemoryIs(x: PCB, t: Bytes)
    ensures PutMemory(x, t) ==
      (U32(x.memStart) + U32(x.memSize) + U32(if x.swappedOut then 1 else 0) + Ids(x.children)) + t
  {
    Primitives();
    IdsBytes(x.children, t);
  }

  lemma PcbIs(x: PCB, t: Bytes)
    ensures PutPcb(x, t) == PcbBytes(x) + t
  {
    var t3 := PutMemory(x, t);
    var t2 := PutTimes(x, t3);
    MemoryIs(x, t);
    TimesAre(x, t3);
    ScheduleIs(x, t2);
    IdentityIs(x, PutSchedule(x, t2));
  }

  lemma BlockIs(x: Block, t: Bytes)
    ensures PutBlock(x, t) == BlockBytes(x) + t
  {
    Primitives();
    assert PutI32(KindCode(x.kind), []) == U32(KindNumber(x.kind)) + [];
  }

  lemma UserIs(x: UserAccount, t: Bytes)
    ensures PutUser(x, t) == UserBytes(x) + t
  {
    Primitives();
  }

  lemma FileIs(x: VirtualFile, t: Bytes)
    ensures PutFile(x, t) == FileBytes(x) + t
  {
    Primitives();
  }

  lemma UsersAre(xs: seq<UserAccount>, t: Bytes)
    ensures PutList(PutUser, xs, t) == Many(UserBytes, xs) + t
  {
    forall x, u ensures PutUser(x, u) == UserBytes(x) + u { UserIs(x, u); }
    ManyBytes(PutUser, UserBytes, xs, t);
  }

  lemma PcbsAre(xs: seq<PCB>, t: Bytes)
    ensures PutList(PutPcb, xs, t) == Many(PcbBytes, xs) + t
  {
    forall x, u ensures PutPcb(x, u) == PcbBytes(x) + u { PcbIs(x, u); }
    ManyBytes(PutPcb, PcbBytes, xs, t);
  }

  lemma AccountsAre(s: Snapshot, t: Bytes)
    ensures PutAccounts(s, t) == AccountsBytes(s) + t
  {
    var t2 := PutList(PutPcb, s.pcbs, t);
    PcbsAre(s.pcbs, t);
    NumberBytes(s.nextPid, t2);
    UsersAre(s.users, PutU32(s.nextPid, t2));
  }

  lemma QueuesAre(s: Snapshot, t: Bytes)
    ensures PutQueues(s, t) == QueuesBytes(s) + t
  {
    var q := s.readyQueues;
    IdsBytes(q[2], t);
    IdsBytes(q[1], PutIds(q[2], t));
    IdsBytes(q[0], PutIds(q[1], PutIds(q[2], t)));
  }

  lemma TableIs(s: Snapshot, t: Bytes)
    ensures PutTable(s, t) == TableBytes(s) + t
  {
    forall x, u ensures PutBlock(x, u) == BlockBytes(x) + u { BlockIs(x, u); }
    var t2 := PutList(PutBlock, s.memoryBlocks, t);
    ManyBytes(PutBlock, BlockBytes, s.memoryBlocks, t);
    NumberBytes(AlgorithmNumber(s.allocAlgorithm), t2);
    NumberBytes(s.totalMemoryKB, PutI32(AlgorithmCode(s.allocAlgorithm), t2));
  }

  lemma SchedulerIs(s: Snapshot, t: Bytes)
    ensures PutScheduler(s, t) == SchedulerBytes(s) + t
  {
    Primitives();
  }

  lemma FilesAre(s: Snapshot, t: Bytes)
    ensures PutVfs(s, t) == FilesBytes(s) + t
  {
    forall x, u ensures PutFile(x, u) == FileBytes(x) + u { FileIs(x, u); }
    ManyBytes(PutFile, FileBytes, s.virtualFiles, t);
    NumberBytes(s.nextFileId, PutList(PutFile, s.virtualFiles, t));
  }

  lemma HeaderIs(version: uint32, flags: uint32, t: Bytes)
    ensures PutHeader(version, flags, t) == HeaderBytes(version, flags) + t
  {
    Primitives();
    assert U32(20) == [20, 0, 0, 0];
  }

  // Every file is laid out like this.
  lemma ImageIs(version: uint32, flags: uint32, s: Snapshot, t: Bytes)
    ensures PutImage(Image(version, flags, s), t) == SnapshotBytes(version, flags, s) + t
  {
    var t5 := if version >= 2 then PutVfs(s, t) else t;
    var t4 := PutScheduler(s, t5);
    var t3 := PutTable(s, t4);
    var t2 := PutQueues(s, t3);
    FilesAre(s, t);
    SchedulerIs(s, t5);
    TableIs(s, t4);
    QueuesAre(s, t3);
    AccountsAre(s, t2);
    HeaderIs(version, flags, PutAccounts(s, t2));
    Chain(HeaderBytes(version, flags), AccountsBytes(s), QueuesBytes(s), TableBytes(s), SchedulerBytes(s),
          if version >= 2 then FilesBytes(s) else [], t);
    assert [] + t == t;
  }

  lemma Chain(a: Bytes, b: Bytes, c: Bytes, d: Bytes, e: Bytes, f: Bytes, t: Bytes)
    ensures a + (b + (c + (d + (e + (f + t))))) == (a + b + c + d + e + f) + t
  {
    assert e + (f + t) == (e + f) + t;
    assert d + ((e + f) + t) == (d + (e + f)) + t;
    assert c + ((d + (e + f)) + t) == (c + (d + (e + f))) + t;
    assert b + ((c + (d + (e + f))) + t) == (b + (c + (d + (e + f)))) + t;
    assert a + b + c + d + e + f == a + (b + (c + (d + (e + f))));
  }

  // ----- limits -----

  lemma LimitsMean(s: Snapshot, lim: Limits)
    ensures SnapshotFits(lim, s) <==> LengthsAtMost(s, lim.text, lim.count)
  {
    if LengthsAtMost(s, lim.text, lim.count) {
      assert forall i :: 0 <= i < |s.users| ==> s.users[i] in s.users;
      assert forall i :: 0 <= i < |s.pcbs| ==> s.pcbs[i] in s.pcbs;
      assert forall i :: 0 <= i < |s.memoryBlocks| ==> s.memoryBlocks[i] in s.memoryBlocks;
      assert forall i :: 0 <= i < |s.virtualFiles| ==> s.virtualFiles[i] in s.virtualFiles;
    }
  }

  lemma LimitsAre(s: Snapshot)
    ensures SnapshotFits(FILE_LIMITS, s) <==> WithinLimits(s)
    ensures SnapshotFits(WIDE_LIMITS, s) <==> Encodable(s)
  {
    LimitsMean(s, FILE_LIMITS);
    LimitsMean(s, WIDE_LIMITS);
  }

  // ----- the promises -----

  // What save writes, byte by byte; with anything after it, it loads exactly if no string is longer than a mebibyte
  // and no list longer than a million, and then as what was saved.
  lemma SavedBytesLoad(s: Snapshot, suffix: Bytes)
    requires Encodable(s)
    ensures Saved(s) == SnapshotBytes(2, 0, s)
    ensures Loaded(SnapshotBytes(2, 0, s) + suffix) == if WithinLimits(s) then Some(s) else None
  {
    SavedIs(s);
    LimitsAre(s);
    SavedLoads(s, suffix);
  }

  lemma SavedIs(s: Snapshot)
    ensures Saved(s) == SnapshotBytes(2, 0, s)
  {
    ImageIs(2, 0, s, []);
    assert SnapshotBytes(2, 0, s) + [] == SnapshotBytes(2, 0, s);
  }

  ghost predicate IsFileOf(b: Bytes, version: uint32, flags: uint32, s: Snapshot, t: Bytes) {
    && (version == 1 || version == 2)
    && b == SnapshotBytes(version, flags, s) + t
    && (version == 1 ==> s.nextFileId == 1 && s.virtualFiles == [])
  }

  lemma ImageIsFileOf(f: Image, t: Bytes)
    requires f.version == 1 || f.version == 2
    requires f.version == 1 ==> f.snapshot.nextFileId == 1 && f.snapshot.virtualFiles == []
    ensures IsFileOf(PutImage(f, t), f.version, f.flags, f.snapshot, t)
  {
    ImageIs(f.version, f.flags, f.snapshot, t);
  }

  lemma LoadedImage(b: Bytes) returns (f: Image, t: Bytes)
    requires Loaded(b).Some?
    ensures b == PutImage(f, t) && Loaded(b) == Some(f.snapshot) && SnapshotFits(FILE_LIMITS, f.snapshot)
    ensures f.version == 1 || f.version == 2
    ensures f.version == 1 ==> f.snapshot.nextFileId == 1 && f.snapshot.virtualFiles == []
  {
    ImageCanon(FILE_LIMITS, b);
    f, t := GetImage(FILE_LIMITS, b).value.0, GetImage(FILE_LIMITS, b).value.1;
  }

  lemma FileOfLoads(b: Bytes, version: uint32, flags: uint32, s: Snapshot, t: Bytes)
    requires IsFileOf(b, version, flags, s, t) && SnapshotFits(FILE_LIMITS, s)
    ensures Loaded(b) == Some(s)
  {
    ImageIs(version, flags, s, t);
    ImageRoundTrip(FILE_LIMITS, Image(version, flags, s), t);
  }

  ghost predicate SomeFileOf(b: Bytes, s: Snapshot) {
    exists version, flags, t :: IsFileOf(b, version, flags, s, t)
  }

  lemma LaidOutIsFile(b: Bytes, f: Image, t: Bytes)
    requires b == PutImage(f, t) && (f.version == 1 || f.version == 2)
    requires f.version == 1 ==> f.snapshot.nextFileId == 1 && f.snapshot.virtualFiles == []
    ensures SomeFileOf(b, f.snapshot)
  {
    ImageIsFileOf(f, t);
  }

  lemma LoadedIsWithinLimits(b: Bytes, s: Snapshot)
    requires Loaded(b) == Some(s)
    ensures WithinLimits(s)
  {
    var f, t := LoadedImage(b);
    LimitsAre(s);
  }

  lemma LoadedIsFile(b: Bytes, s: Snapshot)
    requires Loaded(b) == Some(s)
    ensures WithinLimits(s) && SomeFileOf(b, s)
  {
    LoadedIsWithinLimits(b, s);
    var f, t := LoadedImage(b);
    LaidOutIsFile(b, f, t);
  }

  // Exactly these bytes load as a snapshot: its layout in either version, with any flags and anything after it, if it
  // is within the limits. All others are refused.
  lemma LoadsExactly(b: Bytes, s: Snapshot)
    ensures Loaded(b) == Some(s) <==> WithinLimits(s) && SomeFileOf(b, s)
  {
    if Loaded(b) == Some(s) {
      LoadedIsFile(b, s);
    }
    if WithinLimits(s) && SomeFileOf(b, s) {
      var version, flags, t :| IsFileOf(b, version, flags, s, t);
      LimitsAre(s);
      FileOfLoads(b, version, flags, s, t);
    }
  }
}
