// The records of a snapshot file, field by field in the order in which they are written.

module RecordFormat {
  import opened Types
  import opened Codec

  // ----- primitive laws, quantified for use on whole records -----

  lemma NumberRules()
    ensures forall v: uint32, t {:trigger PutU32(v, t)} :: GetU32(PutU32(v, t)) == Some((v, t))
    ensures forall v: int32, t {:trigger PutI32(v, t)} :: GetI32(PutI32(v, t)) == Some((v, t))
    ensures forall v: uint64, t {:trigger PutU64(v, t)} :: GetU64(PutU64(v, t)) == Some((v, t))
    ensures forall v, t {:trigger PutBool(v, t)} :: GetBool(PutBool(v, t)) == Some((v, t))
  {
    U32Laws();
    U64Laws();
    I32Laws();
    BoolLaws();
    forall v: uint32, t ensures GetU32(PutU32(v, t)) == Some((v, t)) { RoundTripLE(4, v, t); }
  }

  lemma TextRule(lim: Limits)
    ensures forall s, t {:trigger PutText(s, t)} :: |s| <= lim.text ==> GetText(lim, PutText(s, t)) == Some((s, t))
  {
    forall s, t | |s| <= lim.text ensures GetText(lim, PutText(s, t)) == Some((s, t)) {
      TextRoundTrip(lim, s, t);
    }
  }

  // ----- enumerations -----

  function StateCode(s: ProcessState): int32 {
    match s
    case NEW => 0
    case READY => 1
    case RUNNING => 2
    case BLOCKED => 3
    case SUSPENDED_READY => 4
    case SUSPENDED_BLOCKED => 5
    case TERMINATED => 6
    case SWAPPED => 7
  }

  function StateOf(n: int32): Option<ProcessState> {
    match n
    case 0 => Some(NEW)
    case 1 => Some(READY)
    case 2 => Some(RUNNING)
    case 3 => Some(BLOCKED)
    case 4 => Some(SUSPENDED_READY)
    case 5 => Some(SUSPENDED_BLOCKED)
    case 6 => Some(TERMINATED)
    case 7 => Some(SWAPPED)
    case _ => None
  }

  // ----- PCBs -----

  function PutIds(ids: seq<uint32>, t: Bytes): Bytes {
    PutList(PutU32, ids, t)
  }

  function GetIds(lim: Limits, b: Bytes): Option<(seq<uint32>, Bytes)> {
    GetList(lim, GetU32, b)
  }

  // The fields are filled in group by group, on top of a default record.
  const BLANK_PCB := PCB(0, 0, [], [], NEW, 0, 0, 0, 0, 0, 0, 0, 0, false, [])

  function PutIdentity(x: PCB, t: Bytes): Bytes {
    PutU32(x.pid, PutU32(x.ppid, PutText(x.name, PutText(x.owner, t))))
  }

  function GetIdentity(lim: Limits, x: PCB, b0: Bytes): Option<(PCB, Bytes)> {
    var (pid, b1) :- GetU32(b0);
    var (ppid, b2) :- GetU32(b1);
    var (name, b3) :- GetText(lim, b2);
    var (owner, b4) :- GetText(lim, b3);
    Some((x.(pid := pid, ppid := ppid, name := name, owner := owner), b4))
  }

  function PutSchedule(x: PCB, t: Bytes): Bytes {
    PutI32(StateCode(x.state), PutI32(x.priority, PutI32(x.queueLevel, t)))
  }

  function GetSchedule(x: PCB, b0: Bytes): Option<(PCB, Bytes)> {
    var (code, b1) :- GetI32(b0);
    var state :- StateOf(code);
    var (priority, b2) :- GetI32(b1);
    var (queueLevel, b3) :- GetI32(b2);
    Some((x.(state := state, priority := priority, queueLevel := queueLevel), b3))
  }

  function PutTimes(x: PCB, t: Bytes): Bytes {
    PutU32(x.totalTime, PutU32(x.executedTime, PutU32(x.remainingTime, PutU32(x.timeSliceLeft, t))))
  }

  function GetTimes(x: PCB, b0: Bytes): Option<(PCB, Bytes)> {
    var (total, b1) :- GetU32(b0);
    var (executed, b2) :- GetU32(b1);
    var (remaining, b3) :- GetU32(b2);
    var (slice, b4) :- GetU32(b3);
    Some((x.(totalTime := total, executedTime := executed, remainingTime := remaining, timeSliceLeft := slice), b4))
  }

  function PutMemory(x: PCB, t: Bytes): Bytes {
    PutU32(x.memStart, PutU32(x.memSize, PutBool(x.swappedOut, PutIds(x.children, t))))
  }

  function GetMemory(lim: Limits, x: PCB, b0: Bytes): Option<(PCB, Bytes)> {
    var (start, b1) :- GetU32(b0);
    var (size, b2) :- GetU32(b1);
    var (swapped, b3) :- GetBool(b2);
    var (children, b4) :- GetIds(lim, b3);
    Some((x.(memStart := start, memSize := size, swappedOut := swapped, children := children), b4))
  }

  function PutPcb(x: PCB, t: Bytes): Bytes {
    PutIdentity(x, PutSchedule(x, PutTimes(x, PutMemory(x, t))))
  }

  function GetPcb(lim: Limits, b0: Bytes): Option<(PCB, Bytes)> {
    var (x1, b1) :- GetIdentity(lim, BLANK_PCB, b0);
    var (x2, b2) :- GetSchedule(x1, b1);
    var (x3, b3) :- GetTimes(x2, b2);
    GetMemory(lim, x3, b3)
  }

  predicate PcbFits(lim: Limits, x: PCB) {
    |x.name| <= lim.text && |x.owner| <= lim.text && |x.children| <= lim.count
  }

  lemma IdentityRoundTrip(lim: Limits, base: PCB, x: PCB, t: Bytes)
    requires PcbFits(lim, x)
    ensures GetIdentity(lim, base, PutIdentity(x, t)) ==
      Some((base.(pid := x.pid, ppid := x.ppid, name := x.name, owner := x.owner), t))
  {
    NumberRules();
    TextRule(lim);
  }

  lemma ScheduleRoundTrip(base: PCB, x: PCB, t: Bytes)
    ensures GetSchedule(base, PutSchedule(x, t)) ==
      Some((base.(state := x.state, priority := x.priority, queueLevel := x.queueLevel), t))
  {
    NumberRules();
  }

  lemma TimesRoundTrip(base: PCB, x: PCB, t: Bytes)
    ensures GetTimes(base, PutTimes(x, t)) ==
      Some((base.(totalTime := x.totalTime, executedTime := x.executedTime, remainingTime := x.remainingTime,
                  timeSliceLeft := x.timeSliceLeft), t))
  {
    NumberRules();
  }

  lemma MemoryRoundTrip(lim: Limits, base: PCB, x: PCB, t: Bytes)
    requires PcbFits(lim, x)
    ensures GetMemory(lim, base, PutMemory(x, t)) ==
      Some((base.(memStart := x.memStart, memSize := x.memSize, swappedOut := x.swappedOut, children := x.children), t))
  {
    NumberRules();
    IdsRoundTrip(lim, x.children, t);
  }

  lemma IdsRoundTrip(lim: Limits, ids: seq<uint32>, t: Bytes)
    requires |ids| <= lim.count
    ensures GetIds(lim, PutIds(ids, t)) == Some((ids, t))
  {
    U32Laws();
    ListRoundTrip(lim, PutU32, GetU32, (v: uint32) => true, ids, t);
  }

  lemma PcbRoundTrip(lim: Limits, x: PCB, t: Bytes)
    requires PcbFits(lim, x)
    ensures GetPcb(lim, PutPcb(x, t)) == Some((x, t))
  {
    var t3 := PutMemory(x, t);
    var t2 := PutTimes(x, t3);
    var t1 := PutSchedule(x, t2);
    var x1 := BLANK_PCB.(pid := x.pid, ppid := x.ppid, name := x.name, owner := x.owner);
    var x2 := x1.(state := x.state, priority := x.priority, queueLevel := x.queueLevel);
    var x3 := x2.(totalTime := x.totalTime, executedTime := x.executedTime, remainingTime := x.remainingTime,
                  timeSliceLeft := x.timeSliceLeft);
    IdentityRoundTrip(lim, BLANK_PCB, x, t1);
    ScheduleRoundTrip(x1, x, t2);
    TimesRoundTrip(x2, x, t3);
    MemoryRoundTrip(lim, x3, x, t);
  }

  // ----- canonical -----

  lemma NumberCanon()
    ensures forall b {:trigger GetU32(b)} :: GetU32(b).Some? ==> b == PutU32(GetU32(b).value.0, GetU32(b).value.1)
    ensures forall b {:trigger GetI32(b)} :: GetI32(b).Some? ==> b == PutI32(GetI32(b).value.0, GetI32(b).value.1)
    ensures forall b {:trigger GetU64(b)} :: GetU64(b).Some? ==> b == PutU64(GetU64(b).value.0, GetU64(b).value.1)
    ensures forall b {:trigger GetBool(b)} :: GetBool(b).Some? ==> b == PutBool(GetBool(b).value.0, GetBool(b).value.1)
  {
    U32Laws();
    U64Laws();
    I32Laws();
    BoolLaws();
  }

  lemma TextCanon(lim: Limits)
    ensures forall b {:trigger GetText(lim, b)} :: GetText(lim, b).Some? ==>
      b == PutText(GetText(lim, b).value.0, GetText(lim, b).value.1) && |GetText(lim, b).value.0| <= lim.text
  {
    forall b ensures GetText(lim, b).Some? ==>
      b == PutText(GetText(lim, b).value.0, GetText(lim, b).value.1) && |GetText(lim, b).value.0| <= lim.text
    {
      TextCanonical(lim, b);
    }
  }

  lemma NumberAppend()
    ensures forall v: uint32, t, c {:trigger PutU32(v, t) + c} :: PutU32(v, t) + c == PutU32(v, t + c)
    ensures forall v: int32, t, c {:trigger PutI32(v, t) + c} :: PutI32(v, t) + c == PutI32(v, t + c)
    ensures forall v: uint64, t, c {:trigger PutU64(v, t) + c} :: PutU64(v, t) + c == PutU64(v, t + c)
    ensures forall v, t, c {:trigger PutBool(v, t) + c} :: PutBool(v, t) + c == PutBool(v, t + c)
    ensures forall s: Text, t, c {:trigger PutText(s, t) + c} :: PutText(s, t) + c == PutText(s, t + c)
  {
    forall v: uint32, t, c ensures PutU32(v, t) + c == PutU32(v, t + c) { AppendLE(4, v, t, c); }
    forall v: int32, t, c ensures PutI32(v, t) + c == PutI32(v, t + c) {
      AppendLE(4, if v < 0 then v + 0x1_0000_0000 else v, t, c);
    }
    forall v: uint64, t, c ensures PutU64(v, t) + c == PutU64(v, t + c) { AppendLE(8, v, t, c); }
    forall v: bool, t, c ensures PutBool(v, t) + c == PutBool(v, t + c) { AppendLE(4, if v then 1 else 0, t, c); }
    forall s: Text, t, c ensures PutText(s, t) + c == PutText(s, t + c) { TextAppend(s, t, c); }
  }

  lemma PcbAppend(x: PCB, t: Bytes, c: Bytes)
    ensures PutPcb(x, t) + c == PutPcb(x, t + c)
  {
    var t3 := PutMemory(x, t);
    var t2 := PutTimes(x, t3);
    var t1 := PutSchedule(x, t2);
    assert PutMemory(x, t) + c == PutMemory(x, t + c) by { NumberAppend(); IdsAppend(x.children, t, c); }
    assert PutTimes(x, t3) + c == PutTimes(x, t3 + c) by { NumberAppend(); }
    assert PutSchedule(x, t2) + c == PutSchedule(x, t2 + c) by { NumberAppend(); }
    assert PutIdentity(x, t1) + c == PutIdentity(x, t1 + c) by { NumberAppend(); }
  }

  lemma IdsAppend(ids: seq<uint32>, t: Bytes, c: Bytes)
    ensures PutIds(ids, t) + c == PutIds(ids, t + c)
  {
    U32Laws();
    ListAppend(PutU32, GetU32, (v: uint32) => true, ids, t, c);
  }

  lemma IdsCanon(lim: Limits, b: Bytes)
    ensures GetIds(lim, b).Some? ==>
      b == PutIds(GetIds(lim, b).value.0, GetIds(lim, b).value.1) && |GetIds(lim, b).value.0| <= lim.count
  {
    U32Laws();
    ListCanonical(lim, PutU32, GetU32, (v: uint32) => true, b);
  }

  lemma IdentityCanon(lim: Limits, base: PCB, b: Bytes)
    ensures GetIdentity(lim, base, b).Some? ==>
      var (x, t) := GetIdentity(lim, base, b).value;
      && b == PutIdentity(x, t) && |x.name| <= lim.text && |x.owner| <= lim.text
      && x == base.(pid := x.pid, ppid := x.ppid, name := x.name, owner := x.owner)
  {
    NumberCanon();
    TextCanon(lim);
  }

  lemma ScheduleCanon(base: PCB, b: Bytes)
    ensures GetSchedule(base, b).Some? ==>
      var (x, t) := GetSchedule(base, b).value;
      && b == PutSchedule(x, t)
      && x == base.(state := x.state, priority := x.priority, queueLevel := x.queueLevel)
  {
    NumberCanon();
  }

  lemma TimesCanon(base: PCB, b: Bytes)
    ensures GetTimes(base, b).Some? ==>
      var (x, t) := GetTimes(base, b).value;
      && b == PutTimes(x, t)
      && x == base.(totalTime := x.totalTime, executedTime := x.executedTime, remainingTime := x.remainingTime,
                    timeSliceLeft := x.timeSliceLeft)
  {
    NumberCanon();
  }

  lemma MemoryCanon(lim: Limits, base: PCB, b: Bytes)
    ensures GetMemory(lim, base, b).Some? ==>
      var (x, t) := GetMemory(lim, base, b).value;
      && b == PutMemory(x, t) && |x.children| <= lim.count
      && x == base.(memStart := x.memStart, memSize := x.memSize, swappedOut := x.swappedOut, children := x.children)
  {
    NumberCanon();
    if GetMemory(lim, base, b).Some? {
      var b3 := GetBool(GetU32(GetU32(b).value.1).value.1).value.1;
      IdsCanon(lim, b3);
    }
  }

  lemma PcbCanon(lim: Limits, b: Bytes)
    ensures GetPcb(lim, b).Some? ==>
      b == PutPcb(GetPcb(lim, b).value.0, GetPcb(lim, b).value.1) && PcbFits(lim, GetPcb(lim, b).value.0)
  {
    if GetPcb(lim, b).Some? {
      IdentityCanon(lim, BLANK_PCB, b);
      var (x1, b1) := GetIdentity(lim, BLANK_PCB, b).value;
      ScheduleCanon(x1, b1);
      var (x2, b2) := GetSchedule(x1, b1).value;
      TimesCanon(x2, b2);
      var (x3, b3) := GetTimes(x2, b2).value;
      MemoryCanon(lim, x3, b3);
      var (x, t) := GetMemory(lim, x3, b3).value;
      assert PutTimes(x, b3) == PutTimes(x3, b3);
      assert PutSchedule(x, b2) == PutSchedule(x2, b2);
      assert PutIdentity(x, b1) == PutIdentity(x1, b1);
    }
  }

  function PcbGetter(lim: Limits): Bytes -> Option<(PCB, Bytes)> {
    b => GetPcb(lim, b)
  }

  function PcbWithin(lim: Limits): PCB -> bool {
    x => PcbFits(lim, x)
  }

  lemma PcbLaws(lim: Limits)
    ensures Lawful(PutPcb, PcbGetter(lim), PcbWithin(lim))
  {
    forall x, t | PcbWithin(lim)(x) ensures PcbGetter(lim)(PutPcb(x, t)) == Some((x, t)) { PcbRoundTrip(lim, x, t); }
    forall b ensures PcbGetter(lim)(b).Some? ==>
      b == PutPcb(PcbGetter(lim)(b).value.0, PcbGetter(lim)(b).value.1) && PcbWithin(lim)(PcbGetter(lim)(b).value.0)
    {
      PcbCanon(lim, b);
    }
    forall x, t, c ensures PutPcb(x, t) + c == PutPcb(x, t + c) { PcbAppend(x, t, c); }
  }

  // ----- memory blocks -----

  function KindCode(k: BlockKind): int32 {
    match k
    case FREE => 0
    case PROCESS => 1
    case KERNEL => 2
    case SWAPPED_BLOCK => 3
  }

  function KindOf(n: int32): Option<BlockKind> {
    match n
    case 0 => Some(FREE)
    case 1 => Some(PROCESS)
    case 2 => Some(KERNEL)
    case 3 => Some(SWAPPED_BLOCK)
    case _ => None
  }

  function PutBlock(x: Block, t: Bytes): Bytes {
    PutU32(x.start, PutU32(x.size, PutI32(KindCode(x.kind), PutU32(x.pid, PutText(x.owner, PutText(x.tag, t))))))
  }

  function GetBlock(lim: Limits, b0: Bytes): Option<(Block, Bytes)> {
    var (start, b1) :- GetU32(b0);
    var (size, b2) :- GetU32(b1);
    var (code, b3) :- GetI32(b2);
    var kind :- KindOf(code);
    var (pid, b4) :- GetU32(b3);
    var (owner, b5) :- GetText(lim, b4);
    var (tag, b6) :- GetText(lim, b5);
    Some((Block(start, size, kind, pid, owner, tag), b6))
  }

  function BlockGetter(lim: Limits): Bytes -> Option<(Block, Bytes)> {
    b => GetBlock(lim, b)
  }

  predicate BlockFits(lim: Limits, x: Block) {
    |x.owner| <= lim.text && |x.tag| <= lim.text
  }

  function BlockWithin(lim: Limits): Block -> bool {
    x => BlockFits(lim, x)
  }

  lemma BlockRoundTrip(lim: Limits, x: Block, t: Bytes)
    requires BlockFits(lim, x)
    ensures GetBlock(lim, PutBlock(x, t)) == Some((x, t))
  {
    NumberRules();
    TextRule(lim);
  }

  lemma BlockCanon(lim: Limits, b: Bytes)
    ensures GetBlock(lim, b).Some? ==>
      b == PutBlock(GetBlock(lim, b).value.0, GetBlock(lim, b).value.1) && BlockFits(lim, GetBlock(lim, b).value.0)
  {
    NumberCanon();
    TextCanon(lim);
  }

  lemma BlockLaws(lim: Limits)
    ensures Lawful(PutBlock, BlockGetter(lim), BlockWithin(lim))
  {
    forall x, t | BlockWithin(lim)(x) ensures BlockGetter(lim)(PutBlock(x, t)) == Some((x, t)) {
      BlockRoundTrip(lim, x, t);
    }
    forall b ensures BlockGetter(lim)(b).Some? ==>
      && b == PutBlock(BlockGetter(lim)(b).value.0, BlockGetter(lim)(b).value.1)
      && BlockWithin(lim)(BlockGetter(lim)(b).value.0)
    {
      BlockCanon(lim, b);
    }
    forall x, t, c ensures PutBlock(x, t) + c == PutBlock(x, t + c) { NumberAppend(); }
  }

  // ----- user accounts -----

  function StatusCode(s: AccountStatus): int32 {
    if s.NORMAL? then 0 else 1
  }

  function StatusOf(n: int32): Option<AccountStatus> {
    if n == 0 then Some(NORMAL) else if n == 1 then Some(LOCKED) else None
  }

  function PutUser(x: UserAccount, t: Bytes): Bytes {
    PutText(x.username, PutText(x.passwordHash, PutText(x.salt,
      PutI32(x.failedAttempts, PutI32(StatusCode(x.status), t)))))
  }

  function GetUser(lim: Limits, b0: Bytes): Option<(UserAccount, Bytes)> {
    var (username, b1) :- GetText(lim, b0);
    var (hash, b2) :- GetText(lim, b1);
    var (salt, b3) :- GetText(lim, b2);
    var (failed, b4) :- GetI32(b3);
    var (code, b5) :- GetI32(b4);
    var status :- StatusOf(code);
    Some((UserAccount(username, hash, salt, failed, status), b5))
  }

  function UserGetter(lim: Limits): Bytes -> Option<(UserAccount, Bytes)> {
    b => GetUser(lim, b)
  }

  predicate UserFits(lim: Limits, x: UserAccount) {
    |x.username| <= lim.text && |x.passwordHash| <= lim.text && |x.salt| <= lim.text
  }

  function UserWithin(lim: Limits): UserAccount -> bool {
    x => UserFits(lim, x)
  }

  lemma UserRoundTrip(lim: Limits, x: UserAccount, t: Bytes)
    requires UserFits(lim, x)
    ensures GetUser(lim, PutUser(x, t)) == Some((x, t))
  {
    NumberRules();
    TextRule(lim);
  }

  lemma UserCanon(lim: Limits, b: Bytes)
    ensures GetUser(lim, b).Some? ==>
      b == PutUser(GetUser(lim, b).value.0, GetUser(lim, b).value.1) && UserFits(lim, GetUser(lim, b).value.0)
  {
    NumberCanon();
    TextCanon(lim);
  }

  lemma UserLaws(lim: Limits)
    ensures Lawful(PutUser, UserGetter(lim), UserWithin(lim))
  {
    forall x, t | UserWithin(lim)(x) ensures UserGetter(lim)(PutUser(x, t)) == Some((x, t)) {
      UserRoundTrip(lim, x, t);
    }
    forall b ensures UserGetter(lim)(b).Some? ==>
      && b == PutUser(UserGetter(lim)(b).value.0, UserGetter(lim)(b).value.1)
      && UserWithin(lim)(UserGetter(lim)(b).value.0)
    {
      UserCanon(lim, b);
    }
    forall x, t, c ensures PutUser(x, t) + c == PutUser(x, t + c) { NumberAppend(); }
  }

  // ----- virtual files -----

  function PutFile(x: VirtualFile, t: Bytes): Bytes {
    PutU32(x.fileId, PutText(x.owner, PutText(x.name, PutText(x.content,
      PutU64(x.createdAt, PutU64(x.modifiedAt, t))))))
  }

  function GetFile(lim: Limits, b0: Bytes): Option<(VirtualFile, Bytes)> {
    var (fileId, b1) :- GetU32(b0);
    var (owner, b2) :- GetText(lim, b1);
    var (name, b3) :- GetText(lim, b2);
    var (content, b4) :- GetText(lim, b3);
    var (created, b5) :- GetU64(b4);
    var (modified, b6) :- GetU64(b5);
    Some((VirtualFile(fileId, owner, name, content, created, modified), b6))
  }

  function FileGetter(lim: Limits): Bytes -> Option<(VirtualFile, Bytes)> {
    b => GetFile(lim, b)
  }

  predicate FileFits(lim: Limits, x: VirtualFile) {
    |x.owner| <= lim.text && |x.name| <= lim.text && |x.content| <= lim.text
  }

  function FileWithin(lim: Limits): VirtualFile -> bool {
    x => FileFits(lim, x)
  }

  lemma FileRoundTrip(lim: Limits, x: VirtualFile, t: Bytes)
    requires FileFits(lim, x)
    ensures GetFile(lim, PutFile(x, t)) == Some((x, t))
  {
    NumberRules();
    TextRule(lim);
  }

  lemma FileCanon(lim: Limits, b: Bytes)
    ensures GetFile(lim, b).Some? ==>
      b == PutFile(GetFile(lim, b).value.0, GetFile(lim, b).value.1) && FileFits(lim, GetFile(lim, b).value.0)
  {
    NumberCanon();
    TextCanon(lim);
  }

  lemma FileLaws(lim: Limits)
    ensures Lawful(PutFile, FileGetter(lim), FileWithin(lim))
  {
    forall x, t | FileWithin(lim)(x) ensures FileGetter(lim)(PutFile(x, t)) == Some((x, t)) {
      FileRoundTrip(lim, x, t);
    }
    forall b ensures FileGetter(lim)(b).Some? ==>
      && b == PutFile(FileGetter(lim)(b).value.0, FileGetter(lim)(b).value.1)
      && FileWithin(lim)(FileGetter(lim)(b).value.0)
    {
      FileCanon(lim, b);
    }
    forall x, t, c ensures PutFile(x, t) + c == PutFile(x, t + c) { NumberAppend(); }
  }
}
