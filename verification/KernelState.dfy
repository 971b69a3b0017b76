// The whole kernel as a value, its snapshots, and what each command and each scheduler tick makes of it.

module KernelState {
  import opened Types
  import opened BlockTable
  import opened Allocation
  import opened Compaction
  import opened ProcessTable
  import opened ProcessRestore
  import opened Scheduling
  import opened Coherence
  import opened Transactions
  import opened Users
  import opened SnapshotFormat
  import opened VirtualFileSystems
  import SnapshotStores

  // disk is the contents of the state file, if there is one.
  datatype KState = KState(
    users: UserMap,
    session: Option<Text>,
    sys: Sys,
    schedulerRunning: bool,
    schedulerOwner: Text,
    vfs: Vfs,
    disk: Option<seq<byte>>)

  // ----- clean state, export, import -----

  const CLEAN_SYS := Sys(Proc(map[], [[], [], []], 1), Mem(1024, FIRST_FIT, [FreeBlock(0, 1024)]))

  function Clean(disk: Option<seq<byte>>): KState {
    KState(map[], None, CLEAN_SYS, false, [], Vfs(1, []), disk)
  }

  ghost function Export(k: KState): Snapshot {
    var ps, m := k.sys.proc, k.sys.mem;
    Snapshot(ListUsers(k.users), ps.nextPid, ListPcbs(ps.pcbs), ps.queues, m.total, m.algorithm, m.blocks,
             k.schedulerRunning, k.schedulerOwner, k.vfs.nextFileId, SortFiles(k.vfs.files))
  }

  // The state an accepted snapshot leaves behind: nobody is logged in and the scheduler is off.
  ghost function Restored(s: Snapshot, disk: Option<seq<byte>>): KState {
    KState(
      IndexUsers(s.users), None,
      Sys(ImportedProc(s.pcbs, s.readyQueues, s.nextPid),
          Mem(s.totalMemoryKB, s.allocAlgorithm, Normalized(s.memoryBlocks))),
      false, [], Vfs(if s.nextFileId < 1 then 1 else s.nextFileId, s.virtualFiles), disk)
  }

  // ----- what validateSnapshot accepts -----

  ghost predicate UsersValid(users: seq<UserAccount>) {
    (forall x :: x in users ==> x.username != []) && DistinctNames(users)
  }

  predicate PcbValid(x: PCB) {
    && x.pid != 0
    && x.ppid != x.pid
    && 0 <= x.priority <= 15
    && 0 <= x.queueLevel <= 2
    && x.executedTime <= x.totalTime
    && x.remainingTime <= x.totalTime
  }

  predicate IsSwapped(x: PCB) {
    x.swappedOut || x.state.SWAPPED?
  }

  ghost predicate PcbsValid(s: Snapshot) {
    var table := IndexPcbs(s.pcbs);
    && DistinctPids(s.pcbs)
    && (forall x :: x in s.pcbs ==>
        && PcbValid(x)
        && x.owner in IndexUsers(s.users)
        && x.pid < s.nextPid
        && (x.ppid != 0 ==> x.ppid in table)
        && (forall c :: c in x.children ==> c in table))
    && 0 < s.nextPid
  }

  // A block against the PCBs and the users.
  ghost predicate BlockValid(s: Snapshot, b: Block) {
    var table := IndexPcbs(s.pcbs);
    && (b.kind.PROCESS? ==>
        && b.pid in table
        && table[b.pid].owner == b.owner
        && !IsSwapped(table[b.pid])
        && b.start == table[b.pid].memStart
        && b.size == table[b.pid].memSize)
    && (b.kind.PROCESS? || b.kind.KERNEL? ==> b.owner in IndexUsers(s.users))
  }

  ghost predicate BlocksValid(s: Snapshot) {
    && (forall b :: b in s.memoryBlocks ==> BlockValid(s, b))
    && OneBlockPerPid(s.memoryBlocks)
    && (forall x :: x in s.pcbs && !IsSwapped(x) ==> OwnsBlock(s.memoryBlocks, x.pid))
  }

  ghost predicate OwnsBlock(bs: seq<Block>, pid: uint32) {
    exists b :: b in bs && b.kind.PROCESS? && b.pid == pid
  }

  ghost predicate ValidSnapshot(s: Snapshot) {
    && UsersValid(s.users)
    && PcbsValid(s)
    && s.totalMemoryKB != 0
    && BlocksValid(s)
    && ValidTable(Normalized(s.memoryBlocks), s.totalMemoryKB)
  }

  // ----- events -----

  datatype Event =
    | Register(name: Text, password: Text, salt: Text)
    | Login(name: Text, password: Text)
    | Logout
    | Exit
    | CreatePcb(name: Text, memKB: uint32, priority: int32, totalTime: uint32, ppid: Option<uint32>)
    | KillPcb(pid: uint32)
    | BlockPcb(pid: uint32)
    | WakeupPcb(pid: uint32)
    | Suspend(pid: uint32)
    | Resume(pid: uint32)
    | Renice(pid: uint32, priority: int32)
    | SwapOut(pid: uint32)
    | Alloc(tag: Text, sizeKB: uint32)
    | FreeMem(addr: uint32)
    | SetAlgorithm(algorithm: AllocAlgorithm)
    | Compact
    | Step
    | StartSched
    | StopSched
    | RestartSched
    | TouchFile(name: Text, now: uint64)
    | WriteFile(name: Text, content: Text, now: uint64)
    | RemoveFile(name: Text)
    | Save
    | Load
    | Boot      // stop the kernel and start it again
    | AutoStep  // one turn of the scheduler thread

  predicate ValidTag(tag: Text) {
    0 < |tag| <= 32 && forall i :: 0 <= i < |tag| ==> FileNameChar(tag[i])
  }

  function Halted(k: KState): KState {
    k.(schedulerRunning := false, schedulerOwner := [])
  }

  // ----- the commands of a logged-in user -----

  ghost function ProcOutcome(k: KState, p: Option<Proc>): (KState, bool) {
    match p
    case None => (k, false)
    case Some(ps) => (k.(sys := k.sys.(proc := ps)), true)
  }

  ghost function SysOutcome(k: KState, r: (Sys, bool)): (KState, bool) {
    (k.(sys := r.0), r.1)
  }

  ghost function MemOutcome(k: KState, m: Option<Mem>): (KState, bool) {
    match m
    case None => (k, false)
    case Some(mem) => (k.(sys := k.sys.(mem := mem)), true)
  }

  ghost function FileOutcome(k: KState, v: Option<Vfs>): (KState, bool) {
    match v
    case None => (k, false)
    case Some(vfs) => (k.(vfs := vfs), true)
  }

  predicate IsSessionCommand(e: Event) {
    e.Register? || e.Login? || e.Logout? || e.Exit?
  }

  predicate IsDiskCommand(e: Event) {
    e.Save? || e.Load? || e.Boot?
  }

  predicate IsUserCommand(e: Event) {
    !IsSessionCommand(e) && !IsDiskCommand(e) && !e.AutoStep?
  }

  predicate IsStateCommand(e: Event) {
    e.BlockPcb? || e.WakeupPcb? || e.Suspend? || e.Resume? || e.Renice?
  }

  ghost function StateCommand(k: KState, u: Text, e: Event): (KState, bool)
    requires IsStateCommand(e)
  {
    var ps := k.sys.proc;
    ProcOutcome(k,
      match e
      case BlockPcb(pid) => BlockProc(ps, u, pid)
      case WakeupPcb(pid) => WakeupProc(ps, u, pid)
      case Suspend(pid) => SuspendProc(ps, u, pid)
      case Resume(pid) => ResumeProc(ps, u, pid)
      case Renice(pid, priority) => ReniceProc(ps, u, pid, priority))
  }

  predicate IsMemoryCommand(e: Event) {
    e.Alloc? || e.FreeMem? || e.SetAlgorithm? || e.Compact?
  }

  ghost function MemoryCommand(k: KState, u: Text, e: Event): (KState, bool)
    requires IsMemoryCommand(e)
  {
    match e
    case Alloc(tag, sizeKB) =>
      if !ValidTag(tag) then (k, false) else SysOutcome(k, Answered(k.sys, AllocSys(k.sys, u, tag, sizeKB)))
    case FreeMem(addr) => MemOutcome(k, FreeAddress(k.sys.mem, u, addr))
    case SetAlgorithm(algorithm) => (k.(sys := k.sys.(mem := k.sys.mem.(algorithm := algorithm))), true)
    case Compact => (k.(sys := CompactSys(k.sys)), true)
  }

  // Commands that touch both managers.
  predicate IsSystemCommand(e: Event) {
    e.CreatePcb? || e.KillPcb? || e.SwapOut? || e.Step?
  }

  ghost function SystemCommand(k: KState, u: Text, e: Event): (KState, bool)
    requires IsSystemCommand(e)
  {
    match e
    case CreatePcb(name, memKB, priority, totalTime, ppid) =>
      SysOutcome(k, CreatePcbOn(k.sys, u, name, memKB, priority, totalTime, ppid))
    case KillPcb(pid) => SysOutcome(k, KillPcbOn(k.sys, u, pid))
    case SwapOut(pid) => SysOutcome(k, SwapOutOn(k.sys, u, pid))
    case Step => (k.(sys := StepOn(k.sys, u)), true)
  }

  predicate IsFileCommand(e: Event) {
    e.TouchFile? || e.WriteFile? || e.RemoveFile?
  }

  ghost function FileCommand(k: KState, u: Text, e: Event): (KState, bool)
    requires IsFileCommand(e)
  {
    FileOutcome(k,
      match e
      case TouchFile(name, now) => Touch(k.vfs, u, name, now)
      case WriteFile(name, content, now) => Write(k.vfs, u, name, content, now)
      case RemoveFile(name) => Delete(k.vfs, u, name))
  }

  function Unclogged(k: KState): KState {
    var ps := k.sys.proc;
    k.(sys := k.sys.(proc := ps.(queues := Cleaned(ps.pcbs, ps.queues))))
  }

  predicate IsSchedulerCommand(e: Event) {
    e.StartSched? || e.StopSched? || e.RestartSched?
  }

  function SchedulerCommand(k: KState, u: Text, e: Event): KState
    requires IsSchedulerCommand(e)
  {
    match e
    case StartSched => if k.schedulerRunning then k else k.(schedulerRunning := true, schedulerOwner := u)
    case StopSched => k.(schedulerRunning := false)
    case RestartSched => Unclogged(k).(schedulerRunning := true, schedulerOwner := u)
  }

  ghost function UserCommand(k: KState, u: Text, e: Event): (KState, bool)
    requires IsUserCommand(e)
  {
    if IsStateCommand(e) then StateCommand(k, u, e)
    else if IsMemoryCommand(e) then MemoryCommand(k, u, e)
    else if IsSystemCommand(e) then SystemCommand(k, u, e)
    else if IsFileCommand(e) then FileCommand(k, u, e)
    else (SchedulerCommand(k, u, e), true)
  }

  // ----- persistence -----

  ghost function ImportFile(disk: Option<seq<byte>>): Option<KState> {
    var b :- disk;
    var s :- Loaded(b);
    if ValidSnapshot(s) then Some(Restored(s, disk)) else None
  }

  ghost function SaveFile(k: KState): (KState, bool) {
    if SnapshotStores.SnapshotWritable(Export(k)) then (k.(disk := Some(Saved(Export(k)))), true) else (k, false)
  }

  ghost function LoadFile(k: KState): (KState, bool) {
    match ImportFile(k.disk)
    case None => (Halted(k), false)
    case Some(restored) => (restored, true)
  }

  ghost function Booted(k: KState): KState {
    match ImportFile(k.disk)
    case None => Clean(k.disk)
    case Some(restored) => restored
  }

  // ----- one event -----

  function Registering(k: KState, name: Text, password: Text, salt: Text): (KState, bool) {
    match Registered(k.users, name, password, salt)
    case None => (k, false)
    case Some(users) => (k.(users := users), true)
  }

  function LoggingIn(k: KState, name: Text, password: Text): (KState, bool) {
    var (users, ok) := Attempted(k.users, k.session, name, password);
    (k.(users := users, session := if ok then Some(name) else k.session), ok)
  }

  function LoggingOut(k: KState): (KState, bool) {
    if k.session.None? then (k, false) else (Halted(k).(session := None), true)
  }

  ghost function AutoTurn(k: KState): KState {
    if k.schedulerRunning && k.schedulerOwner != [] then k.(sys := StepOn(k.sys, k.schedulerOwner)) else k
  }

  ghost function SessionCommand(k: KState, e: Event): (KState, bool)
    requires IsSessionCommand(e)
  {
    match e
    case Register(name, password, salt) => Registering(k, name, password, salt)
    case Login(name, password) => LoggingIn(k, name, password)
    case Logout => LoggingOut(k)
    case Exit => (Halted(k), true)
  }

  ghost function DiskCommand(k: KState, e: Event): (KState, bool)
    requires IsDiskCommand(e)
  {
    match e
    case Save => SaveFile(k)
    case Load => LoadFile(k)
    case Boot => (Booted(k), true)
  }

  ghost function Apply(k: KState, e: Event): (KState, bool) {
    if IsSessionCommand(e) then SessionCommand(k, e)
    else if IsDiskCommand(e) then DiskCommand(k, e)
    else if e.AutoStep? then (AutoTurn(k), true)
    else if k.session.None? then (k, false)
    else UserCommand(k, k.session.value, e)
  }

  // ----- the invariant -----

  ghost predicate OwnersOk(k: KState) {
    && (forall p :: p in k.sys.proc.pcbs ==> k.sys.proc.pcbs[p].owner in k.users)
    && (forall b :: Allocated(k.sys.mem.blocks, b) ==> b.owner in k.users)
  }

  // The scheduler, when it runs, runs for the user who is logged in.
  ghost predicate SchedulerOk(k: KState) {
    && (k.session.Some? ==> k.session.value in k.users)
    && (k.schedulerRunning ==> k.session == Some(k.schedulerOwner))
  }

  ghost predicate KernelOk(k: KState) {
    SysOk(k.sys) && UsersOk(k.users) && OwnersOk(k) && VfsOk(k.vfs) && SchedulerOk(k)
  }

  // Both tables are keyed by what they index: pids and names.
  ghost predicate StateKeyed(k: KState) {
    Keyed(k.sys.proc.pcbs) && NamesKeyed(k.users)
  }

  // A state file that loads holds a well-formed state.
  ghost predicate DiskOk(disk: Option<seq<byte>>) {
    match ImportFile(disk)
    case None => true
    case Some(k) => KernelOk(k)
  }

  // What every run from a clean start keeps.
  ghost predicate Sound(k: KState) {
    KernelOk(k) && DiskOk(k.disk)
  }

  // Does the event hand out the id of a new file?
  predicate MakesFile(k: KState, e: Event) {
    (e.TouchFile? || e.WriteFile?) && k.session.Some? && FindFile(k.vfs.files, k.session.value, e.name).None?
  }

  // A creation that succeeds does not use up the last pid, a new file not the last file id, and a save has fewer
  // accounts than a file can count. Nothing else can run out.
  ghost predicate HasRoom(k: KState, e: Event) {
    && (e.CreatePcb? && Apply(k, e).1 ==> k.sys.proc.nextPid != 0xFFFF_FFFF)
    && (MakesFile(k, e) && Apply(k, e).1 ==> k.vfs.nextFileId != 0xFFFF_FFFF)
    && (e.Save? ==> |k.users| < 0x1_0000_0000)
  }
}
