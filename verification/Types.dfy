// The records the kernel keeps, with the integer widths of the original.

module Types {

  datatype Option<+T> = None | Some(value: T) {
    predicate IsFailure() {
      None?
    }

    function PropagateFailure<U>(): Option<U>
      requires None?
    {
      None
    }

    function Extract(): T
      requires Some?
    {
      value
    }
  }

  type byte = x: nat | x < 0x100
  type uint32 = x: nat | x < 0x1_0000_0000
  type uint64 = x: nat | x < 0x1_0000_0000_0000_0000
  type int32 = x: int | -0x8000_0000 <= x < 0x8000_0000

  // A std::string: bytes, no encoding.
  type Text = seq<byte>

  // uint32 addition wraps.
  function Add32(a: uint32, b: uint32): uint32 {
    if a + b < 0x1_0000_0000 then a + b else a + b - 0x1_0000_0000
  }

  // So does subtraction.
  function Sub32(a: uint32, b: uint32): uint32 {
    if a >= b then a - b else a + 0x1_0000_0000 - b
  }

  datatype ProcessState =
    | NEW
    | READY
    | RUNNING
    | BLOCKED
    | SUSPENDED_READY
    | SUSPENDED_BLOCKED
    | TERMINATED
    | SWAPPED

  datatype PCB = PCB(
    pid: uint32,
    ppid: uint32,
    name: Text,
    owner: Text,
    state: ProcessState,
    priority: int32,
    queueLevel: int32,
    totalTime: uint32,
    executedTime: uint32,
    remainingTime: uint32,
    timeSliceLeft: uint32,
    memStart: uint32,
    memSize: uint32,
    swappedOut: bool,
    children: seq<uint32>)

  datatype AllocAlgorithm = FIRST_FIT | BEST_FIT | WORST_FIT

  datatype BlockKind = FREE | PROCESS | KERNEL | SWAPPED_BLOCK

  datatype Block = Block(
    start: uint32,
    size: uint32,
    kind: BlockKind,
    pid: uint32,
    owner: Text,
    tag: Text)

  datatype AccountStatus = NORMAL | LOCKED

  datatype UserAccount = UserAccount(
    username: Text,
    passwordHash: Text,
    salt: Text,
    failedAttempts: int32,
    status: AccountStatus)

  datatype VirtualFile = VirtualFile(
    fileId: uint32,
    owner: Text,
    name: Text,
    content: Text,
    createdAt: uint64,
    modifiedAt: uint64)

  // The three MLFQ ready queues.
  type Queues = q: seq<seq<uint32>> | |q| == 3 witness [[], [], []]

  datatype Snapshot = Snapshot(
    users: seq<UserAccount>,
    nextPid: uint32,
    pcbs: seq<PCB>,
    readyQueues: Queues,
    totalMemoryKB: uint32,
    allocAlgorithm: AllocAlgorithm,
    memoryBlocks: seq<Block>,
    schedulerRunning: bool,
    schedulerOwner: Text,
    nextFileId: uint32,
    virtualFiles: seq<VirtualFile>)
}
