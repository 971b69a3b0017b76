# OSCoreSim, verified

A Dafny model of OSCoreSim, a kernel simulator that keeps processes in a three-level feedback queue, memory in
dynamic partitions, user accounts, and snapshots of all of it in a binary file.

The project has three layers. The kernel's managers (`ProcessManager`, `MemoryManager`, `VirtualFileSystem`, the snapshot
reader and writer, `Kernel` itself) are classes whose methods follow the original's loops and update fields in place.
Each method is proved equal to a function on plain values, in any state: nothing is asked of one but that the process
table is keyed by pid and the accounts by name, which every event keeps. On well-formed states these functions come to
simple closed forms (`Transactions`, `Allocation.FreeEachIsRelease`, `Scheduling.PickIsSelect`), and the theorems are
about those: what every run keeps, what a save and a load give back, how long a workload takes.
What each command does is stated once more in full, in figures and without these functions, in the `Behaviour` modules
and `FileLayout`.
`Kernels.Kernel.Execute` and `Kernels.Kernel.Serve` tie the object to the transition function `KernelState.Apply` and to
whole runs.

`dafny verify dfyconfig.toml` checks everything.

## Layout

| file | contents |
|---|---|
| `Types.dfy`, `Sequences.dfy` | records with their integer widths; filtering, sorting and listing of ids |
| `BlockTable.dfy`, `Allocation.dfy`, `Compaction.dfy` | partition tables as values: tilings, the address map, placement, release, compaction |
| `MemoryManager.dfy` | the memory manager as a class |
| `ProcessTable.dfy`, `Subtree.dfy`, `ProcessRestore.dfy` | PCBs, forest and queues as values; reachability; what an import rebuilds |
| `Scheduling.dfy`, `Drain.dfy` | one scheduler step as a function; how many steps a workload takes |
| `ProcessManager.dfy` | the process manager as a class |
| `Coherence.dfy`, `Transactions.dfy` | processes and memory together; the step and the cross-manager commands as functions, in any state and in closed form |
| `Scheduler.dfy`, `CommandDispatcher.dfy` | the same on the objects |
| `Codec.dfy`, `RecordFormat.dfy`, `SnapshotFormat.dfy`, `SnapshotStore.dfy` | the snapshot format; the writer and the reader |
| `VirtualFileSystem.dfy` | the virtual file system as a value and as a class |
| `Users.dfy`, `KernelState.dfy`, `Kernel.dfy`, `Validation.dfy` | accounts; the kernel as a value and as a class; the check of snapshots |
| `KernelTheorems.dfy`, `Runs.dfy`, `RunBounds.dfy`, `Isolation.dfy` | invariants of runs, save and restore, runs of steps, isolation of users |
| `Behaviour.dfy`, `SystemBehaviour.dfy`, `SessionBehaviour.dfy`, `DiskBehaviour.dfy`, `FileLayout.dfy` | every command, the check and the file format in figures and field by field, stated without the functions that carry them out |
| `Acceptance.dfy`, `ForeignFiles.dfy` | what acceptance of a snapshot means; what becomes of an accepted file, whoever wrote it |

## Main results

* Every state that any interleaving of commands on processes, memory, files and sessions, scheduler turns, saves, loads
  and restarts reaches from a clean start exports a snapshot that the kernel's own check accepts, and importing it
  gives the state back but for session and scheduler (`Runs.EveryRunExportsValid`, `Runs.EveryRunKeepsOrder`,
  `Runs.SavedStateComesBack`).
* Without READY descendants, repeated steps drain a user's workload in exactly as many steps as a closed formula says;
  with them, in at most that many (`Drain.DrainsExactly`, `Drain.Drains`, `Scheduling.CostFromTop`); step commands and
  scheduler turns on the kernel do so in any mixture (`RunBounds.RunDrains`).
* A coalesced partition table is determined by its allocated blocks (`BlockTable.Canonical`). So freeing undoes
  allocating, the order of frees does not matter, and a refused `create_pcb` leaves no trace.
* The depth-first walk of a kill terminates on any children lists, cyclic ones included, and finds exactly what is
  reachable (`ProcessManagers.ProcessManager.Collect`).
* The file format is prefix-free and canonical (`SnapshotFormat.PrefixRejected`, `SnapshotFormat.ResavedIsRead`), and
  exactly the bytes of one layout load (`FileLayout.LoadsExactly`).
* Every command succeeds exactly under the stated condition, does exactly what is stated, and changes nothing else
  (`Behaviour.TransitionTable`, `SystemBehaviour.CreateIs`, `SystemBehaviour.KillIs`, `SystemBehaviour.StepIs` and the
  lemmas beside them).
* No command but `compact` touches a process, block or file of another user (`Isolation.CommandsAreIsolated`).

## Where the code falls short of what it promises

* `nextPid_` is a 32-bit counter. A creation from a well-formed state exports an acceptable snapshot if and only if the
  counter was not 2^32 - 1 before it (`Runs.CreationExportsValidUnlessWrapped`). The counter of files wraps in the same
  way, and then a restore changes it (`KernelTheorems.NewFileRestoresUnlessWrapped`). An accepted file from which a login
  and one command lead to either failure is in `ForeignFiles.WrappedCounterIsRejected` and
  `ForeignFiles.WrappedFileCounterIsLost`. The theorems on runs ask that no successful creation finds the last pid, no
  new file the last file id, and no save 2^32 accounts. They do not bound the length of a run; a run with few enough
  creations, registrations, touches and writes satisfies the condition (`RunBounds.ShortRunsHaveRoom`).
* `save` accepts strings and lists that `load` refuses. A saved file loads if and only if the snapshot is within the
  reader's limits of 1 MiB a string and 1,000,000 entries a list (`KernelTheorems.SaveThenLoad`). The failing case is
  within reach: `create_pcb` does not bound the name, and three commands from a clean start lead to a state that saves,
  does not load, and is lost in a restart (`Runs.SaveIsLostInRestart`).
* `validateSnapshot` accepts files that no run of the kernel writes, such as two processes that are each other's parent
  (`Acceptance.AcceptanceIsNotEnough`), or a process whose parent belongs to another user; once that user kills the
  parent, the kernel rejects its own export (`ForeignFiles.AcceptedThenRejected`). After the load of any accepted file
  the export is accepted again (`ForeignFiles.AcceptedIsAcceptedAgain`), and after a kill it is accepted if and only if
  no process that is left has lost its parent (`ForeignFiles.KillAfterLoad`, `ForeignFiles.KillKeepsValid`).
  `Acceptance.AcceptedRestoresWellFormed` says exactly which accepted snapshots leave a well-formed state, and
  `Acceptance.AcceptedSnapshotGuarantees` what all of them leave.
* Two branches are dead: the partial-quantum branch of the scheduler step (`src/process/Scheduler.cpp:116-123`) and the
  failure of the second block check during an import (`src/kernel/Kernel.cpp:553-556`). `Scheduler.Step` and
  `Kernels.Kernel.ImportSnapshot` prove so.

## Model

| member | source | states |
|---|---|---|
| Behaviour.TransitionTable | src/process/ProcessManager.cpp:175-273 | block, wakeup, suspend and resume in any state: each succeeds iff the process is the user's and a table in figures has an entry for its state; then the state is the one in the table, the queues follow, and nothing else changes |
| Behaviour.ReniceTable | src/process/ProcessManager.cpp:275-314 | renice in any state: succeeds iff the priority is 0 to 15 and the process the user's; sets priority, level (up to 3, up to 7, else) and slice (2, 4, 8), requeues a READY process, and changes nothing else |
| Behaviour.AllocIs | src/kernel/CommandDispatcher.cpp:205-235 | alloc succeeds iff the tag is valid, the size nonzero and some FREE block large enough; it adds one KERNEL block of pid 0 with that owner, tag and size where the policy says, and changes nothing else |
| Behaviour.AllocationIs | src/memory/MemoryManager.cpp:359-402 | any request for memory: when it succeeds, where it is placed, and that exactly that block is added |
| Behaviour.FoundIsChosen | src/memory/MemoryManager.cpp:404-428 | the block found is the lowest, a smallest or a largest, in words of addresses and sizes |
| Behaviour.FreeMemIs | src/memory/MemoryManager.cpp:44-76 | free_mem succeeds iff a manual block of the user starts there; it takes away that block and changes nothing else |
| Behaviour.PolicyIsUsed | src/memory/MemoryManager.cpp:240-257 | set_alloc_algo changes the policy and nothing else, and the next request follows it |
| Behaviour.CompactIs | src/kernel/CommandDispatcher.cpp:283-297 | compact moves the allocated blocks together in their order, gives each process the address of its block, and changes nothing else; total and policy stay |
| SystemBehaviour.CreateIs | src/kernel/CommandDispatcher.cpp:145-203 | create_pcb is refused, with nothing changed, iff an argument is out of range, no block fits or the parent is not the user's; else the new process has every field as asked for, is last in its queue and last child of its parent, has its block where the policy says, and nothing else changes |
| SystemBehaviour.KillIs | src/kernel/CommandDispatcher.cpp:388-401 | kill_pcb succeeds iff the process is the user's; it and its descendants are gone from table, children lists, queues and memory, and nothing else changes |
| SystemBehaviour.FamilyUnique | src/process/ProcessManager.cpp:87-106 | on a forest there is only one set that holds a root and exactly the others whose parent is in it |
| SystemBehaviour.SubtreeIsFamily | src/process/ProcessManager.cpp:865-885 | what the walk of a kill finds is that set |
| SystemBehaviour.SwapIs | src/kernel/CommandDispatcher.cpp:328-355 | swap_out succeeds iff the process is the user's and not swapped out; it changes state, flag, address and queue of that PCB, takes away its block, and changes nothing else |
| SystemBehaviour.StepIs | src/process/Scheduler.cpp:10-139 | a step without READY processes changes nothing; else the one that has waited longest at the lowest level runs for 2, 4 or 8 units and goes to the end of the next level, or is gone with its descendants; nothing else changes |
| SystemBehaviour.TurnIs | src/kernel/Kernel.cpp:211-234 | a turn of the scheduler thread is such a step for the owner, or nothing while the scheduler is stopped |
| SessionBehaviour.CleanIs | src/kernel/Kernel.cpp:568-583 | the clean state in figures |
| SessionBehaviour.RegisterIs | src/auth/UserManager.cpp:13-31 | register in any state: when it succeeds, and the account it makes |
| SessionBehaviour.LoginIs | src/auth/UserManager.cpp:33-71 | login in any state: when it succeeds, how failures count, when the account is locked, and that nothing else changes |
| SessionBehaviour.HashOfEmpty | src/auth/UserManager.cpp:179-195 | the stored hash of the empty string in figures |
| SessionBehaviour.HashOfA | src/auth/UserManager.cpp:179-195 | that of one letter |
| SessionBehaviour.HashOfBoth | src/auth/UserManager.cpp:186 | salt and password are hashed as one string, the salt first |
| SessionBehaviour.LogoutIs | src/kernel/Kernel.cpp:266-270 | logout and exit in any state, in full |
| SessionBehaviour.NeedsLogin | src/kernel/Kernel.cpp:294-298 | without a session every user command is refused and changes nothing |
| SessionBehaviour.LoggedOutUntilLogin | src/auth/UserManager.cpp:73-83 | after a logout there is no session until a login, whatever happens |
| SessionBehaviour.SchedulerControl | src/kernel/Kernel.cpp:294-361 | start_sched, stop_sched and restart_sched, in full |
| SessionBehaviour.IdleUntilStarted | src/kernel/Kernel.cpp:211-234 | while the scheduler is stopped its thread does nothing until a start or restart, whatever happens |
| SessionBehaviour.TurnIsStep | src/kernel/Kernel.cpp:211-234 | while it runs, a turn is the step that a step command of the logged-in user would be |
| SessionBehaviour.RunsUntilStopped | src/kernel/Kernel.cpp:211-234 | it keeps running for the same user until a stop, restart, logout, exit, load or boot |
| SessionBehaviour.TouchIs | src/vfs/VirtualFileSystem.cpp:11-47 | touch_file: when it succeeds, the record it makes, and that nothing else changes |
| SessionBehaviour.WriteIs | src/vfs/VirtualFileSystem.cpp:49-97 | write_file: the same, or content and time of the file there is |
| SessionBehaviour.RemoveIs | src/vfs/VirtualFileSystem.cpp:122-140 | rm_file: when it succeeds, and that it takes out that file only |
| DiskBehaviour.ExportIs | src/kernel/Kernel.cpp:512-528 | an exported snapshot field by field, with the order of accounts and PCBs |
| DiskBehaviour.SaveIs | src/kernel/Kernel.cpp:368-381 | save succeeds iff no string has 2^32 bytes or more; the file is the exported snapshot in the layout of version 2, and nothing else changes |
| DiskBehaviour.RestoredIs | src/kernel/Kernel.cpp:530-566 | what any accepted snapshot is restored to, field by field, queues and children lists included |
| DiskBehaviour.RepairedIs | src/process/ProcessManager.cpp:779-809 | a repaired queue is the first occurrences, in order, of the entries that are READY, in memory and of the level |
| DiskBehaviour.LoadIs | src/kernel/Kernel.cpp:383-402 | load and restart in any state with any state file: when they take it over, to what, and what they leave otherwise |
| DiskBehaviour.AcceptedMeans | src/kernel/Kernel.cpp:585-688 | the check accepts a snapshot iff each of its conditions holds, field by field and record by record, in figures |
| FileLayout.ImageIs | src/persistence/SnapshotStore.cpp:122-277 | a file of either version byte by byte: magic, figures of the header, codes, widths and order of the fields |
| FileLayout.PcbIs | src/persistence/SnapshotStore.cpp:200-219 | the bytes of a PCB |
| FileLayout.BlockIs | src/persistence/SnapshotStore.cpp:254-261 | those of a block |
| FileLayout.UserIs | src/persistence/SnapshotStore.cpp:176-183 | those of an account |
| FileLayout.FileIs | src/persistence/SnapshotStore.cpp:155-163 | those of a virtual file |
| FileLayout.LimitsAre | src/persistence/SnapshotStore.cpp:20-21 | the reader's limits are 1,048,576 bytes a string and 1,000,000 entries a list |
| FileLayout.SavedBytesLoad | src/persistence/SnapshotStore.cpp:325-360 | what save writes, byte by byte, with anything appended, loads as what was saved iff every string and list is within these figures |
| FileLayout.LoadsExactly | src/persistence/SnapshotStore.cpp:387-462 | exactly those bytes load as a snapshot that are its layout in version 1 or 2, with any flags and anything appended, within these figures; all others are refused |
| Runs.EveryRunExportsValid | src/kernel/Kernel.cpp:211-277 | after any run of process, memory, file, session and scheduler commands, scheduler turns, saves, loads and restarts from a clean start, of any length, in which no successful creation finds the last pid, no new file the last file id and no save 2^32 accounts: the invariant holds, the export is accepted by the kernel's own check, and importing it gives the state back without session and scheduler |
| Runs.EveryRunKeepsOrder | src/process/ProcessManager.cpp:49-473 | the same for each process, block and queue: counters add up, nobody is RUNNING, a pid is queued once and at its level iff READY, children agree with parents and are younger, one matching block or none if swapped out, used plus free is all |
| Runs.RunSound | src/kernel/Kernel.cpp:236-277 | the invariant, including that the state file, if it loads, holds a well-formed state, is kept along any run |
| RunBounds.ShortRunsHaveRoom | src/process/ProcessManager.cpp:87 | the condition holds of every run with fewer than 2^32 - 1 creations, as few touches and writes, and fewer than 2^32 registrations, whatever else is in it |
| RunBounds.StepsOnKernel | src/kernel/Kernel.cpp:211-234 | step commands and scheduler turns for one user, in any mixture, are so many steps of the process table and keep everything else |
| RunBounds.RunDrains | src/kernel/Kernel.cpp:211-234 | as many of them as there is work leave the user without READY processes; where no READY process has a READY descendant, no fewer do |
| Runs.SavedStateComesBack | src/kernel/Kernel.cpp:363-405 | after a save and any events but another save, a load or restart gives back exactly the saved state; it succeeds iff the snapshot is within the reader's limits |
| Runs.CreationExportsValidUnlessWrapped | src/process/ProcessManager.cpp:86-109 | a creation leaves an exportable state iff the pid counter was not 2^32 - 1 |
| ForeignFiles.WrappedCounterIsRejected | src/process/ProcessManager.cpp:87 | an accepted file after whose load a login and a creation succeed and the kernel rejects its own export |
| ForeignFiles.WrappedFileCounterIsLost | src/vfs/VirtualFileSystem.cpp:33 | the same file; after a login and a touch or a write of a new file, export and import give back another state |
| Runs.OverlongNameDoesNotLoad | src/kernel/CommandDispatcher.cpp:168-203 | from any well-formed state, a creation with a name over 1 MiB leaves a well-formed state whose save does not load |
| Runs.SaveIsLostInRestart | src/kernel/Kernel.cpp:363-405 | register, log in and create a process with any such name, from a clean start: the save succeeds, the load fails, and a restart starts from nothing |
| Runs.PlainForest | src/process/ProcessManager.cpp:80-109 | children lists are ascending and hold exactly the younger processes of the same user that name the parent |
| Runs.PlainMemory | src/kernel/CommandDispatcher.cpp:145-203 | the process blocks of a pid are the one its PCB describes, or none if it is swapped out |
| Runs.DiskKeptByRun | src/kernel/Kernel.cpp:363-405 | nothing but save changes the state file |
| KernelTheorems.ExportIsValid | src/kernel/Kernel.cpp:512-528 | the check accepts the export of any state that satisfies the invariant |
| KernelTheorems.RestoreUndoesExport | src/kernel/Kernel.cpp:530-566 | importing an export gives back users, PCBs with children order, queues, pid counter, blocks, policy and files; session and scheduler are cleared |
| KernelTheorems.UserCommandOk | src/kernel/Kernel.cpp:236-277 | every command of a logged-in user, file commands included, keeps the invariant, unless a successful creation takes the last pid or a new file the last file id |
| KernelTheorems.EventOk | src/kernel/Kernel.cpp:211-277 | every event, a scheduler turn, file commands, save, load and restart included, keeps the invariant of state and state file, unless a counter is used up |
| KernelTheorems.StepEventOk | src/process/Scheduler.cpp:10-139 | a scheduler step for any user keeps the invariant of the whole kernel |
| KernelTheorems.CompactEventOk | src/kernel/CommandDispatcher.cpp:283-297 | so does compact |
| KernelTheorems.SavedFileImports | src/kernel/Kernel.cpp:368-405 | a file just saved imports as the state that was saved iff within the reader's limits, and not at all otherwise |
| KernelTheorems.SaveThenLoad | src/kernel/Kernel.cpp:368-405 | save then load either restores everything but session and scheduler or fails with only the scheduler stopped; which of the two, exactly |
| KernelTheorems.ExportFits | src/persistence/SnapshotStore.cpp:52-61 | no length of an exported state overflows its 32-bit prefix unless a string does |
| KernelTheorems.CleanOk | src/kernel/Kernel.cpp:568-583 | the reset state satisfies the invariant |
| KernelTheorems.FileEventOk | src/kernel/Kernel.cpp:449-502 | the file commands keep the invariant, overwriting writes at a full counter included, unless a new file takes the last id |
| KernelTheorems.NewFileRestoresUnlessWrapped | src/vfs/VirtualFileSystem.cpp:30-40 | a touch or write of a new file leaves a state that export and import give back iff the counter of files was not 2^32 - 1 |
| KernelTheorems.ApplyKeyed | src/process/ProcessManager.cpp:105 | whatever the state, every event leaves the process table keyed by pid and the accounts by name |
| Acceptance.AcceptedSnapshotGuarantees | src/kernel/Kernel.cpp:585-688 | what any accepted file, whoever wrote it, leaves: PCB fields in range, a coalesced tiling, sound queues without repetitions, children that agree with parents, one matching block per process that is not swapped |
| Acceptance.AcceptedRestoresWellFormed | src/kernel/Kernel.cpp:585-688 | an accepted snapshot leaves a well-formed state iff its records are in order, spelled out record by record |
| Acceptance.AcceptanceIsNotEnough | src/kernel/Kernel.cpp:629-641 | a snapshot with a cycle of parents that the check accepts |
| ForeignFiles.ExportValidMeans | src/kernel/Kernel.cpp:512-528 | the kernel accepts its own export exactly in the states that satisfy the check read as a condition on tables; on any state |
| ForeignFiles.AcceptedIsAcceptedAgain | src/kernel/Kernel.cpp:530-566 | whatever the check accepts, whoever wrote it, the kernel exports as acceptable again right after the load |
| ForeignFiles.KillKeepsValid | src/kernel/Kernel.cpp:585-688 | from any state whose export is accepted, on a valid block table, a kill leaves such a state iff no process that is left has lost its parent |
| ForeignFiles.KillAfterLoad | src/kernel/CommandDispatcher.cpp:388-401 | so for every accepted file, every user who logs in after the load, and every process of that user |
| ForeignFiles.RemovedTable | src/kernel/Kernel.cpp:629-640 | if the PCBs pass the check, those without a set of pids do iff no process that is left has lost its parent |
| ForeignFiles.FreedBlocks | src/kernel/Kernel.cpp:647-681 | the blocks left by a kill pass their part of the check again |
| ForeignFiles.KillLosesParent | src/kernel/Kernel.cpp:630-633 | if a process has lost its parent, the check rejects the export; on any state |
| ForeignFiles.AcceptedThenRejected | src/kernel/Kernel.cpp:598-641 | a snapshot with a parent of another user that the check accepts; that user logs in and kills the parent, and the check rejects the export |
| Isolation.CommandsAreIsolated | src/kernel/Kernel.cpp:253-264 | no command but compact changes another user's PCBs, blocks, files or order in the queues |
| Isolation.StepIsIsolated | src/process/ProcessManager.cpp:338-361 | a scheduler step for a user changes nothing of another user's |
| Isolation.CompactOnlyMoves | src/kernel/CommandDispatcher.cpp:283-297 | compact changes no queue and no PCB but for its address, which becomes that of its block |
| Isolation.AutoTurnIsIsolated | src/kernel/Kernel.cpp:211-234 | a turn of the scheduler thread does nothing or is a step for the user who is logged in |
| Scheduling.SelectCorrect | src/process/ProcessManager.cpp:338-361 | a step is idle iff the user has no READY process; the one selected is of the lowest level that has one |
| Scheduling.FirstOf | src/process/ProcessManager.cpp:343-358 | the selection from a queue is the user's entry nearest its front |
| Scheduling.PickIsSelect | src/process/ProcessManager.cpp:338-361 | on queues in order, the scan with its erasures returns the selection and takes out that entry only |
| Scheduling.StepOk | src/process/Scheduler.cpp:10-139 | a step keeps the process invariant: time counters, quantum, levels, queues, forest |
| Scheduling.StepRunsOne | src/process/Scheduler.cpp:95-134 | one process runs: it ends iff it had at most a quantum left, else it ran exactly its quantum and is last at the next level with a new quantum, the rest of its record as it was; all others keep everything but dead children |
| Scheduling.CostAtBottom | src/process/Scheduler.cpp:149-159 | at the lowest level a process needs an eighth of its time in steps, rounded up |
| Scheduling.CostFromTop | src/process/Scheduler.cpp:149-159 | from the top it needs 1 step up to 2 units, 2 up to 6, and 2 + ceil((T - 6) / 8) beyond |
| Scheduling.CostFromMiddle | src/process/Scheduler.cpp:149-159 | from the middle level it needs 1 step up to 4 units and 1 + ceil((T - 4) / 8) beyond |
| Drain.StepWork | src/process/Scheduler.cpp:42-134 | a step lowers the remaining work by exactly 1 plus the work of READY descendants that die with the process |
| Drain.StepCollateral | src/process/Scheduler.cpp:98-113 | by exactly 1 iff no other READY process dies |
| Drain.WorkMeansReady | src/process/Scheduler.cpp:20-30 | there is no work left iff the step is idle |
| Drain.Drains | src/process/Scheduler.cpp:10-139 | as many steps as there is work leave the user without READY processes, from any well-formed state |
| Drain.DrainsExactly | src/process/Scheduler.cpp:10-139 | if no READY process has a READY descendant, each step does one unit and idleness is reached after exactly the work |
| Drain.IndependentStep | src/process/Scheduler.cpp:95-134 | that condition is kept by steps |
| Scheduler.Step | src/process/Scheduler.cpp:10-139 | the step on the two objects, in any state, is the step function on their values; a process that is requeued always used its whole quantum |
| Scheduler.FreeAll | src/process/Scheduler.cpp:108-113 | the loop frees, pid by pid, the first process block of each, coalescing each time; on any table |
| Transactions.NothingToClean | src/process/ProcessManager.cpp:484-500 | on well-formed states the queue clean-up removes nothing |
| Scheduler.RunSelected | src/process/Scheduler.cpp:67-92 | running takes the process off the queues and gives it the smaller of its quantum and its remaining time |
| Scheduler.PickIsRunnable | src/process/ProcessManager.cpp:338-361 | what the scan finds, on any queues, can run and is the user's |
| Scheduler.KillAndFree | src/process/Scheduler.cpp:98-113 | killing and then freeing each removed pid, in any state, or a refusal that changes nothing |
| Scheduler.KilledWhileRunning | src/process/Scheduler.cpp:98-103 | killing a process that has just run leaves what killing it at rest would, in the same order; in any state |
| Scheduler.RequeueSelected | src/process/Scheduler.cpp:114-123 | demote, mark ready and enqueue together put the process with its new PCB at the end of the next level |
| CommandDispatcher.CreatePcb | src/kernel/CommandDispatcher.cpp:172-202 | create_pcb in any state: memory, then PCB, and on refusal the first block of the expected pid is freed |
| Transactions.RollbackRestores | src/kernel/CommandDispatcher.cpp:198-201 | after the allocation the only block of the expected pid is the new one, and freeing it restores the very same table |
| CommandDispatcher.KillPcb | src/kernel/CommandDispatcher.cpp:388-401 | kill_pcb in any state: the subtree goes and with it the first process block of each pid in it |
| CommandDispatcher.SwapOut | src/kernel/CommandDispatcher.cpp:340-354 | swap_out in any state: the block first, then the mark |
| CommandDispatcher.Compact | src/kernel/CommandDispatcher.cpp:291-296 | compact and the write-back of the new addresses, in any state |
| CommandDispatcher.WriteBack | src/kernel/CommandDispatcher.cpp:293-295 | the addresses are written back the same in whatever order |
| CommandDispatcher.Alloc | src/kernel/CommandDispatcher.cpp:231-234 | alloc in any state adds one KERNEL block or changes nothing |
| Transactions.CreatePcbOnOk | src/kernel/CommandDispatcher.cpp:172-202 | on a well-formed state a creation succeeds as specified or leaves both managers exactly as before |
| Transactions.KillPcbOnOk | src/kernel/CommandDispatcher.cpp:388-401 | on a well-formed state a kill removes the subtree and all its memory at once, or changes nothing |
| Transactions.SwapOutOnOk | src/kernel/CommandDispatcher.cpp:340-354 | on a well-formed state both managers change or neither |
| Transactions.StepOnOk | src/process/Scheduler.cpp:10-139 | on a well-formed state clean-up, scan, run and requeue or kill come to the closed form of a step |
| Coherence.AllocSysOk | src/memory/MemoryManager.cpp:23-31 | manual allocation keeps processes and blocks coherent |
| Coherence.ReleaseOthers | src/memory/MemoryManager.cpp:44-76 | so does releasing blocks that are not process blocks |
| Coherence.CreateSysOk | src/kernel/CommandDispatcher.cpp:145-203 | a creation keeps tables and coherence; the whole invariant iff the counter does not wrap |
| Coherence.RemoveSysOk | src/process/Scheduler.cpp:98-113 | removing a child-closed set of one user's processes with their blocks keeps the invariant |
| Coherence.KillSysOk | src/kernel/CommandDispatcher.cpp:388-401 | a kill keeps the invariant |
| Coherence.StepSysOk | src/process/Scheduler.cpp:10-139 | a step keeps the invariant |
| Coherence.SwapSysOk | src/kernel/CommandDispatcher.cpp:328-355 | a swap-out keeps the invariant: no block is left for the process |
| Coherence.BlocksOfOne | src/memory/MemoryManager.cpp:78-87 | a user's process has its one block, or none if it is swapped out or not the user's |
| Coherence.CompactSysOk | src/kernel/CommandDispatcher.cpp:283-297 | after compact every PCB carries the address of its block, and the invariant holds |
| Subtrees.SubtreeIsLeast | src/process/ProcessManager.cpp:865-885 | the reachable pids are the least set that holds the root and the live same-user children of its members |
| Subtrees.SubtreeOwned | src/process/ProcessManager.cpp:874-877 | all of them belong to the user |
| Subtrees.SubtreeClosed | src/process/ProcessManager.cpp:140-143 | on well-formed tables no child outlives its parent |
| Subtrees.ReachTransitive | src/process/ProcessManager.cpp:865-885 | reachability composes |
| Subtrees.ReachShrinks | src/process/ProcessManager.cpp:153-165 | a table with fewer processes and children reaches no more |
| Subtrees.PathsAscend | src/process/ProcessManager.cpp:87-106 | on well-formed tables pids grow along every walk, so there is no cycle |
| Subtrees.WalkCorrect | src/process/ProcessManager.cpp:865-885 | the walk from any list, past any set seen before, lists no process twice, only what can be reached, and misses nothing; it ends on any table, cyclic ones included |
| Subtrees.WalkIsSubtree | src/process/ProcessManager.cpp:865-885 | from one process it lists exactly what is reachable, each once |
| Subtrees.SameWalk | src/process/ProcessManager.cpp:880-884 | only ids, owners and children lists matter to it |
| ProcessManagers.ProcessManager.CollectSubtree | src/process/ProcessManager.cpp:865-885 | the recursive walk with its visited set, on any table, lists what the walk with an explicit list of processes still to visit lists, in the same order, whatever is to be visited after it |
| ProcessManagers.ProcessManager.Collect | src/process/ProcessManager.cpp:140-143 | from an empty visited set it finds exactly the reachable pids, each once, in the order of that walk, on any table |
| ProcessManagers.ProcessManager.KillProcess | src/process/ProcessManager.cpp:131-173 | kill removes exactly the subtree from table, queues and children lists and reports it in the order of the walk, or refuses and changes nothing; on any table |
| ProcessManagers.ProcessManager.Terminate | src/process/ProcessManager.cpp:145-151 | the first loop takes the doomed off the queues and marks them TERMINATED, and changes nothing else |
| ProcessManagers.ProcessManager.FilterChildren | src/process/ProcessManager.cpp:153-159 | the second filters every children list, in whatever order |
| ProcessManagers.ProcessManager.CreateProcess | src/process/ProcessManager.cpp:49-124 | on any table: checks in order, the new PCB unless its pid is in use, its parent's list, its queue, the wrapping counter |
| ProcessManagers.ProcessManager.BlockProcess | src/process/ProcessManager.cpp:175-198 | on any table: blocks a READY or RUNNING process of the user and dequeues it, or refuses |
| ProcessManagers.ProcessManager.WakeupProcess | src/process/ProcessManager.cpp:200-219 | on any table: wakes a BLOCKED one to the end of its queue, or refuses |
| ProcessManagers.ProcessManager.SuspendProcess | src/process/ProcessManager.cpp:221-246 | on any table: suspends a READY or RUNNING process and dequeues it, or a BLOCKED one in place, or refuses |
| ProcessManagers.ProcessManager.ResumeProcess | src/process/ProcessManager.cpp:248-273 | on any table: resumes to the remembered state, queued if READY, or refuses |
| ProcessManagers.ProcessManager.ReniceProcess | src/process/ProcessManager.cpp:275-314 | on any table: sets priority, level and quantum and requeues a READY process, or refuses |
| ProcessManagers.ProcessManager.MarkSwappedOut | src/process/ProcessManager.cpp:316-336 | on any table: marks the process and takes it off the queues, or refuses |
| ProcessManagers.ProcessManager.PickNextReadyProcess | src/process/ProcessManager.cpp:338-361 | the scan of the three queues, erasing while iterating |
| ProcessManagers.ProcessManager.ScanLevel | src/process/ProcessManager.cpp:343-358 | the same for one queue: invalid entries before the hit go, other users' stay |
| ProcessManagers.ProcessManager.CleanupInvalidReadyQueueEntries | src/process/ProcessManager.cpp:484-500 | keeps the runnable entries of every queue in order and reports exactly the others, in order |
| ProcessManagers.ProcessManager.CleanLevel | src/process/ProcessManager.cpp:488-497 | the same for one queue, erasing while iterating |
| Scheduling.CleanQueueStays | src/process/ProcessManager.cpp:484-500 | a queue of runnable entries is left alone |
| ProcessManagers.ProcessManager.TickProcess | src/process/ProcessManager.cpp:445-473 | runs the smaller of the ticks asked for and the time remaining; the count of executed time wraps at 32 bits |
| ProcessManagers.ProcessManager.MarkRunning | src/process/ProcessManager.cpp:401-414 | refuses what cannot run, else dequeues and refills an empty slice |
| ProcessManagers.ProcessManager.MarkReady | src/process/ProcessManager.cpp:416-431 | refuses terminated and swapped processes, else READY with a slice |
| ProcessManagers.ProcessManager.EnqueueReadyProcess | src/process/ProcessManager.cpp:374-383 | appends a runnable process to the queue of its level after removing it everywhere |
| ProcessManagers.ProcessManager.EnqueueReady | src/process/ProcessManager.cpp:851-863 | the same for READY processes, ignoring a level out of range |
| ProcessManagers.ProcessManager.RemoveFromReadyQueues | src/process/ProcessManager.cpp:845-849 | takes a pid out of all three queues and keeps the order of the rest |
| ProcessManagers.ProcessManager.ExportPcbs | src/process/ProcessManager.cpp:706-717 | the list of PCBs ascending by pid, whatever the order of the table |
| ProcessManagers.ProcessManager.ImportPcbs | src/process/ProcessManager.cpp:719-737 | the table indexes the list, the later of two with one pid counting; each queue holds the READY processes of its level once; the counter is past every pid, wrapping at 32 bits |
| ProcessManagers.ProcessManager.FillQueues | src/process/ProcessManager.cpp:732-736 | the last loop, whatever the order of the table |
| ProcessManagers.ProcessManager.RebuildParentChildRelations | src/process/ProcessManager.cpp:756-777 | every children list becomes the ascending list of the same user's processes that name the parent, whatever was there |
| ProcessManagers.ProcessManager.GatherChildren | src/process/ProcessManager.cpp:763-771 | its middle loop, in whatever order |
| ProcessManagers.ProcessManager.ValidateReadyQueues | src/process/ProcessManager.cpp:779-809 | each queue keeps the first occurrences of the entries that belong there; the shared seen set cannot interfere between levels |
| ProcessManagers.ProcessManager.RepairQueue | src/process/ProcessManager.cpp:783-801 | its inner loop, erasing while iterating |
| ProcessTable.PlaceOk | src/process/ProcessManager.cpp:175-436 | any change of one process's state, level or memory with requeueing keeps the invariant |
| ProcessTable.ReplaceIsPlace | src/process/ProcessManager.cpp:230-234 | between states that are not READY, leaving the queues alone is what dequeueing would do |
| ProcessTable.SuspendThenResume | src/process/ProcessManager.cpp:221-273 | suspend then resume always succeeds and gives back the same PCBs; a READY process has gone to the back of its queue, a blocked one leaves no trace |
| ProcessTable.QueuedIsReady | src/process/ProcessManager.cpp:851-863 | a pid is in some queue iff its process is READY |
| ProcessTable.CreateAdds | src/process/ProcessManager.cpp:86-109 | a creation adds one PCB in order and changes at most a children list of the others; the forest stays well formed |
| ProcessTable.CreateOk | src/process/ProcessManager.cpp:49-124 | it keeps PCBs, forest and queues; the bound of the counter iff it does not wrap |
| ProcessTable.RemoveLeavesNoTrace | src/process/ProcessManager.cpp:131-173 | after a removal no queue or children list mentions a removed pid, on any table |
| ProcessTable.RemoveOk | src/process/ProcessManager.cpp:131-173 | removing a child-closed set keeps the invariant |
| ProcessTable.RelocateOk | src/process/ProcessManager.cpp:502-510 | so do new addresses |
| ProcessRestore.IndexOfList | src/process/ProcessManager.cpp:706-731 | importing the exported list gives back the table |
| ProcessRestore.RebuiltIsIdentity | src/process/ProcessManager.cpp:756-777 | on well-formed tables rebuilding the children changes nothing |
| ProcessRestore.RepairedCorrect | src/process/ProcessManager.cpp:779-809 | on any table and queue, the repaired queue holds exactly the entries that belong there, each once |
| ProcessRestore.RepairedIsIdentity | src/process/ProcessManager.cpp:779-809 | a queue without wrong or repeated entries stays |
| ProcessRestore.QueuesNeedNoRepair | src/process/ProcessManager.cpp:779-809 | so on well-formed states the repair is the identity |
| ProcessRestore.ImportUndoesExport | src/kernel/Kernel.cpp:543-548 | importing what was exported rebuilds the same process state, children and queue order included |
| BlockTable.Canonical | src/memory/MemoryManager.cpp:436-451 | coalesced tables of one range with the same allocated blocks are equal |
| BlockTable.MergeTable | src/memory/MemoryManager.cpp:436-451 | coalescing a tiling keeps range and allocations and leaves no adjacent FREE blocks |
| BlockTable.MergeKeepsMap | src/memory/MemoryManager.cpp:436-451 | and changes nothing in the map from addresses to allocations |
| BlockTable.MergeLeavesNoJoin | src/memory/MemoryManager.cpp:439-448 | on any list, with wrapping sums, nothing it leaves could still be joined |
| BlockTable.MergeKeepsAllocated | src/memory/MemoryManager.cpp:436-451 | on any list, the allocated blocks stay as they are |
| BlockTable.NormalizedTable | src/memory/MemoryManager.cpp:351-357 | importing a well-formed table is the identity |
| BlockTable.NormalizedTiling | src/memory/MemoryManager.cpp:351-357 | importing a valid table coalesces it and keeps its allocations |
| BlockTable.NormalizedKeepsAllocated | src/memory/MemoryManager.cpp:351-357 | importing any list keeps its allocated blocks |
| BlockTable.ValidImportIsCoalesced | src/memory/MemoryManager.cpp:305-357 | an imported table that passes the check has no adjacent FREE blocks |
| BlockTable.TilingIsSorted | src/memory/MemoryManager.cpp:430-434 | sorting a tiling changes nothing |
| BlockTable.AtIs | src/memory/MemoryBlock.h:24-31 | in a tiling each address is covered by one block, which decides what the map says |
| Allocation.Find | src/memory/MemoryManager.cpp:404-428 | first fit finds the lowest-address sufficient FREE block, best fit a smallest, worst fit a largest, the lowest address deciding ties; nothing is found iff nothing fits |
| Allocation.ChoiceUnique | src/memory/MemoryManager.cpp:404-428 | that determines the block |
| Allocation.PoliciesAgree | src/memory/MemoryManager.cpp:404-428 | all policies succeed on exactly the same requests |
| Allocation.AllocateAdds | src/memory/MemoryManager.cpp:359-402 | an allocation keeps the table well formed and adds one block, in range; it fails only for no owner, size 0 or no fit |
| Allocation.AllocateRefinesMap | src/memory/MemoryManager.cpp:359-402 | on the address map it changes the returned range only, which was free |
| Allocation.ReleaseTable | src/memory/MemoryManager.cpp:78-98 | a release keeps the table well formed and takes away exactly the released blocks |
| Allocation.ReleaseValid | src/memory/MemoryManager.cpp:78-98 | a release of any valid table, whatever tags its FREE blocks carry, leaves a valid and coalesced one without exactly the released blocks |
| Allocation.FreeAtIsRelease | src/memory/MemoryManager.cpp:89-93 | on a valid table, overwriting one block, sorting and coalescing is releasing it |
| Allocation.FreeFirstIsRelease | src/memory/MemoryManager.cpp:78-98 | on a well-formed table, freeing the first process block of a pid releases all there is |
| Allocation.FreeAddressIsFreeMem | src/memory/MemoryManager.cpp:44-76 | on a valid table, the scan by start address releases the allocation that the address map has there |
| Allocation.FreeEachValid | src/process/Scheduler.cpp:108-113 | freeing pid by pid with coalescing after each keeps a valid table valid and takes away exactly the user's blocks of those pids |
| Allocation.FreeEachIsRelease | src/process/Scheduler.cpp:108-113 | on a well-formed table it is freeing all of them at once, in whatever order |
| Allocation.ReleaseRefinesMap | src/memory/MemoryManager.cpp:44-98 | on the address map it changes the released ranges only; on any valid table |
| Allocation.ReleaseTwice | src/memory/MemoryManager.cpp:78-98 | two releases with coalescing after each are one |
| Allocation.ReleaseUndoesAllocate | src/memory/MemoryManager.cpp:78-98 | freeing what was just allocated restores the very same table |
| Allocation.ReleaseNothing | src/memory/MemoryManager.cpp:436-451 | coalescing a well-formed table changes nothing |
| Compaction.UsedPlusFree | src/memory/MemoryManager.cpp:278-298 | used and free memory add up to the total |
| Compaction.Totals | src/memory/MemoryManager.cpp:278-298 | on a valid table neither 32-bit total wraps |
| Compaction.SlideAt | src/memory/MemoryManager.cpp:136-150 | each block starts where the sizes before it end and keeps all else |
| Compaction.CompactedTable | src/memory/MemoryManager.cpp:121-164 | the compacted table is well formed |
| Compaction.CompactionKeepsBlocks | src/memory/MemoryManager.cpp:121-164 | compaction keeps number, order, size and identity of the allocated blocks and leaves at most one FREE block, last, with all free memory |
| Compaction.CompactIdempotent | src/memory/MemoryManager.cpp:121-164 | compacting twice is compacting once |
| Compaction.CompactedAcceptsAllThatIsFree | src/memory/MemoryManager.cpp:121-164 | afterwards a nonzero request succeeds, under any policy, iff there is that much free memory |
| Compaction.StartsExact | src/memory/MemoryManager.cpp:147-149 | the reported new addresses are those of the blocks |
| MemoryManagers.MemoryManager.FindFreeBlock | src/memory/MemoryManager.cpp:404-428 | the scan, early return included, is the specified choice |
| MemoryManagers.MemoryManager.Allocate | src/memory/MemoryManager.cpp:359-402 | on any table: allocates as specified or changes nothing |
| MemoryManagers.MemoryManager.CarveAt | src/memory/MemoryManager.cpp:384-395 | on any table: the new block in place of the FREE one, in front of the rest, which keeps its tag; then sorted |
| MemoryManagers.MemoryManager.MergeFreeBlocks | src/memory/MemoryManager.cpp:436-451 | sorts and coalesces any list |
| MemoryManagers.MemoryManager.FreeByAddress | src/memory/MemoryManager.cpp:44-76 | on any table: frees the first block that starts there if it is the user's and neither FREE nor a process block, or refuses |
| MemoryManagers.MemoryManager.FreeByPid | src/memory/MemoryManager.cpp:78-119 | on any table: frees the first process block of the user's pid, or finds none |
| MemoryManagers.MemoryManager.Compact | src/memory/MemoryManager.cpp:121-164 | on any table: the loops, with a cursor of 32 bits, compute the compaction and the new addresses |
| MemoryManagers.MemoryManager.SlideDown | src/memory/MemoryManager.cpp:134-151 | the moving loop |
| MemoryManagers.MemoryManager.UsedMemoryKB | src/memory/MemoryManager.cpp:278-287 | the 32-bit sum of the allocated sizes, on any table |
| MemoryManagers.MemoryManager.FreeMemoryKB | src/memory/MemoryManager.cpp:289-298 | the 32-bit sum of the FREE sizes, on any table |
| MemoryManagers.MemoryManager.ValidateBlocks | src/memory/MemoryManager.cpp:305-344 | on any table, true iff it is an exact ordered tiling by nonempty blocks with FREE ones unowned; no sum wraps |
| Codec.RoundTripLE | src/persistence/SnapshotStore.cpp:35-41 | a number that fits its width is read back, whatever follows |
| Codec.CanonicalLE | src/persistence/SnapshotStore.cpp:78-88 | what is read is what would be written |
| Codec.ListRoundTrip | src/persistence/SnapshotStore.cpp:330-333 | a list within limits is read back, whatever follows |
| Codec.ListCanonical | src/persistence/SnapshotStore.cpp:399-406 | a list that is read is within limits and is the layout of what was read |
| RecordFormat.PcbLaws | src/persistence/SnapshotStore.cpp:200-252 | for PCBs: round trip, canonical, independent of what follows |
| RecordFormat.BlockLaws | src/persistence/SnapshotStore.cpp:254-277 | the same for blocks |
| RecordFormat.UserLaws | src/persistence/SnapshotStore.cpp:176-198 | the same for accounts |
| RecordFormat.FileLaws | src/persistence/SnapshotStore.cpp:155-174 | the same for virtual files |
| SnapshotFormat.HeaderRoundTrip | src/persistence/SnapshotStore.cpp:122-151 | the header of either version is read back |
| SnapshotFormat.HeaderCanon | src/persistence/SnapshotStore.cpp:131-151 | no other header is accepted |
| SnapshotFormat.ImageRoundTrip | src/persistence/SnapshotStore.cpp:387-462 | a file of either version is read back, whatever follows |
| SnapshotFormat.ImageCanon | src/persistence/SnapshotStore.cpp:387-462 | whatever is accepted is the layout of what was read, within limits |
| SnapshotFormat.SavedLoads | src/persistence/SnapshotStore.cpp:310-462 | a saved file with anything appended loads as what was saved iff within the reader's limits, else not at all |
| SnapshotFormat.PrefixRejected | src/persistence/SnapshotStore.cpp:71-76 | no strict prefix of a saved file loads |
| SnapshotFormat.ResavedIsRead | src/persistence/SnapshotStore.cpp:387-462 | saving what a current file loaded as gives back exactly the bytes that were read |
| SnapshotFormat.Version1Loads | src/persistence/SnapshotStore.cpp:451-462 | a version 1 file loads with the same fields and default file fields |
| SnapshotStores.Save | src/persistence/SnapshotStore.cpp:325-360 | the writer produces the specified file, or nothing if a string is too long |
| SnapshotStores.Load | src/persistence/SnapshotStore.cpp:395-462 | the reader computes the specified parse on any bytes |
| SnapshotStores.BinaryWriter.WriteString | src/persistence/SnapshotStore.cpp:52-61 | appends length and bytes, or refuses iff the length does not fit 32 bits |
| SnapshotStores.BinaryWriter.WriteNumber | src/persistence/SnapshotStore.cpp:35-45 | appends the bytes of a number one by one, the lowest first |
| SnapshotStores.BinaryWriter.WritePcb | src/persistence/SnapshotStore.cpp:200-219 | appends the record, field by field |
| SnapshotStores.BinaryReader.ReadString | src/persistence/SnapshotStore.cpp:104-116 | takes a string off the stream, or refuses one that is too long or cut short |
| SnapshotStores.BinaryReader.ReadBytes | src/persistence/SnapshotStore.cpp:71-76 | takes exactly so many bytes off the stream, or refuses |
| SnapshotStores.BinaryReader.ReadNumber | src/persistence/SnapshotStore.cpp:78-88 | takes bytes off the stream and puts them together into the number the format says |
| SnapshotStores.PrefixLE | src/persistence/SnapshotStore.cpp:78-88 | a number takes exactly its bytes and looks at no others |
| SnapshotStores.BinaryReader.ReadPcb | src/persistence/SnapshotStore.cpp:221-252 | takes a PCB off the stream exactly as the format says |
| SnapshotStores.BinaryReader.ReadHeader | src/persistence/SnapshotStore.cpp:131-151 | accepts exactly the two versions with the right magic and size |
| Validation.ValidateSnapshot | src/kernel/Kernel.cpp:585-688 | the check returns true iff the snapshot satisfies the declarative conditions |
| Validation.CheckUsers | src/kernel/Kernel.cpp:586-596 | names are nonempty and different |
| Validation.CheckPcbs | src/kernel/Kernel.cpp:598-627 | pids are nonzero and different, owners exist, fields are in range, the counter is larger than every pid |
| Validation.CheckLinks | src/kernel/Kernel.cpp:629-640 | parents and children exist |
| Validation.CheckBlocks | src/kernel/Kernel.cpp:647-673 | process blocks match their PCBs and no pid has two |
| Validation.CheckOwners | src/kernel/Kernel.cpp:675-681 | every process that is not swapped out has a block |
| Users.ListUsersCorrect | src/auth/UserManager.cpp:111-123 | the export lists every account once in the order of the names |
| Users.IndexOfUserList | src/auth/UserManager.cpp:111-134 | importing the exported accounts gives back the table |
| Users.RegisteredLogsIn | src/auth/UserManager.cpp:13-71 | after registering, the password lets the user in, and any other does iff its hash is the same |
| Users.WrongPasswordsLock | src/auth/UserManager.cpp:52-62 | any number of wrong passwords: counted up to three, then the account is locked and no password lets the user in |
| Users.SameStoredHash | src/auth/UserManager.cpp:179-195 | stored hashes are equal iff the 64-bit hashes are: the digits lose nothing |
| Users.HexDetermines | src/auth/UserManager.cpp:192-194 | so many hexadecimal digits determine the number |
| Users.ComputeHash | src/auth/UserManager.cpp:179-195 | the hashing loop is FNV-1a of salt and password in 16 digits |
| VirtualFileSystems.AddedOk | src/vfs/VirtualFileSystem.cpp:31-40 | a new file keeps ids ascending and names unique iff the counter does not wrap |
| VirtualFileSystems.WriteOk | src/vfs/VirtualFileSystem.cpp:49-97 | a write keeps them iff it overwrites or the counter does not wrap |
| VirtualFileSystems.DeleteOk | src/vfs/VirtualFileSystem.cpp:122-140 | so does a deletion |
| VirtualFileSystems.WriteThenRead | src/vfs/VirtualFileSystem.cpp:49-120 | a write sets the content under one name of one user and leaves every other name's; it fails only for no owner or a bad name |
| VirtualFileSystems.TouchThenRead | src/vfs/VirtualFileSystem.cpp:11-47 | a touch makes an empty file under a new name and leaves every other |
| VirtualFileSystems.DeleteThenRead | src/vfs/VirtualFileSystem.cpp:122-140 | after a deletion the name is gone and every other is left |
| VirtualFileSystems.FindFile | src/vfs/VirtualFileSystem.cpp:215-224 | the first file of an owner and name, if any |
| VirtualFileSystems.FilesAreIsolated | src/vfs/VirtualFileSystem.cpp:11-140 | no file operation of a user changes others' files or their order |
| VirtualFileSystems.FilesAreSorted | src/vfs/VirtualFileSystem.cpp:192-200 | the export of files in order is the list itself |
| VirtualFileSystems.VirtualFileSystem.FindFileIndex | src/vfs/VirtualFileSystem.cpp:215-224 | the scan with its early return finds that file |
| VirtualFileSystems.VirtualFileSystem.CreateFile | src/vfs/VirtualFileSystem.cpp:11-47 | touch_file on the object, or a refusal that changes nothing |
| VirtualFileSystems.VirtualFileSystem.WriteFile | src/vfs/VirtualFileSystem.cpp:49-97 | write_file: overwrites, or creates with the next id, or refuses |
| VirtualFileSystems.VirtualFileSystem.ReadFile | src/vfs/VirtualFileSystem.cpp:99-120 | the content of the user's file |
| VirtualFileSystems.VirtualFileSystem.DeleteFile | src/vfs/VirtualFileSystem.cpp:122-140 | rm_file: takes out the first match, or refuses |
| Kernels.Kernel.Execute | src/kernel/Kernel.cpp:236-277 | one event on the object, in any state, is the transition function on its value, success flag included |
| Kernels.Kernel.Serve | src/kernel/Kernel.cpp:186-209 | a whole run on the object, from any state, is the run on its value |
| Kernels.Kernel.SchedulerTurn | src/kernel/Kernel.cpp:211-234 | one turn of the scheduler thread under the state lock, in any state |
| Kernels.Kernel.HandleSchedulerCommand | src/kernel/Kernel.cpp:294-361 | start, stop and restart, with the clean-up of restart, in any state |
| Kernels.Kernel.ExportSnapshot | src/kernel/Kernel.cpp:512-528 | the object's snapshot is that of its value |
| Kernels.Kernel.ImportSnapshot | src/kernel/Kernel.cpp:530-566 | on any snapshot and state: replaces everything iff the check accepts, else changes nothing; the late failure cannot happen |
| Kernels.Kernel.Reset | src/kernel/Kernel.cpp:568-583 | back to the clean state from any state |
| Kernels.Kernel.Save | src/kernel/Kernel.cpp:368-381 | the state file becomes the export, or stays if a string is too long |
| Kernels.Kernel.Load | src/kernel/Kernel.cpp:383-402 | stops the scheduler, then imports the file or changes nothing more |
| Kernels.Kernel.Boot | src/kernel/Kernel.cpp:52-95 | a restart: clean, or what the state file holds if it is accepted |
| Kernels.Kernel.Register | src/auth/UserManager.cpp:13-31 | adds an account with the hash of its password under a new valid name, or refuses |
| Kernels.Kernel.LogIn | src/auth/UserManager.cpp:33-71 | logs in if the hash is the stored one, else counts the failure and locks at the third |
| Kernels.Kernel.LogOut | src/auth/UserManager.cpp:73-83 | ends the session and with it the scheduler |
| Sequences.SortIdsCorrect | src/process/ProcessManager.cpp:12-16 | sorting ids gives the ascending list of the same ids |
| Sequences.AscendingUnique | src/process/ProcessManager.cpp:773-776 | an ascending list is determined by its members |

## Left out

- Threads, mutexes, promises and the request queue: a run is a sequence of atomic events, each under the state lock. That every queued request is answered is not claimed; the worker drops what is queued behind an exit.
- After `exit` the original takes no more commands until it is started again; the model lets any event follow, which only adds runs.
- Command parsing, number parsing and the number of arguments: events carry parsed arguments. A command the parser rejects changes nothing. Letters in names and tags are the ASCII ones, as in the default locale.
- Messages, console, menus, the overview, `show_mem`, `mem_stat`, `list_pcb`, `help`, `status`, `pgfault` and the fragmentation percentages: text only. Success flags are modelled.
- How salts are made, and the clock: salts and times are parameters of the events that need them.
- `read_file` and `ls_file` change nothing and are not events; `ReadFile` gives the content without the text around it.
- The file system: `save` replaces the state file as a whole or not at all. Temporary files, renaming and I/O errors are not modelled, and neither is running out of memory.
- `markTerminated`, `createProcess` without memory and `removeFromReadyQueues` for outside callers: no command reaches them.
- std::sort leaves the order of blocks with equal start addresses open; `SortByStart` is stable. Tables that the kernel makes have no two blocks with one start; for a foreign file that has them, and then one of them is empty or the file is rejected, the original's outcome depends on its library.
- Numbers are little-endian, as on the platform the original's comments name.
- Users.Attempted: the count of failed attempts, an `int`, stops at its maximum instead of overflowing; locking at 3 keeps it from getting there in any run.
