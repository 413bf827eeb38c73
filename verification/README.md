# A verified model of the Rhino kernel and of cJSON

Two parts of AliOS Things carry intricate promises: the Rhino real-time kernel under
`kernel/rhino` and the JSON code under `utility/cjson`. This project models both in Dafny and
proves what they promise, over every input and every run. `dafny verify dfyconfig.toml` checks it.

## What is modelled

**Scheduling and priority inheritance** (`kernel_*.dfy`). Each kernel routine runs with interrupts
off, so it is one atomic step on a state of tasks, blocking objects, ready lists with their bitmap,
and the tick list. The routines are given twice: as functions on that state (`KernelSteps`) and as
methods of a class that work on it step by step, with the kernel's own loops (`KernelImpl`); each
method is proved to reach the state its function gives. What the functions come to is stated without
them: states, results of waiting, counts and durations (`KernelCounts`, `KernelEffects`,
`KernelDurations`, `KernelScheduling`). The invariant says that all lists agree with
the task states and that each live task's priority is the best of its base priority and the first
waiters of the mutexes it holds. That equation holds in every reachable state, also when tasks
deadlock; for a task that is on no cycle of waiting tasks it means full transitive inheritance.
Message-passing objects appear here only as things that tasks wait for.

**Heap** (`heap_*.dfy`). Headers, boundary tags and the memory's bytes form a value; merging and
splitting are operations on the tiling of regions by blocks; free lists and bitmap are an index of the
free blocks. The bytes that the allocator writes for its own purposes are marked, so "a live block keeps
every byte" is a statement about where headers and list pointers land. The class `Allocator` rewrites
headers and intrusive doubly linked free lists one word at a time, in the order of the C code, and is
proved to reach the specified heap. Sizes are those of the default configuration of a 32-bit target,
with size arithmetic modulo 2^32. Searching works for both settings of RHINO_CONFIG_MM_QUICK.

**Fixed-block pool** (`mblk_*.dfy`), **ring buffer** (`ringbuf_*.dfy`) and **message queue**
(`buf_queue.dfy`), **event flags** (`event.dfy`), the **task picker for several CPUs**
(`smp_picker.dfy`) and the **recursive spin lock** (`spin_lock.dfy`, a state machine over the single
reads and writes of each CPU).

**JSON** (`json_*.dfy`). A grammar as a relation between characters and trees (`JsonGrammar`), a tree,
the text printed for it, and the parser as a function of text and position, each proved against the
grammar; a parser with a cursor and a printer with a growing buffer, proved against them; escapes and
Unicode literals; JSON pointers; merge patches; comparison of trees; the doubly linked list of children.

## Where the code and its descriptions differ

- The comments on levels in `k_mm.c:77` and `k_mm.h:116-118` are one power of two too high;
  `HeapLevels.LevelRange` states what the code does.
- A size within 7 of 2^32 rounds up to 0, and the heap then serves it with a 32-byte block
  (`HeapSafety.NeededIsEnough`). `krhino_add_mm_region` wraps the same way when the memory given ends
  before its first aligned address (`HeapRuns.RegionInside`).
- `ringbuf_push` adds the prefix to the length in size_t: for the three lengths below 2^32 - 1 a 32-bit
  sum wraps (`RingStream.FullIsExact`).
- The spin lock's count holds 255; the 257th lock in a row reads as the first
  (`SpinLock.CountWraps`).
- A deadlock can keep an inherited priority alive that no task has as its base any more, in the tasks
  on the cycle (`KernelScenarios.DeadlockKeepsPriority`) and in no others
  (`KernelEffective.EffectivePriority`).
- `krhino_task_del` frees the mutexes of a task before it looks at the task's state, and a deleted task
  keeps its pointer to the first of them. Deleting it again follows that pointer and takes mutexes away
  from whoever owns them by then (`KernelScenarios.DeletedTwice`); `KernelDeletion.DeleteAgain` says
  exactly when it does no harm, and runs are those where it does none.
- A queue of fixed-size messages accepts shorter ones: they take a whole block, and are received with
  what lay behind them in the sender's memory (`BufQueueSpec.ReceivedAsSent`, `BufQueueSpec.ShortMessages`).
- Against RFC 8259 any control character counts as white space, strings may contain control characters,
  numbers are what strtod takes of up to 63 characters, and surrogates must come in pairs
  (`JsonUnicode.LiteralIsScalar`). `JsonLanguage.ParseIsExact` says what exactly is accepted.
- `\u` followed by characters that are no hexadecimal digits is accepted and reads as a zero byte
  (`JsonUnicode.BadHexReadsAsZero`). A zero byte in a parsed string, from that or from an escaped zero,
  ends it for every C reader; the trees here keep the bytes behind it.
- Object members are looked up without regard to case, so JSON pointers and merge patches confuse names
  that differ only in case. `JsonPointer.GetInvertsFind`, `JsonPointer.AllFoundBack` and
  `JsonMerge.MergeIsRfc` say exactly when they do not.
- `krhino_mblk_pool_init` accepts parameters for which its loop does not end with a chain of blocks: a
  block size of 0 for a pool of any other size than 0, and blocks so large that the pointer behind the
  last one wraps (`MblkPool.Endless`). `MblkPool.LoopEnds` says exactly which, and `MblkImpl.Pool.Init`
  asks for the others.
- A token that ends in an odd number of tildes, and no other, makes
  `cJSONUtils_InplaceDecodePointerString` go on behind its zero (`JsonPointer.DecoderStops`,
  `JsonPointer.LoneTilde`).

## Model

| member | source | states |
|---|---|---|
| KernelRun.RunInv | kernel/rhino/k_mutex.c:62-455 | over every run of API calls, ticks and interrupts the whole invariant holds: wait lists, ready queue, tick list and held-mutex lists agree with the task states, priority wait lists are sorted, every live task has its inherited priority, and the best ready task runs |
| KernelRun.ExecInv | kernel/rhino/k_task.c:246-784 | each single kernel routine, whatever its arguments and result, keeps that invariant; what callers owe is that the idle task does not block and that a task is not deleted again while its stale list leads to an owned mutex |
| KernelRun.InitialInv | kernel/rhino/k_task.c:7-131 | a start-up state, with tasks ready or suspended at their base priorities and all objects free, satisfies it |
| KernelEffective.EffectivePriority | kernel/rhino/k_mutex.c:193-282 | the priority of a live task that is on no cycle of waiting tasks is exactly the best base priority among itself and all tasks that wait for it, directly or through other owners; deadlocks elsewhere do not matter |
| KernelEffective.NoneOnCycle | kernel/rhino/k_mutex.c:285-381 | where waiting goes down in some ranking of the tasks, no task is on a cycle |
| KernelEffective.CycleEven | kernel/rhino/k_mutex.c:193-282 | the tasks of a deadlock all run at one priority |
| KernelEffective.ChainBound | kernel/rhino/k_mutex.c:285-381 | no priority inversion along any chain of waiting tasks, deadlocked or not |
| KernelScenarios.DeadlockKeepsPriority | kernel/rhino/k_task.c:477-548 | a run from start-up that ends in a deadlock in which a task runs better than any task has as its base: that task is on a cycle, so the condition of the effective-priority theorem is needed |
| KernelDeletion.DeleteAgain | kernel/rhino/k_task.c:661-784 | deleting a deleted task once more keeps the invariant exactly if no mutex that its stale list leads to is in any task's list |
| KernelDeletion.WalkEnds | kernel/rhino/k_task.c:668-690 | following the links from a stale pointer never goes round: it meets free or deleted mutexes and then, if an owned one, the rest of its owner's list |
| KernelDeletion.WayStep | kernel/rhino/k_task.c:668-690 | giving away the first mutex that a stale pointer leads to, whoever owns it, changes the link of none of those still to come, so reading links one turn at a time meets the list there was at the start |
| KernelScenarios.DeletedTwice | kernel/rhino/k_task.c:738-770 | a run from start-up after which deleting a task again, though refused, takes a mutex from its owner: the owner cannot unlock it and the invariant is broken |
| KernelCounts.RunCounts | kernel/rhino/k_mutex.c:285-455 | over every run, whatever other tasks, interrupts and ticks do in between, a task holds a mutex exactly as often as it has locked it more than unlocked it; only deleting the mutex or the task ends that |
| KernelCounts.OnlyOwnerCounts | kernel/rhino/k_mutex.c:285-455 | no call but locking and unlocking by its owner changes who holds a mutex or how often |
| KernelCounts.LockAgain | kernel/rhino/k_mutex.c:309-325 | locking a mutex the caller holds adds one to its count and changes nothing else; at the largest count it is refused |
| KernelCounts.UnlockOne | kernel/rhino/k_mutex.c:405-417 | unlocking one held more than once takes one off and changes nothing else |
| KernelCounts.UnlockLast | kernel/rhino/k_mutex.c:405-455 | unlocking one held once gives it to the first waiter, or to nobody |
| KernelCounts.NestedLocks | kernel/rhino/k_mutex.c:285-455 | a task that holds a mutex once and locks it k times more still holds it after j unlocks for every j up to k; k of them restore the whole state, and one more gives the mutex up |
| KernelEffects.LockFreeIs | kernel/rhino/k_mutex.c:327-340 | a free mutex is the caller's, once, and nothing else changes |
| KernelEffects.LockHeldIs | kernel/rhino/k_mutex.c:342-381 | for a mutex of another task: refused exactly if the caller would not wait or has locked the scheduler; otherwise it waits for it, and the owner runs at least as well as the caller |
| KernelEffects.PendIs | kernel/rhino/k_pend.c:50-71 | waiting for any other object: refused likewise, or queued last, or behind those that are as urgent |
| KernelEffects.AbortIs | kernel/rhino/k_task.c:602-659 | a task whose wait or sleep is aborted is ready, in no list, told of the abortion and linked to nothing; nobody else is touched |
| KernelEffects.MutexDelIs | kernel/rhino/k_mutex.c:62-110 | everybody who waited for a deleted mutex is ready, or still suspended, linked to nothing and told of the deletion; nobody holds it, and all others are untouched |
| KernelEffects.ObjDelIs | kernel/rhino/k_pend.c:73-99 | the same for any other object that is deleted |
| KernelEffects.ObjWakeIs | kernel/rhino/k_pend.c:22-48 | a task given what it waited for is ready, or still suspended, and told of success; nobody else is touched |
| KernelEffects.PriChangeIs | kernel/rhino/k_task.c:550-599 | the base priority asked for is the task's and nobody else's changes; a task that holds nothing anybody waits for runs at it |
| KernelEffects.SuspendsCount | kernel/rhino/k_task.c:314-445 | a task suspended n times, up to 255, stays suspended through fewer than n resumptions, and the n-th gives back the very state it had |
| KernelEffects.SuspendIs | kernel/rhino/k_task.c:314-386 | what each suspension does to the task's record in each of its states, and what is refused |
| KernelEffects.TaskDelIsDone | kernel/rhino/k_task.c:661-784 | a deleted task is in no list, owns no mutex and does not run |
| KernelEffects.RoundRobin | kernel/rhino/k_task.c:288-311 | as many yields as there are tasks of the best priority let each of them run, in order, and then the first again |
| KernelEffects.SliceIs | kernel/rhino/k_sched.c:433-480 | when its time slice is used up the running task goes behind the others of its priority and the next one runs |
| KernelScheduling.StaysRunning | kernel/rhino/k_sched.c:126-166 | as long as the scheduler is locked or an interrupt is served, no call and no tick takes the CPU from the task that has it |
| KernelScheduling.LocksNest | kernel/rhino/k_sched.c:33-85 | the scheduler locked k times stays locked, with nothing else changed, until it is unlocked k times, and only then the best ready task runs; 200 is the most |
| KernelScheduling.WakeBehind | kernel/rhino/k_sched.c:275-278 | a task given what it waited for does not take the CPU from one that is as urgent, but stands behind all of its priority |
| KernelScheduling.ResumeBehind | kernel/rhino/k_sched.c:275-278 | nor does a task that is resumed |
| KernelScheduling.KeepsCpu | kernel/rhino/k_task.c:489-503 | the running task keeps the CPU through a change of its base priority as long as no other ready task is more urgent than it is then |
| KernelEffective.RunningIsBest | kernel/rhino/k_sched.c:126-166 | with the scheduler free the running task is at least as urgent as every ready task and everything stuck behind one |
| KernelEffective.UnlockSuccessor | kernel/rhino/k_mutex.c:383-455 | unlocking hands the mutex to a waiter that no other waiter is more urgent than, with a fresh count, and makes it ready |
| KernelInheritance.PriChangePi | kernel/rhino/k_task.c:477-548 | task_pri_change, started at a task whose priority is due to change, re-establishes the inherited priority of every task along the owner chain |
| KernelState.SetPrioShrinks | kernel/rhino/k_task.c:477-548 | one turn of the walk lowers a measure, also on a deadlocked wait-for graph: raising a task takes it out of the set of tasks below the new priority, lowering one out of the set at or above the old one |
| KernelInheritance.LookIsMin | kernel/rhino/k_mutex.c:224-265 | mutex_pri_look computes the best of the base priority and the first waiters of all held mutexes |
| KernelInvariants.InsertSorted | kernel/rhino/k_pend.c:7-20 | inserting by priority keeps a wait list sorted |
| KernelInvariants.ReadyRmIndex | kernel/rhino/k_sched.c:280-315 | removing from the ready queue keeps bit p set iff list p is non-empty and highest_pri the least set bit |
| KernelInvariants.SetPrioBase | kernel/rhino/k_task.c:477-548 | a priority change moves a ready task between ready lists and a waiting one within its wait list, keeping all lists exact and sorted |
| KernelCalls.MutexLockInv | kernel/rhino/k_mutex.c:285-381 | locking keeps the invariant on all paths: nested, free, refused, blocking with inheritance |
| KernelTasks.MutexUnlockInv | kernel/rhino/k_mutex.c:383-455 | unlocking keeps it: priority recomputed, mutex handed over or freed |
| KernelTasks.MutexDelInv | kernel/rhino/k_mutex.c:62-110 | deleting a mutex keeps it: owner's priority recomputed, all waiters woken |
| KernelTasks.TaskPriChangeInv | kernel/rhino/k_task.c:550-599 | changing a base priority keeps it, within the limit set by waiters |
| KernelRun.TaskSuspendInv | kernel/rhino/k_task.c:314-386 | suspending keeps it, for ready, sleeping and pending tasks |
| KernelRun.TaskResumeInv | kernel/rhino/k_task.c:389-445 | resuming keeps it, with nested suspensions |
| KernelRun.TaskSleepInv | kernel/rhino/k_task.c:246-286 | sleeping keeps it |
| KernelRun.TaskWaitAbortInv | kernel/rhino/k_task.c:602-659 | aborting a wait keeps it, including the priorities of the owners waited for |
| KernelRun.TaskDelInv | kernel/rhino/k_task.c:661-784 | deleting a live task keeps it: its mutexes are handed over and its wait ended; deleting a deleted one does where its stale list is safe |
| KernelRun.TickUpdateInv | kernel/rhino/k_tick.c:59-130 | a tick interrupt keeps it while timed-out waiters leave and owners are lowered |
| KernelRun.ExpireOk | kernel/rhino/k_tick.c:75-130 | each task that times out gets the state and wait result its old state calls for |
| KernelTicks.TickExact | kernel/rhino/k_tick.c:59-130 | on a sorted tick list the early stop is exact: precisely the tasks that are due leave it |
| KernelTicks.RunTickSorted | kernel/rhino/k_tick.c:12-47 | over runs with timeouts below half the tick range the list stays sorted by remaining time, under wrap-around |
| KernelTicks.SleepOverAtFirstTick | kernel/rhino/k_tick.c:35-47 | exactly which timeouts are over at the first tick: 1, and those above half the range |
| KernelDurations.SleepLasts | kernel/rhino/k_task.c:246-286 | a sleep of so many ticks ends with the timer interrupt in which the ticks reported since then reach that number, and not before |
| KernelDurations.TickPasses | kernel/rhino/k_tick.c:59-130 | after n ticks a task has n less to wait, if it had more; otherwise it leaves the list, a sleeper with success and a waiter with a timeout, ready or still suspended |
| KernelDurations.TimeoutStarts | kernel/rhino/k_pend.c:50-71 | a wait with a timeout starts with just so many ticks left, and one without is not on the tick list |
| KernelImpl.Kernel.ReadyListAdd | kernel/rhino/k_sched.c:195-215 | puts a task at the head or tail of its list and updates bitmap and highest_pri as specified |
| KernelImpl.Kernel.ReadyListRm | kernel/rhino/k_sched.c:280-315 | takes a task out and finds the next highest priority as specified |
| KernelImpl.Kernel.PendListAdd | kernel/rhino/k_pend.c:7-20 | the loop over the wait list inserts where the specification does |
| KernelImpl.Kernel.MutexPriLook | kernel/rhino/k_mutex.c:224-265 | the loop over held mutexes computes the specified priority, one mutex left out if asked |
| KernelImpl.Kernel.ChangeTaskPrio | kernel/rhino/k_task.c:477-548 | the do/while walk up the owner chain ends and reaches the specified state |
| KernelImpl.Kernel.MutexPriLimit | kernel/rhino/k_mutex.c:193-222 | the limit for a new base priority |
| KernelImpl.Kernel.TickListInsert | kernel/rhino/k_tick.c:12-47 | the loop over the tick list inserts by remaining time |
| KernelImpl.Kernel.TickListUpdate | kernel/rhino/k_tick.c:59-130 | the draining loop reaches the specified state |
| KernelImpl.Kernel.KrhinoMutexLock | kernel/rhino/k_mutex.c:285-381 | the method reaches the specified state and status and keeps the invariant, whether the mutex is nested, free, refused or blocks the caller, up to the point where it blocks |
| KernelImpl.Kernel.KrhinoMutexUnlock | kernel/rhino/k_mutex.c:383-455 | the method reaches the specified state and status and keeps the invariant, on every path, with the splice, the new priority and the hand-over |
| KernelImpl.Kernel.KrhinoMutexDel | kernel/rhino/k_mutex.c:62-110 | the method reaches the specified state and status and keeps the invariant, with the loop that wakes all waiters |
| KernelImpl.Kernel.KrhinoTaskPriChange | kernel/rhino/k_task.c:550-599 | the method reaches the specified state and status and keeps the invariant, with the limit computed by its own loop; the old priority is reported on success |
| KernelImpl.Kernel.KrhinoTaskSuspend | kernel/rhino/k_task.c:314-386 | the method reaches the specified state and status and keeps the invariant, for every state of the task, with the count of suspensions |
| KernelImpl.Kernel.KrhinoTaskResume | kernel/rhino/k_task.c:389-445 | the method reaches the specified state and status and keeps the invariant, for every state of the task |
| KernelImpl.Kernel.KrhinoTaskSleep | kernel/rhino/k_task.c:246-286 | the method reaches the specified state and status and keeps the invariant, with the insertion into the tick list, up to the point where the caller sleeps |
| KernelImpl.Kernel.KrhinoTaskWaitAbort | kernel/rhino/k_task.c:602-659 | the method reaches the specified state and status and keeps the invariant, for every state of the task |
| KernelImpl.Kernel.KrhinoTaskDel | kernel/rhino/k_task.c:661-784 | the method reaches the specified state and status whatever the state of the task, and keeps the invariant where the caller may delete |
| KernelImpl.Kernel.StaleMutexFree | kernel/rhino/k_task.c:661-690 | for a task deleted before, the loop that follows the stale links, reading each before its mutex is given away, does to the state what is specified for the list the links spelled at the start, whoever owns the mutexes |
| EventSpec.RunMissesNone | kernel/rhino/k_event.c:162-328 | in every state of every run whoever waits for all of some flags misses one of them, and whoever waits for any of some flags misses every one |
| EventSpec.SetMissesNone | kernel/rhino/k_event.c:252-328 | one pass that judges all waiters by a snapshot while the live flags are cleared leaves nobody behind who has all, or one, of the flags he asked for |
| EventSpec.SetWakes | kernel/rhino/k_event.c:288-322 | exactly the waiters are woken for which all their flags are there, with RHINO_AND, or one of them, with RHINO_OR; each is told all the flags, and nobody else anything |
| EventSpec.SetSplits | kernel/rhino/k_event.c:288-322 | nobody is lost or woken twice by a pass over the wait list |
| EventSpec.SetIs | kernel/rhino/k_event.c:252-328 | with RHINO_AND exactly the flags not given are cleared; with RHINO_OR those given are there afterwards unless a task woken has asked to clear them |
| EventSpec.GetIs | kernel/rhino/k_event.c:162-250 | a task gets its flags at once exactly if all of them are set, with options 2 and 3, or one of them, with 0 and 1; it clears them exactly with 1 and 3; all other answers, and that they change nothing |
| EventImpl.Event.Get | kernel/rhino/k_event.c:162-250 | the method succeeds exactly if all flags, or one, are set, does what is specified and keeps the invariant, up to the point where the caller blocks |
| EventImpl.Event.Set | kernel/rhino/k_event.c:252-340 | sets or masks the flags and wakes exactly whom the specification does, keeping the invariant |
| EventImpl.Event.WakeAll | kernel/rhino/k_event.c:281-322 | the loop over the wait list wakes, keeps and clears as specified |
| SmpPicker.PreferredReadyTask | kernel/rhino/k_sched.c:322-363 | thanks to the bound idle task the search ends, with the first task of the best list this CPU may execute |
| SmpPicker.BestIs | kernel/rhino/k_sched.c:322-363 | that task is the one the CPU executes or one that no CPU executes and that is not bound to another CPU, and all before it are executed or bound elsewhere |
| SpinLock.MutualExclusion | kernel/rhino/k_spin_lock.c:23-122 | under every interleaving at most one CPU holds the lock, the word names it and its depth, and it is free exactly when all have unlocked as often as locked |
| SpinLock.StepInv | kernel/rhino/k_spin_lock.c:37-111 | every step of a CPU keeps the word in agreement with who holds the lock |
| SpinLock.OnlyOwnerWrites | kernel/rhino/k_spin_lock.c:98-119 | while the lock is held no other CPU changes the word |
| SpinLock.Acquires | kernel/rhino/k_spin_lock.c:37-76 | a CPU that locks while the lock is free has it after three steps, and one that has it already has it once more after four |
| SpinLock.Releases | kernel/rhino/k_spin_lock.c:97-119 | a CPU that unlocks frees the lock if it had locked it once, and has it once less otherwise |
| SpinLock.CountWraps | kernel/rhino/k_spin_lock.c:43-56 | the word is right after a recursive lock if and only if the count was below 255 |
| SpinLock.PackBits | kernel/rhino/k_spin_lock.c:53-54 | the word put together with shifts and disjunctions is the packing used here; a count of 256 vanishes in the magic number |
| SpinLock.UnpackBits | kernel/rhino/k_spin_lock.c:14-21 | the masks give owner, count and magic number |
| HeapRuns.RunIsSafe | kernel/rhino/k_mm.c:136-745 | over every legal run of requests, releases, reallocations, new regions and user writes the heap stays well formed and a block the run never mentions keeps its address, size and every byte |
| HeapSafety.AllocIsSafe | kernel/rhino/k_mm.c:395-519 | k_mm_alloc keeps the heap well formed; the result was free, is disjoint from all live blocks and has the room asked for; null exactly when no block serves |
| HeapExact.AllocExact | kernel/rhino/k_mm.c:436-506 | of the free block it is served from a request takes its rounded size, and what follows is a free block of all the rest, if that is at least 40 bytes; otherwise the whole block: so it never gets 40 bytes more than it needs |
| HeapExact.RestServes | kernel/rhino/k_mm.c:481-506 | what a request leaves of its block serves a further request that fits into it |
| HeapExact.PoolAllocExact | kernel/rhino/k_mm.c:408-430 | requests of up to 32 bytes are served from the pool as long as it has a block, the one given back last, and all others from elsewhere |
| HeapExact.NeededIs | kernel/rhino/k_mm.c:436-437 | requests are rounded up to a multiple of 8 that is at least 32 |
| HeapSafety.NullMeansFull | kernel/rhino/k_mm.c:434-479 | with regions up to MM_MAX_SIZE, null exactly when every free block is too small |
| HeapSafety.NeededIsEnough | kernel/rhino/k_mm.c:436-437 | the rounded size is large enough if and only if rounding up does not overflow 32 bits |
| HeapSafety.LiveApart | kernel/rhino/k_mm.c:395-519 | live buffers do not overlap |
| HeapSafety.LiveInside | kernel/rhino/k_mm.c:32-75 | a live buffer lies inside one region, clear of every header |
| HeapSafety.FreeIsSafe | kernel/rhino/k_mm.c:521-600 | k_mm_free of a live address keeps the heap well formed and nobody else notices |
| HeapRealloc.ReallocIsSafe | kernel/rhino/k_mm.c:602-745 | k_mm_realloc on all its paths keeps the heap well formed and the first min(old, new) bytes; on null nothing has changed |
| HeapExact.ReallocExact | kernel/rhino/k_mm.c:648-745 | where a block and a free one behind it have the room, the block stays at its address and is cut to its new size, the rest being free; otherwise a new block is asked for, and null means there is none |
| HeapExact.PoolReallocExact | kernel/rhino/k_mm.c:620-646 | a pool block stays where it is for sizes up to 32, and for others a new block is asked for |
| HeapRealloc.ShrinkSplits | kernel/rhino/k_mm.c:652-683 | absorbing a free successor while shrinking always leaves a legal split |
| HeapRuns.FreeUndoesAlloc | kernel/rhino/k_mm.c:481-600 | giving an allocated block straight back restores every header |
| HeapRuns.NewRegionIsSafe | kernel/rhino/k_mm.c:238-291 | adding unused memory keeps the heap well formed and nobody notices |
| HeapExact.NewRegionExact | kernel/rhino/k_mm.c:32-75 | of a new region all but 32 bytes of bookkeeping is one free block, and the other blocks are as they were |
| HeapExact.AddRegionIs | kernel/rhino/k_mm.c:238-265 | memory is added exactly if 64 bytes of it are left between aligned addresses |
| HeapRuns.RegionInside | kernel/rhino/k_mm.c:251-259 | the region used lies inside the memory given if and only if that memory reaches its first aligned address |
| HeapRuns.InitIsSafe | kernel/rhino/k_mm.c:136-225 | a fresh heap is well formed and nobody owns anything in it |
| HeapExact.InitPool | kernel/rhino/k_mm.c:193-220 | a fresh heap has its pool, with all 256 blocks free, exactly if the pool fits behind the bookkeeping |
| HeapRuns.PoolIsMblk | kernel/rhino/k_mm.c:202-213 | the pool in the heap is a block pool without a partial block, whose initialisation passes all checks and ends |
| HeapTiling.TiledExactly | kernel/rhino/k_mm.c:25-75 | each byte of a region lies in exactly one block, and that block inside the region |
| HeapTiling.MergeTiled | kernel/rhino/k_mm.c:563-583 | merging two neighbours keeps the tiling and all boundary tags |
| HeapTiling.SplitTiled | kernel/rhino/k_mm.c:486-499 | splitting a block keeps them |
| HeapOperations.FreeBlkFine | kernel/rhino/k_mm.c:559-597 | freeing with merges on both sides leaves no two free neighbours and lists exactly the free blocks |
| HeapOperations.TakeFine | kernel/rhino/k_mm.c:481-503 | taking a block, split or whole, does too |
| HeapIndex.InsertIndex | kernel/rhino/k_mm.c:330-350 | inserting keeps each level's list exact and its bit set iff the list is non-empty |
| HeapIndex.DeleteIndex | kernel/rhino/k_mm.c:352-379 | deleting does too |
| HeapSearch.SearchIsExact | kernel/rhino/k_mm.c:443-479 | in both search orders what is found serves the request and nothing is found only if no block does |
| HeapSearch.SearchIsTight | kernel/rhino/k_mm.c:443-479 | what is found is on the least level of all blocks that serve, or with the quick search of those above the level of the request |
| HeapLevels.LevelRange | kernel/rhino/k_mm.c:77-91 | what size_to_level returns, as ranges of sizes between powers of two |
| HeapImpl.Allocator.FreelistInsert | kernel/rhino/k_mm.c:330-350 | the pointer writes make the linked list the specified one |
| HeapImpl.Allocator.FreelistDelete | kernel/rhino/k_mm.c:352-379 | unlinking from head, middle or end does too |
| HeapImpl.Allocator.FindUpLevel | kernel/rhino/k_mm.c:381-393 | the head of the next non-empty level |
| HeapImpl.Allocator.FindSameLevel | kernel/rhino/k_mm.c:448-454 | the loop finds the first block large enough |
| HeapImpl.Allocator.Alloc | kernel/rhino/k_mm.c:395-519 | header by header the method reaches the specified heap and stays valid |
| HeapImpl.Allocator.FreeBlk | kernel/rhino/k_mm.c:543-597 | the header writes of freeing, of which the last one lags, reach the specified heap |
| HeapImpl.Allocator.Free | kernel/rhino/k_mm.c:521-600 | giving back any live address, of the pool or not, or null reaches the specified heap |
| HeapImpl.Allocator.ShrinkBlk | kernel/rhino/k_mm.c:652-683 | shrinking in place |
| HeapImpl.Allocator.GrowBlk | kernel/rhino/k_mm.c:684-719 | growing into a free successor |
| HeapImpl.Allocator.Realloc | kernel/rhino/k_mm.c:602-745 | all paths together |
| HeapImpl.Allocator.AddMmRegion | kernel/rhino/k_mm.c:238-291 | the specified heap and result |
| HeapImpl.InitMmHead | kernel/rhino/k_mm.c:136-225 | an error exactly for the sizes the source refuses, and otherwise the specified initial heap, which is valid |
| DoubleLinks.UnlinkSpells | kernel/rhino/k_mm.c:361-378 | unlinking a node of a doubly linked list spells out the sequence without it |
| DoubleLinks.PushSpells | kernel/rhino/k_mm.c:339-346 | pushing one spells out the sequence with it in front |
| MblkPool.RunIsSafe | kernel/rhino/k_mm_blk.c:76-121 | over every run live blocks are whole blocks of the pool and blk_avail is the number of whole blocks, floor(pool_size / blk_size) or 1 if both are 0, minus the live ones, so the partial block is never handed out |
| MblkPool.AllocIsSafe | kernel/rhino/k_mm_blk.c:76-102 | a block handed out is whole and was nobody's; there is none exactly when all are live |
| MblkPool.CheckIs | kernel/rhino/k_mm_blk.c:19-40 | parameters pass exactly if all are multiples of 4 and the pool holds at least two blocks |
| MblkPool.FreeUndoesAlloc | kernel/rhino/k_mm_blk.c:104-121 | handing a block straight back restores the pool |
| MblkPool.LoopEnds | kernel/rhino/k_mm_blk.c:40-56 | in 32-bit pointer arithmetic the initialisation ends with ever higher blocks exactly if the block size is not 0, or both sizes are, and the address behind the last block does not wrap |
| MblkPool.Endless | kernel/rhino/k_mm_blk.c:19-50 | parameters that pass the checks but do not satisfy it, of both kinds |
| MblkPool.InitInv | kernel/rhino/k_mm_blk.c:44-70 | after initialisation the chain is all whole blocks, with the partial one at the bottom |
| MblkPool.LiveApart | kernel/rhino/k_mm_blk.c:76-102 | live blocks do not overlap |
| MblkImpl.Pool.Init | kernel/rhino/k_mm_blk.c:8-74 | the threading loop, with pointers that wrap, ends and builds the specified chain; errors change nothing |
| MblkImpl.Pool.Alloc | kernel/rhino/k_mm_blk.c:76-102 | as specified |
| MblkImpl.Pool.Free | kernel/rhino/k_mm_blk.c:104-121 | as specified |
| RingImpl.Ring.Push | kernel/rhino/k_ringbuf.c:23-100 | appends the message to a queue of byte strings or changes nothing, with the exact status |
| RingImpl.Ring.Pop | kernel/rhino/k_ringbuf.c:102-172 | returns exactly the oldest message and removes it, wherever prefix and payload were split |
| RingImpl.Ring.PutSplit | kernel/rhino/k_ringbuf.c:60-96 | a copy that may be split at the end continues the stream of bytes |
| RingImpl.Ring.FreeIsExact | kernel/rhino/k_ringbuf.c:23-172 | freesize is the capacity minus the sum of prefix and payload lengths |
| RingImpl.Ring.IsFull | kernel/rhino/k_ringbuf.c:174-186 | true exactly when no message at all fits |
| RingImpl.Ring.IsEmpty | kernel/rhino/k_ringbuf.c:188-195 | true exactly when there is no message |
| RingImpl.Ring.Reset | kernel/rhino/k_ringbuf.c:197-204 | the empty queue |
| RingStream.FlatSpace | kernel/rhino/k_ringbuf.c:29-98 | the bytes in the buffer are as many as the records cost: a block each, or prefix and payload |
| RingStream.FullIsExact | kernel/rhino/k_ringbuf.c:43-52 | a push is refused for space exactly when the record does not fit, if and only if adding the prefix does not wrap a 32-bit size |
| RingStream.DecodeEncode | kernel/rhino/k_ringbuf.c:54-54 | a length prefix reads back as the length |
| RingStream.Append | kernel/rhino/k_ringbuf.c:71-96 | bytes written behind the stream continue it |
| BufQueueSpec.RunDelivers | kernel/rhino/k_buf_queue.c:211-365 | over every run of sends, receives and timeouts each accepted message is delivered once or still in the ring, in the order sent |
| BufQueueSpec.RecvIs | kernel/rhino/k_buf_queue.c:294-350 | whoever asks while the ring holds messages gets the oldest one at once, whether he would wait or not; when it is empty the answer tells exactly whether he would not wait, may not, or waits |
| BufQueueSpec.SendIs | kernel/rhino/k_buf_queue.c:211-284 | a message is accepted exactly if its length is legal and a receiver waits or one more block, or all the bytes with their prefixes, fit; which error is given otherwise |
| BufQueueSpec.TakesDrain | kernel/rhino/k_buf_queue.c:294-331 | as many receives as there are messages empty the ring, the messages going out in order, one to each |
| BufQueueSpec.SentIsTaken | kernel/rhino/k_buf_queue.c:211-331 | a message sent while n lie in the ring is what the (n+1)-th receive gets, as it was sent or as a block that begins with it |
| BufQueueSpec.EnqueueIs | kernel/rhino/k_pend.c:7-20 | a receiver that waits stands behind all that are as urgent or more |
| BufQueueSpec.FreshRunDelivers | kernel/rhino/k_buf_queue.c:211-365 | from an empty queue: what was received comes from the first messages accepted, one each and in order, and the ring holds the others; each arrives as sent, or in a queue of fixed-size messages as a block that begins with it |
| BufQueueSpec.RunFaithful | kernel/rhino/k_buf_queue.c:211-365 | over every run all messages arrive as they were sent exactly if each one put into the ring of a queue of fixed-size messages fills a block |
| BufQueueSpec.ReceivedAsSent | kernel/rhino/k_buf_queue.c:211-284 | an accepted message is received as sent exactly if sizes vary, or it fills a block, or a receiver was waiting |
| BufQueueSpec.ShortMessages | kernel/rhino/k_ringbuf.c:29-42 | three bytes sent to a queue of eight-byte messages take a block and are received with five bytes of what lay behind them |
| BufQueueSpec.SendReachesBest | kernel/rhino/k_buf_queue.c:269-283 | a message sent while receivers wait goes to one that no other is more urgent than |
| BufQueueSpec.ApplyInv | kernel/rhino/k_buf_queue.c:243-283 | waiting receivers imply an empty ring, so a direct hand-over never overtakes |
| BufQueueImpl.BufQueue.Send | kernel/rhino/k_buf_queue.c:211-284 | as specified, with cur_num the number of records |
| BufQueueImpl.BufQueue.Recv | kernel/rhino/k_buf_queue.c:294-340 | the oldest message whenever there is one, and otherwise as specified, up to the point where the task blocks |
| BufQueueImpl.BufQueue.Flush | kernel/rhino/k_buf_queue.c:367-390 | the ring is empty and waiting receivers stay |
| JsonLanguage.ParseIsExact | utility/cjson/cJSON.c:858-1356 | a text in which every \u is followed by hexadecimal digits is accepted as a whole exactly if it is one of the grammar of RFC 8259, with the liberties named above, nested up to the limit, and is then read as the value it is a text of |
| JsonLanguage.ParseAccepts | utility/cjson/cJSON.c:858-1356 | every text of the grammar, nested up to the limit, is read as its value |
| JsonLanguage.ParsePrefix | utility/cjson/cJSON.c:884-889 | if the end of the text does not matter, neither does what follows the value |
| JsonLanguage.AcceptValue | utility/cjson/cJSON.c:1028-1356 | a text of the grammar is read as its value wherever it stands and at any depth |
| JsonLanguage.SoundValue | utility/cjson/cJSON.c:1028-1356 | what is read as a value at a position and depth is a text of it, nested up to the limit |
| JsonRoundTrip.PrintIsText | utility/cjson/cJSON.c:711-1439 | what is printed for any printable tree, formatted or not and at any depth, is a text of that tree by the same grammar |
| JsonRoundTrip.PrintThenParse | utility/cjson/cJSON.c:858-1439 | printing any printable tree, formatted or not, nested up to the limit, and parsing the text gives the tree back |
| JsonRoundTrip.ParsePrint | utility/cjson/cJSON.c:1028-1439 | the same for a value printed anywhere in a text and at any depth |
| JsonRoundTrip.UnescapeEscape | utility/cjson/cJSON.c:633-681 | every NUL-free byte string survives escaping and unescaping |
| JsonRoundTrip.ParsePrintNumber | utility/cjson/cJSON.c:244-307 | the text of a printed number is read back whole |
| JsonUnicode.HexReads | utility/cjson/cJSON.c:464-487 | four hexadecimal digits in any mix of cases, character by character those of a number below 65536, read as that number |
| JsonUnicode.LiteralBecomesUtf8 | utility/cjson/cJSON.c:491-586 | a scalar value written as one or two \u literals, with digits in either case, becomes its UTF-8 |
| JsonUnicode.Utf8IsUtf8 | utility/cjson/cJSON.c:542-578 | the bytes are the shortest-form UTF-8 of the value, by the table of RFC 3629 |
| JsonUnicode.LiteralIsScalar | utility/cjson/cJSON.c:506-541 | lone and mismatched surrogates are refused |
| JsonUnicode.BadHexReadsAsZero | utility/cjson/cJSON.c:464-487 | against section 7 of RFC 8259, bad hexadecimal digits read as the code point 0 |
| JsonUnicode.StringFits | utility/cjson/cJSON.c:603-627 | the bytes of a string never exceed the length reserved, whatever its escapes |
| JsonParser.Buffer.ReadValue | utility/cjson/cJSON.c:1028-1069 | the cursor parser returns what the grammar function does and leaves the cursor behind it |
| JsonParser.Buffer.ReadArray | utility/cjson/cJSON.c:1135-1212 | the loop over elements returns what the grammar function does |
| JsonParser.Buffer.ReadObject | utility/cjson/cJSON.c:1263-1356 | the loop over members returns what the grammar function does |
| JsonParser.Buffer.ReadString | utility/cjson/cJSON.c:589-708 | both loops, within the reserved buffer |
| JsonParser.Buffer.Utf16LiteralToUtf8 | utility/cjson/cJSON.c:491-586 | writes the UTF-8 of the literal or refuses it |
| JsonParser.Buffer.EncodeUtf8 | utility/cjson/cJSON.c:542-578 | the loop that writes trailing bytes first writes the UTF-8 of the code point |
| JsonParser.Buffer.ParseHex4 | utility/cjson/cJSON.c:464-487 | the number that four hexadecimal digits spell, 0 if one of the characters is none |
| JsonParser.Buffer.SkipWhitespace | utility/cjson/cJSON.c:831-843 | the next character that is not blank, stepping back at the end |
| JsonParser.ParseWithOpts | utility/cjson/cJSON.c:858-916 | the value of the text up to its first zero, with or without insisting on its end |
| JsonPrinter.PrintBuffer.PrintValue | utility/cjson/cJSON.c:1072-1132 | the buffer holds exactly the printed text and its zero; failure only when that may not fit |
| JsonPrinter.PrintBuffer.PrintArray | utility/cjson/cJSON.c:1215-1260 | the same for arrays |
| JsonPrinter.PrintBuffer.PrintObject | utility/cjson/cJSON.c:1359-1439 | the same for objects |
| JsonPrinter.PrintBuffer.PrintString | utility/cjson/cJSON.c:711-814 | the same for strings, in the space counted beforehand |
| JsonPrinter.PrintBuffer.Ensure | utility/cjson/cJSON.c:333-396 | room for what is needed and one byte more, keeping the text so far |
| JsonPrinter.PrintBuffer.UpdateOffset | utility/cjson/cJSON.c:399-407 | looking for the zero finds the end of the text |
| JsonPrinter.PrintJson | utility/cjson/cJSON.c:926-983 | the printed text of any printable value below INT_MAX |
| JsonPrinter.PrintPreallocated | utility/cjson/cJSON.c:1010-1025 | success whenever the length exceeds the text by two |
| JsonLists.Children.DetachItem | utility/cjson/cJSON.c:1621-1644 | the list without the item, which points nowhere |
| JsonLists.Children.AddItem | utility/cjson/cJSON.c:1552-1570 | the list with the item at its end |
| JsonLists.Children.InsertItem | utility/cjson/cJSON.c:1684-1704 | the list with the item at its place, or at the end |
| JsonLists.Children.ReplaceItem | utility/cjson/cJSON.c:1706-1729 | the list with the item replaced |
| JsonLists.Children.GetArrayItem | utility/cjson/cJSON.c:1462-1476 | the item of that number or null |
| JsonLists.DetachUndoesAdd | utility/cjson/cJSON.c:1552-1644 | detaching an item just added restores the list |
| JsonFollow.GetIsExact | utility/cjson/cJSON_Utils.c:166-208 | a JSON pointer leads to a node exactly if its tokens do: slash and token for each step, the token being the decimal number of an element or the encoding, up to case, of the name of the first such member; one that names no node leads nowhere |
| JsonPointer.GetInvertsFind | utility/cjson/cJSON_Utils.c:118-208 | looking up the pointer found for a node leads to that very node exactly if no member on the way has an earlier sibling whose name is the same up to case |
| JsonPointer.AllFoundBack | utility/cjson/cJSON_Utils.c:118-208 | every node of a tree is found back by its pointer exactly if no object has two names that are the same up to case |
| JsonPointer.FindIs | utility/cjson/cJSON_Utils.c:118-164 | the search finds every node, with the pointer that spells its path |
| JsonPointer.GetIs | utility/cjson/cJSON_Utils.c:166-208 | following a pointer that spells a path leads to its node exactly if the members on it are the first of their names |
| JsonPointer.MatchIs | utility/cjson/cJSON_Utils.c:46-79 | a name matches an encoded token exactly if it is the same up to case |
| JsonPointer.EncodeIs | utility/cjson/cJSON_Utils.c:95-116 | a token is its name with ~0 for each tilde and ~1 for each slash, section 4 of RFC 6901 |
| JsonPointer.PointerIs | utility/cjson/cJSON_Utils.c:118-164 | the pointer of a child is that of its parent, a slash, and the token of its name or its number in decimal digits |
| JsonPointer.DecodeEncode | utility/cjson/cJSON_Utils.c:95-116 | decoding a token inverts encoding it |
| JsonPointer.DecodeInPlace | utility/cjson/cJSON_Utils.c:210-228 | decoding in place, character by character, wherever the reading pointer ends; what lies behind the result is untouched |
| JsonPointer.EncodedIsComplete | utility/cjson/cJSON_Utils.c:95-116 | an encoded token ends in an even number of tildes, so the decoder stops at its end |
| JsonPointer.DecoderStops | utility/cjson/cJSON_Utils.c:210-228 | the decoder stops at the zero of its token exactly if the token ends in an even number of tildes |
| JsonPointer.LoneTilde | utility/cjson/cJSON_Utils.c:217-227 | the token of one tilde: the decoder leaves the memory, or takes what lies behind the zero for more of the token |
| JsonPointer.Pstrcasecmp | utility/cjson/cJSON_Utils.c:46-79 | the comparing loop decides the match |
| JsonPointer.DecimalIs | utility/cjson/cJSON_Utils.c:139-146 | a child number is written in decimal digits, the most significant first and none of them idle |
| JsonPointer.DecimalReadsBack | utility/cjson/cJSON_Utils.c:139-186 | an array index reads back from its decimal digits |
| JsonPointer.CaseConfuses | utility/cjson/cJSON_Utils.c:188-200 | names that differ only in case are taken for each other |
| JsonMerge.MergeIsRfc | utility/cjson/cJSON_Utils.c:753-784 | where names in an object are distinct up to case, MergePatch computes the function of section 2 of RFC 7396 exactly if no name in the patch differs only in case from one in the object it is merged into |
| JsonMerge.RfcFields | utility/cjson/cJSON_Utils.c:753-784 | what that function does to each field: gone for null, merged for another value, kept if the patch does not name it |
| JsonMerge.CaseConfusesMerge | utility/cjson/cJSON_Utils.c:770-781 | a patch that replaces a member of another name |
| JsonMerge.MergePatchInto | utility/cjson/cJSON_Utils.c:753-784 | the loop over the patch computes the specified tree |
| JsonMerge.DetachIs | utility/cjson/cJSON.c:1659-1664 | detaching by name removes that name from the map |
| JsonMerge.AppendIs | utility/cjson/cJSON.c:1572-1602 | adding a new name adds it to the map |
| JsonCompare.CompareIs | utility/cjson/cJSON.c:2166-2261 | two trees compare equal exactly if they mean the same, with objects as maps, and neither has members of one name that differ |
| JsonCompare.ReparsedCompares | utility/cjson/cJSON.c:858-2261 | a tree printed and parsed compares equal to the tree it came from exactly if its members of one name do not differ |
| JsonCompare.CompareNodes | utility/cjson/cJSON.c:2166-2261 | the loops over elements and over the members of both objects decide that |
| JsonCompare.GetObjectItem | utility/cjson/cJSON.c:1486-1511 | the loop finds the first member of that name |
| JsonParser.TailBits | utility/cjson/cJSON.c:568-573 | the masks take six bits of a code point into a byte |
| JsonParser.PairBits | utility/cjson/cJSON.c:538-540 | shift and disjunction put ten bits of each half of a surrogate pair together |

## Left out

Kernel:
- KernelRun.InitialInv: the state after start-up is described, not reached by creating tasks and objects.
- KernelImpl.Kernel.KrhinoMutexLock: ends where the caller blocks; what it returns after the wakeup
  (`pend_state_end_proc`) is not modelled.
- KernelImpl.Kernel.KrhinoTaskSleep: likewise ends where the caller goes to sleep.
- KernelRun.RunInv: runs in which a deleted task is deleted again while its stale list leads to an owned
  mutex are not covered; there the invariant fails (`KernelDeletion.DeleteAgain`).
- KernelTicks.RunTickSorted: covers timeouts below half the tick range, as the signed comparison in the
  C code does; those above half end at the first tick (`KernelTicks.SleepOverAtFirstTick`).
- KernelTasks.MutexUnlockInv: exact values of `owner_nested` after a task deletion are not claimed, since
  deletion hands a mutex over without resetting the count.
- Wait lists, ready lists and the lists of held mutexes are sequences; their pointers (`klist_*`) are not
  modelled. Of the `mutex_list` links, those of mutexes that have left a list are kept, since a deleted
  task may still lead to them. The ready bitmap is a set of bits.
- Creating tasks and objects during a run, dynamically allocated objects, cancellation flags, object
  names, hooks, tracing and stack checks. `k_err_proc` is the end of a run.
- Time-slice counters: a time slice that ends is a step of its own. The idle task never blocks
  and never takes a mutex.
- Wait queues of semaphores and queues are those of any blocking object; `k_sem.c`, `k_queue.c`,
  `k_timer.c`, `k_workqueue.c`, `k_time.c` and `k_stats.c` would add easier members or depend on code
  that is not part of this model.
- The kernel state machine has one CPU; the picker for several CPUs and the spin lock stand on their own.
  Signals to other CPUs are left out.
- EventImpl.Event.Get: ends where the caller blocks.
- EventImpl.Event.Set: a flag word is the set of its bits, and where a waiter stands in the list is given
  from outside.

Memory:
- Heap statistics, the debug fields `dye` and `owner`, and `krhino_deinit_mm_head`. The mutex around each
  heap operation is taken for granted, so an operation is atomic.
- HeapImpl.Allocator.AddMmRegion: the memory of a new region counts as overwritten rather than as zeroed.
- HeapImpl.InitMmHead: the sizes of `k_mm_head` and `mblk_pool_t`, which depend on the configuration, are
  parameters.
- MblkImpl.Pool.Init: nothing is said where its loop would not end with a chain (`MblkPool.LoopEnds`), nor
  for a pool that reaches the last address.
- BufQueueImpl.BufQueue.Recv: ends where the caller blocks.
- BufQueueImpl.BufQueue.Send: the memory behind a message is a parameter, and is taken to be readable.
- RingImpl.Ring.Push: with fixed-size records the capacity is a multiple of the record size, which is how
  the kernel creates such queues; the lengths that wrap a 32-bit sum are excluded.
- Deleting a message queue, and its creation with the dynamic variants.

JSON:
- JsonRoundTrip.PrintThenParse: numbers are kept as their text; how a double is formatted and read is not
  modelled, only which characters strtod takes.
- JsonLanguage.ParseIsExact: texts with a `\u` that is not followed by hexadecimal digits are outside its
  condition; every text of the grammar is accepted all the same (`JsonLanguage.ParseAccepts`).
- JsonFollow.GetIsExact: array indices do not wrap, as an int would.
- Raw items, reference items, constant-string flags, hooks, failing allocations, error positions, the
  zero-copy variant and `cJSON_Minify`.
- JsonCompare.Compare: two different nodes; a node compared with itself is equal by an identity test.
- JsonMerge.MergePatchInto: works on values, so in-place sharing of nodes between target and result is
  not captured; the list of children in place is `JsonLists`.
- JsonPointer.DecodeInPlace: nothing is said where the reading pointer leaves the memory.
- JsonPointer.Find: a node is named by its path, which in a tree is the same as its address.
- JsonPointer.GetInvertsFind and JsonMerge.MergeIsRfc: names without zero bytes, which no C string has.
- `cJSON_Duplicate`, JSON Patch and the generation of merge patches, and sorting.
