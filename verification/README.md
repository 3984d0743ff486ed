# Verified models of the scheduler's lock-free core

This project models, in Dafny, the concurrent protocols at the centre of the JLib scheduler and
proves what they promise over every run: the Event waiter table with the fiber suspend/resume
handshake, the intrusive multi-producer task queue, epoch-based reclamation, hazard pointers,
cancellation scopes with their slot free list, the cleanup chain of a dead fiber, and the ownership
of fibers and stacks.

A concurrent protocol is a transition system: a `State`, a `Step` per access to shared memory,
`Enabled` and `Apply`, and a `Run` of any length over any number of threads, workers, fibers, nodes
and holders. Interleavings are sequentially consistent. Fields described as history record what has
happened so that a property can be stated; no guard and no other effect reads them. An invariant is
proved to survive every step, and the theorems follow from it. Code that one thread runs on its own
data, the compaction loops, the walks up the scope chain, the per-worker cache, the batched return,
the arena and the index lookups, is imperative Dafny proved against specification functions.

## Modules

- `EventWake`, `EventWakeSafety`, `EventWakeScan`, `EventWakeTheorems`, `EventWakeBoundary`: `include/Event.h`,
  `include/DirectEvent.h`, the status word of `include/Fiber.h`, and the worker's half of the handshake
  in `src/Thread.cpp`. Fibers register, yield, die and are recycled; callers run SignalAll, SignalOne,
  CancelWaiters and DirectEvent::Signal, stopped anywhere.
- `MpscQueue`, `MpscQueueSafety`, `MpscQueueTheorems`, `MpscQueuePop`: `include/TaskMPSCQueue.h` at the
  level of `next` pointers, `head_` and `tail_`.
- `EpochReclaim`, `EpochReclaimSafety`, `EpochReclaimTheorems`, `EpochReclaimMinimum`,
  `EpochReclaimProgress`, `EpochBag`: `include/Epochs.h`.
- `HazardReclaim`, `HazardReclaimSafety`, `HazardReclaimTheorems`: `include/Hazard.h` and
  `src/Hazard.cpp`.
- `CancelScopes` (words, handles, the two walks), `CancelHistory` and `CancelTheorems` (the life of
  scopes and of cancels through tokens), `CancelFreeList` (the tagged stack of free slots):
  `include/CancelToken.h` and `src/CancelToken.cpp`.
- `CleanupChain`, `CleanupChainSafety`, `CleanupChainTheorems`: `include/FiberRegistry.h`,
  `src/FiberRegistry.cpp` and the creditor mask of `include/Fiber.h`.
- `FiberCache`: `include/ThreadLocalCache.h` and the batched return of `src/GlobalFiberPool.cpp`.
- `StackArena`, `FiberPool`: `include/FiberStackArena.h`, `include/GlobalFiberPool.h` and
  `src/GlobalFiberPool.cpp`. `Options` is the shared optional value.

## Where the code does not do what its comments say

Each of these is a property that fails as the comments state it. The code is modelled as it is; a run
or an input shows the failure, and the condition under which the property holds is proved.

- `src/Hazard.cpp:361-379` says an orphan is freed under exactly the conditions its own thread would
  have required. The sweep uses the set of named pointers collected before the orphan store is read, so
  an entry retired after that walk began is judged by a walk that predates its retirement.
  `HeldIsNotFreed` proves safety for every run whose sweeps free only orphans retired before their
  scan's walk; `OnlyLateOrphansHarm` proves that the first step to free a held node is a sweep that
  breaks this; `LateOrphanFreesHeld` continues every reachable state with a finished walk into one;
  `HeldCanBeFreed` is such a run from the start. A caller who lets no thread hand entries over during a
  scan is on the safe side (`CalmIsTimely`).
- `include/CancelToken.h:130-133` says a cycle of scopes is unconstructible and a link to a destroyed
  scope stops resolving. It does unless the slot has been reused until its 16-bit generation came round:
  a token resolves exactly while its scope is up or it is aliased in this way (`ResolvesExactly`), a walk
  is the chain of enclosing scopes exactly while no handle on its way is aliased (`WalkIsEnclosing`),
  and only then can it cycle (`NoCycle`). Fewer than 65,536 reuses never alias (`YoungIsNotAliased`,
  `YoungPath`); `CycleAfterWrap` builds a cycle with exactly that many.
- `src/GlobalFiberPool.cpp:33-38` reserves `n` unrounded regions and then allocates rounded ones, so a
  nonempty class can be built exactly when the page size divides its usable bytes (`BuildClass`). With
  16 KiB pages neither the Standard nor the Deep class can (`SixteenKibPages`), though
  `include/GlobalFiberPool.h:87-91` budgets the Standard class for such pages.
- `include/Epochs.h:271-274` justifies one scan per pass by the minimum only rising. A minimum of m or
  more stays so, whatever happens, exactly if no reader has loaded an epoch before m and not yet stored
  it (`MinimumStaysExactly`); `MinimumCanFall` reaches a finished scan and then such a store. The
  conclusion drawn from it holds all the same, because an old minimum stays valid
  (`OldMinimumStaysValid`).
- `include/FiberStackArena.h:59` says the bounds check survives a wrapped offset. A request too large to
  be met still advances the offset; in every arena, for every size it can give, a request of 2^64 less
  that size makes the next one receive the first region again (`OverlapAfterWrap`). Below a total of
  2^64 this cannot happen (`StacksAreApart`).
- `include/Event.h:323-325` says SignalOne re-reads a word, so that bits set after the load are
  candidates. The code loads each word once. A waiter registered before its word is loaded is taken or
  claimed by the time the call has found nobody (`RegisteredBeforeIsTaken`); one who registers after it
  can be left in the table with its bit set while the answer is false (`LateWaiterIsMissed`, and
  `SignalOneCanMiss` from the start).

## Model

| member | source | states |
|---|---|---|
| EventWakeTheorems.InvRun | include/Event.h:124-349 | every run of fibers, workers and callers, from any state satisfying the invariant, stays in it |
| EventWakeTheorems.WakeExactlyOnce | include/Event.h:124-142 | each wait is stored, taken and re-queued at most once; once a signaller or canceller has taken it, its one re-queue has happened or exactly one actor, that caller or the parking worker, is bound to it |
| EventWakeTheorems.SelfRemoveArbitrates | include/Event.h:181-209 | if SelfRemove returns true, in every later state nobody has resumed or will resume the wait; if false, exactly one resume has been or is bound to be delivered |
| EventWakeTheorems.OneFiberOnePlace | include/Fiber.h:41-49 | no fiber is on two workers, queued twice, queued while on a worker, or queued before its context is saved |
| EventWakeTheorems.ResumeFindsWaiter | include/Fiber.h:435-454 | a caller holding a taken waiter finds a live task whose fiber is still in that wait and resumable, so no wake is dropped and no recycled task is written |
| EventWakeTheorems.NoLostWaiter | include/Event.h:170-209 | a task in a slot has its bit set, or its own AddWaiter or SelfRemove is between its two accesses, or a remover has claimed the index and still owes the exchange |
| EventWakeBoundary.RegisteredBeforeIsTaken | include/Event.h:241-349 | a waiter registered before SignalAll, CancelWaiters or an unsuccessful SignalOne loads its word has, when that call returns, been taken or is claimed by another remover bound to take it |
| EventWakeBoundary.LateWaiterIsMissed | include/Event.h:323-349 | from every state in which SignalOne is at a word boundary with no bit set further on and a fiber is running whose word it has passed, that fiber can register and SignalOne answer false with the waiter in its slot and its bit set |
| EventWakeBoundary.SignalOneCanMiss | include/Event.h:326-349 | such a run from the initial state, after which nobody is bound to take the waiter |
| EventWakeTheorems.SignalOneTakesOne | include/Event.h:325-349 | SignalOne takes at most one waiter and returns true exactly if it took one |
| EventWakeTheorems.LaterRun | include/Event.h:170-209 | what is recorded of a wait never goes back over any run |
| EventWakeSafety.FreeCell | include/DirectEvent.h:37-42 | a DirectEvent that is checked out again holds no live waiter, so clearing its cell loses none |
| MpscQueueTheorems.InvRun | include/TaskMPSCQueue.h:23-102 | over every run the nodes from tail_ to head_ are one chain without repetition, each missing link owed by exactly one thread |
| MpscQueueTheorems.RefinesFifo | include/TaskMPSCQueue.h:23-102 | every step is a step of a FIFO of tasks ordered by the exchanges on head_: whole batches in at the back, one task out at the front, all else invisible |
| MpscQueueTheorems.BatchesStayWhole | include/TaskMPSCQueue.h:66-70 | over whole runs what pop returned is an initial part of what was committed, and a batch lies in it contiguous and in order |
| MpscQueueTheorems.PoppedIsFree | include/TaskMPSCQueue.h:72-102 | when pop returns a task, nobody owes a store to its next, and neither head_ nor tail_ points at it |
| MpscQueueTheorems.NoNodeTwice | include/TaskMPSCQueue.h:94-101 | no node, the stub included, is in the chain twice |
| MpscQueueTheorems.QuiescentExact | include/TaskMPSCQueue.h:134-139 | the answer from quiescent's read of head_ is true exactly when every committed task has been popped, with producers anywhere |
| MpscQueueTheorems.EmptyExact | include/TaskMPSCQueue.h:109-127 | when empty answers true, tasks are pending exactly when a producer has exchanged and still owes the stub its link |
| MpscQueueTheorems.EmptyCanBeWrong | include/TaskMPSCQueue.h:109-121 | a reachable state in which empty answers true and a task is committed |
| MpscQueuePop.StubFails | include/TaskMPSCQueue.h:73-77 | pop fails at the stub exactly if nothing is pending or a producer owes the stub its link, never both |
| MpscQueuePop.HeadFails | include/TaskMPSCQueue.h:90-92 | pop fails at its read of head_ exactly if, at some moment since it loaded the null successor, a producer owed that link |
| MpscQueuePop.RecheckFails | include/TaskMPSCQueue.h:94-101 | pop fails after re-inserting the stub exactly if a producer owes the task its link |
| MpscQueuePop.PopAlone | include/TaskMPSCQueue.h:72-102 | with producers stopped anywhere, pop fails exactly if nothing is pending or a producer owes a link it met, and otherwise returns the oldest task |
| MpscQueuePop.ClearDrains | include/TaskMPSCQueue.h:104-107 | with producers stopped anywhere, clear pops every committed task exactly if no push is half done, and otherwise an initial part of them |
| EpochReclaimTheorems.InvRun | include/Epochs.h:65-107 | every run of guards, retires, ticks, scans, drains, sweeps and thread exits stays in the invariant |
| EpochReclaimTheorems.NoDeleteUnderGuard | include/Epochs.h:275-309 | a deleted node was unlinked before every guard open now announced, so no open guard has read it, for half-finished scans and swept orphans alike |
| EpochReclaimTheorems.OldMinimumStaysValid | include/Epochs.h:347-369 | a safe epoch computed at any earlier time is at most the unlinking epoch of every node an open guard can still read |
| EpochReclaimMinimum.MinimumStaysExactly | include/Epochs.h:271-274 | from every reachable state, a minimum over the participants of m or more stays so in every run exactly if no reader has loaded an epoch before m and not yet stored it |
| EpochReclaimMinimum.MinimumCanFall | include/Epochs.h:347-369 | a run to a finished scan with minimum 1, and the store of epoch 0 that follows it |
| EpochReclaimTheorems.RetireAccounting | include/Epochs.h:371-390 | every retired node is listed once, in one bag or in the orphan store, or is deleted; retiredCount is off only by the additions and subtractions still to be made |
| EpochReclaimTheorems.CountersExact | include/Epochs.h:79-107 | with the store unlocked the orphan count is its length; between whole operations retiredCount is the number of nodes waiting |
| EpochReclaimProgress.TickDeletesWhatItFound | include/Epochs.h:219-309 | a Tick during which no guard of its first epoch or an earlier one is open deletes every node whose entry was in the caller's bag, or in a store whose count was not zero, when it began, whatever is retired, reclaimed and handed over meanwhile and whoever won the race to advance the epoch |
| EpochReclaimProgress.QuietTickReclaims | include/Epochs.h:219-230 | if nothing is handed over either, bag and store are empty afterwards |
| EpochBag.Batch.Compact | include/Epochs.h:284-295 | the loop in place keeps exactly the entries not older than the safe epoch, in order, and deletes exactly the others, in order |
| EpochBag.KeptAndDropped | include/Epochs.h:96-107 | the kept and the deleted entries together are the entries there were |
| EpochBag.DrainIsCompaction | include/Epochs.h:284-295 | the iterations over the bag in the concurrent model leave and free what the loop in place does |
| EpochBag.SweepIsCompaction | include/Epochs.h:96-107 | so do the iterations over the orphan store |
| HazardReclaimTheorems.InvRun | src/Hazard.cpp:303-380 | every run whose sweeps free only orphans retired before their scan's walk stays in the invariant |
| HazardReclaimTheorems.HeldIsNotFreed | include/Hazard.h:377-405 | in every such run what Protect returned is named by the guard's cell and not freed until that cell is cleared or overwritten, through any parks and worker changes |
| HazardReclaimTheorems.OnlyLateOrphansHarm | src/Hazard.cpp:361-379 | the first step that frees a held node is the sweep of an orphan retired after that scan's walk began |
| HazardReclaimTheorems.CalmIsTimely | src/Hazard.cpp:66-78 | a run in which nothing is handed to the store while a scan is under way is one of those |
| HazardReclaimTheorems.RetiredIsInOnePlace | src/Hazard.cpp:303-380 | in every run, whatever the cells are indexed by, a retired node is in one batch, one exiting thread's hand, the orphan store or freed, and in only one of these |
| HazardReclaimTheorems.LateOrphanFreesHeld | src/Hazard.cpp:361-379 | from every reachable state with a finished walk, a reader in an open guard and a thread that can still retire and exit, a run leads to the sweep of an orphan retired after the walk, which frees a held node |
| HazardReclaimTheorems.HeldCanBeFreed | src/Hazard.cpp:361-379 | such a run from the initial state |
| HazardReclaimTheorems.WorkerCellsFail | include/Hazard.h:85-99 | with cells indexed by worker, a run without any orphan frees a node a parked reader holds |
| CancelScopes.Cancelled | include/CancelToken.h:168-188 | the walk answers whether some scope among the first eight that still resolve on the chain has its flag set |
| CancelScopes.IsWithin | include/CancelToken.h:205-222 | the walk answers whether the ancestor is among the first eight handles of the chain; for a live ancestor, whether it is on the resolved chain |
| CancelScopes.CancelReachesNested | include/CancelToken.h:168-222 | after cancelling a live scope a token reads cancelled exactly if it did before or lies within that scope |
| CancelHistory.InvRun | src/CancelToken.cpp:99-205 | over every history slots have one tenant, a flag is up exactly in the tenancies that were struck, and links name earlier scopes |
| CancelTheorems.ResolvesExactly | src/CancelToken.cpp:71-94 | a token resolves exactly while its scope is up or the slot's generation has come round to the token's |
| CancelTheorems.YoungIsNotAliased | include/CancelToken.h:137-144 | with fewer than 65,536 reuses of the slot it has not |
| CancelTheorems.StaleTokenIsDead | include/CancelToken.h:155-158 | the token of a destroyed scope resolves exactly if aliased; otherwise it does not read cancelled, and a cancel through it changes nothing wherever it has got to |
| CancelTheorems.CancelLandsOnItsScope | src/CancelToken.cpp:186-205 | a cancel that changes the table strikes the tenancy of its own scope, still up, exactly if its token is not aliased, and a later tenancy of that slot otherwise |
| CancelTheorems.OnlyCancelsStrike | src/CancelToken.cpp:163-205 | no step but a cancel that takes effect strikes anything |
| CancelTheorems.WalkIsEnclosing | include/CancelToken.h:168-188 | the handles a walk of any depth resolves are those of the scopes that enclose and are up, in order, exactly if no handle on its way is aliased |
| CancelTheorems.YoungPath | include/CancelToken.h:126-134 | with fewer than 65,536 reuses of the slots stored parents name, none is |
| CancelTheorems.CancelledIsStruckAround | include/CancelToken.h:155-188 | unless a handle on the way is aliased, a scope reads cancelled exactly when it or one of the next seven around it was struck |
| CancelTheorems.NoCycle | include/CancelToken.h:126-134 | a walk meets a handle twice only if one on its way is aliased |
| CancelTheorems.NoTokenIsNone | include/CancelToken.h:103-108 | no issued token equals the absent token |
| CancelTheorems.CycleAfterWrap | include/CancelToken.h:130-133 | a history of 65,536 reuses after which two live scopes are each other's parent |
| CancelFreeList.PopTakesTheFirst | src/CancelToken.cpp:44-56 | a pop that swaps takes the first slot of the list, held by no scope and being returned by nobody, whatever happened between its accesses |
| CancelFreeList.PushPutsFirst | src/CancelToken.cpp:58-69 | a push that swaps puts its slot first and the links still spell the list |
| CancelFreeList.NoSlotLost | src/CancelToken.cpp:44-69 | over every run each slot stays in the list, with a scope, or with a thread returning it |
| CleanupChainTheorems.InvRun | src/FiberRegistry.cpp:104-183 | every run of any number of drainers stays in the invariant |
| CleanupChainTheorems.ReleasedOnceByItsHolder | src/FiberRegistry.cpp:142-183 | a release runs from the chain of a holder that is owed one, for the first time |
| CleanupChainTheorems.RecycledWhenPaid | src/FiberRegistry.cpp:253-269 | a fiber is recycled only when all it owed has been released, the claim succeeds, and the fiber is then in no list |
| CleanupChainTheorems.DeadIsInOnePlace | include/FiberRegistry.h:25-44 | a dead fiber is on one chain once, in one list being drained, or in one thread's hand; any other fiber in none |
| CleanupChainTheorems.OutstandingFalls | include/Fiber.h:115-138 | while a fiber is dead what is outstanding never grows, each release takes one off, and it is recycled at zero |
| FiberCache.ThreadLocalCache.constructor | include/ThreadLocalCache.h:27-33 | the capacity fits the array exactly when the array holds at least two |
| FiberCache.ThreadLocalCache.Push | include/ThreadLocalCache.h:35-46 | the fiber goes on top; when full the upper half, and only that, is spilled |
| FiberCache.ThreadLocalCache.Pop | include/ThreadLocalCache.h:48-57 | the top fiber, after a refill when empty; none exactly when the refill brings none |
| FiberCache.ReturnBatch | src/GlobalFiberPool.cpp:113-138 | grouped bulk enqueues of 64 give each queue the fibers of its class, in order, and no group outgrows its buffer |
| FiberCache.FibersConserved | include/ThreadLocalCache.h:35-57 | every run of Push and Pop on all caches keeps every fiber in one place |
| FiberCache.EveryFiberInOnePlace | include/GlobalFiberPool.h:111-116 | from the start, each fiber is in one cache of its class, the free queue of its class, or in use, and no cache outgrows its capacity |
| StackArena.RoundUpIsLeast | include/FiberStackArena.h:50 | without overflow the rounded size is the least page multiple not below the request |
| StackArena.StacksAreApart | include/FiberStackArena.h:44-77 | while requests total less than 2^64, regions are page-aligned, inside the reservation and disjoint, and no guard page is committed by anyone |
| StackArena.OverlapAfterWrap | include/FiberStackArena.h:53-60 | for every page size dividing 2^64, every reservation and every size it can give, a run in which the first region is handed out twice |
| FiberPool.RegionKeepsPromise | include/GlobalFiberPool.h:96-107 | a region less its guard page has at least the usable bytes promised, and exactly those when the page size divides them |
| StackArena.FiberStackArena.AllocateStack | include/FiberStackArena.h:44-77 | the region begins at the old offset if it fits the reservation, otherwise none; the offset moves either way, as in the steps of the concurrent arena |
| FiberPool.BuildClass | src/GlobalFiberPool.cpp:32-50 | construction succeeds exactly for an empty class or a page size dividing the usable bytes, and then spaces the stacks evenly |
| FiberPool.SixteenKibPages | include/GlobalFiberPool.h:92-101 | which classes meet that condition with 16 KiB and with 4 KiB pages |
| FiberPool.NumberFibers | src/GlobalFiberPool.cpp:19-50 | pool indices run dense through the classes in order |
| FiberPool.At | include/GlobalFiberPool.h:183-192 | the inverse of that numbering, and none exactly beyond the last index |
| FiberPool.FiberForStack | src/GlobalFiberPool.cpp:187-205 | the one fiber whose region holds the address, guard page included, and none for any other address |

## Left out

- Memory orderings, fences and cache-line layout: interleavings are sequentially consistent.
- EventWakeTheorems.WakeExactlyOnce: a fiber that waits has reserved the table first, so AddWaiter's early return is not a step; mutexes, wait groups and other users of the handshake are not modelled; the 64-entry wake buffers are multisets and one re-queue is one step.
- HazardReclaimTheorems.HeldIsNotFreed: assumes that a node is in no source location when it is retired, which a frozen next pointer in an unlinked node breaks, and one guard per reader at a time, which the source enforces for worker rows and not for fibers.
- HazardGuard::Swap and raw Set: moving a pointer between cells during a scan needs a separate argument.
- Epochs: the epoch given to RetirePtr is read after the unlink, guards on one slot do not nest, deleters do not retire, and the 64-bit counters do not wrap.
- EpochReclaimProgress.TickDeletesWhatItFound: entries that another thread has moved into the store without yet storing a count above zero are not claimed, since the gate does not see them.
- CancelHistory: the free list is a set any member of which may be taken; CancelFreeList proves the list itself, with a tag that does not wrap. Exhaustion, which makes no scope, is not a step.
- CleanupChain: holders from 384 on are not billed, as in the source; failed deliveries, the teardown drain, fibers that owe no cleanup and the list of affine debts behind a release are not modelled.
- FiberCache: the global queue hands over any distinct free fibers of the class; its own code is not part of this model.
- StackArena.RoundUpIsLeast: masking with the complement of pageSize - 1 is written as subtracting the remainder; a commit may fail in the concurrent arena and succeeds in the one-threaded class.
- Worker loop and placement, deques, TaskDAG, timers, I/O, fiber context switching and stack frames: not modelled.
