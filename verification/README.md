# Verified models of the FOS kernel's resource managers

FOS is a teaching operating system kernel. This project models its resource managers in Dafny, for the configuration
with the kernel heap on (`USE_KHEAP == 1`) and one CPU (`NCPUS == 1`), and proves what they keep over whole runs.

| file | component |
|---|---|
| `OptimalPaging.dfy` | the OPTIMAL fault counter and Belady's theorem |
| `ClockRing.dfy`, `LruAging.dfy`, `DemandPaging.dfy` | page replacement (CLOCK, modified CLOCK, aging LRU) and demand paging as a write-back cache |
| `CustomFit.dfy`, `KernelHeap.dfy` | the kernel page allocator |
| `Scheduling.dfy`, `BoundedWaiting.dfy`, `EventOutcomes.dfy`, `ProcessQueues.dfy` | the priority round-robin scheduler with starvation promotion |
| `Synchronization.dfy`, `SynchronizationCalls.dfy` | spin locks, channels, kernel semaphores, sleep locks, yield and sched as a machine of small steps, and what its calls have done when they return |
| `Frames.dfy`, `SharedMemory.dfy` | frame reference counts, page-table entries and shared objects |
| `PageFile.dfy` | disk frames and the per-env disk page tables |
| `IntrusiveList.dfy` | the linked lists of `inc/queue.h` |
| `Airline.dfy`, `AirlineProgress.dfy`, `AirlineRefusals.dfy`, `AirlineTermination.dfy` | the clerk/customer reservation protocol: safety, no standstill, the agency's own asserts, who is refused, and a bound on the steps of every run |
| `Common.dfy` | optional values, sequences without repetitions, queues, pages and rounding to them, and the user's address ranges |

How the models are built. Objects the kernel updates in place are classes (or methods with loops), proved against
functions on values; what the kernel promises is proved about those functions and about runs of them. The hardware and
the outside world are parameters or free choices: used and modified bits, page contents, interrupts, which ready process
a step belongs to, the random flight. `panic` ends a run.

Where the code does not do what its comments promise, the code is modelled, the exact condition is proved, and a failing
case is given:

* Reference counts are 16 bits wide (`inc/memlayout.h:217`), so a frame can be mapped one time too many; and mapping a
  frame that is on the free list leaves it there. Condition: `Frames.MapKeepsInvIff`; case: `Frames.CountRunsOver`.
* A shared object does not hold a reference to its frames, so getting it after its sharers have unmapped it maps free
  frames; the same happens when a get overwrites the last entry of a frame it maps later. Condition:
  `SharedMemory.GetKeepsInvIff`; case: `SharedMemory.StaleObject`.
* With the largest threshold the 32-bit tick counter wraps and promotion never comes. Condition:
  `BoundedWaiting.BoundedIffBelowMax`; case: `BoundedWaiting.StarvesForever`.
* Pages may be stored up to `KERNEL_BASE`, but only those below `USER_TOP` are returned. Condition:
  `PageFile.FreeEnvReturnsAllIff`; case: `PageFile.FrameIsLost`.
* LRU dereferences a null victim when every stamp is `UINT_MAX`. Condition: `DemandPaging.NoVictimMeansAlwaysUsed`; case:
  `DemandPaging.LruCrash`.
* kmalloc checks the room above the break before it looks for holes, so a request that only a hole could serve is
  refused. Condition: `KernelHeap.PageHeap.KMalloc`; case: `KernelHeap.HoleIsRefused`, for every size of the heap.
* The agency asserts the counts of its semaphores after a sleep. All but two of the asserts hold in every run
  (`AirlineProgress.FinalCounts`). Those of `clerk` and `cust_ready` (`user/tst_air.c:258-260`) fail when a clerk has told
  the last customer and is not yet back waiting. Condition: `AirlineProgress.FinalAssertsHoldIff`; case, for any numbers of
  clerks and customers: `AirlineTermination.AssertsCanFail`.

## Model

| member | source | states |
|---|---|---|
| `OptimalPaging.GetOptimalNumFaults` | kern/trap/fault_handler.c:259-336 | the returned count is that of furthest-in-future replacement and, for distinct initial pages that fit and at most 10^9 references, the minimum over all demand-paging runs from the same start |
| `OptimalPaging.FifIsOptimal` | kern/trap/fault_handler.c:288-333 | Belady: no demand-paging run, whatever it evicts and whenever, has fewer faults than the simulator |
| `OptimalPaging.FifIsAchieved` | kern/trap/fault_handler.c:288-333 | some demand-paging run has exactly the simulator's number of faults |
| `OptimalPaging.FifIsFewest` | kern/trap/fault_handler.c:259-336 | both halves together: the simulator's count is attained and is a lower bound |
| `OptimalPaging.Exchange` | kern/trap/fault_handler.c:298-327 | the exchange step: of two caches that differ in one page, the one holding the page needed sooner can be continued with no more faults |
| `OptimalPaging.Slack` | kern/trap/fault_handler.c:288-333 | a cache lacking at most k pages of another can follow it with at most k extra faults |
| `OptimalPaging.EvictLatest` | kern/trap/fault_handler.c:298-327 | from a full cache, evicting the page needed last is as good as any eviction a run made |
| `OptimalPaging.FifStepIsSafe` | kern/trap/fault_handler.c:288-333 | after one simulated reference the cache is at least as good as any cache a run may have chosen |
| `OptimalPaging.FurthestIsLatest` | kern/trap/fault_handler.c:299-326 | the slot the scan picks holds a page needed no sooner than any other; the 10^9 sentinel stands for never |
| `OptimalPaging.FutureDistance` | kern/trap/fault_handler.c:303-319 | the inner scan returns the number of references before the next use, or the sentinel |
| `OptimalPaging.FindVictim` | kern/trap/fault_handler.c:299-325 | the scan over slots returns the first slot of greatest distance |
| `OptimalPaging.Reference` | kern/trap/fault_handler.c:289-332 | one turn of the main loop leaves the overwritten array and the fault flag of the specified step |
| `OptimalPaging.CopyInitial` | kern/trap/fault_handler.c:267-276 | the copied working set is the initial list cut off at the capacity |
| `OptimalPaging.Holds` | kern/trap/fault_handler.c:289-296 | the membership scan is exact |
| `ClockRing.ClockRefinesBuffer` | kern/trap/fault_handler.c:482-533 | the list code's victim, resulting order and cleared used bits equal the circular-buffer clock's: slot replaced in place, hand advanced by one, skipped bits cleared |
| `ClockRing.RotateKeepsRing` | kern/trap/fault_handler.c:508-524 | moving list heads to the tail leaves the ring of pages unchanged |
| `ClockRing.FromIsWalk` | kern/trap/fault_handler.c:493-496 | following the hand (next element, or first after the last) visits the ring in order, each page once |
| `DemandPaging.ClockSearch` | kern/trap/fault_handler.c:487-499 | the hand stops at the first unused page in ring order after at most n + 1 inspections, having cleared exactly the used bits it passed |
| `DemandPaging.FindUnusedClean` | kern/trap/fault_handler.c:600-620 | first try of modified CLOCK: the first page that is unused and clean, without touching a bit |
| `DemandPaging.FindUnusedClearing` | kern/trap/fault_handler.c:625-649 | second try: the first unused page, clearing the used bits passed, or a full turn with all bits cleared |
| `DemandPaging.TwoRounds` | kern/trap/fault_handler.c:598-651 | a round that finds nothing clears all used bits, and the next round must then find a victim |
| `DemandPaging.ModifiedClockSearch` | kern/trap/fault_handler.c:598-651 | at most two rounds; the victim and the cleared bits have the closed form: first (unused, clean), else first unused, else first clean, else the page at the hand |
| `DemandPaging.RotateAndRemove` | kern/trap/fault_handler.c:508-524 | rotating the list to the victim and removing it leaves the ring from the page after the victim |
| `DemandPaging.SearchAndRotate` | kern/trap/fault_handler.c:486-525 | search and list surgery together, for CLOCK and modified CLOCK |
| `DemandPaging.ClockFaultIsBufferStep` | kern/trap/fault_handler.c:443-684 | a whole fault on a full set under CLOCK or modified CLOCK, eviction and recursive placement included, replaces the victim's slot of a circular buffer in place and moves the hand one past it; under CLOCK slot and used bits are those of the buffer clock's sweep, and the new page's used bit is whatever the copying from disk left |
| `DemandPaging.LruSearch` | kern/trap/fault_handler.c:545-552 | the scan returns the first page of least stamp below UINT_MAX, or none |
| `DemandPaging.NoVictimMeansAlwaysUsed` | kern/trap/fault_handler.c:545-554 | the LRU scan finds no victim (and a null pointer follows) exactly when every resident page was used at each of the last 32 ticks |
| `DemandPaging.LruCrash` | kern/trap/fault_handler.c:545-554 | such a process, for any size of its working set: it reads each of the pages that fit before each of 32 ticks, then touches another page |
| `DemandPaging.LeastStampIsLeastHistory` | kern/trap/fault_handler.c:545-552 | the page of least stamp has the least history of all, and every page before it in the list has a more recent one |
| `DemandPaging.EvictKeepsCoherence` | kern/trap/fault_handler.c:501-507 | writing a dirty victim to the page file before unmapping it keeps every logical page where a fault will find it |
| `DemandPaging.PlaceKeepsCoherence` | kern/trap/fault_handler.c:447-463 | filling a fresh frame from the page file makes the resident copy equal to the logical page |
| `DemandPaging.ClockEvictKeepsInvariant` | kern/trap/fault_handler.c:486-525 | CLOCK and modified CLOCK eviction keep the write-back invariant |
| `DemandPaging.LruReplaceKeepsInvariant` | kern/trap/fault_handler.c:540-583 | LRU replacement keeps the write-back invariant |
| `DemandPaging.PlaceKeepsInvariant` | kern/trap/fault_handler.c:443-475 | placement keeps the write-back invariant |
| `DemandPaging.AccessKeepsInvariant` | kern/trap/fault_handler.c:440-475 | a user access keeps the invariant and reads what flat memory holds |
| `DemandPaging.TickKeepsInvariant` | kern/cpu/sched.c:413-437 | an aging tick keeps the invariant and extends every page's used-bit history |
| `DemandPaging.AddressSpace.Placement` | kern/trap/fault_handler.c:443-475 | the placement branch: page read in and clean, used bit as the copying left it, element appended, hand at the first element when the set fills up |
| `DemandPaging.AddressSpace.ClockReplacement` | kern/trap/fault_handler.c:482-533 | victim found, saved if dirty, unmapped and removed, the invariant and flat memory kept; panics exactly when the victim needs a disk frame and none is free |
| `DemandPaging.AddressSpace.LruReplacement` | kern/trap/fault_handler.c:540-583 | replaces the first page with the least recent history over 32 ticks; fails exactly when there is no victim, or the victim needs a disk frame and none is free |
| `DemandPaging.AddressSpace.PageFaultHandler` | kern/trap/fault_handler.c:440-684 | every legal fault ends with the page resident, not modified, and the invariant kept, but for the two failures and exactly then, and a failed fault has moved at most the hand and used bits; recursion depth is 0 on placement and exactly 1 under CLOCK and modified CLOCK; under LRU the page that leaves has the least history |
| `DemandPaging.AddressSpace.UpdateTimeStamps` | kern/cpu/sched.c:413-437 | the in-place loop is one aging tick of every resident page |
| `DemandPaging.AddressSpace.Run` | kern/trap/fault_handler.c:440-684 | whole runs: every byte a process wrote or was loaded with reads back as in flat memory, under any of the three algorithms, whatever fresh frames hold; a run ends early only at an illegal access, at a missing LRU victim, or when a victim must be saved and the page file is full; and only pages the process wrote are ever modified or saved |
| `DemandPaging.AddressSpace.Operate` | kern/trap/fault_handler.c:440-684 | one access or tick: a page's modified bit says exactly whether the process has written it since it was placed, its used bit whether it was used since the bit was last cleared, and the file changes only for pages written before |
| `DemandPaging.ReadOnlyRun` | kern/trap/fault_handler.c:501-507 | a process that only reads leaves the page file as it was and never fails for want of a disk frame, however often its pages are replaced |
| `DemandPaging.NothingToSave` | kern/trap/fault_handler.c:501-507 | without modified pages no victim, under any of the algorithms, has to be saved |
| `DemandPaging.AgeAll` | kern/cpu/sched.c:423-436 | the loop ages every stamp once and clears every used bit |
| `LruAging.AgedIsHistory` | kern/cpu/sched.c:428-434 | shift-and-set keeps the stamp equal to the used bits of the last 32 ticks, most recent in the top bit |
| `LruAging.StampOrderIsRecency` | kern/trap/fault_handler.c:547-552 | comparing stamps is comparing histories lexicographically, most recent tick first |
| `LruAging.FullStamp` | kern/trap/fault_handler.c:545 | the stamp is UINT_MAX exactly for a page used at each of the last 32 ticks |
| `CustomFit.FindCustomFit` | kern/mem/kheap.c:17-72 | the scan returns the lowest maximal free run of exactly n pages, else the lowest of the longest runs that fit, else nothing |
| `CustomFit.RunFound` | kern/mem/kheap.c:34-43 | the inner scan from a boundary ends exactly at the end of a maximal free run, whatever regions were freed to make it |
| `CustomFit.AllocateShape` | kern/mem/kheap.c:138-156 | recording a region in free pages keeps the tiling: regions disjoint, mapped pages their union, break above a mapped page |
| `CustomFit.ResizeShape` | kern/mem/kheap.c:371-421 | changing a region's size in place keeps the tiling |
| `Common.RoundingIsExactUpToLimit` | kern/mem/kheap.c:127 | 32-bit rounding to pages is exact if and only if the size is at most 0xFFFFF000, and comes to no pages above |
| `KernelHeap.MapPages` | kern/mem/kheap.c:148-154 | the mapping loop gives each page its own frame from the free list and changes no other page |
| `KernelHeap.UnmapPages` | kern/mem/kheap.c:199-207 | the unmapping loop returns exactly those pages' frames |
| `KernelHeap.MemCpy` | kern/mem/kheap.c:428 | copying between two regions copies the bytes and leaves all other pages alone |
| `KernelHeap.PageHeap.constructor` | kern/mem/kheap.c:83-96 | an empty heap satisfies the invariant |
| `KernelHeap.PageHeap.KMalloc` | kern/mem/kheap.c:121-158 | fails exactly when the request exceeds the room above the break, even if a hole would fit; else takes the best fit or the break, and keeps the invariant and all contents |
| `KernelHeap.HoleIsRefused` | kern/mem/kheap.c:130-132 | in a heap of any size from 4 pages to the kernel's 32766, a reachable state in which a hole fits the request exactly, is its best fit, and kmalloc refuses |
| `KernelHeap.PageHeap.LowerBreak` | kern/mem/kheap.c:211-224 | the break falls to just above the highest mapped page, or to the start |
| `KernelHeap.PageHeap.KFree` | kern/mem/kheap.c:170-231 | exactly the region's pages are unmapped; freeing a page that starts no region does nothing |
| `KernelHeap.PageHeap.Shrink` | kern/mem/kheap.c:371-386 | shrinking in place frees the tail pages and lowers the break only if the region was the last |
| `KernelHeap.PageHeap.CanExtend` | kern/mem/kheap.c:389-405 | the test succeeds exactly when the pages behind the region are below the break and start no region |
| `KernelHeap.PageHeap.Grow` | kern/mem/kheap.c:407-421 | growing in place keeps all mapped pages and adds the missing ones |
| `KernelHeap.PageHeap.Move` | kern/mem/kheap.c:424-431 | allocate, copy, free: the bytes arrive, other regions are untouched, failure changes nothing |
| `KernelHeap.PageHeap.KRealloc` | kern/mem/kheap.c:368-431 | moves exactly when the region can neither stay, shrink nor grow in place; the first min(old, new) bytes survive in all branches, other regions are untouched, failure changes nothing; needs only the frames its branch takes |
| `KernelHeap.PageHeap.TranslationRoundTrip` | kern/mem/kheap.c:236-282 | virtual to physical to virtual is the identity on live heap addresses, offset included |
| `KernelHeap.PageHeap.TranslatedByte` | kern/mem/kheap.c:267-284 | the byte of physical memory at the translated address is the heap's byte there; an unmapped page translates to 0 |
| `KernelHeap.PageHeap.BackTranslation` | kern/mem/kheap.c:236-251 | a physical address translates exactly if a heap page is mapped to its frame, and then translates back to itself |
| `KernelHeap.PageHeap.FreeFrameHasNoAddress` | kern/mem/memory_manager.c:193-206 | a frame on the free list translates to 0 |
| `Scheduling.LowestLevel` | kern/cpu/sched.c:330-336 | the lowest non-empty level |
| `Scheduling.DispatchChoice` | kern/cpu/sched.c:314-340 | dispatch takes the oldest env of the lowest non-empty level, and leaves the CPU idle exactly when no env is ready |
| `Scheduling.ExactlyOnePlace` | kern/cpu/sched_helpers.c:145-236 | an env is in at most one queue, and in none exactly when it is on the CPU |
| `Scheduling.LeaveSettles` | kern/cpu/sched.c:83-131 | giving up the CPU (ready, blocked or exited) and dispatching keeps every env in its place |
| `Scheduling.InsertReadySettles` | kern/cpu/sched_helpers.c:145-159 | sched_insert_ready puts an env between queues into the queue of its own priority |
| `Scheduling.PromoteSettles` | kern/cpu/sched.c:362-374 | promotion moves the env to the queue of its new priority |
| `Scheduling.SweepSettles` | kern/cpu/sched.c:355-379 | the whole starvation sweep keeps placement, the env on the CPU and all statuses |
| `Scheduling.DrainSettles` | kern/conc/channel.c:76-87 | waking all sleepers keeps placement |
| `Scheduling.ReprioritizeSettles` | kern/cpu/sched_helpers.c:698-728 | changing a priority keeps placement, ready or not |
| `Scheduling.ExitLevelsSettles` | kern/cpu/sched_helpers.c:648-666 | ending all ready envs keeps placement |
| `Scheduling.CreateSettles` | kern/cpu/sched_helpers.c:189-201 | a created env is in the new queue only |
| `Scheduling.ApplySettles` | kern/cpu/sched.c:83-131 | every event between scheduling points keeps placement |
| `Scheduling.RunSettles` | kern/cpu/sched.c:83-131 | in every run, at every scheduling point each env is in exactly the queue of its status and priority, once, or on the CPU |
| `BoundedWaiting.SweepOnce` | kern/cpu/sched.c:355-379 | one sweep looks at every waiting env exactly once although envs are removed during the traversal |
| `BoundedWaiting.SweepQueueOnce` | kern/cpu/sched.c:357-378 | one level's traversal looks at each of its envs exactly once |
| `BoundedWaiting.DispatchOther` | kern/cpu/sched.c:330-336 | dispatch picks the env or lets it wait on without being overtaken; at level 0 one env fewer is before it |
| `BoundedWaiting.TickProgress` | kern/cpu/sched.c:349-405 | every tick lowers the number of ticks a waiting env may still have to wait |
| `BoundedWaiting.OtherProgress` | kern/cpu/sched_helpers.c:145-303 | no other event delays a waiting env |
| `BoundedWaiting.WaitIsBounded` | kern/cpu/sched.c:314-379 | no run passes over a ready env of priority p for p*(T+2)+n ticks, n being the most envs alive at any time |
| `BoundedWaiting.StarvesForever` | kern/cpu/sched.c:362-377 | with threshold 2^32-1 an env is passed over for any number of ticks |
| `BoundedWaiting.BoundedIffBelowMax` | kern/cpu/sched.c:362-377 | waiting is bounded if and only if the threshold is below 2^32-1 |
| `EventOutcomes.EventOutcome` | kern/cpu/sched_helpers.c:145-303 | every event, said without queues: the status, priority and tick count each env has afterwards, who comes and goes, and that a choice of the scheduler falls on an env of the lowest priority number among those then ready, or on none if there is none |
| `EventOutcomes.SweepOutcome` | kern/cpu/sched.c:355-379 | the sweep promotes by one exactly the ready envs below the highest priority that have waited more than T ticks, counts a tick for the others of them, and touches nobody else |
| `EventOutcomes.WakeOutcome` | kern/conc/channel.c:52-66 | wakeup_one makes the oldest sleeper ready and nobody else |
| `EventOutcomes.DrainOutcome` | kern/conc/channel.c:76-87 | k turns of the loop make exactly the k oldest of the queue ready, ticks reset |
| `EventOutcomes.ExitLevelsOutcome` | kern/cpu/sched_helpers.c:648-666 | all ready envs exit and no other env changes |
| `EventOutcomes.ReprioritizeOutcome` | kern/cpu/sched_helpers.c:698-728 | the env has the new priority whatever its status, with its ticks reset if it was ready; no other env changes |
| `EventOutcomes.PromotionsAreApart` | kern/cpu/sched.c:362-377 | in every run there are at least T + 2 ticks between two promotions of an env |
| `EventOutcomes.NewcomerWaits` | kern/cpu/sched.c:362-377 | and more than T ticks between its creation and its first promotion |
| `ProcessQueues.NextOfRest` | inc/queue.h:183-186 | the successor read before the body is the next element still to visit, whether or not the body removes the current one |
| `ProcessQueues.TraversalStep` | kern/cpu/sched.c:357-378 | one turn of the traversal leaves the rest of the queue to visit in place |
| `ProcessQueues.ProcessQueues.InsertReadyEnv` | kern/cpu/sched_helpers.c:145-159 | ticks reset, status READY, head of the queue of its priority |
| `ProcessQueues.ProcessQueues.TakeOldest` | kern/cpu/sched_helpers.c:60-69 | dequeue takes the tail, or nothing from an empty queue |
| `ProcessQueues.ProcessQueues.PickNext` | kern/cpu/sched.c:330-336 | the loop over levels dispatches the oldest env of the lowest non-empty level |
| `ProcessQueues.ProcessQueues.Reschedule` | kern/cpu/sched.c:314-340 | the env on the CPU goes back to the queue of its priority before the pick |
| `ProcessQueues.ProcessQueues.ExamineEnv` | kern/cpu/sched.c:359-377 | one look of the sweep: promote, or count the tick in 32 bits |
| `ProcessQueues.ProcessQueues.SweepLevel` | kern/cpu/sched.c:357-378 | the in-place traversal is the specified sweep of the level |
| `ProcessQueues.ProcessQueues.ClockInterrupt` | kern/cpu/sched.c:349-405 | the interrupt handler is the Tick event: sweep, then yield |
| `ProcessQueues.ProcessQueues.DrainQueue` | kern/conc/channel.c:76-87 | wakeup_all and sched_run_all empty the queue, oldest first, into the ready queues |
| `ProcessQueues.ProcessQueues.WakeupOneEnv` | kern/conc/channel.c:52-66 | wakeup_one readies the oldest sleeper, or does nothing |
| `ProcessQueues.ProcessQueues.ExitLevel` | kern/cpu/sched_helpers.c:654-664 | every env of the level moves to the exit queue |
| `ProcessQueues.ProcessQueues.ExitAllReadyEnvs` | kern/cpu/sched_helpers.c:648-666 | every ready env of every level exits |
| `ProcessQueues.NoneReadyAfterExit` | kern/cpu/sched_helpers.c:648-666 | afterwards no env is ready |
| `ProcessQueues.ProcessQueues.EnvSetPriority` | kern/cpu/sched_helpers.c:698-728 | a ready env changes queues with its ticks reset, any other just changes its priority |
| `Synchronization.LocksNest` | kern/conc/kspinlock.c:28-89 | acquire and release move the nesting depth by one, keep the flag to restore, and panic on a held or unheld lock |
| `Synchronization.BalancedRestores` | kern/cpu/cpu.c:81-100 | balanced nested pushcli and popcli never panic and restore the interrupt flag |
| `Synchronization.KernelKeeps` | kern/conc/channel.c:29-87 | no kernel step of wait, signal, acquire, release, sleep, wakeup, yield or exit panics or meets a taken lock, and each keeps the invariant |
| `Synchronization.ExecSwitch` | kern/proc/user_environment.c:690-710 | sched's four checks always pass: one level of nesting, queue lock held and no guard lock, interrupts off, status changed |
| `Synchronization.ExecSleep` | kern/conc/channel.c:29-43 | a process joins the channel queue only while the object is not available |
| `Synchronization.ExecWake` | kern/conc/channel.c:76-87 | one turn of wakeup_all keeps the invariant |
| `Synchronization.ExecTake` | kern/conc/ksemaphore.c:29-32 | past the loop condition, taking keeps the invariant: the process is then the only one inside the lock, and nobody sleeps on what can be taken |
| `Synchronization.ExecRaise` | kern/conc/ksemaphore.c:46 | count++ keeps the invariant: sleepers on a positive count exist only while the signaller is about to wake them |
| `Synchronization.ExecFree` | kern/conc/sleeplock.c:52 | locked = 0 keeps the invariant: nobody is left in the queue and nobody else is inside |
| `Synchronization.InterruptedPlace` | kern/conc/kspinlock.c:28-58 | interrupts are on only where no lock is held |
| `Synchronization.NextKeeps` | kern/conc/channel.c:29-87 | every step of every process, interrupts, dispatches and idling included, keeps the invariant |
| `Synchronization.RunInv` | kern/proc/user_environment.c:668-710 | in every run every state satisfies the lock, queue, object and wakeup invariant |
| `Synchronization.RunNeverStuck` | kern/conc/kspinlock.c:28-58 | in every run kernel code can always go on |
| `Synchronization.RunSwitches` | kern/proc/user_environment.c:690-710 | every context switch has ncli 1 with only the queue lock held, and a woken process finds its guard lock free |
| `Synchronization.RunMutualExclusion` | kern/conc/sleeplock.c:27-57 | at most one process is inside a sleep lock, from its take to its free; `SynchronizationCalls.CallersExclude` says it from return to call |
| `Synchronization.RunNoLostWakeup` | kern/conc/channel.c:29-43 | at a scheduling point a semaphore somebody is blocked on has a count of at most 0, and a lock somebody is blocked on is locked and has a holder |
| `Synchronization.SemStep` | kern/conc/ksemaphore.c:23-55 | only signals raise and only completed waits lower the count, and a wait completes only above zero |
| `Synchronization.RunSemaphore` | kern/conc/ksemaphore.c:23-55 | count = initial value + signals - completed waits, and never below zero from a non-negative start; `SynchronizationCalls.CallReturns` ties these steps to calls |
| `SynchronizationCalls.CallReturns` | kern/conc/ksemaphore.c:23-55 | in every run, from a call to its return: an acquire has the lock, a release has given it up, and between the two the process has completed exactly one wait, signalled once, taken or freed once, as the operation says, and has done nothing to any other object |
| `SynchronizationCalls.CallInProgress` | kern/conc/sleeplock.c:27-57 | while a call is in progress the process has changed its object at most once and no other object, however often it slept and was woken or interrupted |
| `SynchronizationCalls.StepDoes` | kern/conc/sleeplock.c:33-36 | any step of the machine takes a call in progress on, with the object changed once on the way, or returns from it with that change made |
| `SynchronizationCalls.HolderOwns` | kern/conc/sleeplock.c:27-57 | from the return of its acquire until it calls release a process has the lock, whatever the others do |
| `SynchronizationCalls.CallersExclude` | kern/conc/sleeplock.c:27-57 | no two processes are between the return of acquire_sleeplock and the call of release_sleeplock on the same lock |
| `Synchronization.Processor.Push` | kern/cpu/cpu.c:81-89 | the in-place pushcli |
| `Synchronization.Processor.Pop` | kern/cpu/cpu.c:91-100 | the in-place popcli, with its two panics |
| `Synchronization.SpinLock.IsHeld` | kern/conc/kspinlock.c:126-133 | exact test, and the nesting of its own pushcli and popcli cancels out |
| `Synchronization.SpinLock.Take` | kern/conc/kspinlock.c:28-58 | panics exactly if held, else holds the lock one level deeper |
| `Synchronization.SpinLock.GiveBack` | kern/conc/kspinlock.c:60-89 | panics exactly if not held, else frees the lock and pops one level |
| `Frames.UnmapKeepsInv` | kern/mem/memory_manager.c:476-496 | unmapping keeps every count equal to the number of entries holding the frame |
| `Frames.UnmapFreesLast` | kern/mem/memory_manager.c:219-223 | a frame goes to the free list exactly when its last entry goes, and was not on it |
| `Frames.MapKeepsInvIff` | kern/mem/memory_manager.c:356-428 | mapping keeps the invariant if and only if the entry has the frame already, or the frame is off the free list with its 16-bit count below 65535 |
| `Frames.CountRunsOver` | kern/mem/memory_manager.c:419 | a frame held by 65535 entries, counted right; mapped once more its count is 0 while 65536 entries hold it |
| `Frames.AllocateAndMap` | kern/mem/memory_manager.c:148-186 | a fresh frame can be mapped over any entry; nobody else holds it |
| `Frames.AllocPageKeepsInv` | kern/mem/paging_helpers.c:137-162 | a mapped page is left alone, an unmapped one gets a frame that no entry held |
| `Frames.FrameManager.Allocate` | kern/mem/memory_manager.c:148-186 | the head of the free list with its record cleared |
| `Frames.FrameManager.Free` | kern/mem/memory_manager.c:193-212 | back to the head of the free list with its record cleared |
| `Frames.FrameManager.Decrement` | kern/mem/memory_manager.c:219-223 | 16-bit decrement, freeing at zero |
| `Frames.FrameManager.Map` | kern/mem/memory_manager.c:356-428 | same frame: nothing; other frame: unmapped first; then count and entry |
| `Frames.FrameManager.Unmap` | kern/mem/memory_manager.c:476-496 | count down and entry cleared, nothing for an empty entry |
| `Frames.FrameManager.AllocatePage` | kern/mem/paging_helpers.c:137-162 | returns 1 for a mapped page, else maps a fresh frame and returns 0, keeping the invariant |
| `SharedMemory.GetPlaces` | kern/mem/shared_memory_manager.c:238-247 | getting an object maps its frames in order and touches no other entry |
| `SharedMemory.CreatePlaces` | kern/mem/shared_memory_manager.c:188-201 | a created object has distinct frames, each held by the creator's page alone |
| `SharedMemory.GetKeepsInvIff` | kern/mem/shared_memory_manager.c:223-252 | getting keeps all counts right if and only if every frame of the object is still held by an entry the call has not overwritten before, and by fewer than 65535 entries outside the target |
| `SharedMemory.CreateKeeps` | kern/mem/shared_memory_manager.c:165-204 | creating keeps counts, free list and object table right; size 0 and existing names are refused |
| `SharedMemory.GetKeepsIff` | kern/mem/shared_memory_manager.c:223-252 | the same if-and-only-if for the whole system |
| `SharedMemory.NextKeepsIff` | kern/mem/memory_manager.c:356-496 | each of the five calls keeps the invariant if and only if a condition the caller can check holds |
| `SharedMemory.ReferencesCountMappings` | kern/mem/shared_memory_manager.c:140-249 | in every run an object's references are its creation and the gets of it since, and its owner, name, size and write flag are those it was created with |
| `SharedMemory.RunShares` | kern/mem/shared_memory_manager.c:223-252 | no call changes an object there is but for the references a get adds |
| `SharedMemory.IdsTellApart` | kern/mem/shared_memory_manager.c:142 | objects at different kernel addresses have different IDs although the top four bits are cut off |
| `SharedMemory.RunKeeps` | kern/mem/memory_manager.c:148-223 | in every run of proper calls counts equal holders and the free list is exactly the unheld frames |
| `SharedMemory.CreateAttaches` | kern/mem/shared_memory_manager.c:188-202 | whoever creates an object has its frames at its pages, in order |
| `SharedMemory.GetAttaches` | kern/mem/shared_memory_manager.c:238-247 | and so has whoever gets it |
| `SharedMemory.SharersAgree` | kern/mem/shared_memory_manager.c:165-252 | all sharers of an object map the same frame at each page offset as long as their own pages are not remapped |
| `SharedMemory.StaleObject` | kern/mem/shared_memory_manager.c:223-252 | a concrete failing case: the owner unmaps its object, another env gets it, and the next allocated page is the same frame |
| `SharedMemory.ShareTable.Find` | kern/mem/shared_memory_manager.c:42-70 | the first object with that owner and name, or none exactly when there is none |
| `SharedMemory.ShareTable.MapFresh` | kern/mem/shared_memory_manager.c:188-201 | the creation loop, with the panic of allocate_frame |
| `SharedMemory.ShareTable.CreateSharedObject` | kern/mem/shared_memory_manager.c:165-204 | exists exactly for a known owner and name; for sizes up to 0xFFFFF000 no-share exactly for a new name with size 0 or no room for the record, above it for every new name, because the rounding wraps; else an object of as many frames as the size takes, and the ID, which is the record's address without its top four bits; a refusal changes nothing; and exactly when the frames run out |
| `SharedMemory.ShareTable.MapObject` | kern/mem/shared_memory_manager.c:240-247 | the mapping loop of get_shared_object |
| `SharedMemory.ShareTable.GetSharedObject` | kern/mem/shared_memory_manager.c:223-252 | not-exists exactly when no object has that owner and name, else the object's ID, and the invariant survives exactly if the object is sharable at that place |
| `PageFile.AddEmptySound` | kern/disk/pagefile_manager.c:209-237 | an unstored page gets a free frame, a stored one keeps its own; no other page changes |
| `PageFile.AddSound` | kern/disk/pagefile_manager.c:239-268 | the page reads back as written, all other pages read as before; it fails exactly if unstored and no frame is free |
| `PageFile.UpdateSound` | kern/disk/pagefile_manager.c:270-392 | an update panics exactly for an unstored page outside heap and stack or without a free frame; else the page reads back as written and all other pages read as before |
| `PageFile.RemoveSound` | kern/disk/pagefile_manager.c:446-463 | the frame goes back to the free list once; frame 0 is no frame; other pages stay |
| `PageFile.FreeTablesClears` | kern/disk/pagefile_manager.c:469-509 | the nested loops empty exactly the env's pages below the limit and lose no frame |
| `PageFile.FreeEnvReturnsAllIff` | kern/disk/pagefile_manager.c:465-543 | every frame of the env is free again if and only if it stored no page at or above USER_TOP; other envs are untouched |
| `PageFile.FrameIsLost` | kern/disk/pagefile_manager.c:469 | after storing a page at USER_TOP and freeing the env its frame is neither free nor held, from any state with a free frame |
| `PageFile.ApplySound` | kern/disk/pagefile_manager.c:209-543 | every call on user pages keeps the partition of the frames and all pages it does not concern |
| `PageFile.RunInv` | kern/disk/pagefile_manager.c:75-147 | in every run stored frames and free list partition 1 to PAGES_PER_FILE - 1 |
| `PageFile.RunReadsBack` | kern/disk/pagefile_manager.c:416-444 | a page reads the same through any calls on other pages or envs |
| `PageFile.StoredPageReadsBack` | kern/disk/pagefile_manager.c:239-268 | what was added, stored as zeros or updated reads back after any calls on other pages and envs |
| `PageFile.RemovedPageIsGone` | kern/disk/pagefile_manager.c:446-543 | what was removed, alone or with its env, is found no more |
| `PageFile.PageFile.constructor` | kern/disk/pagefile_manager.c:75-90 | the initial free list has every frame but 0, once |
| `PageFile.PageFile.AddEmptyPage` | kern/disk/pagefile_manager.c:209-237 | with the zero flag the page reads back as zeros, unless there is no room; without it an unstored page gets the head of the free list and a stored one is left alone, on the two-level tables |
| `PageFile.PageFile.AddPage` | kern/disk/pagefile_manager.c:239-268 | the in-place form of the operation whose read-back and isolation AddSound states, with its out-of-space code |
| `PageFile.PageFile.UpdatePage` | kern/disk/pagefile_manager.c:270-392 | panics exactly for an unstored page whose address is outside heap and stack, or with no free frame; else the page reads back as written, every other page as before |
| `PageFile.PageFile.ReadPage` | kern/disk/pagefile_manager.c:416-444 | the stored page, or none exactly when it has no frame |
| `PageFile.PageFile.RemovePage` | kern/disk/pagefile_manager.c:446-463 | the in-place form of the operation of RemoveSound: entry cleared, frame at the head of the free list, nothing for a page without a table |
| `PageFile.PageFile.FreeOneTable` | kern/disk/pagefile_manager.c:489-496 | the inner loop of pf_free_env |
| `PageFile.PageFile.FreeEnvironment` | kern/disk/pagefile_manager.c:465-522 | the outer loop of pf_free_env and the end of the directory |
| `PageFile.PageFile.CalculateAllocatedPages` | kern/disk/pagefile_manager.c:583-619 | the counter is the number of the env's stored pages below USER_TOP |
| `IntrusiveList.List.InsertHead` | inc/queue.h:246-255 | first, last, size and both link directions stay those of the sequence with the element in front |
| `IntrusiveList.List.InsertTail` | inc/queue.h:261-270 | the same with the element at the end |
| `IntrusiveList.List.InsertAfter` | inc/queue.h:208-219 | the same with the element after the given one |
| `IntrusiveList.List.InsertBefore` | inc/queue.h:226-240 | the same with the element before the given one |
| `IntrusiveList.List.Remove` | inc/queue.h:276-290 | the same without the element, whose links are cleared |
| `IntrusiveList.List.Visit` | inc/queue.h:183-186 | one turn of LIST_FOREACH with a body that may remove its element |
| `IntrusiveList.List.ForEachRemoving` | inc/queue.h:183-186 | every original element is visited once, in order, and exactly those not removed remain |
| `IntrusiveList.LinksInserted` | inc/queue.h:208-270 | linking an element between its neighbours gives a list of the longer sequence |
| `IntrusiveList.LinksRemoved` | inc/queue.h:276-290 | joining an element's neighbours gives a list of the shorter sequence |
| `IntrusiveList.KeptMembers` | inc/queue.h:183-186 | what remains is exactly what the body did not remove |
| `Airline.IdsStep` | user/tst_air_customer.c:68-81 | ids are handed out one by one; no two customers have the same |
| `Airline.PeekFinds` | user/tst_air_clerk.c:73-87 | a clerk that looks at the line finds a request there, unless the agency has marked the end |
| `Airline.LineAdvance` | user/tst_air_clerk.c:76-88 | taking a request keeps the line's accounting |
| `Airline.LineCountStep` | user/tst_air_customer.c:95-100 | joining the line keeps its accounting |
| `Airline.AllCollected` | user/tst_air.c:186-190 | when the last customer has terminated every request has been taken |
| `Airline.BookTest` | user/tst_air_clerk.c:142 | a clerk goes on to book both flights only with a ticket of each |
| `Airline.BookCount` | user/tst_air_clerk.c:103-106 | entering a customer keeps the booking arrays free of repetitions and the tickets conserved |
| `Airline.BookStore` | user/tst_air_clerk.c:105 | the booking array is never overrun |
| `Airline.ClerkKeeps` | user/tst_air_clerk.c:69-178 | every clerk step keeps the invariant and none panics or leaves an array |
| `Airline.CustomerKeeps` | user/tst_air_customer.c:67-128 | every customer step keeps the invariant and none leaves an array |
| `Airline.AgencyKeeps` | user/tst_air.c:186-290 | every step of the agency keeps the invariant |
| `Airline.RunInv` | user/tst_air.c:163-190 | in every interleaving of any number of clerks and customers every state satisfies the invariant |
| `Airline.RunTickets` | user/tst_air_clerk.c:94-165 | outside its critical section remaining plus booked tickets of a flight are those there were, and nobody is booked twice |
| `Airline.RunBothOrNeither` | user/tst_air_clerk.c:137-162 | a customer that has been told is booked on all the flights it wants or on none |
| `AirlineRefusals.RefusedOnlyWhenSoldOut` | user/tst_air_clerk.c:94-165 | in every run a customer that has been served and is not booked wanted a flight of which no ticket is left |
| `AirlineRefusals.RunServesChoice` | user/tst_air_clerk.c:94-165 | a told customer is booked on exactly the flights it chose itself, or on none while a flight of its choice is sold out |
| `AirlineRefusals.RunChosen` | user/tst_air_customer.c:68-93 | in every run those who chose a kind of flight and those left to choose it are as many as there were to choose, and every request asks for what its customer chose |
| `AirlineRefusals.SoldOutIsOverbooked` | user/tst_air_clerk.c:137-162 | when all are served, a flight that somebody was refused for was wanted by more customers than it had tickets |
| `AirlineRefusals.EnoughForAll` | user/tst_air.c:229-248 | with at least as many tickets of each flight as customers who are to want it, every customer is booked in the end |
| `Airline.RunTakesOnce` | user/tst_air_clerk.c:76-88 | no request is dequeued twice |
| `Airline.RunTakesAll` | user/tst_air_clerk.c:76-88 | every request that has left the line was dequeued by a clerk |
| `Airline.RunNeverAhead` | user/tst_air_clerk.c:73-87 | before closing, queue_out stays behind queue_in whenever a clerk reads the queue |
| `Airline.FlightsNeverDeadlock` | user/tst_air_clerk.c:94-165 | whenever a clerk waits for a flight some clerk at the desk can move |
| `AirlineProgress.RunProgresses` | user/tst_air.c:143-290 | in every run some process can move until all customers are done, the agency has closed and waited for its clerks, and all clerks are gone, given a clerk, room for a customer and a free clerk to begin with |
| `AirlineProgress.StuckIsFinished` | user/tst_air.c:187-290 | a state in which nobody can move is the final one |
| `AirlineProgress.StepLedger` | user/tst_air_customer.c:67-128 | every step keeps the accounts: flights left to choose, room in the agency, clerks' units, wake-ups for waiting clerks, terminations |
| `AirlineProgress.InitLedger` | user/tst_air.c:99-148 | the accounts hold as tst_air sets the shared state up |
| `AirlineProgress.NobodyServed` | user/tst_air_customer.c:111-112 | in a state in which nobody can move, no customer is waiting to be told: its request would be in the line or with a clerk |
| `AirlineProgress.IdsAreFree` | user/tst_air_customer.c:68-81 | in a state in which nobody can move, no customer is held up before or inside the counter's section: a flight is left for whoever has to choose one |
| `AirlineProgress.ClerksAreGone` | user/tst_air.c:277-282 | the agency wakes enough clerks: when it has and nobody can move, all clerks are gone |
| `AirlineProgress.FinalCounts` | user/tst_air.c:250-268 | in every run, when the agency comes to its asserts: capacity is what it was, the four critical sections are open, custTerminated and every cust_finished are 0, nobody waits but clerks for a customer, and the clerks' semaphore is short by just the clerks about to signal it |
| `AirlineProgress.FinalAssertsHoldIff` | user/tst_air.c:258-260 | the clerks' semaphore has its initial count if and only if no clerk is about to signal it; cust_ready stands at minus the number of clerks if and only if every clerk waits there |
| `AirlineProgress.FinalTerminations` | user/tst_air.c:284-290 | after the agency has waited for its clerks, clerkTerminated is 0 and all clerks are gone |
| `AirlineTermination.RunTerminates` | user/tst_air.c:163-290 | no run, whoever moves when, has more than 27 steps for each clerk, 41 for each customer and 5 more |
| `AirlineTermination.StepLowers` | user/tst_air_clerk.c:69-178 | every step of every process lowers the number of steps that are left, though clerks go round in a loop: each turn uses up a unit of cust_ready |
| `AirlineTermination.MaximalRunIsFinished` | user/tst_air.c:163-290 | a run that nobody can continue ends with all customers done, the agency over and all clerks gone |
| `AirlineTermination.RunCanFinish` | user/tst_air.c:163-290 | every run can be continued to that end |
| `AirlineTermination.AssertsCanFail` | user/tst_air.c:258-260 | from every initial state with a clerk and a customer there is a run that comes to the asserts with the clerks' semaphore short of its initial count and not all clerks waiting at cust_ready |
| `AirlineTermination.AssertsCanHold` | user/tst_air.c:192-260 | from there the clerks alone can go on until every one of them waits for a customer, which makes the two asserts hold |
| `Airline.FinalChecksPass` | user/tst_air.c:229-248 | none of the agency's consistency panics is reachable, when it checks or later |
| `Airline.Find` | user/tst_air.c:298-314 | 1 exactly if the value is in the array |
| `Airline.InitInv` | user/tst_air.c:99-161 | the initial shared state satisfies the invariant |

## Left out

- The block (small-object) allocator, the user heap, user semaphores and user spin locks: only their headers are there; kernel heap requests of at most 2 KB are therefore outside `KernelHeap`, as is the block branch of `krealloc`.
- Kernel heap addresses are page numbers, sizes do not wrap when rounded (`Common.RoundingIsExactUpToLimit` says which do), and running out of physical frames is the panic of `allocate_frame`.
- Invalid faults, which unmap and free the same frame before the env exits (`kern/trap/fault_handler.c:459-461`): faults are legal.
- The bookkeeping of OPTIMAL mode across envs, FIFO, page buffering, and switching the algorithm in mid-run: the active list is empty and the algorithm fixed.
- DemandPaging.AddressSpace.Run: physical frames do not run out, since that is the panic of `allocate_frame`; a run that panics is covered up to the panic, and `Frames` models them running out.
- `env_page_ws_invalidate`: it would add an easy case beside eviction.
- The round-robin, MLFQ and BSD schedulers: the first is the one-level case of the modelled one, the others are not implemented.
- `sched_exit_env` on an env in the new queue, whose loop goes on with the removed element, and `sched_kill_*`, `env_free`, `sched_remove_*` on their own.
- Synchronization.RunNoLostWakeup: a statement for one CPU, because the queue sizes are read without the queue lock (`kern/conc/ksemaphore.c:47`, `kern/conc/sleeplock.c:49`).
- `holding_sleeplock`: the owner is never recorded on acquire. Semaphore counts are unbounded integers. A process releases only sleep locks it holds, and calls these operations holding no spin lock.
- Frames.MapKeepsInvIff: permissions, buffered frames, TLB flushes and the frames of the page tables themselves are not modelled; entries are empty or present.
- SharedMemory.ShareTable.CreateSharedObject: names have at most 62 characters, since longer ones are cut and not terminated; the address of the record, or the lack of room for it, is given.
- SharedMemory.ShareTable.GetSharedObject: that pages of a read-only object are mapped without the write permission is not modelled, as permissions are not.
- PageFile.PageFile.UpdatePage: the bottom of the user stack is a parameter, because it depends on the size of a C structure; the modified bit it clears belongs to `DemandPaging`.
- `free_share`, `delete_shared_object`, `free_user_mem`, `LIST_CONCAT`: unfinished or inconsistent in the source.
- Tables of the second page-file directory (`disk_env_tabledir`), disk sectors and IDE transfers: the disk is a map from frame number to page.
- Airline.RunTickets: wait and signal are atomic, counters do not wrap, and the sleeps and the printed statistics are not modelled.
- AirlineTermination.RunTerminates: a random choice of a flight that is not left is no step of the model, so it does not bound how often a customer draws again (`user/tst_air_customer.c:74-79`).
- Console, keyboard, timer and interrupt controller programming, boot, ELF loading, the command prompt and the other user programs.
