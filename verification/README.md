# Pandos nucleus and pager, modelled and proved

This project models the Pandos kernel: the process queues, the process tree and the active
semaphore list it is built on (`phase2/pcb.c`, `phase2/asl.c`), the nucleus that runs on them
(`phase2/exceptions.c`, `phase2/interrupts.c`, `phase2/scheduler.c`, `phase2/initial.c`), and the
phase 3 pager that runs on the nucleus (`phase 3/vmSupport.c`, `phase 3/initProc.c`).
`dafny verify dfyconfig.toml` checks all of it.

Every layer comes twice. The imperative one has the fields and pointers of the source and changes
them in place; the abstract one says what that means.

- `ProcessQueues`, `ProcessTree`, `ActiveSemaphores`: a tail-addressed circular queue is a sequence of
  pcbs, oldest first; child lists are a `Forest`; the sorted list of descriptors is a map from
  semaphore address to nonempty queue.
- `NucleusSpec.Step` gives one atomic step for every system call and interrupt on a `State` that
  records where each process is. Control never comes back from `scheduler()`, so a step ends there.
  `Nucleus.Machine` holds the globals and all pcbs of the real nucleus; each of its handlers is proved
  to leave the machine in exactly `Step(old(st), event, readings of the clock)`, with one set of pcbs
  threaded through free list, ready queue, semaphore queues, tree and running slot at once.
  `NucleusRuns.Run` is a whole history from power-on, with events in any order; the theorems in
  `NucleusPlacement`, `NucleusSemaphores`, `NucleusFamily`, `NucleusSupport`, `NucleusFairness`,
  `NucleusAccounting`, `NucleusDispatch` and `NucleusMutex` hold in every state of every run.
- `NucleusExceptions` says which event each exception is, and proves what each of them does in terms of
  causes, line numbers, device numbers and system call numbers alone.
- `PagerSpec.Step` cuts the page fault handler into labelled steps, so that any number of faulting
  processes interleave and any of them can be killed anywhere. `Pager.Pager` updates the victim index,
  the swap pool records, the page table entries and `swapSem`.
- `PagerOnNucleus` joins the two: in every joint history the nucleus makes a run of the nucleus, the pager
  makes a run of the pager, and `swapSem` as the nucleus keeps it is the semaphore of that pager run.

MAXPROC, the pool size, the number of address spaces and the number of pages are any positive numbers.

## What the code does where its comments say something else

- `terminateProcess` of the running process never reaches `outChild` or `freePcb`: after the loop it has
  no children, and `scheduler()` does not return. Its pcb stays in its parent's child list, in no queue
  ("retired"), until an ancestor terminates.
- `insertChild` sets `p_prnt` only for a first child. `outChild` therefore removes a process exactly when
  `p_prnt` is set and the process is in the child list of the process it names; `SecondChildStays` gives
  the input on which it does nothing. The tree is defined by `p_child` and `p_next_sib` alone.
- `allocPcb` does not initialise the last free pcb. The model starts with cleared pcbs and keeps
  "a free pcb has no children".
- A terminated waiter on a device semaphore does not give its unit back. `DeviceGap` says exactly what
  that costs: the claims nobody waits for are the waiters killed less the interrupts that found nobody.
  `ClaimOutlivesWaiter` gives a run in which the dead waiter's interrupt wakes the next one too early.
- The interrupt of device 1 of a line is taken for device 2's and the other way round.
  `InterruptReachesItsDevice` proves that these two are the only ones exchanged.
- SYS3 and SYS4 accept words of `deviceSema4s`. The handlers are modelled on every word; `DeviceByHand`
  proves when such a call leaves softBlockCount wrong, which is why runs do not contain them.
- `waitForDevice` simply resumes the caller when the semaphore is still positive.
- `itInterrupt` puts the running process on the ready queue without charging it.
- A process that terminates, or dies on a failed write to backing store, while it is inside the page fault
  handler does not release `swapSem`, although `phase 3/sysSupport.c:65` says a mutex it holds is released.
  `DeadHolderReached` gives the run, `DeadHolderFreezes` proves that no page is loaded ever after, and
  `LeavesIffAlive` that the process inside can get out if and only if it is alive.

## Assumptions

- NULL (0xFFFFFFFF) and the zero pointers of static storage are both `null`; pcb fields start as null.
- Ordinary semaphores start at 0 or above with nobody waiting, lie outside `deviceSema4s` and are neither
  0 nor NULL, and change only by P, V and termination.
- Device requests name line 3 to 7 and device 0 to 7, with the read flag only on line 7.
- The time-of-day clock does not decrease; its readings are inputs of a step.
- A page fault is raised only for a page whose entry is invalid.
- Each address space has one process, so the pager identifies a process with its asid; only the page fault
  handler uses `swapSem`.

## Model

| member | source | states |
|---|---|---|
| ProcessQueues.InsertProcQ | phase2/pcb.c:58-77 | the queue gains the process as its youngest member and the tail points at it |
| ProcessQueues.RemoveProcQ | phase2/pcb.c:79-101 | the oldest process leaves and the rest keep their order; null from an empty queue |
| ProcessQueues.OutProcQ | phase2/pcb.c:103-124 | exactly the named process leaves, from head, middle or tail; null and no change if it is absent; the search terminates |
| ProcessQueues.HeadProcQ | phase2/pcb.c:126-131 | the oldest process, left in place |
| ProcessTree.InsertChild | phase2/pcb.c:138-153 | the process, with any children of its own, heads the child list of its new parent, the rest of the forest is untouched, and only a first child learns its parent; nothing happens for a null process |
| ProcessTree.RemoveChild | phase2/pcb.c:155-164 | the youngest child leaves with its own descendants and the others stay linked |
| ProcessTree.OutChild | phase2/pcb.c:166-189 | removes p if and only if its parent field is set and p is in that process's child list; otherwise null and the list stays |
| ProcessTree.DropTopKeeps | phase2/pcb.c:179-187 | only p and its descendants leave the child list; every other pcb keeps its children |
| ProcessTree.SecondChildStays | phase2/pcb.c:138-189 | a concrete second child that outChild fails to remove |
| ActiveSemaphores.Asl.constructor | phase2/asl.c:145-168 | an empty map, two sentinels, and MAXPROC descriptors chained on the free list |
| ActiveSemaphores.Asl.Traverse | phase2/asl.c:32-40 | stops at the last descriptor below the address; terminates |
| ActiveSemaphores.Asl.SemdAlloc | phase2/asl.c:13-28 | takes the first free descriptor, or null and no change when none is free |
| ActiveSemaphores.Asl.SemdDealloc | phase2/asl.c:42-55 | the descriptor behind s leaves the sorted list and becomes the head of the free list; the total stays MAXPROC + 2 |
| ActiveSemaphores.Asl.InsertBlocked | phase2/asl.c:57-81 | the map gains the process at the back of its queue; fails exactly when a new descriptor is needed and none is free, and then changes nothing |
| ActiveSemaphores.Asl.RemoveBlocked | phase2/asl.c:84-105 | the longest waiting process leaves its queue, and an empty queue leaves the map; null if nobody waits |
| ActiveSemaphores.Asl.OutBlocked | phase2/asl.c:106-127 | exactly the named process leaves the queue that its p_semAdd names |
| ActiveSemaphores.Asl.HeadBlocked | phase2/asl.c:129-143 | the longest waiting process, or null |
| ActiveSemaphores.Asl.Sizes | phase2/asl.c:152-164 | there is one active descriptor per queue of the map, besides the sentinels |
| ActiveSemaphores.Asl.SpareLeft | phase2/asl.c:65-70 | a descriptor is free whenever fewer semaphores have waiters than there are descriptors |
| NucleusSemaphores.DescriptorLeft | phase2/exceptions.c:285 | while a process runs, fewer semaphores have waiters than there are pcbs, so the ignored result of insertBlocked is never failure |
| NucleusInvariant.StepOk | phase2/exceptions.c:119-314 | every system call and interrupt keeps the invariant on placement, counters, tree and semaphore values |
| NucleusRuns.BootOk | phase2/initial.c:62-93 | the state main hands to the scheduler satisfies the invariant |
| NucleusRuns.Always | phase2/initial.c:99-128 | the invariant holds after every step of every run |
| NucleusPlacement.OnePlace | phase2/exceptions.c:157-212 | each pcb is in exactly one place: free, ready, blocked on the one semaphore its p_semAdd names, running, or retired |
| NucleusPlacement.SizesAddUp | phase2/pcb.c:36-45 | the five sizes add up to the process table, and processCount counts exactly the live processes |
| NucleusPlacement.SchedulerIsExact | phase2/scheduler.c:20-48 | HALT exactly when nothing is alive, WAIT exactly when idle with someone on a device or the clock, PANIC exactly when all live processes wait on ordinary semaphores; no fourth outcome |
| NucleusFamily.OneParent | phase2/pcb.c:138-153 | every pcb that is not free, but the first process, is in exactly one child list and not among its own descendants |
| NucleusFamily.FirstIsAncestor | phase2/initial.c:76-93 | every live process is reached from the first process by a line of children |
| NucleusFamily.CreateAdopts | phase2/exceptions.c:119-154 | the new process comes off the free list, is last in the ready queue and youngest child of its creator, with a support structure exactly when the call passed one and no CPU time; no other pcb gains or loses a child or a support structure |
| NucleusSupport.SupportAsGiven | phase2/exceptions.c:134 | in every reachable state exactly those pcbs have a support structure whose latest creation passed one |
| NucleusSupport.FirstHasNone | phase2/pcb.c:32 | the first process never has a support structure |
| NucleusSupport.TrapKillsTheUnsupported | phase2/exceptions.c:317-333 | in every run a trap ends the running process and frees its descendants exactly when its creation passed no support structure, and otherwise changes nothing |
| NucleusFamily.TerminateKillsTheSubtree | phase2/exceptions.c:157-212 | exactly the descendants become free and leave every queue; the others keep queue and order; each ordinary semaphore rises by its waiters killed and no device semaphore changes |
| NucleusFamily.FirstTerminatesHalts | phase2/exceptions.c:202-208 | when the first process dies both counters are zero, every queue is empty and the machine halts |
| NucleusKill.KillTwice | phase2/exceptions.c:159-164 | killing one set after another equals killing their union at once, semaphore values included |
| NucleusSemaphores.WaitersMatchValue | phase2/exceptions.c:215-261 | in every reachable state the waiters on an ordinary semaphore number max(0, -value) |
| NucleusSemaphores.PasserenBlocks | phase2/exceptions.c:215-235 | P blocks the caller behind the earlier waiters exactly when the value was at most 0; otherwise nothing moves |
| NucleusSemaphores.VerhogenWakes | phase2/exceptions.c:238-261 | V on a negative semaphore always finds a waiter and readies the longest waiting one; on others nobody was waiting |
| NucleusSemaphores.InterruptWakes | phase2/interrupts.c:57-129 | a device interrupt readies the longest waiter of that device, if any, lowering softBlockCount, and an idle processor runs it |
| NucleusFairness.RoundRobin | phase2/interrupts.c:134-151 | while only time slices end, each process runs once in turn and after as many slices as processes the line is as before |
| NucleusSemaphores.WaitClockAlwaysBlocks | phase2/exceptions.c:294-314 | the clock is never positive, so the caller always blocks, behind the earlier waiters; the fall-through that would lose it is unreachable |
| NucleusSemaphores.TickReleasesAll | phase2/interrupts.c:154-179 | a tick moves exactly the clock's waiters to the ready queue in blocking order, lowers softBlockCount by their number and resets the clock |
| NucleusSemaphores.SleeperWakes | phase2/interrupts.c:154-179 | whoever waits for the clock is released by the very next tick, unless killed first, behind exactly those ready before or asleep longer |
| NucleusSemaphores.DeviceByHand | phase2/exceptions.c:215-261 | P or V by system call on a device semaphore keeps softBlockCount right if and only if it blocks nobody or wakes nobody |
| NucleusSemaphores.InterruptReachesItsDevice | phase2/interrupts.c:62-84 | the first pending device's interrupt reaches the semaphore its requests wait on if and only if it is not number 1 or 2 |
| NucleusSemaphores.DeviceIndexInjective | phase2/interrupts.c:84-100 | two requests share a semaphore only if they are the same request, and none of them uses the clock's |
| NucleusSemaphores.DeviceIndexOnto | phase2/exceptions.c:274-277 | every semaphore of the table but the clock belongs to some request |
| NucleusQueues.ViewStep | phase2/exceptions.c:157-314 | every step acts on every semaphore as one P, one V, one reset, one kill, or not at all |
| NucleusQueues.MovesUp | phase2/scheduler.c:22-28 | a ready process moves up with every dispatch and never back |
| NucleusQueues.StepKeepsOrder | phase2/asl.c:57-127 | no step releases a waiter before an earlier one, kills elsewhere in the queue included |
| NucleusFairness.BoundedWaiting | phase2/scheduler.c:22-28 | a process with k others ahead in the ready queue is among the next k + 1 dispatched, unless killed |
| NucleusFairness.NoOvertaking | phase2/asl.c:57-127 | while p waits on a semaphore, whoever blocked there after p stays behind it or is killed |
| NucleusFairness.ReleasedInOrder | phase2/exceptions.c:238-261 | the step that releases q without killing it has p, who blocked before q, already served or served with it and ahead of it |
| NucleusAccounting.TimeIsCharged | phase2/exceptions.c:284 | p_time changes by exactly the interval charged, and only creation resets it |
| NucleusAccounting.TimeIsSum | phase2/exceptions.c:266-297 | in every reachable state p_time is the sum of the intervals charged to that pcb since it was last created |
| NucleusAccounting.TimeWithinElapsed | phase2/interrupts.c:136-148 | no p_time is ever negative or more than the time since boot |
| NucleusAccounting.NeverChargedTwice | phase2/interrupts.c:136-148 | all intervals charged over a run follow one another, and their total is at most the time since boot |
| NucleusDispatch.RunsSinceDispatch | phase2/scheduler.c:22-28 | in every reachable state with a running process, it has run without a break since the last dispatch, and startTod is the reading that dispatch took |
| NucleusDispatch.ChargedSinceDispatch | phase2/interrupts.c:136-148 | every charged interval starts at the charged process's own latest dispatch |
| NucleusAccounting.DeviceGap | phase2/exceptions.c:166-171 | on a device semaphore the waiters are at most max(0, -value), and the gap is the waiters killed there less the interrupts that found nobody |
| NucleusGap.ClaimOutlivesWaiter | phase2/exceptions.c:166-171 | from every boot state with two free pcbs, a run that leaves a claim behind and one interrupt later wakes a process whose own request is still outstanding |
| NucleusMutex.MutualExclusion | phase2/exceptions.c:215-261 | if each process alternates its P's and V's on a semaphore that starts at m, V is performed only by processes whose P has completed, whoever issued P holds a unit or waits for one, and free units, holders and units lost with dead holders always add up to m |
| NucleusMutex.GrantsMatchSignals | phase2/exceptions.c:215-261 | however an ordinary semaphore is used, completed P's plus free units equal the initial value plus the V's performed, kills included |
| NucleusExceptions.ServedExactlyWhen | phase2/initial.c:99-128 | in every reachable state an interrupt is served if and only if the machine has not stopped, and any other exception if and only if a process runs and a system call's address or device is one the assumptions above admit |
| NucleusExceptions.CallServed | phase2/exceptions.c:31-116 | every system call number, in user and kernel mode, has the effect of its call: who blocks, wakes, ends or is created, which word changes and by how much, and who is charged |
| NucleusExceptions.DeviceServed | phase2/interrupts.c:57-129 | the interrupt decoded from device bits and transmitter status raises exactly the word on which requests to that device wait |
| NucleusExceptions.ExceptionServed | phase2/interrupts.c:22-54 | every set of pending lines and every cause code is served in the order of interruptHandler, with the effect of what is served |
| Nucleus.Machine.FreePcb | phase2/pcb.c:7-10 | the pcb joins the free list last |
| Nucleus.Machine.AllocPcb | phase2/pcb.c:12-35 | the oldest free pcb, cleared unless it was the last, or null |
| Nucleus.Machine.InitPcbs | phase2/pcb.c:36-45 | the free list is the whole table in index order |
| Nucleus.Machine.AslInsert | phase2/exceptions.c:227 | blocking a process that runs always succeeds and yields the map with it at the back of its queue |
| Nucleus.Machine.Scheduler | phase2/scheduler.c:20-48 | refines the scheduler of the specification: dispatch the oldest ready process, or choose how to idle |
| Nucleus.Machine.CreateProcess | phase2/exceptions.c:119-154 | -1 and no change exactly when no pcb is free; otherwise the oldest free pcb becomes the youngest child, last in the ready queue, with a support structure exactly when one is passed; refines the creation step |
| Nucleus.Machine.TerminateChildren | phase2/exceptions.c:159-164 | the loop leaves no children and has the effect of killing the whole forest below at once; it terminates |
| Nucleus.Machine.TerminateProcess | phase2/exceptions.c:157-212 | the recursion terminates and kills exactly the argument and its descendants, whose pcbs join the free list children before parents; for the running process it ends in the scheduler, its pcb not freed |
| Nucleus.Machine.TerminateCurrent | phase2/exceptions.c:53-56 | refines the termination step, tree included; the descendants join the free list children before parents, younger siblings first |
| Nucleus.Machine.Passeren | phase2/exceptions.c:215-235 | P on any word: it falls by 1, and exactly from a value of at most 0 the caller waits there last, uncharged, and the next ready process runs from the dispatch reading on; on an ordinary semaphore it is the P step |
| Nucleus.Machine.Verhogen | phase2/exceptions.c:238-261 | V on any word: it rises by 1 and the longest waiter, if any, joins the ready queue last; on an ordinary semaphore it is the V step |
| Nucleus.Machine.WaitForDevice | phase2/exceptions.c:264-291 | P on the word of that line, device and direction, the caller charged exactly if it blocks; refines the device wait, softBlockCount included |
| Nucleus.Machine.WaitForClock | phase2/exceptions.c:294-314 | P on the clock's word, on which the caller is charged and blocks; refines the clock wait |
| Nucleus.Machine.PassUpOrDie | phase2/exceptions.c:317-333 | no change if there is a support structure, otherwise the caller ends, exactly its descendants become free and everybody else lives on |
| Nucleus.Machine.NonTimerInterrupt | phase2/interrupts.c:57-129 | V on the word of the first pending device (1 and 2 exchanged), the receiver's exactly for a terminal whose transmitter status is 1; refines the device interrupt |
| Nucleus.Machine.PltInterrupt | phase2/interrupts.c:134-151 | the running process is charged since its dispatch and goes behind the ready ones; refines the end of a time slice |
| Nucleus.Machine.DrainClock | phase2/interrupts.c:159-168 | the drain loop terminates and equals waking all clock waiters at once, in order |
| Nucleus.Machine.ItInterrupt | phase2/interrupts.c:154-179 | the clock's word becomes 0 and its waiters, then the running process, join the ready queue; refines the clock tick |
| Nucleus.Machine.SyscallHandler | phase2/exceptions.c:31-116 | what each system call number does to memory, queues, tree and times in kernel mode; in user mode, or with any other number, the caller dies exactly if it has no support structure |
| Nucleus.Machine.GenExceptionHandler | phase2/initial.c:99-128 | line 1 ends a slice, else line 2 clears the clock, else exactly the word of the first device of the first pending line in the order 3, 5, 4, 6, 7 rises by 1 and its longest waiter is readied; cause 8 is the system call, every other exception passes up or kills |
| Nucleus.ClearSemaphores | phase2/initial.c:67-71 | all 49 device semaphores exist and are zero; other memory is untouched |
| Nucleus.Machine.Launch | phase2/initial.c:76-93 | the first process is allocated without a support structure, made ready and dispatched, from a state that may start a run |
| Nucleus.Boot | phase2/initial.c:39-95 | a machine for any table size whose history so far is a run |
| Nucleus.Serve | phase2/initial.c:99-128 | whatever exception is served next, the history of the machine remains a run |
| PagerInvariant.StepOk | phase 3/vmSupport.c:31-61 | every labelled step and every kill keeps mutex, tables, stale-frame and load-order invariants |
| PagerRuns.TablesAgree | phase 3/vmSupport.c:36-57 | a valid entry names the frame that records it, no two frames record the same page, and a frame with an invalid entry is being replaced by the one process inside |
| PagerRuns.PagerMutex | phase 3/vmSupport.c:32-61 | at most one process is between a completed P on swapSem and its V, and swapSem is 1 exactly when none is |
| PagerRuns.ResidentAreRecent | phase 3/vmSupport.c:86-89 | the resident pages are the last POOLSIZE loaded, each once and in the slot its load number gives; only the oldest can be missing, while it is replaced |
| PagerRuns.EvictsOldest | phase 3/vmSupport.c:36-45 | once the pool is full each fault invalidates exactly the page loaded POOLSIZE loads earlier; before that, none |
| PagerRuns.WrittenInOrder | phase 3/vmSupport.c:40-52 | the pages written back are exactly the pages that have left the pool, or are about to be read over, once each and in load order |
| PagerRuns.WrittenOnce | phase 3/vmSupport.c:40-52 | from the choice of a frame to the next load into it there is exactly one write-back, of the page recorded there, if the frame was in use, and none otherwise |
| PagerRuns.LeavesIffAlive | phase 3/vmSupport.c:32-61 | the process inside can still leave the handler if and only if it is alive |
| PagerRuns.WayOut | phase 3/vmSupport.c:34-61 | a live process inside can finish by at most five steps of its own |
| PagerRuns.DeadHolderReached | phase 3/vmSupport.c:32 | from every initial state, one fault and a termination leave a dead process inside |
| PagerRuns.DeadHolderFreezes | phase 3/vmSupport.c:46-48 | after the process inside has died no page is ever loaded, written back, recorded or invalidated again |
| Pager.Pager.constructor | phase 3/initProc.c:31-60 | empty frame records, invalid entries in all page tables, a free mutex |
| Pager.Pager.Enter | phase 3/vmSupport.c:32 | refines P on swapSem; the process blocks, last in the queue, if and only if the value was at most 0, and is otherwise alone inside |
| Pager.Pager.PickVictim | phase 3/vmSupport.c:86-89 | the index grows by 1 modulo the pool size; refines the choice of the next frame |
| Pager.Pager.InvalidateVictim | phase 3/vmSupport.c:38-45 | exactly the entry that the frame record points at becomes invalid, if the frame is occupied, and it is occupied exactly when the pool is full |
| Pager.Pager.InstallPage | phase 3/vmSupport.c:53-59 | frame record and page table entry point at each other; all other records and entries stay |
| Pager.Pager.Leave | phase 3/vmSupport.c:61 | refines V on swapSem; the longest waiting process is returned and alone inside, or the mutex is free |
| Pager.Pager.Terminated | phase2/exceptions.c:172-182 | terminations raise swapSem by the number of waiters among them, the others keep their order, and a holder's unit stays lost |
| Pager.Pager.ServeFault | phase 3/vmSupport.c:34-62 | a process inside writes back exactly the page recorded in the next slot, or nothing if the slot is unused, makes its missing page resident there and lets the longest waiting process in |
| Pager.Pager.HandlePageFault | phase 3/vmSupport.c:23-65 | the handler blocks if and only if the mutex is taken; otherwise, uninterrupted, it writes back the oldest page of a full pool, makes the missing page resident in the next slot and frees the mutex |
| PagerOnNucleus.HistoryIsBothRuns | phase 3/vmSupport.c:32-61 | every joint history projects to a run of the nucleus and a run of the pager, and swapSem in the nucleus is the pager's semaphore throughout |
| PagerOnNucleus.WaitersAgree | phase2/exceptions.c:225-230 | a user process is blocked on swapSem in the nucleus exactly when the pager has it waiting |

## Left out

- Hardware access (LDST, LDCXT, TLBWR, TLBCLR, status and timer registers, device registers): step ends or inputs.
- Saved processor states, system call return values other than that of SYS1, and status-bit encodings.
- Page contents, flash addresses and TLB contents: the transfer address follows the block number, not the frame, and the TLB is cleared only after the new page is installed, so claims about data would not describe this code.
- The TLB-modification branch of the page fault handler, which ends the process before it touches the pager.
- `phase 3/sysSupport.c` (character devices), the phase 3 copies of nucleus files, and the superseded `phase1/`.
- The back pointer p_prev_sib, which the source does not keep consistent, has no invariant.
- The exit of genExceptionHandler with a null currentProc and no pending line, which would dereference NULL.
- Integer width: counters, semaphores and clock readings are unbounded; overflow would need more than 2^31 units.
- OutBlocked: requires the process to stand in the queue its p_semAdd names when that queue exists; otherwise the source dereferences NULL.
- NucleusMutex.MutualExclusion: assumes that each process alternates its own P's and V's, which is its program's doing and not the nucleus's; GrantsMatchSignals assumes nothing.
- PagerOnNucleus.HistoryIsBothRuns: the pcb of a user process is not reused for another address space, and the device waits of flashIO are not matched with device interrupts.
- Nucleus.Machine.NonTimerInterrupt: requires a device bit to be set; with none the source reads an uninitialised device number.
