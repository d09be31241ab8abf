# A verified model of the small-os-simulator kernel

The kernel is built in layers on a simulated machine: contexts and processes (phase 1a, 1b),
counting semaphores (1c), joining (1d), sleeping (2b), a disk driver (2c), and demand paging with
swap (3a to 3d). This project models the state those layers change and proves what the layers are
for. Sizes (processes, semaphores, frames, pages, page size, sectors, tracks) are symbolic and
positive throughout.

## What is proved

**Demand paging is invisible.** `PagingRuns` runs any sequence of process creations, exits,
loads, stores and fault services by one pager against a reference machine that has no frames, no
swap and no clock: one private, zero-initialised memory per process, with room for as many pages
as swap has blocks. Every outcome agrees (`RunRefines`), so a load returns the last byte the
process stored there, or zero (`LoadReturnsLastStored`). Underneath lie the agreement of page
tables, frames and swap blocks in both directions, the clock algorithm, the swap layout, and a
disk transfer loop that refines a flat copy.

**The faults come through a queue.** `FaultProtocol` puts the queue of page faults and the waiting
processes around the paging system: every run of the protocol is a run of `PagingRuns`, faults are
served once each in order of arrival, and a process goes on only after its own fault was served.

**The process table is consistent under every interleaving.** `KernelRuns` lets forks, quits,
reaps, joins, P's (one turn of the retry loop at a time), V's, dispatches and semaphore creation
and freeing happen in any order. As in the source, P1_P, P1_Quit and P1_Join act on the process
that P1_GetPid's scan names, which need not be the one making the call. What is proved:

- In every run, whomever the scan names: each process is in exactly the place its state says, the
  process tree, conservation of semaphore values and, from it, mutual exclusion, no joining process
  with a quit child left to reap, and a caller that is RUNNING and that the scan names if and only
  if no process in a lower slot is marked RUNNING.
- No lost wakeup, although a V does not hand over the unit: a run loses none if and only if each V
  that leaves processes waiting wakes one that called P1_P on that semaphore, or finds more woken
  than units (`VsGuardedIff`). For that it is enough that each P that blocks finds nobody marked
  RUNNING below its caller (`PsGuardedSuffices`), which in turn is exactly what it takes for none but
  callers of P1_P to be blocked (`PsGuardedIff`). Quits and joins may find what they like.
- Reaping in quit order with the reported status: a run keeps reports and quit lists in agreement if
  and only if each quit finds nobody marked RUNNING below its caller, or takes process 0 and halts
  the machine (`QuitsGuardedIff`). P's and joins may find what they like.
- Both conditions fail in runs of the code (`WrongScan`), and both hold in every run in which
  processes fork only children of better priority (`BetterChildrenAreGuarded`).

**What each operation does, exactly.** `KernelEffects`, `DispatchOrder` and `Eviction` say of every
kernel operation and of the clock which answer comes when, which slot, field and place in which queue
changes, and that nothing else does, on the tables themselves. `KernelHistory` carries the arguments of
forks through whole runs: a reap with a tag returns only children forked with that tag, and names stay
unique.

**The disk protocol and the sleepers.** `DiskProtocol` interleaves any number of callers with the
driver and proves that the queue is never found empty after the driver's wait and that each
caller is released once, with the result of carrying the requests out in order of arrival.
`Sleepers` proves that a sleep is ended by exactly one V, from a scan that came late enough.

## How it is laid out

Each part comes twice. Functions over values say what one operation does to the state, and the
lemmas about runs are about them. Classes with the arrays, counters and loops of the source
(`Disk.Unit`, `Disk.DiskLayer`, `VirtualMemory.VmSystem`, `ReadyQueue.DispatchQueue`,
`KernelSystem.System`, `LinkedQueues.RequestQueue`, `LinkedQueues.WaitQueue`,
`Sleepers.SleepTable`) are proved to do exactly what those functions say, through an abstraction
function `Abs()` or `Contents()`.

| file | module of the source |
|---|---|
| `Disk.dfy`, `DiskProtocol.dfy` | `phase2/phase2c` |
| `RequestLine.dfy`, `LinkedQueues.dfy` | the queues of `phase2/phase2c` and `phase3/phase3c`, and the wait queue of `phase1/phase1c` |
| `SwapLayout.dfy`, `Clock.dfy`, `Paging*.dfy`, `Eviction.dfy`, `FrameMapping.dfy`, `VirtualMemory.dfy`, `FaultProtocol.dfy` | `phase3/phase3a`, `phase3/phase3c`, `phase3/phase3d` |
| `ReadyQueue.dfy`, `DispatchOrder.dfy`, `Kernel*.dfy`, `CurrentProcess.dfy`, `WrongScan.dfy` | `phase1/phase1a` to `phase1/phase1d` |
| `Sleepers.dfy` | `phase2/phase2b` |
| `Common.dfy` | sets, sequences and arithmetic used by the others |

In the run modules a step is defined only in states that satisfy the invariant, which is why
`Enabled` names it. It never stops a run: the start satisfies the invariant (`BootedInv`,
`StartedInv`) and every step keeps it (`StepRefines`, `StepKeeps`), so along a run `Enabled` is
just its other conjuncts.

## Where the code and its documentation part ways

- P1_GetPid is meant to name the running process. It scans for the first process marked RUNNING
  (`phase1/phase1b/phase1b.c:122-136`), and a fork marks the new process RUNNING before it runs
  (line 204), until a dispatch next moves it off the head. The process really making a call is the
  head of the ready queue, which is what P1_Fork and P1GetChildStatus use (lines 205-211, 296),
  while P1_P, P1_Quit and P1_Join use the scan (`phase1/phase1c/phase1c.c:155-157`,
  `phase1/phase1b/phase1b.c:240-242`, `phase1/phase1d/phase1d.c:253`). `ScanInEveryRun` has the exact
  condition for the two to agree, in every reachable state; `TryPActsOnCaller`, `JoinActsOnCaller` and
  `QuitActsOnCaller` the exact condition for an operation to act on its caller; `ScanCanBeWrong`,
  `WakeupCanBeLost` and `WrongProcessCanQuit` are runs from start-up in which the scan is wrong, a
  wakeup is lost, and a process quits that never asked to. (In the last run the quit's dispatch leaves
  the caller at the head, and the caller would go on to the failing assertion at the end of P1_Quit,
  which ends the whole simulator; the run exists because the dispatch has enabled interrupts again
  and an interrupt comes first.) The cause is a process of low slot
  number, forked without a dispatch, that is still marked RUNNING when its parent blocks.
- P3FrameFreeAll, which is to give back a process's frames (`phase3/phase3c/phase3c.c:163-193`) finds none:
  `P3_FreePageTable` calls `P3SwapFreeAll` first, which clears every entry. `ExitReturnsNoFrame`
  states this, and `StepKeepsFramesTaken` its consequence, that a frame once taken from the pool
  comes back only through the clock.
- An eviction writes the victim out if it is dirty, and a resident page always is: the pager fills every frame
  through its own mapping, which sets the dirty bit, so no resident page is ever clean
  (`RunResidentsDirty`). The clean case is modelled and its agreement with the disk is part of the
  invariant all the same.
- `P3FrameMap` then `P3FrameUnmap` is not always the identity: `MapThenUnmap` has the exact
  condition, and `EmptyTableRestored` the case the pager relies on.
- A reaped process's context is freed twice (`phase1/phase1b/phase1b.c:311-322`); the second call
  only reports an error, and the model keeps both.

## Model

| member | source | states |
|---|---|---|
| PagingRuns.RunRefines | phase3/phase3c/phase3c.c:596-662 | Over any run from start-up of creations, exits, loads, stores and fault services, the paging system keeps its invariant, stands for the reference memory, and gives the outcomes the reference gives: bytes loaded, pages mapped, out of swap |
| PagingRuns.LoadReturnsLastStored | phase3/phase3d/phase3d.c:303-506 | In every run, a load of a mapped page returns the byte its process last stored at that address since its table was last freed, or zero if it stored none |
| PagingRuns.StepRefines | phase3/phase3c/phase3c.c:612-662 | Each event maps a state standing for a memory to one standing for the reference's next memory, with the same outcome, and keeps the invariant |
| PagingRuns.AgreementInEveryRun | phase3/phase3d/phase3d.c:353-387 | In every reachable state: a mapped page's frame names a block of that very page and vice versa, no two mapped pages share a frame, a clean resident frame equals its block on disk, a page has at most one block, the free counter is the number of blocks without owner, no frame is busy |
| PagingRuns.FaultRefines | phase3/phase3c/phase3c.c:612-662 | A fault service is a no-op on the memory stood for, except that a page never touched appears as zeroes; it fails exactly when the reference has no room |
| PagingRuns.FaultOutcome | phase3/phase3d/phase3d.c:446-478 | A fault service is out of swap, gives a fresh page, or brings one back exactly when the reference finds no room, adds a zero page, or changes nothing |
| PagingRuns.LoadRefines | phase3/phase3c/phase3c.c:657-662 | A load of a mapped page yields the byte of the memory stood for and changes nothing in it |
| PagingRuns.StoreRefines | phase3/phase3c/phase3c.c:657-662 | A store to a mapped page changes that one byte of the memory stood for |
| PagingRuns.ExitRefines | phase3/phase3a/phase3a.c:226-258 | An exit forgets exactly the process's own pages |
| PagingRuns.TouchedPages | phase3/phase3d/phase3d.c:271-280 | Swap accounting: pages touched plus free blocks are all the blocks |
| PagingRuns.BootedInv | phase3/phase3d/phase3d.c:141-173 | The state after initialisation satisfies the invariant and stands for the empty memory |
| PagingRuns.RunResidentsDirty | phase3/phase3d/phase3d.c:465-473 | In every reachable state each frame that holds a page is dirty |
| PagingRuns.StepKeepsFramesTaken | phase3/phase3a/phase3a.c:238-250 | No event, an exit included, returns a taken frame to the pool |
| PagingSteps.FaultKeepsContents | phase3/phase3c/phase3c.c:612-662 | A fault service keeps the invariant and the contents of every page, the faulting page, the victim and all others; it is out of swap exactly when the page has no block and none is free; a page without a block gets a free one and reads as zeroes |
| PagingSteps.FaultMaps | phase3/phase3c/phase3c.c:657-661 | A served fault leaves the page mapped, readable and writable, at the frame that was found |
| PagingSteps.SwapOutKeepsContents | phase3/phase3d/phase3d.c:303-391 | An eviction changes no page's contents, leaves the victim frame mapped by nobody and every other frame's bookkeeping alone, and keeps clean frames equal to their blocks |
| PagingSteps.SwapInRestores | phase3/phase3d/phase3d.c:456-473 | A page that has a block comes back with its contents, no block changes owner and no other page changes |
| PagingSteps.SwapInFresh | phase3/phase3d/phase3d.c:478-503 | A page without a block gets the first free block, and after the pager's zero-fill it is mapped and all zeroes, nothing else having changed |
| PagingSteps.SwapInFull | phase3/phase3d/phase3d.c:474-477 | With no block to give, no page and no block changes and the invariant is restored |
| PagingSteps.StoreChangesOneByte | phase3/phase3c/phase3c.c:657-662 | A store changes one byte of one page and marks its frame dirty, so that the invariant survives |
| PagingSteps.LoadKeeps | phase3/phase3c/phase3c.c:657-662 | A load returns a byte of the page and changes no page; the frame is referenced afterwards, and no other bit changes |
| PagingSteps.SpawnKeeps | phase3/phase3a/phase3a.c:184-203 | A new process has a table of the full number of pages, every entry not in core, unreadable and unwritable; no other table and no page changes |
| PagingSteps.ExitKeepsOthers | phase3/phase3d/phase3d.c:246-286 | An exit frees exactly the process's blocks, keeps the invariant and changes no other process's page |
| PagingSteps.ExitReturnsNoFrame | phase3/phase3a/phase3a.c:238-244 | After P3SwapFreeAll, P3FrameFreeAll changes nothing; the pool is what it was |
| PagingSteps.CountDisowned | phase3/phase3d/phase3d.c:271-280 | Clearing a process's blocks raises the number of free blocks by exactly the number it owned |
| PagingSteps.AcquireReady | phase3/phase3c/phase3c.c:614-629 | Either way of getting a frame yields one that no page maps and keeps all contents |
| Eviction.EvictionTakes | phase3/phase3d/phase3d.c:337-387 | An eviction takes the first idle unreferenced frame in cyclic order after the remembered hand, or the first idle one if all are referenced, and leaves the hand there; only that frame becomes busy and loses its block; reference bits are cleared of exactly the idle frames passed, the dirty bit only of the frame written out |
| Eviction.ChosenOnce | phase3/phase3d/phase3d.c:337-344 | There is only one such frame |
| Eviction.FaultEvicts | phase3/phase3c/phase3c.c:614-629 | A fault that finds the pool used up evicts that frame and maps the page in it; the other frames keep their pages and lose only reference bits |
| Eviction.FaultTakesPool | phase3/phase3c/phase3c.c:614-625 | A fault that finds an unused frame in the pool takes the first such frame for good and maps the page in it; the hand and all other frames stay as they are |
| Eviction.SwapInReplies | phase3/phase3d/phase3d.c:411-503 | The first bad argument of pid, page and frame decides the error and nothing changes; otherwise the page is brought back, is empty, or swap is full, according to whether it has a block and whether any is free |
| Paging.NoSharedFrames | phase3/phase3d/phase3d.c:384-387 | Two mapped pages never share a frame |
| Paging.FreeExists | phase3/phase3d/phase3d.c:446-493 | The free-block counter is positive exactly when the search finds a free block, so an allocation never uses index -1 |
| Clock.ClockChoice | phase3/phase3d/phase3d.c:337-350 | With some frame idle the clock stops within two turns; it takes the idle unreferenced frame nearest after the hand, or the nearest idle one if all are referenced, and clears the reference bit of exactly the idle frames it passed |
| Clock.Probe | phase3/phase3d/phase3d.c:337-350 | One turn of the loop advances the hand, the reference bits and the stopping test as that choice says |
| SwapLayout.FrameFits | phase3/phase3d/phase3d.c:163-166 | The sectors per frame are the least that hold a frame |
| SwapLayout.BlockInside | phase3/phase3d/phase3d.c:168-173 | Every block lies on the disk, its track and first sector decode its linear address, and a transfer of it passes the disk layer's checks, straddling tracks or not |
| SwapLayout.BlocksDisjoint | phase3/phase3d/phase3d.c:490-492 | Distinct blocks occupy disjoint sector ranges |
| SwapLayout.WriteBlockPages | phase3/phase3d/phase3d.c:374-375 | Writing a block changes that block's page image to the bytes written and no other block's |
| FrameMapping.UnmapFinds | phase3/phase3c/phase3c.c:287-301 | After a successful map, the unmap by the same process finds an entry, so the search never runs off the table |
| FrameMapping.MapTakesFirst | phase3/phase3c/phase3c.c:215-241 | A frame that does not exist is refused, then a full table; otherwise exactly the first entry not in core is set, readable and writable, with the owner mark, and nothing else |
| FrameMapping.UnmapTakesFirst | phase3/phase3c/phase3c.c:276-307 | A frame that does not exist is refused, then one the process has not marked; otherwise exactly the first entry for the frame is cleared, with the owner mark, and nothing else |
| FrameMapping.MapThenUnmap | phase3/phase3c/phase3c.c:210-312 | Map then unmap restores the process's mappings and the owner marks if and only if the frame had no mark and no earlier page of the table named it |
| FrameMapping.EmptyTableRestored | phase3/phase3c/phase3c.c:225-241 | From an empty table, such as the pager's between fault services, map uses page 0 and unmap gives back the identical state |
| VirtualMemory.VmSystem.constructor | phase3/phase3d/phase3d.c:141-173 | Initialisation of pools, tables and counters yields a start-up state |
| VirtualMemory.VmSystem.UserLoad | phase3/phase3c/phase3c.c:657-662 | A load through the MMU returns the mapped frame's byte and sets its reference bit only |
| VirtualMemory.VmSystem.UserStore | phase3/phase3c/phase3c.c:657-662 | A store through the MMU changes one byte of the mapped frame and sets reference and dirty bits |
| VirtualMemory.VmSystem.P3FrameMap | phase3/phase3c/phase3c.c:210-252 | In the table of the process P1_GetPid names, the first page not in core is mapped to the frame, with both error replies |
| VirtualMemory.VmSystem.P3FrameUnmap | phase3/phase3c/phase3c.c:269-312 | In the table of the process P1_GetPid names, the first entry for the frame is cleared, with both error replies |
| VirtualMemory.VmSystem.SelectFrame | phase3/phase3d/phase3d.c:337-350 | The clock loop ends, with the hand at the chosen victim and only the passed reference bits cleared |
| VirtualMemory.VmSystem.WriteBack | phase3/phase3d/phase3d.c:365-376 | The pager copies the frame out through its own mapping and writes it to its block; only that block and the frame's reference bit change |
| VirtualMemory.VmSystem.ReadIn | phase3/phase3d/phase3d.c:457-472 | The block's page image arrives in the frame through the pager's mapping, which marks it dirty |
| VirtualMemory.VmSystem.WriteIfDirty | phase3/phase3d/phase3d.c:364-382 | The victim goes to its block if it is dirty and has one, and is clean and unreferenced afterwards; otherwise nothing changes |
| VirtualMemory.VmSystem.P3SwapOut | phase3/phase3d/phase3d.c:303-391 | The method has exactly the eviction's effect on the whole state |
| VirtualMemory.VmSystem.SearchBlocks | phase3/phase3d/phase3d.c:445-454 | The early-exit search finds the page's block if there is one, and otherwise the first free block |
| VirtualMemory.VmSystem.P3SwapIn | phase3/phase3d/phase3d.c:411-506 | The method has exactly the swap-in's effect and reply on the whole state, the three argument errors included |
| VirtualMemory.VmSystem.FindFrame | phase3/phase3c/phase3c.c:614-629 | A pool frame if one is unused, else an evicted one |
| VirtualMemory.VmSystem.FillFrame | phase3/phase3c/phase3c.c:630-641 | With the scan naming the pager, the page's bytes come into a frame nobody maps, or zeroes if it has none yet |
| VirtualMemory.VmSystem.ServiceFault | phase3/phase3c/phase3c.c:612-662 | While the scan names the pager, the pager's loop body has exactly the fault service's effect, succeeding unless swap is full |
| VirtualMemory.VmSystem.RewritePte | phase3/phase3c/phase3c.c:657-661 | The pager's last writes to the page table change nothing |
| VirtualMemory.VmSystem.P3AllocatePageTable | phase3/phase3a/phase3a.c:184-203 | A process gets an empty table; an invalid pid changes nothing |
| VirtualMemory.VmSystem.P3SwapFreeAll | phase3/phase3d/phase3d.c:246-286 | Entries unmapped, their frames idle and blockless, the process's blocks freed and counted |
| VirtualMemory.VmSystem.P3FrameFreeAll | phase3/phase3c/phase3c.c:163-193 | Every in-core entry cleared and its frame returned |
| VirtualMemory.VmSystem.P3FreePageTable | phase3/phase3a/phase3a.c:226-258 | The method has exactly the exit's effect, nothing for an invalid pid or a process without a table |
| Disk.WriteAt | phase2/phase2c/phase2c.c:293-302 | Buffer piece i lands in linear sector start+i and no other sector changes |
| Disk.ReadAt | phase2/phase2c/phase2c.c:293-302 | Piece i of a read is linear sector start+i |
| Disk.ReadAfterWrite | phase2/phase2c/phase2c.c:273-308 | Reading the range just written returns the buffer |
| Disk.ReadElsewhere | phase2/phase2c/phase2c.c:273-308 | A write does not show in a read of a disjoint range |
| Disk.AcceptedRange | phase2/phase2c/phase2c.c:376-385 | The checks accept exactly the requests that start on the disk and end on it in linear addresses |
| Disk.FirstBadCheck | phase2/phase2c/phase2c.c:367-385 | Which error a bad request gets: the first that is wrong of unit, buffer, first sector, track and range; an empty request is accepted whatever the rest |
| Disk.Unit.ReadWriteHelper | phase2/phase2c/phase2c.c:273-308 | The seek-and-transfer loop ends, never seeks off the disk, and equals a flat copy between the buffer and consecutive linear sectors |
| Disk.DiskLayer.ReaderWriter | phase2/phase2c/phase2c.c:364-402 | The reply is that of the checks in their order; a refused or empty request changes nothing, an accepted one is a flat copy on the named unit |
| DiskProtocol.RunKeeps | phase2/phase2c/phase2c.c:317-359 | Every interleaving of callers and driver keeps the queue count, the arrival order, agreement with the reference disk and each caller's standing |
| RequestLine.StepCounted | phase2/phase2c/phase2c.c:51-113 | Queue length = ready value + callers that enqueued but have not signalled + a server past its wait, kept by every step of callers and server; what is queued is what has arrived and is not yet carried out, in order |
| RequestLine.StepKeeps | phase3/phase3c/phase3c.c:343-400 | The queue protocol shared by disk requests and page faults: the count, the order, and a caller's semaphore holding a unit exactly when its own request is finished |
| RequestLine.InvServes | phase3/phase3c/phase3c.c:373-400 | A server past its wait finds the oldest request; a caller that can go on has had its own request carried out and has exactly one unit |
| FaultProtocol.RunsArePagingRuns | phase3/phase3c/phase3c.c:437-468 | Every run of faulting processes and the pager is a run of the paging system in which the faults are served once each in order of arrival, and the pager never meets a fault whose page is mapped or whose table is gone |
| FaultProtocol.ResumesAfterItsFault | phase3/phase3c/phase3c.c:456-467 | In every run, when a faulting process's semaphore lets it go on, its own fault has been served, with the answer that service gave; told that swap is full it can only exit |
| FaultProtocol.StepSpares | phase3/phase3d/phase3d.c:303-506 | What one process does, its fault services included, maps no page of another process and takes no page table from it |
| FaultProtocol.ServeKeeps | phase3/phase3c/phase3c.c:596-662 | When a fault's turn comes its service's precondition still holds, and the service keeps the protocol's invariant |
| DiskProtocol.RemoveNeverFails | phase2/phase2c/phase2c.c:83-113 | In every run the driver never finds the queue empty and takes the requests in order of arrival, each once |
| DiskProtocol.ReleasedInOrder | phase2/phase2c/phase2c.c:388-401 | A caller is released only after its own request was carried out, with the bytes that requests carried out one by one in order of arrival give, and its semaphore is back at zero |
| LinkedQueues.RequestQueue.Insert | phase2/phase2c/phase2c.c:51-78 | The list with head and tail pointers gains the request at its end |
| LinkedQueues.RequestQueue.Remove | phase2/phase2c/phase2c.c:83-113 | The oldest request leaves the list; it fails exactly when the list is empty |
| LinkedQueues.WaitQueue.Insert | phase1/phase1c/phase1c.c:37-51 | The list gains the pid at its end |
| LinkedQueues.WaitQueue.Remove | phase1/phase1c/phase1c.c:53-63 | The pid longest in the list leaves it, -1 when there is none |
| Sleepers.SleepTable.Register | phase2/phase2b/phase2b.c:144-171 | Who waits, and which slot is set to what |
| Sleepers.SleepTable.Scan | phase2/phase2b/phase2b.c:123-132 | One V for each sleeper due and none for others; afterwards nobody registered is due |
| Sleepers.SleepsLongEnough | phase2/phase2b/phase2b.c:155-168 | A sleep ends after exactly one V, from a scan not earlier than start + seconds*1000000, and leaves semaphore and slot as before it, whether the scan or the wait comes first |
| Sleepers.StartedInv | phase2/phase2b/phase2b.c:47-55 | What P2ClockInit leaves, no slot in use and every semaphore at 0, satisfies the invariant |
| Sleepers.RunKeeps | phase2/phase2b/phase2b.c:121-168 | Every interleaving of sleeps, scans and returns keeps: registered and unsignalled, or signalled once by a late enough scan |
| Sleepers.ScanReleases | phase2/phase2b/phase2b.c:123-132 | A scan at or after a sleeper's deadline, or an earlier one, has made its return possible |
| ReadyQueue.DispatchPicksBest | phase1/phase1b/phase1b.c:386-421 | Dispatching permutes the queue and leaves a process of best priority at its head |
| ReadyQueue.BestOtherIsFirstBest | phase1/phase1b/phase1b.c:389-398 | The selection loop finds the first entry behind the head with the best priority |
| DispatchOrder.DispatchPlaces | phase1/phase1b/phase1b.c:386-421 | Where every entry goes: if someone is better than the head, the first of the best changes places with the head, rotating or not; otherwise, rotating, the first as good as the head goes to the front and the head to the end; otherwise nothing moves |
| DispatchOrder.ReorderedOneWay | phase1/phase1b/phase1b.c:386-421 | That description leaves one queue only |
| DispatchOrder.WithoutPidOrder | phase1/phase1b/phase1b.c:96-107 | Taking a process out of the queue leaves the others in their order |
| ReadyQueue.RotateOnce | phase1/phase1b/phase1b.c:411-421 | From a best head, one rotating dispatch moves the head's class on by one and keeps all other entries in order |
| ReadyQueue.RoundRobin | phase1/phase1b/phase1b.c:386-421 | m rotating dispatches put the m-th process of the best class at the head; a full round puts each there once and restores the class's order; no other entry moves relative to the others |
| ReadyQueue.DispatchQueue.Insert | phase1/phase1b/phase1b.c:53-67 | Appends unless the queue is full or the pid is in it, reporting failure only when full |
| ReadyQueue.DispatchQueue.Swap | phase1/phase1b/phase1b.c:79-86 | Exchanges two entries |
| ReadyQueue.DispatchQueue.Shift | phase1/phase1b/phase1b.c:88-95 | Moves an entry to the end, the ones behind it moving up |
| ReadyQueue.DispatchQueue.RemoveByPid | phase1/phase1b/phase1b.c:96-107 | Takes the first entry with the pid out, order kept, -1 if there is none |
| ReadyQueue.DispatchQueue.Reorder | phase1/phase1b/phase1b.c:386-421 | The selection loop with swap and shift reorders the array as a dispatch does |
| KernelRuns.RunKeeps | phase1/phase1b/phase1b.c:148-421 | In every run of kernel actions, acting on whomever the scan names, until the machine halts: placement, tree, quit lists, conservation, and a RUNNING caller |
| KernelRuns.StepKeeps | phase1/phase1c/phase1c.c:135-188 | Every action, including each turn of P and each V, keeps these or halts the machine |
| KernelRuns.RunOthers | phase1/phase1b/phase1b.c:395-421 | In every run nobody but the caller is both marked RUNNING and inside P1_P, and whoever has been woken inside P1_P is running or ready |
| KernelRuns.PGuardedRunKeeps | phase1/phase1c/phase1c.c:147-184 | In every run whose blocking P's find nobody marked RUNNING below the caller, those blocked are inside P1_P on that semaphore and no wakeup is lost, whatever quits and joins find |
| KernelRuns.TryPBlocksCallerIff | phase1/phase1c/phase1c.c:149-157 | A turn of P leaves only callers of P1_P blocked if and only if it takes a unit or finds nobody marked RUNNING below its caller |
| KernelRuns.PsGuardedIff | phase1/phase1c/phase1c.c:149-157 | Throughout a run none but callers of P1_P are blocked, on the semaphore they called it for, if and only if every P of the run meets that condition |
| KernelRuns.VLosesNoneIff | phase1/phase1c/phase1c.c:176-184 | A V loses no wakeup if and only if it leaves nobody waiting, wakes a process that called P1_P on that semaphore, or finds more woken than units |
| KernelRuns.VsGuardedIff | phase1/phase1c/phase1c.c:147-184 | A run loses no wakeup at any moment if and only if every V of the run meets that condition |
| KernelRuns.PsGuardedSuffices | phase1/phase1c/phase1c.c:147-184 | If every P of the run finds the scan right or a unit, every V meets its condition, and no wakeup is lost |
| KernelRuns.QuitOrderedIff | phase1/phase1b/phase1b.c:240-281 | A quit after which the machine runs on keeps what parents still have to learn equal to what is on their quit lists if and only if nobody below its caller is marked RUNNING |
| KernelRuns.QuitsGuardedIff | phase1/phase1b/phase1b.c:240-281 | Throughout a run reports and quit lists agree if and only if every quit of the run meets that condition or takes process 0, which halts the machine |
| KernelRuns.JoinersHaveReaped | phase1/phase1b/phase1b.c:342-344 | In every run a joining process has no quit child left to reap |
| KernelRuns.NoWakeupIsLost | phase1/phase1c/phase1c.c:147-184 | In every run whose V's meet that exact condition, a semaphore with waiters has a value of at most the number of processes woken by a V that have not tried again yet; so if it is positive, such a process exists and is in the ready queue |
| KernelRuns.ValueIsConserved | phase1/phase1c/phase1c.c:149-176 | In every run, value = initial value + V's - completed P's |
| KernelRuns.RunUnitsHeld | phase1/phase1c/phase1c.c:135-188 | If V's on a semaphore are done only by holders of a unit, then value + units held = initial value throughout the run |
| KernelRuns.MutualExclusion | phase1/phase1c/phase1c.c:135-188 | A semaphore created with 1 and used P-then-V has at most one holder in every interleaving, and value 0 while it has one |
| KernelRuns.EveryProcessInItsPlace | phase1/phase1b/phase1b.c:330-361 | In every run, whomever the scan names, a process is in the ready queue iff RUNNING or READY, in the queue of semaphore s iff BLOCKED with sid s, each at most once and with its own priority; slot k of the process table is used iff context k is, and then its cid is k |
| KernelRuns.TreeInEveryRun | phase1/phase1b/phase1b.c:199-282 | In every run, whomever a quit takes, each live process except 0 is in exactly its live parent's list, once, and its chain of parents is live and ends at process 0 |
| KernelRuns.ChildrenFit | phase1/phase1b/phase1b.c:210-211 | The fixed-size arrays of children and quit children never overflow |
| KernelRuns.ReapedInQuitOrder | phase1/phase1b/phase1b.c:266-321 | In every run whose quits meet their exact condition, what a parent has reaped with a tag is a prefix of what its children with that tag reported in quitting, pids and statuses, each once; a joining process has reaped everything |
| KernelSteps.ForkGood | phase1/phase1b/phase1b.c:148-230 | A successful fork keeps the invariant with the new process youngest; any error reply changes nothing |
| KernelSteps.QuitGood | phase1/phase1b/phase1b.c:232-285 | A quit of any running or ready process, in particular of the one P1_GetPid names, keeps the invariant with its reparenting and notification |
| KernelSteps.RootQuitEndsAll | phase1/phase1b/phase1b.c:243-265 | When process 0 quits the machine halts; without live children it was the only live process and the ready queue is then empty |
| KernelSteps.RootIsOldest | phase1/phase1b/phase1b.c:199-213 | Every other live process was forked after process 0, which is live |
| KernelSteps.ReapFacts | phase1/phase1b/phase1b.c:302-322 | A successful P1GetChildStatus returns a quit child of the caller with the tag and the status it quit with, and frees its process and context slots |
| KernelSteps.ReapGood | phase1/phase1b/phase1b.c:287-328 | Reaping keeps the invariant whatever the reply |
| KernelSteps.JoinGood | phase1/phase1d/phase1d.c:239-259 | A waiting turn of the join loop keeps the invariant whichever running or ready process it sets JOINING, so a joining process has no unreaped quit child |
| KernelSteps.DispatchGood | phase1/phase1b/phase1b.c:363-426 | A dispatch keeps the invariant, halting if nobody can run |
| KernelSteps.TryPGood | phase1/phase1c/phase1c.c:147-160 | A turn of P keeps the invariant, taking a unit or blocking whichever running or ready process P1_GetPid names |
| KernelSteps.VGood | phase1/phase1c/phase1c.c:166-188 | A V keeps the invariant, waking the first waiter |
| KernelSteps.SemCreateGood | phase1/phase1c/phase1c.c:76-117 | Creating a semaphore keeps the invariant whatever the reply |
| KernelSteps.SemFreeGood | phase1/phase1c/phase1c.c:119-133 | Freeing a semaphore keeps the invariant whatever the reply |
| KernelSteps.SlotsAgree | phase1/phase1b/phase1b.c:171-192 | The first free process slot is the first free context slot, so the context creation asserted in fork succeeds with cid = pid |
| KernelSteps.BlockPlaced | phase1/phase1c/phase1c.c:154-157 | Blocking moves the process named, any running or ready one, from the ready queue to the end of that semaphore's queue |
| KernelSteps.WokenPlaced | phase1/phase1c/phase1c.c:178-183 | Waking moves the first waiter from its queue to the ready queue |
| Kernel.InsertNeverDrops | phase1/phase1b/phase1b.c:53-67 | The early return on a full queue never drops a process that is not queued |
| Kernel.ScanNamesCaller | phase1/phase1b/phase1b.c:122-136 | While the head of the queue is RUNNING the scan names a running process at or below its slot, and the head itself if and only if no process below is marked RUNNING |
| KernelEffects.ScanFindsFirst | phase1/phase1b/phase1b.c:122-136 | P1_GetPid names the first process in use that is RUNNING, -1 if there is none |
| KernelEffects.ContextCreateEffect | phase1/phase1a/phase1a.c:64-80 | A small stack is refused, then a full table; otherwise the first free slot is taken; a refusal changes nothing |
| KernelEffects.ContextFreeEffect | phase1/phase1a/phase1a.c:118-134 | A slot in use becomes free and no other changes; any other slot, one just freed included, is refused |
| KernelEffects.SetStateEffect | phase1/phase1b/phase1b.c:335-357 | Each refusal exactly when it is due, changing nothing; otherwise the state, the semaphore only of a blocked process, and the place in the ready queue: at the end if READY and not queued, out of it with the order kept if not READY |
| KernelEffects.DispatchEffect | phase1/phase1b/phase1b.c:363-426 | Halt on an empty queue; otherwise the entries are reordered as DispatchPlaces says, the new head is RUNNING, an old head that was replaced READY, and nothing else changes |
| KernelEffects.ForkAnswers | phase1/phase1b/phase1b.c:158-186 | The first of tag, priority, stack, missing name, long name, name in use and full table that is wrong decides the answer; a refusal changes nothing |
| KernelEffects.ForkEffect | phase1/phase1b/phase1b.c:187-218 | The first free slot holds a process with the name, priority and tag given, the caller as parent and no children; it is last in the ready queue and among its parent's children; nothing else changes but what the dispatch of a first or better child does |
| KernelEffects.QuitEffect | phase1/phase1b/phase1b.c:240-281 | The status is recorded; the children have process 0 as parent and are last on its list, in order; the process moves from its parent's children to the end of the parent's quit list; a joining parent is last in the ready queue; then the dispatch, and nothing else |
| KernelEffects.ReapAnswers | phase1/phase1b/phase1b.c:292-308 | For tag 0 or 1: NO_QUIT if and only if the caller's quit list is empty, NO_CHILDREN if and only if it is not and nobody on it has the tag, success if and only if somebody has; a refusal changes nothing |
| KernelEffects.ReapEffect | phase1/phase1b/phase1b.c:302-322 | The first child on the quit list with the tag is returned with its status, its slots are free, the others stay on the list in order, and nothing else changes |
| KernelEffects.JoinWaitEffect | phase1/phase1d/phase1d.c:251-255 | A process without quit children leaves the ready queue, JOINING, one with some stays; then the dispatch |
| KernelEffects.TryPEffect | phase1/phase1c/phase1c.c:149-159 | With a unit the value drops by one and nothing else changes; without one the process is blocked on this semaphore, out of the ready queue and last in the semaphore's; then the dispatch |
| KernelEffects.VEffect | phase1/phase1c/phase1c.c:168-184 | The value rises by one; the first waiter leaves the semaphore's queue for the end of the ready queue, READY, and the dispatch follows; a semaphore not in use is refused |
| KernelEffects.SemCreateEffect | phase1/phase1c/phase1c.c:84-112 | No name, a long name, a name in use and a full table are refused in this order, changing nothing; otherwise the first free slot holds the semaphore with its name, its value and nobody waiting |
| KernelEffects.SemFreeEffect | phase1/phase1c/phase1c.c:124-130 | Success if and only if the semaphore is in use with nobody waiting; it is then not in use, everything else is as it was, and freeing it again is refused; a refusal changes nothing |
| KernelEffects.CreateFreeCreate | phase2/phase2c/phase2c.c:391-399 | A semaphore created, freed and created again under its name, as each disk request and each page fault does: the name is accepted every time, for the same slot, and the semaphore is as new |
| KernelHistory.ForkRecorded | phase1/phase1b/phase1b.c:187-213 | In a run, a successful fork gives its slot the name, priority and tag of the call and the caller as parent, and leaves those of every other process alone; a refused one changes nothing |
| KernelHistory.IdentityInEveryRun | phase1/phase1b/phase1b.c:193-198 | In every run each process in use has the name, priority and tag given by the fork that made it |
| KernelHistory.ReapsForkedWithTag | phase1/phase1b/phase1b.c:302-322 | In every run a reap with a tag returns only a quit child that was forked with that tag |
| KernelHistory.NamesInEveryRun | phase1/phase1b/phase1b.c:172-186 | In every run no two processes in use and no two semaphores in use have the same name |
| CurrentProcess.ScanInEveryRun | phase1/phase1b/phase1b.c:122-136 | In every reachable state after the first fork the caller is RUNNING, and P1_GetPid names it if and only if no process in a lower slot is marked RUNNING |
| CurrentProcess.TryPActsOnCaller | phase1/phase1c/phase1c.c:149-157 | A turn of P has the effect it would have on its caller if and only if that condition holds or there is a unit to take |
| CurrentProcess.QuitActsOnCaller | phase1/phase1b/phase1b.c:240-281 | A quit has the effect it would have on its caller if and only if that condition holds |
| CurrentProcess.JoinActsOnCaller | phase1/phase1d/phase1d.c:251-254 | A join that waits has the effect it would have on its caller if and only if that condition holds |
| CurrentProcess.BetterChildrenAreGuarded | phase1/phase1b/phase1b.c:204-218 | If processes fork only children of better priority than themselves, the caller is always the only process marked RUNNING and has the best priority, and every P and every quit of the run meets its condition |
| WrongScan.ScanCanBeWrong | phase1/phase1b/phase1b.c:204-211 | A run from start-up after which process 3 makes the calls and the scan names process 2 |
| WrongScan.WakeupCanBeLost | phase1/phase1c/phase1c.c:155-184 | A run from start-up after which a semaphore has value 1 and process 3 waiting, and no process inside P1_P has been woken: 3's P blocked 2 first, and the V woke 2 |
| WrongScan.WrongProcessCanQuit | phase1/phase1b/phase1b.c:240-268 | A run from start-up in which 3 calls P1_Quit(7) and its parent reaps 2 with status 7, while 3 is alive |
| KernelSystem.System.constructor | phase1/phase1b/phase1b.c:110-118 | All slots free, queues empty, first fork to come |
| KernelSystem.System.P1ContextCreate | phase1/phase1a/phase1a.c:56-94 | The first free slot, or the reply for a small stack or a full table |
| KernelSystem.System.P1ContextFree | phase1/phase1a/phase1a.c:118-134 | A used slot becomes free, any other cid is refused |
| KernelSystem.System.P1SetState | phase1/phase1b/phase1b.c:330-361 | State, queue and semaphore link change together as the replies say |
| KernelSystem.System.P1Dispatch | phase1/phase1b/phase1b.c:363-426 | The array code has the dispatch's effect: order, the two states switched, halt on an empty queue |
| KernelSystem.System.P1Fork | phase1/phase1b/phase1b.c:148-230 | The array code has the fork's effect and reply, for every argument |
| KernelSystem.System.P1GetPid | phase1/phase1b/phase1b.c:122-136 | The scan finds the first RUNNING process in use, -1 if there is none |
| KernelSystem.System.P1Quit | phase1/phase1b/phase1b.c:232-285 | The array code, with the scan and its loops over both children arrays, has the effect of a quit of the process P1_GetPid names |
| KernelSystem.System.Reparent | phase1/phase1b/phase1b.c:252-256 | Every child of the quitting process ends up with parent 0 and at the end of process 0's list, in order |
| KernelSystem.System.P1GetChildStatus | phase1/phase1b/phase1b.c:287-328 | The scan and the shift have the reap's effect and reply |
| KernelSystem.System.P1JoinWait | phase1/phase1d/phase1d.c:252-257 | The waiting turn of P1_Join, for the process P1_GetPid names |
| KernelSystem.System.P1PTurn | phase1/phase1c/phase1c.c:147-160 | One turn of P1_P's loop, blocking the process P1_GetPid names if there is no unit |
| KernelSystem.System.P1V | phase1/phase1c/phase1c.c:166-188 | The code has the V's effect and reply |
| KernelSystem.System.P1SemCreate | phase1/phase1c/phase1c.c:76-117 | The scan takes the first free slot and refuses a null, long or used name or a full table, in that order of precedence |
| KernelSystem.System.P1SemFree | phase1/phase1c/phase1c.c:119-133 | Frees the slot, or refuses an invalid one or one with waiters |

## Left out

- The simulated machine itself: processor status, interrupt and mode toggling, context switching, stacks, system-call stubs and console output. Sections with interrupts disabled or under a mutex are single steps.
- Several pagers at once: each fault service is one step of a single pager, which `phase3/phase3c/phase3c.c:490` allows. P3SwapIn clears the busy mark before the zero-fill (lines 496 of phase3d.c and 634-661 of phase3c.c), so the frame invariants are not claimed for interleaved services.
- Access faults and the pagers' abort request. The termination of a process told that swap is full is the exit it is then restricted to.
- P1_GetPid in phases 2 and 3: `VmSystem` takes its answer as given, and states the fault service while it names the pager (`phase3/phase3c/phase3c.c:220`, `:282`); sleepers, disk callers and faulting processes (`phase2/phase2b/phase2b.c:157`, `phase2/phase2c/phase2c.c:391`, `phase3/phase3c/phase3c.c:447`) are given their own pid, which is what the scan gives them when nobody in a lower slot is marked RUNNING.
- In P1_P interrupts are enabled again between queueing the blocked process and P1Dispatch (`phase1/phase1c/phase1c.c:158-159`): a V by an interrupt handler in that gap is not modelled, blocking and dispatching are one step.
- The assertion that ends P1_Quit (`phase1/phase1b/phase1b.c:284`), reached when another process was quit in the caller's place: in the source it ends the simulator, here the caller makes no further call, and runs go on as they would if interrupts kept coming first.
- The statistics, freeFrames among them, and the identity handler of phase3b.
- The `frame` field of a swap block: it is set at allocation (`SwapInFresh`) and never again, and nothing reads it.
- Paging reads and writes the disk through the request checks and the transfer loop as one step; `DiskProtocol` proves separately that queued requests have that effect.
- The semaphore a disk caller creates for each request and frees after it: `DiskProtocol` starts it at 0, and that the first creation succeeds is taken for granted, as the source asserts it (`CreateFreeCreate` has the later ones).
- Disk errors and retries (the caller returns success regardless, `phase2/phase2c/phase2c.c:401`), track-count and abort requests, and shutdown.
- Freeing a semaphore while somebody is inside P1_P on it: runs allow P1_SemFree only when nobody is.
- The wait queue inside a semaphore is a sequence in `Kernel.Sem` and in `KernelSystem.System`; that the linked list of the source behaves as that sequence is proved for `LinkedQueues.WaitQueue` alone.
- Page tables and children arrays are sequences held in the slots of an array, so two pointers to one page table, such as the fault record's, are not modelled as aliases.
- P1_Join's answer when there are no children, and quit children of a process that quits itself: only live children are handed on (`phase1/phase1b/phase1b.c:253-256`), and tree properties are stated for processes that have not quit.
- Exactly one RUNNING process, and first-come order among equal priorities without rotation: the code does not provide them.
- The flags for a layer initialised twice or not at all, failing allocation, and machine-integer overflow of times, counters and semaphore values.
- Progress of schedules: what can be reached is proved, not that a given process eventually runs.
- The header files of the libraries under lib, apart from the constants and replies named here.
