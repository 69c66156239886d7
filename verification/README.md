# FluffyGC, modelled and proved in Dafny

FluffyGC is a mostly-concurrent mark-sweep collector. It stops the mutators only to take a root snapshot and
to flip the meaning of the mark bit; in between it traces while mutators go on, helped by a barrier that runs
whenever a reference is lost. This project models its core and proves what the design relies on. `dafny verify
dfyconfig.toml` checks everything.

## The parts

* **A collection cycle under concurrency.** `CycleModel` is a step system with one action per atomic access of
  the mutators (exchange of a field, read, root drop, allocation, three stages of the barrier) and of the
  collector (each queue read, mark-bit exchange, slot load, remark drain step and sweep step); `CycleRuns` has its
  runs. `CycleInvariant` says what every step keeps, in three layers: in any run, in runs whose mutators are quiet
  around the drain, and in quiet runs in which no cycle starts with harmful premarked blocks. `CycleSteps` and
  `CycleTrace` prove it action by action for mutators and collector; `CycleAnyRun`, `CycleQuiet` with
  `CycleGarbage`, and `CycleTheorems` draw the conclusions of the three layers. `CycleObjects` says what programs see
  of the heap meanwhile: every read gets the last write. `CycleClaims` treats the race on the mark bit. `CycleExact`
  proves the hypothesis on premarked blocks exact, by letting the step system follow the mark engine; `CycleBarriers`,
  with `CycleDrain`, has the exact condition on barriers that have yet to check the flag when it is cleared.
  `CycleFailures` exhibits concrete runs in which one hypothesis is missing and the conclusion fails.
* **Tracing through bounded queues.** `MarkEngine` is the engine as a function of its queues, `MarkInvariant`
  and `MarkTheorems` prove what `doMark` marks, when it returns and when it cannot panic (`Iteration` is about
  repeated steps in general). `Tracer` is the same code in place, as methods proved against the engine.
* **A whole idle cycle, in place.** `Collector` runs mark, drain and sweep over real mark bits; `Barrier` is the
  loss-of-reference barrier with its buffers; `RootList` is a thread's root list and the root snapshot;
  `IdleCycle` runs them together with the allocation tracker. `Heap` holds references, slots and reachability.
* **The GC lock.** `GcLock` is the Linux lock as a step system.
* **The allocation tracker.** `Chains` and `TrackerLists` describe its lists as values, `ListPointers` says when
  a memory of `next` pointers forms such lists and what each pointer write does to them, `AllocTracker` is the
  code on linked objects, `TrackerRuns` proves conservation of units and bytes over runs. `GlobalList` and
  `Accounting` are step systems for the concurrent callers of the lock-free push and of the counters.
* **Asking for a cycle.** `CycleRequest` is the mailbox, the flag and the completion counter.
* **The moving window.** `MovingWindow` is the ring buffer.

## What the proofs say about the code

Some properties hold only under a condition. In each case the code is modelled as it is.

* `gc_on_allocate` stores `!mutatorMarkedBitValue` (gc/gc.c:36), so a block is unmarked during the cycle it was
  allocated in and reads as *marked* in the next one, in which it is not scanned; gc/gc.h:26-28 describes
  something else. A later cycle is safe exactly when what reachable premarked blocks refer to is itself premarked or
  found without passing through one (`PremarkedHarmless`): `CycleExact.CycleIsSafeExactlyWhenHarmless` under
  concurrency, `Collector.IdleCycleIsSafeExactlyWhenHarmless` for the code in place.
  `CycleFailures.SecondCycleFreesReachableBlock` is a run of one quiet thread that violates it. The first cycle
  always satisfies it. Only a cycle's own premarked blocks matter, not those of cycles before it; and with harmful
  ones, too, every block due is marked (`CycleQuiet.DueIsMarkedAtSweep`) and garbage does not outlive two cycles
  (`CycleGarbage.GarbageIsFreedWithinTwoCycles`).
* `markingInProgress` is cleared before the remark buffers are drained. Safety needs mutators to have no barrier
  under way at that moment and to overwrite no field until the drain is over (`Quiet`). Neither half can be
  dropped while the other holds: `CycleFailures.BarrierUnderWayFreesRootedBlock` and
  `CycleFailures.WriteDuringDrainFreesRootedBlock`. Of barriers that have yet to check the flag it is known exactly
  which do harm: the cycle stays safe if and only if every old block that mutators can get to is marked when the flag
  is cleared, or the drain reaches it (`CycleBarriers.ClearIsSafeExactlyWhenDrainSuffices`). What holds without any of
  this is in `CycleAnyRun`.
* After a harmful cycle the collector can come to a block that has been freed, which the source dereferences. The
  model has no action for that: `CycleAnyRun.StuckExactlyWhen` says that this and waiting for mutators are the only
  ways to have none.
* `doMark` dereferences its argument and `object_helper_read_ref` makes a null root from an empty field; that run
  is `CycleFailures.ReadOfEmptyFieldCrashesCollector`.
* A block resumed inside its flexible array starts again at entry 0, so `doMark` returns exactly when every due
  block's array fits the mark queue (`MarkTheorems.DoMarkReturnsExactlyWhenArraysFit`).
* memory/alloc_tracker.h:21-22 bounds the over-report of `currentUsage` by 2 MiB per thread. A context that ends
  keeps its reserve, so the bound is 2 MiB per context *ever created*, and `TrackerRuns.LeaksStarveTheHeap`
  shows that ended contexts can use up any heap.
* Requests coalesce: the completion that ends a wait belongs to a cycle that started after the request exactly
  when no cycle was running at that moment (`CycleRequest.AnsweredByAFreshCycle`).
* The moving window adds two `unsigned int` indices before reducing them, so it reads every rotation correctly
  exactly up to 2^31 slots (`MovingWindow.RightExactlyUpToHalfAWord`).
* platform/linux/gc/gc_lock.c:153-154 says that no mutator becomes active after the announcement; one that is
  past its check still does, as in the run of `GcLock.ActiveAfterAnnouncement`. `GcLock.CollectorIsPreferred` has
  the accurate statement.

Concurrent parts assume sequentially consistent atomics and are step systems on values. Critical sections under
one mutex are one step. Mark-bit code names blocks by address; an address may come back after it was freed.

## Model

| member | source | states |
|---|---|---|
| CycleTheorems.NothingAccessibleIsFreed | gc/gc.c:364-398 | In every interleaving of mutators and collector whose mutators are quiet around the drain and whose premarked blocks are harmless (a safe run), over any number of cycles, no block that a mutator can reach has been freed |
| CycleExact.CycleIsSafeExactlyWhenHarmless | gc/gc.c:364-398 | From any state of a quiet run in which nothing reachable has been lost, with room in the queues and no null root, no quiet continuation of the cycle that starts loses a reachable block if and only if the cycle's premarked blocks are harmless, whatever earlier cycles did |
| CycleExact.HarmfulCycleLosesABlock | gc/gc.c:170-176 | If they are not, some quiet continuation frees a block that a mutator can reach |
| CycleExact.RestingCycleSweeps | gc/gc.c:278-309 | A cycle whose mutators rest comes to its sweep with exactly the premarked live blocks marked and what the roots reach around them |
| CycleExact.InnerRuns | gc/gc.c:170-202 | The step system's steps for one block lead where the engine's `doMarkInner` does |
| CycleExact.LeadsRuns | gc/gc.c:204-234 | Every finished trace of the engine is a run of the step system |
| CycleExact.MissesABlock | gc/gc.c:173-176 | Harmful premarked blocks make the trace miss a reachable block |
| CycleBarriers.ClearIsSafeExactlyWhenDrainSuffices | gc/gc.c:391-392 | When the flag is cleared in a quiet run with everything nameable still in the heap, no barrier past its check and room in the queues, no continuation that overwrites no field during the drain loses a reachable block if and only if every reachable block on the swept list is marked then, or reached from a buffered block around the marked ones that are not buffered |
| CycleBarriers.SufficientDrainIsSafe | gc/gc.c:283-309 | If so, whatever mutators do, the drain marks all they can reach, as a trace from a snapshot taken when the flag was cleared |
| CycleBarriers.InsufficientDrainLosesABlock | gc/gc.c:283-309 | If not, a drain whose mutators rest frees a block that they can reach |
| CycleBarriers.QuietDrainSuffices | gc/gc.c:391-392 | In safe runs, with no barrier under way when the flag is cleared, the drain reaches all that is left |
| CycleDrain.BlockDrains | gc/gc.c:285-289 | Draining a block in the step system is clearing its bit and a trace of the engine from it |
| CycleTheorems.SweepFreesOnlyGarbage | gc/gc.c:312-335 | In safe runs, what the sweep frees is unreachable and held by no mutator, neither in a barrier nor in a remark buffer |
| CycleTheorems.SnapshotReachableIsMarked | gc/gc.c:278-309 | In safe runs, everything reachable at the root snapshot is marked when the sweep begins |
| CycleAnyRun.SnapshotReferenceIsSafe | gc/gc.c:40-65 | In any run, while marking goes on, each reference that any block held at the snapshot is still in its slot, or its target is marked, queued, a pending root or held before its barrier's exchange |
| CycleQuiet.DueReferenceIsStillScanned | gc/gc.c:170-202 | In quiet runs, while a due block's reference is not covered in one of those ways, the collector has yet to load it |
| CycleQuiet.DueIsMarkedAtSweep | gc/gc.c:278-309 | In quiet runs, whatever earlier cycles left premarked, every block that the snapshot's roots reach around the premarked ones is marked when the sweep begins |
| CycleTheorems.FirstCycleIsHarmless | gc/gc.c:35-38 | In any run the hypothesis on premarked blocks holds for free at the first cycle |
| CycleTheorems.FirstCycleRunIsSafe | gc/gc.c:364-398 | A quiet run that starts no second cycle satisfies all hypotheses of the safety theorem |
| CycleTheorems.RunKeepsInv | gc/gc.c:364-398 | In safe runs, the cycle invariant holds all along every run |
| CycleRuns.RunReaches | gc/gc.c:364-398 | Every state along a run is one of the reachable states the theorems speak of |
| CycleObjects.MemoryHoldsLastStored | object/helper.c:11-25 | In every state of any run each slot of each block holds what was last written to it, null if nothing was since its block was made, and each block has the slots of its descriptor, whatever collector and mutators did in between |
| CycleObjects.ReadGetsLastStored | object/helper.c:18-25 | In any run a read makes the last value written to the slot the reader's newest root |
| CycleObjects.ReadGetsTheWrite | object/helper.c:11-25 | In any run a write and a later read of the same slot, with no write to it between and the address not allocated anew, give the reader a root to what the writer stored |
| CycleObjects.WriteStores | object/helper.c:11-16 | A write stores the value in exactly the slot named, changes no other slot, and leaves the writer with a barrier on what the slot held |
| CycleObjects.ReadLoads | object/helper.c:18-25 | A read makes what the slot holds the newest root, changes nothing else, and leaves the reader with a barrier on the block |
| CycleObjects.DropTakes | heap/thread.c:57-65 | Exactly the root named goes, the others stay in order, and the thread has a barrier on it |
| CycleObjects.AllocGives | heap/heap.c:108-136 | A block without slots becomes the newest root, and its bit reads as unmarked to the mutators |
| CycleObjects.DescribeGives | heap/heap.c:98-106 | A descriptor gives the block its slots, all null, and changes nothing else |
| CycleObjects.BarrierLooks | gc/gc.c:40-49 | With marking off or nothing held the barrier ends at its look at the flag, and otherwise goes on to the exchange |
| CycleObjects.BarrierMarks | gc/gc.c:51-53 | The exchange marks exactly the block held, and wins it if and only if it was not marked |
| CycleObjects.BarrierBuffers | gc/gc.c:55-64 | A block won goes to the end of the thread's buffer, and a full buffer goes in order to the end of the shared queue |
| CycleObjects.BarrierEnds | gc/gc.c:40-65 | A thread in a barrier always has its next action, and each brings it closer to the end, in its section with the roots it had |
| CycleObjects.RootsAreOwn | heap/thread.c:48-83 | Nobody else, mutator or collector, changes a thread's roots |
| CycleObjects.CollectorTouchesNothing | gc/gc.c:170-335 | The collector changes no slot and no root; only the sweep frees, the block it looks at, if and only if that is unmarked |
| CycleObjects.MutatorsNeverWait | object/helper.c:11-25 | In no phase of a cycle is a mutator kept from entering its section or, inside, from reading, writing, dropping and allocating |
| CycleAnyRun.CrashesExactlyWhen | gc/gc.c:145-168 | In any run an action crashes the collector if and only if it takes a null root, or scans a slot that holds a reference with both queues full; the chunk-size `BUG_ON` never fires. Coming to a freed block is no action, see the next row |
| CycleAnyRun.StuckExactlyWhen | gc/gc.c:204-335 | In any run that has not crashed the collector lacks an action if and only if it waits for mutators to leave their sections, before a start or a flip, or the block it has to look into next has been freed |
| CycleTheorems.CollectorIsNeverStuck | gc/gc.c:364-398 | In safe runs the collector never comes to a freed block: unless crashed or waiting for mutators to leave their sections, it has an action to take |
| CycleAnyRun.ParityAtCycleStart | gc/gc.c:35-38 | In any run, at a cycle start the blocks that read as marked are exactly those allocated since the previous start that no trace or barrier touched |
| CycleAnyRun.FlipClearsSurvivors | gc/gc.c:395-398 | In any run the flip makes every survivor read as unmarked, and exactly the untouched new blocks as marked |
| CycleAnyRun.StepKeepsBits | gc/gc.c:35-65 | Every action keeps what the mark bits mean, with no hypothesis on mutators |
| CycleAnyRun.StepKeepsKept | gc/gc.c:40-65 | Every action keeps the snapshot's references in their slots or covered, with no hypothesis on mutators |
| CycleQuiet.StepKeepsCalm | gc/gc.c:299-308 | Every action of quiet mutators and of the collector keeps barriers before their exchange or push to the marking phase, and each remark buffer empty from when the drain took it to the next cycle |
| CycleQuiet.StepKeepsNamed | gc/gc.c:35-65 | Every action but the start of a cycle keeps it that what roots, barriers, buffers, queues and live blocks refer to is live or already freed (and, in safe runs, live) |
| CycleQuiet.StepKeepsDeadBits | gc/gc.c:170-176 | In the course of a cycle no action changes whether a dead block reads as marked |
| CycleQuiet.RunKeepsQuiet | gc/gc.c:364-398 | All along every quiet run the snapshot's debts, names, buffers and mark bits are as the invariant of quiet runs says |
| CycleGarbage.GarbageLeftWasPremarked | gc/gc.c:322-335 | In quiet runs, garbage that a cycle leaves behind read as marked when it started |
| CycleGarbage.GarbageIsFreedWithinTwoCycles | gc/gc.c:364-398 | In quiet runs, whatever premarked blocks hold, a block unreachable at a cycle start is freed before two cycles, that one included, have completed |
| CycleGarbage.CondemnedStep | gc/gc.c:170-176 | While such a block stays in the heap, every action leaves it dead, and the start of the next cycle finds it unmarked and unreachable |
| CycleTheorems.StepKeepsInv | gc/gc.c:364-398 | Every action of mutators and collector keeps the invariant of safe runs |
| CycleTheorems.StartGivesInv | gc/gc.c:373-389 | A cycle that starts with nothing lost and harmless premarked blocks has that invariant, whatever cycles before it did |
| CycleTheorems.HarmlessSplitsLive | gc/gc.c:170-176 | When a cycle starts with harmless premarked blocks, every reachable block is premarked or reached without entering a premarked one |
| CycleQuiet.StartSatb | gc/gc.c:381-389 | At the snapshot every reference is safe to begin with, whatever blocks are premarked |
| CycleTheorems.BeginSweepSpares | gc/gc.c:391-393 | When the drain ends every live block of the swept list is marked |
| CycleTrace.DueAreMarked | gc/gc.c:278-309 | When nothing is left to trace or drain, every block due is marked |
| CycleTrace.MarksAreClosed | gc/gc.c:170-202 | When nothing is left to trace or drain, what a marked due block referred to at the snapshot is premarked or marked |
| CycleTrace.ParkSatb | gc/gc.c:150-165 | Parking a block when the mark queue is full loses none of its references still to be scanned |
| CycleSteps.WriteSatb | object/helper.c:11-16 | Overwriting a field keeps every snapshot reference safe, because the writer holds the old value |
| CycleSteps.ExchangeSatb | gc/gc.c:51-53 | The barrier's exchange keeps every snapshot reference safe |
| CycleSteps.AllocSatb | heap/heap.c:108-136 | Allocating during a cycle keeps every snapshot reference safe |
| CycleSteps.FlushRemarkSatb | gc/gc.c:61-64 | Moving a full buffer to the shared queue keeps every snapshot reference safe |
| CycleClaims.NoBlockIsClaimedTwice | gc/gc.c:40-65 | In every quiet run a block waits in at most one place (a winning barrier, a remark buffer, the shared queue, the chunk in hand, the collector's scan, the deferred queue), and every waiting block is marked |
| CycleClaims.OneRacerWins | gc/gc.c:51-58 | In quiet runs, of two barriers racing on one block the first to exchange becomes its only claimant if it was unmarked, and the second claims nothing |
| CycleClaims.WinnerIsSole | gc/gc.c:51-58 | An exchange that finds the block unmarked makes its thread the only claimant, and one that finds it marked changes no claim |
| CycleClaims.StepKeepsClaims | gc/gc.c:40-65 | Every action keeps claims unique |
| CycleFailures.SecondCycleFreesReachableBlock | gc/gc.c:170-176 | A quiet one-thread run whose second cycle frees a reachable block, because the only block that refers to it reads as marked |
| CycleFailures.WriteDuringDrainFreesRootedBlock | gc/gc.c:391-392 | A run whose first cycle frees a rooted block because a field is overwritten during the drain, although no barrier was under way when the flag was cleared |
| CycleFailures.BarrierUnderWayFreesRootedBlock | gc/gc.c:391-392 | A run whose first cycle frees a rooted block because a barrier is under way when the flag is cleared, although no field is overwritten during the drain |
| CycleFailures.ReadOfEmptyFieldCrashesCollector | object/helper.c:18-25 | A run in which reading an empty field makes the collector dereference null |
| MarkEngine.MarkRefs | gc/gc.c:145-201 | A slot loop runs to its end exactly when its references fit the mark queue, and then all of them are queued; a panic needs a full deferred queue |
| MarkEngine.StopsAt | gc/gc.c:149-166 | A loop that stops has queued all references before the one it stops at and parks the block there |
| MarkInvariant.DoneMarksExactlyTheDue | gc/gc.c:170-234 | With both queues empty the invariant says that exactly the due blocks are newly marked |
| MarkInvariant.ParkKeeps | gc/gc.c:150-165 | Parking keeps the trace's invariant |
| MarkTheorems.DoMarkMarksExactlyTheDue | gc/gc.c:219-234 | When `doMark` returns, both queues are empty, the newly marked blocks are exactly those reached through unmarked blocks, and what they refer to is marked |
| MarkTheorems.DoMarkCannotPanic | gc/gc.c:149-167 | No panic if the due blocks with two or more references number at most the deferred queue's capacity |
| MarkTheorems.DoMarkReturnsExactlyWhenArraysFit | gc/gc.c:196-201 | Without panic, `doMark` returns if and only if each due block's flexible-array references fit the mark queue |
| MarkTheorems.StepIsCloser | gc/gc.c:204-234 | Each round lowers the lexicographic measure of unmarked blocks, parked work and queue length |
| MarkTheorems.ResumeIsCloser | gc/gc.c:224-230 | Resuming a parked block from an empty mark queue gets past where it was parked |
| MarkTheorems.FieldsStop | gc/gc.c:185-191 | A block stopped in its fields is never parked at index 0 and has two or more references |
| MarkTheorems.FlexStops | gc/gc.c:196-201 | A block stopped in its array is never parked at index 0 and has two or more references |
| MarkTheorems.RoomToPark | gc/gc.c:150-157 | While a block with two references is in hand, fewer blocks are parked than there are such due blocks |
| MarkTheorems.InnerKeeps | gc/gc.c:170-202 | `doMarkInner` keeps the trace's invariant or panics |
| MarkTheorems.StepCannotPanic | gc/gc.c:204-234 | A round does not panic when the deferred queue is large enough |
| MarkTheorems.HaltsFrom | gc/gc.c:219-234 | When arrays fit, finitely many rounds lead to an empty engine or a panic |
| MarkTheorems.LeadsThrough | gc/gc.c:219-234 | A trace's rounds are determined: on the way to its end it passes through every state that some number of rounds leads to |
| MarkTheorems.HaltsOnce | gc/gc.c:219-234 | A trace has at most one end |
| MarkTheorems.RefsAppend | gc/gc.c:145-168 | A slot loop queues the references it comes to in order, and where it stops it parks the block behind all others, or panics exactly if the deferred queue is full |
| MarkTheorems.RoundTakesFirst | gc/gc.c:204-234 | Each round takes and marks the first entry of the mark queue, or of the deferred queue if that is empty, and puts what it adds behind all others |
| MarkTheorems.BreadthFirst | gc/gc.c:181-217 | What is in the mark queue is visited, in order, before anything queued later |
| Tracer.Marker.MarkOneItem | gc/gc.c:145-168 | A null is skipped, a reference queued if it fits, its holder parked if that fits, and otherwise nothing changes and the caller panics |
| Tracer.Marker.ScanFields | gc/gc.c:185-191 | The field loop does what the engine's loop does from the resumed index |
| Tracer.Marker.ScanFlexArray | gc/gc.c:193-201 | The array loop does what the engine's loop does from entry 0 |
| Tracer.Marker.DoMarkInner | gc/gc.c:170-202 | Mark bits and queues become those of the engine's step |
| Tracer.Marker.ProcessMarkQueue | gc/gc.c:204-217 | Always returns: some rounds of the engine later the mark queue is empty, or the trace panics |
| Tracer.Marker.ResumeOne | gc/gc.c:226-230 | Always returns: resuming one parked block is one or more rounds of the engine, which leave the mark queue empty, or the trace panics |
| Tracer.Marker.ProcessDeferredQueue | gc/gc.c:226-233 | Reaches the end of the trace with both queues empty, or its panic |
| Tracer.Marker.DoMark | gc/gc.c:219-234 | Of any trace that comes to an end: a null argument is dereferenced; it finishes exactly when the engine does, and then exactly the blocks reached through unmarked ones are newly marked and both queues are empty |
| Collector.IdleCycleIsSafeExactlyWhenHarmless | gc/gc.c:364-398 | A cycle with idle mutators frees no reachable block if and only if premarked blocks are harmless |
| Collector.FreshCycleKeepsExactlyTheReachable | gc/gc.c:312-335 | With nothing premarked the survivors are exactly the reachable blocks and refer to no freed one |
| Collector.SecondCycleFreesNothing | gc/gc.c:364-398 | Right after such a cycle another one with the same roots frees nothing |
| Collector.Collector.OnAllocate | gc/gc.c:35-38 | A new block reads as marked exactly when the two bit values differ, and no other block changes |
| Collector.FittingPhaseHalts | gc/gc.c:278-281 | The traces from all roots come to an end if no array they reach is too wide for the mark queue |
| Collector.PhaseOutcomeExactly | gc/gc.c:278-281 | The marking phase finishes if and only if no root is null and each root's trace returns around what those before it marked, and dereferences null if and only if that goes well up to a null root; otherwise it panics |
| Collector.RoomyPhaseOutcome | gc/gc.c:149-167 | With room in the deferred queue for all blocks with two references it finishes if no root is null, and otherwise comes to the null |
| Collector.Collector.MarkingPhase | gc/gc.c:278-281 | If its traces end, its outcome is exactly that of the traces one after the other, and if it finishes it has marked exactly the premarked blocks and what the snapshot's roots reach around them |
| Collector.FittingChunkHalts | gc/gc.c:284-290 | The traces from a chunk come to an end if no array they reach around the other marked blocks is too wide |
| Collector.ChunkOutcomeExactly | gc/gc.c:284-290 | A chunk is finished if and only if each of its blocks' traces returns, around what those before it left marked |
| Collector.Collector.Remark | gc/gc.c:287-288 | Clearing a block and tracing from it leaves exactly the other marks and what it reaches around them |
| Collector.Collector.ProcessAChunk | gc/gc.c:284-290 | If its traces end, its outcome is exactly that of the traces one after the other; if it finishes, every buffered block is marked and scanned even if buffered blocks refer to each other, nothing has lost its mark, and nothing unreachable from them has gained one |
| Collector.Collector.SweepBlock | gc/gc.c:322-335 | A block is kept exactly when it reads as marked |
| Collector.Collector.SweepPhase | gc/gc.c:312-347 | The freed blocks are exactly those of the list that do not read as marked |
| Collector.Collector.RunCycle | gc/gc.c:364-398 | The outcome is exactly that of the marking phase; if it finishes, the heap is the survivors, unchanged, all of them read as unmarked, and the collector's bit value is flipped |
| IdleCycle.Run | gc/gc.c:364-398 | A whole cycle over the threads' root lists, the mark engine and the tracker's lists: the survivors are the premarked blocks and those the roots reach around them, the tracker's state is exactly that after a snapshot and a filter by the survivors' units, it links exactly those, each once, and usage falls by the freed units' sizes and headers; the outcome is exactly that of the traces, one after the other; with nothing premarked, the survivors are exactly the reachable blocks, none refers to a freed one, and collector and tracker are ready for the next cycle |
| IdleCycle.Begin | gc/gc.c:381-387 | The stop-the-world part: the roots are all threads' root lists, and the tracker's lists are emptied into its snapshot |
| IdleCycle.CycleSettles | memory/alloc_tracker.c:73-91 | After snapshot and filter the tracker links exactly the survivors' units, each once, its snapshot is empty, usage falls by the freed units' bytes and the books balance |
| IdleCycle.Reclaim | gc/gc.c:312-335 | Exactly the marked blocks stay, with their mark bits, none reads as marked any more, and the tracker has filtered by the units of those blocks |
| IdleCycle.SnapshotListsHeap | memory/alloc_tracker.c:157-200 | A snapshot of all units lists every block of the heap once |
| IdleCycle.FilterKeepsNames | memory/alloc_tracker.c:73-91 | Filtering out the units of freed blocks leaves exactly the units of the rest |
| IdleCycle.DroppedOnce | memory/alloc_tracker.c:73-91 | The units freed are exactly those of the freed blocks, each once |
| Collector.RemarkCloses | gc/gc.c:287-288 | Un-marking a block and tracing from it closes the marks over it and keeps all others |
| Barrier.RemarkQueue.NeedRemark | gc/gc.c:40-65 | While marking goes on an unmarked block is marked and buffered behind all earlier ones, and otherwise nothing changes; the queue grows by whole buffers |
| RootList.MutatorThread.PreallocRootRef | heap/thread.c:68-77 | A node from the cache or a new one, linked nowhere |
| RootList.MutatorThread.NewRootRefFromPrealloc | heap/thread.c:79-83 | The reference is the first of the root list and the count grows with it |
| RootList.MutatorThread.NewRootRef | heap/thread.c:48-55 | A new first root with the given reference |
| RootList.MutatorThread.UnrefRoot | heap/thread.c:57-65 | Exactly that root leaves the list, its node is cached and its reference handed to the barrier |
| RootList.CountRoots | gc/gc.c:250-253 | The count is the length of all root lists together |
| RootList.CopyRoots | gc/gc.c:263-270 | One thread's roots are appended to the snapshot in order |
| RootList.TakeRootSnapshot | gc/gc.c:249-276 | The snapshot is exactly the concatenation of all threads' root lists, and neither `BUG_ON` fires |
| GcLock.MutualExclusion | platform/linux/gc/gc_lock.c:152-204 | In the exclusive section no mutator is active or past its check, for any threads joining and leaving and any number of sections |
| GcLock.CollectorIsPreferred | platform/linux/gc/gc_lock.c:152-204 | After the announcement no mutator newly passes its check, and a release takes its thread out |
| GcLock.PastOnlyShrinks | platform/linux/gc/gc_lock.c:152-204 | From announcement to exit the mutators past the check only become fewer |
| GcLock.ActiveAfterAnnouncement | platform/linux/gc/gc_lock.c:152-194 | A run in which a thread past its check becomes active after the announcement, contrary to the comment at lines 153-154 |
| GcLock.WalkGetsCloser | platform/linux/gc/gc_lock.c:158-172 | During the collector's walk every action with an effect lowers what mutators can still do, or moves the walk on |
| GcLock.WaitHasACause | platform/linux/gc/gc_lock.c:169-170 | The collector waits only for a thread that can take a step with an effect |
| GcLock.ActionsUseUpRank | platform/linux/gc/gc_lock.c:181-204 | The mutators' actions during the walk are paid from what they could do at its start |
| GcLock.EntryIsBounded | platform/linux/gc/gc_lock.c:152-173 | During the walk the mutators take at most seven effective actions per thread |
| GcLock.BlockedMutatorGetsIn | platform/linux/gc/gc_lock.c:181-196 | While the collector stays out, a mutator between the two ends of `gc_lock_block_gc`, also one that had waited for the collector, holds the lock after at most six actions of its own |
| GcLock.EntryGoesOn | platform/linux/gc/gc_lock.c:181-196 | While the collector is out a mutator on its way in always has exactly one action to take, which brings it one closer |
| GcLock.CollectorGoesRound | platform/linux/gc/gc_lock.c:152-179 | The collector announces itself, walks the list in order past each thread whose word is unused or waiting, and takes its announcement back when it leaves; it always has an action |
| GcLock.BlockAndUnblock | platform/linux/gc/gc_lock.c:181-204 | Blocking puts a thread on its way in, and unblocking takes it out, each by one store of its own word |
| GcLock.JoinAndQuit | platform/linux/gc/gc_lock.c:124-145 | A thread joins at the end of the list and leaves it again, and the others stay |
| ListPointers.PushShape | memory/alloc_tracker.c:93-98 | A push puts the unit at the front of the global list and changes no other list |
| ListPointers.AppendShape | memory/alloc_context.c:22-30 | Adding a unit through the tail pointer appends it to that context's list and changes no other list |
| ListPointers.PopContextShape | memory/alloc_context.c:36-42 | Reading a unit's `next` before overwriting it leaves the rest of the list intact and the unit in none |
| ListPointers.PopSnapshotShape | memory/alloc_tracker.c:76-78 | The same for the walk over the snapshot |
| ListPointers.SpliceContextShape | memory/alloc_tracker.c:162-192 | Splicing through the tail joins a context's list to the snapshot and leaves the context empty |
| ListPointers.SpliceGlobalShape | memory/alloc_tracker.c:196-197 | Splicing the detached global list joins it to the snapshot |
| ListPointers.ChainJoin | memory/alloc_tracker.c:173 | One write to the last unit's `next` joins two null-terminated lists |
| AllocTracker.AllocContext.AddBlock | memory/alloc_context.c:22-30 | The exact effect on head, tail and the old tail's `next` |
| AllocTracker.Tracker.NewContext | memory/alloc_tracker.c:202-212 | The state becomes that of the specification, with the pointers still forming the lists |
| AllocTracker.Tracker.FreeContext | memory/alloc_tracker.c:214-219 | The context's units move to the global list in reverse, its reserve stays counted, all else is unchanged |
| AllocTracker.Tracker.MoveToGlobal | memory/alloc_context.c:32-45 | The walk that pushes each unit moves all of them although each push overwrites `next` |
| AllocTracker.Tracker.AddBlockToGlobalList | memory/alloc_tracker.c:93-98 | The unit is the first of the global list and now linked once |
| AllocTracker.Tracker.SlowDoLargeAccounting | memory/alloc_tracker.c:101-112 | Both counters grow by the size exactly when the maximum allows it |
| AllocTracker.Tracker.FastDoSmallAccounting | memory/alloc_tracker.c:114-125 | Paid from the reserve, replenished by 2 MiB when needed and possible, and otherwise refused without a trace |
| AllocTracker.Tracker.Alloc | memory/alloc_tracker.c:114-155 | A fresh unit at the tail of the context's list exactly when the allocator and the accounting allow it, and otherwise nothing changes; a unit under 256 KiB whose size and 40 bytes the reserve covers takes nothing else, one it does not cover takes 2 MiB if the maximum allows, and a larger one its own bytes if the maximum allows |
| AllocTracker.Tracker.AppendToSnapshot | memory/alloc_tracker.c:162-181 | The splice, with neither `BUG_ON` firing |
| AllocTracker.Tracker.TakeSnapshot | memory/alloc_tracker.c:157-200 | The snapshot becomes the contexts' lists in order followed by the global list, and all of those are empty |
| AllocTracker.Tracker.SnapshotUnits | memory/alloc_tracker.c:76-78 | Walking `next` from the snapshot's head comes to exactly its units, in order |
| AllocTracker.Tracker.FilterAll | memory/alloc_tracker.c:74-88 | Kept units return to the global list, the others leave, and the bytes counted are exactly theirs |
| AllocTracker.Tracker.FilterSnapshot | memory/alloc_tracker.c:73-91 | The state becomes that of the specification: kept units return to the global list, the others leave, usage falls by their sizes and headers in a machine word |
| TrackerRuns.AllocatedIsPaidFor | memory/alloc_tracker.c:101-155 | The specification of an allocation in plain numbers: what it takes from the reserve and from the heap, when it is refused, and that the unit is the last of its context's list |
| TrackerRuns.SnapshotTakes | memory/alloc_tracker.c:157-200 | The specification of a snapshot: the contexts' lists in order, then the global one, all left empty, and no counter changes |
| TrackerRuns.FilterGives | memory/alloc_tracker.c:73-91 | The specification of a filter: exactly the units to keep go before the global list, and usage falls by the others' sizes and 40 bytes for each |
| TrackerRuns.FreeContextGives | memory/alloc_context.c:32-45 | The specification of a context's end: its list goes in reverse before the global one, and no counter changes |
| TrackerLists.FilterSplitsExactly | memory/alloc_tracker.c:73-91 | Filtering splits what was linked exactly into what stays linked and what is freed |
| TrackerLists.FilterLeavesLive | memory/alloc_tracker.c:73-91 | If exactly the live units were linked, exactly those not freed are |
| TrackerLists.SnapshotConserves | memory/alloc_tracker.c:157-200 | Taking the snapshot links every unit as often as before |
| TrackerLists.FreeContextConserves | memory/alloc_context.c:32-45 | Ending a context links every unit as often as before |
| TrackerLists.AllocateConserves | memory/alloc_context.c:22-30 | An allocation links the new unit once more and every other as often as before |
| TrackerLists.ListsAreApart | memory/alloc_tracker.c:157-200 | Linked once, no unit is in two lists or twice in one |
| TrackerLists.FilterBytes | memory/alloc_tracker.c:85-89 | Filtering splits the bytes, headers included |
| TrackerRuns.EveryLiveUnitIsLinkedOnce | memory/alloc_tracker.c:157-219 | Over any run every live unit is linked exactly once, and nothing else is |
| TrackerRuns.UsageIsBounded | memory/alloc_tracker.c:73-155 | Over any run live bytes are within usage, usage within the maximum, the over-report within 2 MiB per context ever created, and no filter subtracts too much |
| TrackerRuns.RunBalances | memory/alloc_tracker.c:101-155 | Over any run usage is exactly live bytes, reserves and leaked reserves, and lifetime bytes are usage and freed bytes |
| TrackerRuns.FilterCannotUnderflow | memory/alloc_tracker.c:89 | What a filter subtracts is in `currentUsage` |
| TrackerRuns.AllocateBalances | memory/alloc_tracker.c:114-155 | An allocation, granted or refused, keeps the balance |
| TrackerRuns.EndedContextsLeak | memory/alloc_tracker.c:214-219 | After any number of short-lived contexts nothing is live and their reserves are still counted |
| TrackerRuns.LeaksStarveTheHeap | memory/alloc_tracker.h:17-23 | Whatever the maximum, some run ends with nothing live and refuses every small allocation |
| GlobalList.NoUnitIsLostOrDoubled | memory/alloc_tracker.c:93-98 | In every interleaving of pushes and detachments the list is acyclic and null-terminated, every live unit is in one place, and units pushed are exactly those detached and those still linked |
| GlobalList.StepKeepsInv | memory/alloc_tracker.c:93-98 | Every atomic step keeps this, also when an address comes back while a push still compares with it |
| GlobalList.StepKeepsShaped | memory/alloc_tracker.c:93-98 | A successful swap extends the chain that starts at the head it saw |
| GlobalList.SwapLinksInFront | memory/alloc_tracker.c:93-98 | A swap that is not spurious and finds the head its push last saw links the unit in front and ends the push |
| GlobalList.SwapRetries | memory/alloc_tracker.c:95-97 | Any other swap changes no list and starts the push over with the present head; undisturbed, the next write and swap link the unit |
| GlobalList.FailedSwapHasAWinner | memory/alloc_tracker.c:95-97 | A swap fails, other than spuriously, only if another push has succeeded or the list has been detached since its push last saw the head |
| GlobalList.DetachTakesAll | memory/alloc_tracker.c:196-197 | Detaching takes the whole list and leaves an empty one |
| GlobalList.WalkHandsOut | memory/alloc_tracker.c:76-78 | The walk hands out the detached units one by one, in order |
| Accounting.UsageIsAlwaysBounded | memory/alloc_tracker.c:101-125 | In every interleaving live and pending bytes are within usage, usage within the maximum, and each reserve stays below 2 MiB and covers its allocation |
| Accounting.AtRestTheBooksBalance | memory/alloc_tracker.c:101-125 | With nothing in flight the over-report is at most 2 MiB per context ever created and lifetime bytes are usage and subtracted bytes |
| Accounting.StepKeepsInv | memory/alloc_tracker.c:101-125 | Every atomic step of allocations and filters keeps the balance |
| Accounting.SwapDecides | memory/alloc_tracker.c:101-112 | A swap refuses what does not fit the usage it last saw, grants what does if that is still the usage, and otherwise tries again with the present one |
| Accounting.BeginAsks | memory/alloc_tracker.c:114-144 | A small unit that the reserve covers asks for nothing, one that it does not for 2 MiB, a large one for its own bytes |
| Accounting.GrantSettles | memory/alloc_tracker.c:110-124 | What was granted is logged and settled with the reserve exactly |
| Accounting.UndisturbedIsCharged | memory/alloc_tracker.c:101-144 | An allocation that nobody disturbs is charged as the one-caller specification says |
| Accounting.RefusedOnlyWhenFull | memory/alloc_tracker.c:104-106 | In any run an allocation is refused only if what it asked for did not fit the usage when it last looked |
| Accounting.RetryHasAWinner | memory/alloc_tracker.c:109 | In any run one that fits is sent back, other than spuriously, only if somebody else has changed the usage since it last looked |
| CycleRequest.OneStartAtATime | gc/gc.c:431-493 | A caller waiting for the present count has a start under way, exactly one start is under way when the flag is set, none overwrites another, completions match accepted requests, and nobody sleeps through what it waits for |
| CycleRequest.ReturnsAfterACompletion | gc/gc.c:476-493 | A wait that does not time out returns only after a completion later than its request |
| CycleRequest.CompletionEndsTheWait | gc/gc.c:476-489 | A wait that looks at the counter returns at once if and only if a cycle has completed since its request, and otherwise sleeps |
| CycleRequest.TimesOutOnlyByItsDeadline | gc/gc.c:480-484 | A wait reports a timeout only if its deadline passed while it slept, before any cycle completed |
| CycleRequest.CompletionWakesAll | gc/gc.c:401-405 | A completion leaves nobody asleep, and whoever slept finds the counter changed and returns |
| CycleRequest.CallersOwnSteps | gc/gc.c:458-489 | A request is answered at once with the flag set and else delivers a start, and each step of a caller does just that |
| CycleRequest.CollectorsOwnSteps | gc/gc.c:431-453 | The collector's thread takes a start and runs its cycle, sleeps only on an empty slot, and never stops |
| CycleRequest.AnsweredByAFreshCycle | gc/gc.c:458-474 | The first completion after a request belongs to a cycle started after it if and only if no cycle was running at the request |
| CycleRequest.EveryStartCompletes | gc/gc.c:431-453 | While the flag is set some step leads closer to the completion and none leads away, not even a sleep that ends for no reason |
| CycleRequest.OnlyCompletionsCount | gc/gc.c:401-405 | The counter grows over a stretch of a run exactly when a cycle completes in it |
| CycleRequest.StepKeepsInv | gc/gc.c:431-493 | Every step keeps the protocol's invariant |
| MovingWindow.Window.Append | util/moving_window.c:24-30 | The entry becomes the newest, the oldest is overwritten when full |
| MovingWindow.Window.Next | util/moving_window.c:32-47 | The next of the newest entries, oldest first, and false exactly after the last |
| MovingWindow.Window.Entries | util/moving_window.c:32-47 | A fresh iterator yields one entry for each there is, from the slots computed, then stops; up to 2^31 slots they are exactly the last entries, oldest first, before and after wrap-around |
| MovingWindow.SlotIsRight | util/moving_window.c:37-44 | The slot read is that of the entry meant, unless the index sum wraps |
| MovingWindow.WrapReadsAnother | util/moving_window.c:44 | If the index sum wraps, the slot read is another one: the sum less 2^32 |
| MovingWindow.RightExactlyUpToHalfAWord | util/moving_window.c:44 | Every rotation is read correctly if and only if there are at most 2^31 slots |

## Left out

- Weak-memory effects of relaxed and acquire/release atomics: every atomic access is taken as sequentially consistent.
- Futex system calls: a wait may return at any time and is an action without effect. The wait wrapper in platform/linux/gc/gc_lock.c:88-92 in fact passes the wake operation, which this covers too.
- flup's circular buffers, buffers, mutexes and condition variables: taken as bounded FIFO queues with all-or-nothing writes, unbounded FIFO queues, atomic sections and sleeps that may end at any time. A write to the shared remark queue never fails or blocks.
- mimalloc: an allocation succeeds or not as a parameter says, and returns memory that no live unit occupies.
- The stop-the-world sections in `CycleModel` are single actions that need every mutator outside its section; `GcLock.MutualExclusion` is why the code between the two lock calls may be seen so.
- Threads that detach during a cycle, and shutdown, which may overwrite a pending start.
- The retry loop of `heap_alloc`, which asks for up to five cycles: it only repeats the allocation and the request modelled here.
- `size_t` and 64-bit counters are unbounded, except where a subtraction could go below zero and in the moving window; so an overflow of `oldSize + accountSize` is not modelled.
- The failure of `realloc` for an empty root snapshot (gc/gc.c:255-257) and other out-of-memory paths of the runtime's own structures.
- Descriptors: a block has fixed slots and flexible slots, or none as long as its descriptor is null; offsets, types and the layout of the header are not modelled beyond its size of 40 bytes.
- Statistics, logging, timing, pacing, gc/driver.c and gc/stat_collector.c: when to collect does not affect whether a collection is right.
- gc/gc_lock_posix.c, a wrapper around a read-write lock, and util/bitmap.c, which nothing calls.
- The thread list and the contexts' list are sequences, and a root or a context is removed by position; flup's list nodes are not modelled.
- Tracer.Marker.DoMark: asks that the trace come to an end, by returning or by a panic; of a trace that runs for ever it says nothing, and `MarkTheorems.DoMarkReturnsExactlyWhenArraysFit` says which those are.
- Tracer.Marker.ProcessDeferredQueue: is told the end of the trace, for the same reason; `ProcessMarkQueue` and `ResumeOne` ask for none.
- Collector.Collector.Remark: asks that the block's trace come to an end.
- Collector.Collector.MarkingPhase: asks that the traces up to the first null root or panic come to an end.
- Collector.Collector.ProcessAChunk: asks that the traces up to the first panic come to an end.
- Tracer.Marker.MarkOneItem: returns an outcome where the source panics in place.
- Collector.Collector.RunCycle: mutators are idle, remark buffers empty, and its traces come to an end; the concurrent case is `CycleTheorems.NothingAccessibleIsFreed`.
- IdleCycle.Run: as `RunCycle`; and the collector decides on all units before the tracker frees any, where the source decides and frees in one walk. The decisions depend on the mark bits alone.
- CycleAnyRun.CrashesExactlyWhen: a collector that comes to a freed block does nothing there, where the source goes on with whatever the memory holds.
- CycleExact.CycleIsSafeExactlyWhenHarmless: asks for room in the queues and no null root, because a cycle that crashes first frees nothing.
- AllocTracker.Tracker.FilterSnapshot: the filter is a set of units to keep, not a callback.
- AllocTracker.Tracker.TakeSnapshot: the snapshot is held by the tracker, where the source lets the caller hold it.
- AllocTracker.Tracker.AddBlockToGlobalList: one caller at a time, so the swap succeeds at once; `GlobalList` has the retry.
- AllocTracker.Tracker.SlowDoLargeAccounting: one caller at a time, so the swap succeeds at once; `Accounting` has the retry.
- CycleClaims.NoBlockIsClaimedTwice: quiet runs only, because a block buffered after the drain would stay buffered into the next cycle, where its bit reads as unmarked again.
- Accounting.UsageIsAlwaysBounded: units are byte counts there; which units they are is the matter of `TrackerRuns`.
- CycleBarriers.ClearIsSafeExactlyWhenDrainSuffices: of barriers past their check of the flag, which may still win or buffer a block during or after the drain, the exact condition is not stated; `CycleFailures.BarrierUnderWayFreesRootedBlock` is about a barrier before its check.
- A thread's remark buffer is taken and emptied in one action. The source empties it after processing (gc/gc.c:305-308), so a block that a mutator that is not quiet buffers meanwhile is dropped there, and stays buffered here.
