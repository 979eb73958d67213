# Models of the hard parts of libdispatch

Dafny models of the parts of libdispatch 1271.40.12 whose correctness is hardest to see from the code, with
proofs about every input, every run or every schedule. Sources are cited relative to the repository.

| files | what they model |
|---|---|
| `Mpsc*.dfy` | the multi-producer, single-consumer intrusive queue: a sequential queue as the reference (`FifoSpec`), the macros as atomic steps (`MpscProtocol`), their proofs, and what follows for every schedule |
| `Apply*.dfy` | `dispatch_apply`: workers that claim indices from a shared counter, their lifetimes, and width reserved down a chain of target queues |
| `Width*.dfy` | the packed reader/barrier lock word `dq_state`: named fields against the integer word, and the account of who holds width |
| `Data*.dfy` | immutable byte ropes: what they denote, reference counts, constructors, readers, and racing flatteners |
| `Alloc*.dfy`, `Digits.dfy` | the two-level bitmap allocator: address arithmetic, the concurrent protocol with page advice, and one magazine used sequentially |
| `RefCount.dfy` | the external and internal reference counts of an os_object |
| `AttrCodec.dfy`, `Digits.dfy` | queue attributes as mixed-radix table indices |

Concurrent code is a state machine: a state holds the shared memory and every thread's program counter, each
`os_atomic_*` operation (and each read-modify-write loop that succeeds) is one step, and a run is any sequence
of enabled steps. What the proofs need to remember beside the memory -- the abstract queue, who owes a link, who
accounts for a bit -- are fields of the state that no step reads. Sequential code that changes objects is a
class or a method with the loops of the source.

What the code does where its documentation says something else, or where a property needs a condition:

- `dispatch_data_copy_region` is documented to return a leaf or an object composed of a single leaf. For a
  flattened composite it returns the whole composite; `DataOps.CopyRegion` states exactly when.
- `dispatch_data_create_subrange` tests for "the whole object" only if the length was not clipped, so asking a
  leaf for more than it has makes a one-record object over the whole leaf (`DataOps.Subrange`).
- The second test for a whole leaf in `_dispatch_data_copy_region` never succeeds (`DataOps.DirectRegion`).
- Apply calls every index once if and only if iterations plus participants fit `da_index`.
- Readers reserve without looking at the full bit. Enough of them carry the width counter into the barrier bit
  (`WidthProtocol.CarryBreaksExclusion`); `WidthProtocol.ReaderIsSafeIffItFits` gives the condition.
- A drainer that could not start a barrier has reserved width for it. If its unlock then only renews the lock, and
  the queue is suspended before it drains again, it requeues the queue and reserves a second time, by adding to a
  word that has PENDING set already, and the queue is stuck (`WidthProtocol.DoubleReservationHappens`,
  `LeakedForever`). `WidthProtocol.RequeueKeepsInv` gives the condition: a requeue that reserves nothing, as after a
  retarget or below a queue that is not a root, does no harm. Barriers stay exclusive all the same
  (`WidthProtocol.BarrierExcludes`).
- `dispatch_queue_attr_make_with_autorelease_frequency` lets values through that do not fit their digit;
  `AttrCodec.AutoreleaseIsKeptIffInRange` gives the condition, and `AttrCodec.FrequencyCarriesIntoOvercommit` says
  when the attribute even leaves the table.
- `_os_object_retain_with_resurrect` adds one to the count it gets back, which for a global object is the largest
  `int`; in two's complement that reads as an over-release (`RefCount.GlobalsStay`). When it crashes and when
  not is `RefCount.ResurrectCrashesIff`.
- Releasing the one internal reference that the external ones own crashes in a debug build only; else the object is
  disposed of while external references exist (`RefCount.OsObject.ReleaseInternalN`, `RefCount.BuildsDiffer`).
- Allocator supermap bits are exact in sequential use. Among threads they can be set for a bitmap that is not
  full any more (`AllocTheorems.StaleHappens`, and exactly when: `StaleArisesExactly`), until the next free of one
  of its slots (`AllocTheorems.SetSupermapBitsGoAway`).

## Model

| member | source | states |
|---|---|---|
| `FifoSpec.FirstInFirstOut` | apple/iOS/libdispatch-1271.40.12/src/inline_internal.h:1621-1673 | In a history of the sequential queue without put-backs, what left followed by what remains is what was added, in order. |
| `FifoSpec.Conservation` | apple/iOS/libdispatch-1271.40.12/src/inline_internal.h:1621-1709 | With put-backs and snapshots too, what left and what remains together are what was added and put back, as multisets. |
| `FifoSpec.UndoCancelsPop` | apple/iOS/libdispatch-1271.40.12/src/inline_internal.h:1675-1689 | Putting back what was popped, after any pushes in between, gives the queue that never popped. |
| `FifoSpec.SnapshotDelivery` | apple/iOS/libdispatch-1271.40.12/src/inline_internal.h:1691-1704 | What a walk delivered followed by what is left of a snapshot is what was captured, in order. |
| `MpscProofs.PrepareKeepsInv` | apple/iOS/libdispatch-1271.40.12/src/inline_internal.h:1604-1606 | Storing NULL to the new tail's link keeps the invariant of the half-finished pushes. |
| `MpscProofs.ExchangeKeepsInv` | apple/iOS/libdispatch-1271.40.12/src/inline_internal.h:1604-1608 | Exchanging the tail adds the chain to the queue and makes the producer owe one link; all else is kept. |
| `MpscProofs.LinkKeepsInv` | apple/iOS/libdispatch-1271.40.12/src/inline_internal.h:1612-1619 | Writing the owed link, or the head of a queue that was empty, settles exactly that debt. |
| `MpscProofs.PopStoreKeepsInv` | apple/iOS/libdispatch-1271.40.12/src/inline_internal.h:1661-1664 | The pop's store of the next pointer to head, NULL included, keeps the invariant. |
| `MpscProofs.PopSwapKeepsInv` | apple/iOS/libdispatch-1271.40.12/src/inline_internal.h:1665-1668 | Its compare-and-swap of the tail either empties the queue or finds that a push got in between. |
| `MpscProofs.PopRestoreKeepsInv` | apple/iOS/libdispatch-1271.40.12/src/inline_internal.h:1669-1672 | After waiting for the link, the second store of head puts the right node there. |
| `MpscProofs.UndoSwapKeepsInv` | apple/iOS/libdispatch-1271.40.12/src/inline_internal.h:1675-1679 | Putting a chain back onto a queue that looks empty: the swap makes it the queue, or a push came first. |
| `MpscProofs.UndoStoreKeepsInv` | apple/iOS/libdispatch-1271.40.12/src/inline_internal.h:1680-1684 | Storing head puts the chain in front of all that is queued, whoever still owes links. |
| `MpscProofs.SnapSwapKeepsInv` | apple/iOS/libdispatch-1271.40.12/src/inline_internal.h:1691-1698 | The exchange takes exactly what is queued into the snapshot and leaves an empty queue. |
| `MpscProofs.WalkKeepsInv` | apple/iOS/libdispatch-1271.40.12/src/inline_internal.h:1700-1704 | Moving past a node of a snapshot keeps the invariant, while other producers still write its links. |
| `MpscTheorems.StepRefines` | apple/iOS/libdispatch-1271.40.12/src/inline_internal.h:1604-1709 | Every atomic step is a step of the sequential queue or changes nothing it can see. |
| `MpscTheorems.RunKeepsInv` | apple/iOS/libdispatch-1271.40.12/src/inline_internal.h:1604-1709 | Any number of producers and one consumer, in any interleaving: the invariant and the refinement hold. |
| `MpscTheorems.ItemsComeOutOnceInOrder` | apple/iOS/libdispatch-1271.40.12/src/inline_internal.h:1604-1689 | In every run items come out once each and in the order of the tail exchanges; with put-backs none is lost or doubled. |
| `MpscTheorems.SnapshotsAreExact` | apple/iOS/libdispatch-1271.40.12/src/inline_internal.h:1691-1704 | A snapshot delivers exactly the items whose exchange came before its own, in order. |
| `MpscTheorems.HeadAndTailAreRight` | apple/iOS/libdispatch-1271.40.12/src/inline_internal.h:1638-1649 | The tail is NULL exactly when the queue is empty, and a non-NULL head is the first item. |
| `MpscTheorems.WaitsOnlyForOwedLinks` | apple/iOS/libdispatch-1271.40.12/src/inline_internal.h:1641-1659 | Whenever the consumer waits on NULL, some producer is between its exchange and the very link waited for. |
| `MpscTheorems.LinkEndsTheWait` | apple/iOS/libdispatch-1271.40.12/src/inline_internal.h:1612-1659 | When that producer links, the consumer's wait is over. |
| `MpscTheorems.PopReturnsTheNewHead` | apple/iOS/libdispatch-1271.40.12/src/inline_internal.h:1661-1673 | A pop removes the first item and returns the new head, NULL exactly when the queue is left empty. |
| `MpscTheorems.ProducersKeepTheHead` | apple/iOS/libdispatch-1271.40.12/src/inline_internal.h:1612-1619 | No producer changes a head that is not NULL, so an undo may rely on the one it saw. |
| `MpscTheorems.ConsumerCanStart` | apple/iOS/libdispatch-1271.40.12/src/inline_internal.h:1638-1698 | An idle consumer can start a pop or a snapshot exactly if the queue is not empty and no producer owes the head; and it can always put a chain back, NULL being allowed after a push got in between. |
| `MpscTheorems.ConsumerWaitsExactlyForOwed` | apple/iOS/libdispatch-1271.40.12/src/inline_internal.h:1641-1704 | In the middle of an operation, and of a walk, the consumer waits if and only if the link it needs is owed. |
| `MpscTheorems.ProducersNeverWait` | apple/iOS/libdispatch-1271.40.12/src/inline_internal.h:1604-1619 | Whoever is in the middle of a push can take its next step. |
| `MpscTheorems.NothingWaitsWithoutProducers` | apple/iOS/libdispatch-1271.40.12/src/inline_internal.h:1604-1709 | Once nobody is in the middle of a push, the consumer can finish what it is doing, and else pop or capture any non-empty queue. |
| `MpscTheorems.AnyFreeChainCanBePushed` | apple/iOS/libdispatch-1271.40.12/src/inline_internal.h:1621-1636 | Whoever is not pushing can push any chain of free nodes. |
| `MpscTheorems.OperationsStart` | apple/iOS/libdispatch-1271.40.12/src/inline_internal.h:1651-1698 | Beginning a pop, an undo or a snapshot puts the consumer into it. |
| `MpscTheorems.ConsumerGetsOn` | apple/iOS/libdispatch-1271.40.12/src/inline_internal.h:1651-1698 | Each step of a pop, an undo or a snapshot brings it nearer to its end, at most four steps away. |
| `MpscTheorems.ProducersGetOn` | apple/iOS/libdispatch-1271.40.12/src/inline_internal.h:1604-1619 | A push is over after its exchange and its link. |
| `MpscTheorems.WalksGetOn` | apple/iOS/libdispatch-1271.40.12/src/inline_internal.h:1700-1704 | A walk is over after as many steps as the snapshot has nodes. |
| `MpscTheorems.PoppedNodesAreFree` | apple/iOS/libdispatch-1271.40.12/src/inline_internal.h:1651-1673 | What a pop takes is the first item, and is free to be pushed again. |
| `MpscTheorems.WalkedNodesAreFree` | apple/iOS/libdispatch-1271.40.12/src/inline_internal.h:1700-1704 | So is what a walk has moved past. |
| `ApplyTheorems.ApplySerial` | apple/iOS/libdispatch-1271.40.12/src/apply.c:131-154 | The serial loop calls 0, 1, ... in order, each once. |
| `ApplyTheorems.SerialCount` | apple/iOS/libdispatch-1271.40.12/src/apply.c:133-154 | Serial apply calls each index below the count exactly once and no other. |
| `ApplyProtocol.StepKeepsInv` | apple/iOS/libdispatch-1271.40.12/src/apply.c:31-94 | Each step of a participant keeps the accounts of indices, da_todo, the event and da_thr_cnt. |
| `ApplyProtocol.RunKeepsInv` | apple/iOS/libdispatch-1271.40.12/src/apply.c:31-94 | So does every schedule of any number of participants. |
| `ApplyTheorems.NoIndexTwice` | apple/iOS/libdispatch-1271.40.12/src/apply.c:36-68 | At no time has an index been called twice, and none outside the range ever is. |
| `ApplyTheorems.ParallelRefinesSerial` | apple/iOS/libdispatch-1271.40.12/src/apply.c:31-94 | When the caller is past its event, the calls that have returned are those of serial apply, each once. |
| `ApplyTheorems.FrameReadsAreSafe` | apple/iOS/libdispatch-1271.40.12/src/apply.c:36-41 | Whoever holds a claimed index reads the caller's frame while da_todo is positive and the caller still waits. |
| `ApplyTheorems.EventIsSignalledOnce` | apple/iOS/libdispatch-1271.40.12/src/apply.c:78-87 | The event is signalled at most once, never after it was destroyed, and destroyed only after the signal. |
| `ApplyTheorems.ControlBlockIsFreedOnce` | apple/iOS/libdispatch-1271.40.12/src/apply.c:88-94 | The control block is freed exactly once, when the last participant is done, however late participants start. |
| `ApplyTheorems.NeverStuck` | apple/iOS/libdispatch-1271.40.12/src/apply.c:78-94 | Until everyone is done somebody can take a step, so the caller does not wait in vain. |
| `ApplyTheorems.SchedulesEnd` | apple/iOS/libdispatch-1271.40.12/src/apply.c:31-94 | Every schedule ends, after three steps for each iteration and eleven for each participant at most: with `NeverStuck`, apply returns. |
| `ApplyTheorems.StepsShorten` | apple/iOS/libdispatch-1271.40.12/src/apply.c:31-94 | Every step of any participant brings all of them nearer to the end. |
| `ApplyTheorems.WrappedCounterRepeats` | apple/iOS/libdispatch-1271.40.12/src/apply.c:36-37 | If iterations and participants together exceed the counter, some schedule calls index 0 twice. |
| `ApplyTheorems.ExactlyOnceIffCounterFits` | apple/iOS/libdispatch-1271.40.12/src/apply.c:36-68 | No schedule calls an index twice if and only if iterations plus participants fit the counter. |
| `ApplyRedirect.TryReserve` | apple/iOS/libdispatch-1271.40.12/src/apply.c:193-215 | Grants the smaller of what is asked and what is available, nothing on a serial queue. |
| `ApplyRedirect.Relinquish` | apple/iOS/libdispatch-1271.40.12/src/apply.c:217-229 | Gives back the same width on every queue from the top to before the stop, and nowhere else. |
| `ApplyRedirect.ReserveNext` | apple/iOS/libdispatch-1271.40.12/src/apply.c:239-250 | A hop grants what the queue had free, up to what was wanted, and nothing on a serial queue; after it every queue passed holds exactly that width. |
| `ApplyRedirect.ReserveOne` | apple/iOS/libdispatch-1271.40.12/src/apply.c:238-256 | And da_thr_cnt counts that width and the caller, unless nothing was granted. |
| `ApplyRedirect.ReserveDown` | apple/iOS/libdispatch-1271.40.12/src/apply.c:231-258 | Down a chain of any length, each queue grants what it had free up to the grant before: at the root every queue holds da_thr_cnt - 1, or all have given everything back. |
| `ApplyRedirect.Redirect` | apple/iOS/libdispatch-1271.40.12/src/apply.c:231-262 | Apply goes serial exactly if the last queue reached is serial or had nothing free, and runs with all its participants exactly if every queue had enough; the continuations are pushed only with at least one; on both ways out every queue has back what was reserved on it, while other threads reserve and give back. |
| `ApplyRedirect.GrantsAreWhatIsFree` | apple/iOS/libdispatch-1271.40.12/src/apply.c:239-256 | Whatever the queues had free, the last grant is nothing exactly if that queue is serial or full, and all that was asked for exactly if every queue had that much. |
| `ApplyRedirect.WhichPlan` | apple/iOS/libdispatch-1271.40.12/src/apply.c:287-359 | Apply runs in parallel on a root queue, redirected from any other that is not the current one, and serially exactly on a serial queue, on the current non-root queue, or without room for two. |
| `ApplyRedirect.PlansUseTheRoom` | apple/iOS/libdispatch-1271.40.12/src/apply.c:308-325 | A parallel apply has the largest number of participants there is room for. |
| `ApplyRedirect.ThreadCountIsLargest` | apple/iOS/libdispatch-1271.40.12/src/apply.c:308-325 | A number of participants is within the count exactly if it is within the iterations and, at every place that runs this apply, within the parallelism; the caller alone if there is no room. |
| `ApplyRedirect.ParallelPlansAreSound` | apple/iOS/libdispatch-1271.40.12/src/apply.c:287-359 | Apply goes parallel with at least two participants, no more than iterations, and within the parallelism of all nesting levels. |
| `ApplyRedirect.NestingFits` | apple/iOS/libdispatch-1271.40.12/src/apply.c:314-320 | The nesting product stays positive and fits even a 32-bit size_t. |
| `ApplyRedirect.NestingIsProduct` | apple/iOS/libdispatch-1271.40.12/src/apply.c:311-320 | For applies inside applies of any depth, the nesting level is the product of the iteration counts below the limit, and at least the limit above it. |
| `ApplyRedirect.NestedAppliesShareTheLimit` | apple/iOS/libdispatch-1271.40.12/src/apply.c:308-325 | So the participants of an inner apply, at all its places together, stay within the parallelism. |
| `WidthLock.WordTests` | apple/iOS/libdispatch-1271.40.12/src/inline_internal.h:1108-1120 | The word's unsigned comparisons say that the queue is not suspended, in no barrier, and (for runnable) not full. |
| `WidthLock.WordAdd` | apple/iOS/libdispatch-1271.40.12/src/inline_internal.h:1469-1476 | Adding width intervals to the word adds to the width field, with the carry into the barrier bit and beyond. |
| `WidthLock.WordFlags` | apple/iOS/libdispatch-1271.40.12/src/inline_internal.h:876-908 | The word's flag and width extractions give the named fields back. |
| `WidthLock.WordPending` | apple/iOS/libdispatch-1271.40.12/src/inline_internal.h:1491-1501 | Adding the pending-barrier width sets PENDING and reserves all but one interval. |
| `WidthLock.WordBarrier` | apple/iOS/libdispatch-1271.40.12/src/inline_internal.h:1502-1508 | The upgrade's last additions enter the barrier exactly when the reduced word is runnable. |
| `WidthLock.Lane.TryAcquireAsync` | apple/iOS/libdispatch-1271.40.12/src/inline_internal.h:1463-1477 | On the packed word: takes one interval if runnable, clean and without a pending barrier, else changes nothing. |
| `WidthLock.Lane.TryReserveSyncWidth` | apple/iOS/libdispatch-1271.40.12/src/inline_internal.h:1434-1456 | Likewise for a reader, who does not look at the full bit but lets queued items go first. |
| `WidthLock.Lane.TryReserveApplyWidth` | apple/iOS/libdispatch-1271.40.12/src/apply.c:193-215 | Takes exactly the granted width, at most what is available. |
| `WidthLock.Lane.RelinquishWidth` | apple/iOS/libdispatch-1271.40.12/src/apply.c:217-229 | Takes exactly the given width off the word. |
| `WidthLock.Lane.TryUpgradeFullWidth` | apple/iOS/libdispatch-1271.40.12/src/inline_internal.h:1489-1510 | Enters the barrier or leaves the queue pending, giving back what the drainer owned; the answer is the barrier bit. |
| `WidthLock.WordIsFaithful` | apple/iOS/libdispatch-1271.40.12/src/queue_internal.h:114-443 | Different fields give different words, so the named fields lose nothing. |
| `WidthLock.Lane.TryDrainLock` | apple/iOS/libdispatch-1271.40.12/src/inline_internal.h:1270-1336 | On the packed word: locks exactly a runnable, unlocked queue that is not the manager's, takes the whole width, and enters a barrier if it can; else gives up ENQUEUED. |
| `WidthLock.Lane.TryDrainUnlock` | apple/iOS/libdispatch-1271.40.12/src/inline_internal.h:1543-1575 | On the packed word: gives back what was owned and masks the lock bits, or clears DIRTY alone and keeps the lock. |
| `WidthLock.Lane.TryAcquireBarrierSync` | apple/iOS/libdispatch-1271.40.12/src/inline_internal.h:1386-1413 | On the packed word: succeeds exactly from the idle word, whatever the role bits. |
| `WidthLock.Lane.TryLockAfter` | apple/iOS/libdispatch-1271.40.12/src/queue.c:904-928 | On the packed word: takes the whole width and the lock if the full width bits come out, else asks for a drain if DIRTY was set. |
| `WidthLock.Lane.NonBarrierComplete` | apple/iOS/libdispatch-1271.40.12/src/queue.c:964-985 | On the packed word: gives back one interval, marks a locked queue DIRTY, or tries to take the barrier. |
| `WidthLock.WordReserve` | apple/iOS/libdispatch-1271.40.12/src/inline_internal.h:1517-1535 | Adding PENDING and all but one interval to the word sets the flag, or, if it is set, clears it and carries into the width. |
| `WidthLock.Lane.InvokeFinish` | apple/iOS/libdispatch-1271.40.12/src/queue.c:3781-3826 | On the packed word: gives back what was owned less what is reserved for a barrier; then DIRTY is set, there is no owner, a word below the full bit and off the manager is enqueued, and one whose drainer gave its place up is enqueued only then. |
| `WidthLock.FinishedWord` | apple/iOS/libdispatch-1271.40.12/src/queue.c:3805-3813 | What a requeued queue's fields say of DIRTY, owner and ENQUEUED, the word's bits and comparisons say. |
| `WidthLock.Lane.TryTakeBarrier` | apple/iOS/libdispatch-1271.40.12/src/queue.c:3148-3180 | On the packed word: a resume or a pushed waiter takes the lock for a barrier exactly if the queue is runnable, unlocked, and pending or with no width in use. |
| `WidthLock.Lane.HandOverTo` | apple/iOS/libdispatch-1271.40.12/src/queue.c:1275-1320 | On the packed word: the owner is replaced, and DIRTY, the override and the drainer's ENQUEUED bit go. |
| `WidthLock.Lane.CompleteBarrier` | apple/iOS/libdispatch-1271.40.12/src/queue.c:1322-1370 | On the packed word, with the caller's QoS merged in: gives back the whole width and the barrier bit, and enqueues, or renews the lock if DIRTY, or forgets the QoS. |
| `WidthLock.Lane.FinishNonBarriers` | apple/iOS/libdispatch-1271.40.12/src/queue.c:1466-1496 | On the packed word: gives back what is left less what is reserved for a barrier, and tries to take the barrier if an item is left, or renews the lock if DIRTY. |
| `WidthProtocol.StepKeepsInv` | apple/iOS/libdispatch-1271.40.12/src/inline_internal.h:1270-1575 | A step on the lock word keeps the account of who holds how much width if and only if no addition carries out of the width field and no requeue reserves for a barrier that width is reserved for already. |
| `WidthProtocol.FewAreCareful` | apple/iOS/libdispatch-1271.40.12/src/inline_internal.h:1434-1535 | While less than the full counter is in use only a double reservation is not careful; with the queue's width to spare, nothing carries at all. |
| `WidthProtocol.UnlockKeepsInv` | apple/iOS/libdispatch-1271.40.12/src/inline_internal.h:1517-1575 | Unlocking gives back exactly what the drainer owned, or only renews the lock. |
| `WidthProtocol.RequeueKeepsInv` | apple/iOS/libdispatch-1271.40.12/src/queue.c:3736-3826 | Requeueing in front of a barrier keeps the account if and only if the queue is not pending yet and the counter does not carry; any other requeue always does. |
| `WidthProtocol.NonBarriersKeepsInv` | apple/iOS/libdispatch-1271.40.12/src/queue.c:1432-1500 | The end of a drain of readers gives back what is left, or keeps the lock, or starts the barrier only when alone; exactly as long as the reservation does not carry. |
| `WidthProtocol.BarrierEndKeepsInv` | apple/iOS/libdispatch-1271.40.12/src/queue.c:1275-1365 | Handing the lock to the next barrier's thread, and completing a barrier, keep the account. |
| `WidthProtocol.DoubleReservationLeaks` | apple/iOS/libdispatch-1271.40.12/src/queue.c:3736-3826 | From any state, requeueing in front of a barrier that is pending already drops the flag and counts 2 * width - 1 intervals that nobody holds, exactly as long as that does not carry. |
| `WidthProtocol.DoubleReservationHappens` | apple/iOS/libdispatch-1271.40.12/src/inline_internal.h:1909-1943 | For every width over 1 a run of nine steps from the idle queue gets there: an enqueued queue's stalled drainer only renews its lock when it unlocks, the queue is suspended, requeued and resumed. |
| `WidthProtocol.LeakedForever` | apple/iOS/libdispatch-1271.40.12/src/inline_internal.h:1270-1477 | After that, in every run in which no addition carries, no drainer, barrier or async ever gets in again. |
| `WidthProtocol.StepKeepsAccount` | apple/iOS/libdispatch-1271.40.12/src/inline_internal.h:1270-1575 | With the leak allowed for, a step keeps width accounted for if and only if no addition carries out of the width field. |
| `WidthProtocol.RunKeepsAccount` | apple/iOS/libdispatch-1271.40.12/src/inline_internal.h:1270-1575 | So does every run in which no addition carries. |
| `WidthProtocol.BarriersStartExactlyWhenAlone` | apple/iOS/libdispatch-1271.40.12/src/inline_internal.h:1270-1336 | A drain lock, an upgrade or the last reader's release starts a barrier if and only if nobody else holds width. |
| `WidthProtocol.WhoGetsWidth` | apple/iOS/libdispatch-1271.40.12/src/inline_internal.h:1434-1477 | Asyncs get width exactly while some is left, readers exactly unless a barrier runs or is next, applies as much as is left. |
| `WidthProtocol.FinishedKeepsInv` | apple/iOS/libdispatch-1271.40.12/src/queue.c:904-985 | A finished reader gives back one interval and takes the barrier only if nobody else holds width. |
| `WidthProtocol.UpgradeKeepsInv` | apple/iOS/libdispatch-1271.40.12/src/inline_internal.h:1489-1510 | An upgrade starts the barrier only when the drainer's is the only width in use; it keeps the account exactly as long as its reservation does not carry. |
| `WidthProtocol.LockKeepsInv` | apple/iOS/libdispatch-1271.40.12/src/inline_internal.h:1270-1413 | The drain lock, the idle barrier lock, and the locks that a resume or a pushed waiter takes start a barrier only when nobody holds width. |
| `WidthProtocol.RunKeepsInv` | apple/iOS/libdispatch-1271.40.12/src/inline_internal.h:1270-1575 | Every interleaving of careful steps keeps the account. |
| `WidthProtocol.BarrierExcludes` | apple/iOS/libdispatch-1271.40.12/src/inline_internal.h:1434-1510 | In every run in which no addition carries, double reservations included: while a barrier runs nobody else holds width, and no reserver, applier, drainer or barrier gets in. |
| `WidthProtocol.WidthIsCounted` | apple/iOS/libdispatch-1271.40.12/src/inline_internal.h:884-908 | In every careful run, used width outside barriers is exactly what is held, and a pending barrier leaves room only for itself. |
| `WidthProtocol.WidthIsCountedOrLeaked` | apple/iOS/libdispatch-1271.40.12/src/inline_internal.h:884-908 | In every run in which no addition carries, used width outside barriers is what is held, or 2 * width - 1 more after a double reservation. |
| `WidthProtocol.OnlyReadersOvercommit` | apple/iOS/libdispatch-1271.40.12/src/apply.c:195-215 | Asyncs, applies and locks never use more than the queue's width. |
| `WidthProtocol.ReaderIsSafeIffItFits` | apple/iOS/libdispatch-1271.40.12/src/inline_internal.h:1448-1455 | A reader keeps the account right if and only if the counter does not carry. |
| `WidthProtocol.CarryBreaksExclusion` | apple/iOS/libdispatch-1271.40.12/src/inline_internal.h:1448-1455 | On a queue of any width, FULL + width readers that reserve one after the other reach a barrier that nobody runs, while all of them hold width. |
| `WidthLaws.DirtyIsNotLost` | apple/iOS/libdispatch-1271.40.12/src/inline_internal.h:1270-1575 | No step but one that holds the lock afterwards clears DIRTY. |
| `WidthLaws.TakingClearsDirty` | apple/iOS/libdispatch-1271.40.12/src/inline_internal.h:1270-1510 | Every way to take the lock, and the upgrade, clears DIRTY, and the taker becomes the owner. |
| `WidthLaws.NewsKeepsTheLock` | apple/iOS/libdispatch-1271.40.12/src/inline_internal.h:1537-1575 | An unlock is refused exactly if DIRTY is set (and the queue not suspended, nor enqueued by a completed barrier), and then nothing but DIRTY changes; else there is no owner left. |
| `WidthLaws.EnqueuedIsNotLost` | apple/iOS/libdispatch-1271.40.12/src/inline_internal.h:1537-1575 | Only the drainer that was on the target's list takes the queue off it, and only as it unlocks or hands the lock over. |
| `WidthLaws.RequeueingPushes` | apple/iOS/libdispatch-1271.40.12/src/queue.c:3805-3826 | Every requeue leaves DIRTY set and no owner, and the queue enqueued exactly if it can run and is not the manager's, or somebody else had enqueued it. |
| `WidthLaws.FinishingPushes` | apple/iOS/libdispatch-1271.40.12/src/queue.c:904-985 | The last reader enqueues exactly a runnable queue that nobody drains and that is dirty; under a drainer it sets DIRTY. |
| `WidthLaws.CompletingPushes` | apple/iOS/libdispatch-1271.40.12/src/queue.c:1340-1365 | A completed barrier enqueues exactly if asked to, on a queue that is not suspended. |
| `WidthLaws.DrainingPushes` | apple/iOS/libdispatch-1271.40.12/src/queue.c:1474-1496 | The end of a drain of readers enqueues exactly a dirty queue with an item left whose barrier it cannot take. |
| `WidthLaws.NobodyElsePushes` | apple/iOS/libdispatch-1271.40.12/src/inline_internal.h:1270-1575 | No other step sets ENQUEUED. |
| `WidthLaws.NothingIsForgotten` | apple/iOS/libdispatch-1271.40.12/src/inline_internal.h:1270-1575 | No queue becomes dirty and runnable with nobody draining it and nobody having it enqueued, unless its drainer stops for want of width or an apply gives width back. |
| `WidthLaws.WidthOnly` | apple/iOS/libdispatch-1271.40.12/src/inline_internal.h:1434-1477 | Reserving width, giving it back and passing it on changes nothing else in the word. |
| `WidthLaws.OthersBusiness` | apple/iOS/libdispatch-1271.40.12/src/inline_internal.h:1270-1575 | No step changes the suspend count or the manager bit, unless it carries. |
| `WidthLaws.MidParts` | apple/iOS/libdispatch-1271.40.12/src/inline_internal.h:1062-1076 | Merging a QoS takes the higher one; clearing an override and clearing the QoS leave the other fields and the role. |
| `WidthLaws.MidIsKept` | apple/iOS/libdispatch-1271.40.12/src/inline_internal.h:1270-1575 | Role, override and QoS stay, but for the override that ends with its lock, the QoS that is forgotten with nothing left to do, and the one a completed barrier brings. |
| `WidthLaws.WhoGetsTheLock` | apple/iOS/libdispatch-1271.40.12/src/inline_internal.h:1270-1413 | A drainer gets the lock exactly while some width is left, or all of it if a barrier is pending; a barrier exactly while nothing is in use. |
| `WidthLaws.HoldersCanAct` | apple/iOS/libdispatch-1271.40.12/src/inline_internal.h:1517-1575 | Whoever holds width can give it back, and whoever holds the lock can unlock, requeue, upgrade or hand over: nothing else is in the way. |
| `DataRope.SizeIsLength` | apple/iOS/libdispatch-1271.40.12/src/data.c:39-91 | A well-formed object's size is the number of bytes it stands for, and positive. |
| `DataRope.JoinSlice` | apple/iOS/libdispatch-1271.40.12/src/data.c:442-444 | A run of records stands for a run of bytes. |
| `DataRope.TrimFront` | apple/iOS/libdispatch-1271.40.12/src/data.c:446-449 | Moving the first record's start drops that many bytes and keeps the records inside their leaves. |
| `DataRope.TrimBack` | apple/iOS/libdispatch-1271.40.12/src/data.c:450-452 | Shortening the last record drops bytes from the end. |
| `DataRope.SlicesCompose` | apple/iOS/libdispatch-1271.40.12/src/data.c:364-392 | A subrange of a subrange is a subrange. |
| `DataRope.SplitRestores` | apple/iOS/libdispatch-1271.40.12/src/data.c:364-392 | Prefix and suffix make the whole. |
| `DataRope.ConcatSizeIsRightIffItFits` | apple/iOS/libdispatch-1271.40.12/src/data.c:336-337 | A concatenation's size is right if and only if the sum fits a size_t. |
| `DataHeap.World.Create` | apple/iOS/libdispatch-1271.40.12/src/data.c:181-218 | A leaf for the bytes, or the empty singleton for none. |
| `DataHeap.World.Retain` | apple/iOS/libdispatch-1271.40.12/src/data.c:95-101 | One more reference, counted; the singleton is not counted. |
| `DataHeap.World.RetainLeaves` | apple/iOS/libdispatch-1271.40.12/src/data.c:355-359 | Retaining record by record counts every record, repeated leaves included. |
| `DataHeap.World.Box` | apple/iOS/libdispatch-1271.40.12/src/data.c:103-125 | A composite that keeps the header comment's invariant and owns one reference per record. |
| `DataHeap.World.ReleaseLeaves` | apple/iOS/libdispatch-1271.40.12/src/data.c:264-268 | Exactly the leaves that lose their last reference are destroyed. |
| `DataHeap.World.Dispose` | apple/iOS/libdispatch-1271.40.12/src/data.c:257-270 | Disposing gives back each record's reference once; leaves still referenced stay. |
| `DataHeap.World.Release` | apple/iOS/libdispatch-1271.40.12/src/data.c:257-270 | A client's release destroys exactly the objects it leaves unreferenced, once each. |
| `DataHeap.World.NothingLeaks` | apple/iOS/libdispatch-1271.40.12/src/data.c:257-270 | When clients hold nothing, everything was destroyed exactly once. |
| `DataHeap.World.HeldIsIntact` | apple/iOS/libdispatch-1271.40.12/src/data.c:257-270 | What a reference reaches was not destroyed. |
| `DataOps.Concat` | apple/iOS/libdispatch-1271.40.12/src/data.c:317-361 | Denotes the two byte strings in order if their sizes fit a size_t, and else makes a malformed object; None exactly if the numbers of records overflow; the empty object is the identity. |
| `DataOps.FindFirst` | apple/iOS/libdispatch-1271.40.12/src/data.c:397-408 | Finds the record that holds a byte; the first crash is not reached. |
| `DataOps.FindLast` | apple/iOS/libdispatch-1271.40.12/src/data.c:416-440 | Counts the records up to the end and what is left of the last; the second crash is not reached. |
| `DataOps.CutDenotes` | apple/iOS/libdispatch-1271.40.12/src/data.c:442-452 | The copied and patched records stand for exactly the bytes asked for and stay inside their leaves. |
| `DataOps.CutRecords` | apple/iOS/libdispatch-1271.40.12/src/data.c:416-452 | The records built for a range over several records have its length and its bytes. |
| `DataOps.SubrangeOfLeaf` | apple/iOS/libdispatch-1271.40.12/src/data.c:384-392 | A one-record object over the leaf. |
| `DataOps.SliceMeans` | apple/iOS/libdispatch-1271.40.12/src/data.c:363-392 | The bytes a subrange stands for are those from the offset on, as many as were asked for and exist. |
| `DataOps.SubrangeOfComposite` | apple/iOS/libdispatch-1271.40.12/src/data.c:394-458 | The bytes asked for: the leaf or one record if they lie inside one record, and a new object of several records exactly if they do not. |
| `DataOps.Subrange` | apple/iOS/libdispatch-1271.40.12/src/data.c:363-458 | For every object, offset and length: the bytes asked for as far as they exist, as a well-formed, counted object; the object itself exactly if asked for exactly, else one record over a leaf, and several records exactly if the bytes span records of a composite. |
| `DataOps.MapDirect` | apple/iOS/libdispatch-1271.40.12/src/data_internal.h:126-149 | A buffer exactly for leaves, one-record objects and flattened ones, and what can be read from it. |
| `DataOps.DirectRegion` | apple/iOS/libdispatch-1271.40.12/src/data.c:609-634 | The object itself or a one-record object; the second test for a whole leaf never succeeds. |
| `DataOps.FindRegion` | apple/iOS/libdispatch-1271.40.12/src/data.c:636-661 | Finds the record of a location; the crash is not reached. |
| `DataOps.CopyRegion` | apple/iOS/libdispatch-1271.40.12/src/data.c:606-674 | A region and offset that hold the location and denote those bytes; more than one record exactly for flattened objects. |
| `DataReaders.RecordVisitsTile` | apple/iOS/libdispatch-1271.40.12/src/data.c:578-585 | The calls an applier gets for the records follow one another and add up to the bytes. |
| `DataReaders.VisitsTile` | apple/iOS/libdispatch-1271.40.12/src/data.c:563-604 | For every object the calls start at 0, leave no gap, end at the size, and show its bytes. |
| `DataReaders.VisitsFollowRecords` | apple/iOS/libdispatch-1271.40.12/src/data.c:563-604 | A contiguous object gets one call, on itself; any other exactly one for each record, in order, on that record's leaf at its offset. |
| `DataReaders.VisitsShowBuffers` | apple/iOS/libdispatch-1271.40.12/src/data.c:563-604 | What a call shows is a run of the bytes of a live, contiguous region: no buffer is made up. |
| `DataReaders.Apply` | apple/iOS/libdispatch-1271.40.12/src/data.c:563-604 | The applier sees a prefix of those calls, up to its first false. |
| `DataReaders.Flatten` | apple/iOS/libdispatch-1271.40.12/src/data.c:460-476 | The buffer put together by an applier holds the object's bytes. |
| `DataReaders.CreateMap` | apple/iOS/libdispatch-1271.40.12/src/data.c:478-517 | The object itself if contiguous, else a new leaf, with the same bytes. |
| `DataReaders.GetFlattenedBytes` | apple/iOS/libdispatch-1271.40.12/src/data.c:519-548 | The object's bytes; the copy is cached, and nothing else changes. |
| `DataReaders.CutAndRejoin` | apple/iOS/libdispatch-1271.40.12/src/data.c:317-458 | Cutting anywhere and concatenating gives the same bytes. |
| `DataReaders.NextRegion` | apple/iOS/libdispatch-1271.40.12/src/data.c:606-674 | A region asked for at a boundary starts there and ends at the next. |
| `DataReaders.Walk` | apple/iOS/libdispatch-1271.40.12/src/data.c:606-674 | Stepping from region to region ends and tiles the object in order. |
| `FlattenRace.AllReturnTheInstalled` | apple/iOS/libdispatch-1271.40.12/src/data.c:534-548 | Racing threads all return the one installed buffer, which holds the object's bytes. |
| `FlattenRace.LosersFreeTheirOwn` | apple/iOS/libdispatch-1271.40.12/src/data.c:535-542 | Who loses the swap frees the buffer it made, which nobody was given. |
| `FlattenRace.OnlyLosersAreFreed` | apple/iOS/libdispatch-1271.40.12/src/data.c:534-548 | In the end every buffer but the installed one was freed. |
| `FlattenRace.EverybodyReturns` | apple/iOS/libdispatch-1271.40.12/src/data.c:525-548 | Nobody waits: every thread returns after one step if a copy is there already, and makes none, else after two. |
| `AllocAddress.PhoneLayoutIsValid` | apple/iOS/libdispatch-1271.40.12/src/allocator_internal.h:111-199 | The layout assumptions hold of 16 KiB pages with 64-byte continuations. |
| `AllocAddress.PlaceOfContinuation` | apple/iOS/libdispatch-1271.40.12/src/allocator.c:82-166 | From indices to a continuation's address and back is the identity. |
| `AllocAddress.PlaceOfFirstPage` | apple/iOS/libdispatch-1271.40.12/src/allocator.c:122-156 | Likewise in the first page, whose slots end before the main array starts. |
| `AllocAddress.ContinuationOfPlace` | apple/iOS/libdispatch-1271.40.12/src/allocator.c:137-166 | Every element of the main array has indices in range that lead back to it. |
| `AllocAddress.SlotsAreDisjoint` | apple/iOS/libdispatch-1271.40.12/src/allocator.c:82-93 | Different indices give slots that do not overlap. |
| `AllocAddress.ElementsFollowOneAnother` | apple/iOS/libdispatch-1271.40.12/src/allocator_internal.h:222-275 | Continuations, bitmaps, supermaps and the first page's continuations lie in order, each next to the one before, as the arrays of the magazine do. |
| `AllocAddress.PlaceOfBitmap` | apple/iOS/libdispatch-1271.40.12/src/allocator.c:102-120 | From a bitmap's address back to its magazine, supermap and index. |
| `AllocAddress.BookkeepingIsApart` | apple/iOS/libdispatch-1271.40.12/src/allocator_internal.h:222-259 | Supermaps, bitmaps, the first page's continuations and the others do not overlap. |
| `AllocAddress.PagesMatchBitmaps` | apple/iOS/libdispatch-1271.40.12/src/allocator.c:194-208 | Two slots share a page exactly if their bitmaps have the same first bitmap. |
| `AllocAddress.PageBaseLeadsToItsBitmaps` | apple/iOS/libdispatch-1271.40.12/src/allocator.c:526-536 | The bitmaps reached from a page's base address are those of that page. |
| `AllocProtocol.SetBitKeepsInv` | apple/iOS/libdispatch-1271.40.12/src/shims/atomic_sfb.h:82-104 | Taking the first unset bit hands out a slot nobody accounts for. |
| `AllocProtocol.MarkKeepsInv` | apple/iOS/libdispatch-1271.40.12/src/allocator.c:268-287 | Marking a bitmap as full, after looking at it and with retries, changes no account. |
| `AllocProtocol.ClearBitKeepsInv` | apple/iOS/libdispatch-1271.40.12/src/allocator.c:244-266 | Clearing the bit gives up exactly the freed slot. |
| `AllocProtocol.TryLockKeepsInv` | apple/iOS/libdispatch-1271.40.12/src/allocator.c:543-553 | A bitmap is locked only from empty, and then wholly by the locking thread. |
| `AllocProtocol.UnlockOneKeepsInv` | apple/iOS/libdispatch-1271.40.12/src/allocator.c:565-572 | Unlocking gives up exactly the bitmap it clears. |
| `AllocProtocol.StepKeepsInv` | apple/iOS/libdispatch-1271.40.12/src/allocator.c:221-593 | Every atomic step keeps the account of set bits. |
| `AllocProtocol.StepKeepsSuper` | apple/iOS/libdispatch-1271.40.12/src/allocator.c:268-287 | A set supermap bit is always backed by a slot in use or a free in progress. |
| `AllocTheorems.RunKeepsInv` | apple/iOS/libdispatch-1271.40.12/src/allocator.c:221-593 | So does every interleaving. |
| `AllocTheorems.NoSlotTwice` | apple/iOS/libdispatch-1271.40.12/src/allocator.c:219-239 | In every run an allocation takes a slot that no client, thread or lock holds. |
| `AllocTheorems.SetBitsAreAccountedFor` | apple/iOS/libdispatch-1271.40.12/src/allocator.c:487-593 | Each set bit is one slot handed out or part of one thread's page lock. |
| `AllocTheorems.AdvisedPagesAreIdle` | apple/iOS/libdispatch-1271.40.12/src/allocator.c:538-563 | A page is advised only while all its bitmaps are held by the adviser. |
| `AllocTheorems.OnlyOwnLocksAreCleared` | apple/iOS/libdispatch-1271.40.12/src/allocator.c:549-572 | An attempt, abandoned or not, clears only bitmaps it had locked. |
| `AllocTheorems.ExclusiveClearNeverCrashes` | apple/iOS/libdispatch-1271.40.12/src/allocator.c:244-266 | Balanced frees never meet the exclusive-clear crash. |
| `AllocTheorems.CrashesExactlyOnAClearBit` | apple/iOS/libdispatch-1271.40.12/src/allocator.c:244-266 | The exclusive clear crashes if and only if the bit is clear. |
| `AllocTheorems.WhatCanBeTaken` | apple/iOS/libdispatch-1271.40.12/src/allocator.c:292-340 | In every run a thread can take exactly the first free slot of any bitmap, as far as there are continuations: the first page's last bitmap ends at the remainder. |
| `AllocTheorems.SetSupermapBitsGoAway` | apple/iOS/libdispatch-1271.40.12/src/allocator.c:244-287 | A set supermap bit that no free is about to clear means that a slot of the bitmap is in use, and that the free of any slot of it gets the bit cleared. |
| `AllocTheorems.FreesClearTheirBit` | apple/iOS/libdispatch-1271.40.12/src/allocator.c:244-287 | Step by step, the supermap bit is clear or about to be cleared exactly after a free of a slot of its bitmap, until it is set again. |
| `AllocTheorems.StaleArisesExactly` | apple/iOS/libdispatch-1271.40.12/src/allocator.c:268-287 | A supermap bit comes to hide a bitmap with room exactly when a thread that saw it full sets the bit after the bitmap lost one, with no free left to clear it. |
| `AllocTheorems.StaleHappens` | apple/iOS/libdispatch-1271.40.12/src/allocator.c:268-287 | In a new magazine of any shape with two bits or more to a bitmap, a run of two threads gets there. |
| `AllocTheorems.AdviseHappens` | apple/iOS/libdispatch-1271.40.12/src/allocator.c:524-563 | In a new magazine of any shape with two bits or more to a bitmap, allocating and freeing one slot ends in giving its page back. |
| `AllocMagazine.FindUnset` | apple/iOS/libdispatch-1271.40.12/src/shims/atomic_sfb.h:82-104 | The first unset bit below the limit, or none. |
| `AllocMagazine.Magazine.TakeFrom` | apple/iOS/libdispatch-1271.40.12/src/allocator.c:329-336 | Takes the first free slot of a bitmap, keeping supermap bits exact. |
| `AllocMagazine.Magazine.AllocFromFirstPage` | apple/iOS/libdispatch-1271.40.12/src/allocator.c:292-315 | The first free slot of the first page, or none exactly when all are live. |
| `AllocMagazine.Magazine.AllocFromRow` | apple/iOS/libdispatch-1271.40.12/src/allocator.c:324-338 | The first free slot under one supermap, whose page is then the one last used. |
| `AllocMagazine.Magazine.AllocFromMagazine` | apple/iOS/libdispatch-1271.40.12/src/allocator.c:317-340 | Skipping full supermaps finds the very slot a scan of all would find, and none only when every slot is live. |
| `AllocMagazine.Magazine.AllocFromPage` | apple/iOS/libdispatch-1271.40.12/src/allocator.c:492-511 | The first free slot of the page last used, or none exactly when all of it is live. |
| `AllocMagazine.Magazine.Alloc` | apple/iOS/libdispatch-1271.40.12/src/allocator.c:487-519 | The first free slot of the page last used, else of the first page, else of the main array, with only its bit changed; none exactly when the whole magazine is live. |
| `AllocMagazine.Magazine.Free` | apple/iOS/libdispatch-1271.40.12/src/allocator.c:575-593 | Clears exactly the slot's bit, keeps supermaps exact, and gives the slot's page back exactly if it is of the main array and no slot of it is live any more. |
| `AllocMagazine.Magazine.MaybeMadvise` | apple/iOS/libdispatch-1271.40.12/src/allocator.c:524-573 | Gives this page back exactly if all its bitmaps are empty, while all of them are locked, and leaves the bitmaps as they were. |
| `AllocMagazine.AllocThenFree` | apple/iOS/libdispatch-1271.40.12/src/allocator.c:487-593 | Freeing what was just allocated restores every bitmap and supermap. |
| `RefCount.OsObject.RetainExternal` | apple/iOS/libdispatch-1271.40.12/src/object.c:64-73 | One more external reference; crashes exactly if there was none. |
| `RefCount.OsObject.RetainWithResurrect` | apple/iOS/libdispatch-1271.40.12/src/object.c:75-87 | One more external reference even from none; crashes exactly if nobody held the object at all. |
| `RefCount.OsObject.ReleaseExternal` | apple/iOS/libdispatch-1271.40.12/src/object.c:89-111 | One external reference less; the xref dispose hook runs exactly for the last one, and the object is disposed of exactly if nothing is held any more; crashes exactly if there was none. |
| `RefCount.OsObject.TryRetainWeak` | apple/iOS/libdispatch-1271.40.12/src/object.c:122-141 | Succeeds exactly while external references exist, and else changes nothing; never crashes. |
| `RefCount.OsObject.RetainInternalN` | apple/iOS/libdispatch-1271.40.12/src/inline_internal.h:215-224 | n more internal references; crashes exactly if nobody held the object. |
| `RefCount.OsObject.ReleaseInternalN` | apple/iOS/libdispatch-1271.40.12/src/inline_internal.h:237-257 | n internal references less, disposing of the object exactly if nothing is held any more; in a debug build crashes exactly if fewer than n were held; else, exactly one too many under external references disposes of the object instead. |
| `RefCount.StepKeepsInv` | apple/iOS/libdispatch-1271.40.12/src/object.c:64-141 | Each atomic step of balanced use keeps the account of both counts. |
| `RefCount.RunKeepsInv` | apple/iOS/libdispatch-1271.40.12/src/object.c:64-141 | So does every interleaving of any number of threads. |
| `RefCount.ExternalOwnOne` | apple/iOS/libdispatch-1271.40.12/src/object.c:64-141 | Balanced use never crashes, and all external references together own one internal reference. |
| `RefCount.XrefDisposeOncePerFall` | apple/iOS/libdispatch-1271.40.12/src/object.c:104-120 | Xref dispose runs once for each time the external count runs out. |
| `RefCount.DisposedOnceAtTheEnd` | apple/iOS/libdispatch-1271.40.12/src/inline_internal.h:237-257 | Dispose runs once, exactly when no reference is left, and then nothing can follow. |
| `RefCount.HoldersCanAct` | apple/iOS/libdispatch-1271.40.12/src/object.c:64-120 | Until the object is disposed of somebody can let go of it, and whoever holds it can retain and release. |
| `RefCount.WeakNeverRevives` | apple/iOS/libdispatch-1271.40.12/src/object.c:122-141 | A weak retain succeeds exactly while external references exist. |
| `RefCount.GlobalsStay` | apple/iOS/libdispatch-1271.40.12/src/object_internal.h:597-610 | Global objects are never counted, crashed or disposed of, but for resurrecting one. |
| `RefCount.ResurrectCrashesIff` | apple/iOS/libdispatch-1271.40.12/src/object.c:75-87 | Resurrecting crashes if and only if the object was over-released or is global; the internal retain that follows, exactly from -1, crashes if and only if nothing is held internally. |
| `RefCount.BuildsDiffer` | apple/iOS/libdispatch-1271.40.12/src/inline_internal.h:240-257 | The debug check matters exactly for the release that takes the internal count to -1 while external references exist: crash there, disposal without it. |
| `AttrCodec.ToInfo` | apple/iOS/libdispatch-1271.40.12/src/init.c:428-475 | Decoding an index gives a record whose fields are all in range. |
| `AttrCodec.ToInfoOfFromInfo` | apple/iOS/libdispatch-1271.40.12/src/init.c:428-501 | Every record in range has an index in the table that decodes to it. |
| `AttrCodec.FromInfoOfToInfo` | apple/iOS/libdispatch-1271.40.12/src/init.c:428-501 | Every index of the table is encoded from its own record. |
| `AttrCodec.SettersChangeOneField` | apple/iOS/libdispatch-1271.40.12/src/init.c:503-550 | Each setter changes its own field and no other; an invalid QoS class changes nothing. |
| `AttrCodec.SettersCommute` | apple/iOS/libdispatch-1271.40.12/src/init.c:503-550 | Setters of different fields commute. |
| `AttrCodec.AutoreleaseIsKeptIffInRange` | apple/iOS/libdispatch-1271.40.12/src/init.c:537-550 | The frequency setter stores what it is given if and only if it is in range and fits two bits: its switch refuses nothing. |
| `AttrCodec.FrequencyCarriesIntoOvercommit` | apple/iOS/libdispatch-1271.40.12/src/init.c:537-550 | A frequency whose two bits are just out of range carries into the overcommit field, and the index stays in the table if and only if the next overcommit setting exists. |
| `AttrCodec.ConcurrentIsFirst` | apple/iOS/libdispatch-1271.40.12/src/init.c:404-425 | Index 0 is exactly the record that is concurrent and otherwise plain, as the alias for DISPATCH_QUEUE_CONCURRENT needs. |
| `AttrCodec.TableIsRoomy` | apple/iOS/libdispatch-1271.40.12/src/queue_internal.h:937-955 | The library's radices have room for every value the other setters store. |
| `AttrCodec.NullIsSerial` | apple/iOS/libdispatch-1271.40.12/src/init.c:404-475 | NULL reads like the entry that is serial and otherwise plain, the first entry like the concurrent one. |
| `AttrCodec.QosClassesAreInOrder` | apple/iOS/libdispatch-1271.40.12/src/init.c:511-523 | Exactly the seven QoS classes are valid, and they are the digits 0 to 6 in order. |
| `AttrCodec.DigitWeights` | apple/iOS/libdispatch-1271.40.12/src/init.c:478-501 | Where each field stands in the index: one more of it adds the product of the radices below. |

## Left out

- Memory ordering: every atomic operation is one sequentially consistent step, and a plain load or store of a shared field too.
- Thread scheduling and fairness, and what `_dispatch_wait_for_enqueuer` does while it waits: the progress results say what can always be done next, and that it ends.
- WidthLaws.NothingIsForgotten: what a wakeup does; a drainer that stops for want of width and an apply that gives width back rely on the reader inside which they run.
- `os_mpsc_*` callers: nodes are reused only after a pop, an undo or a walk has given them up, and one consumer runs at a time.
- The client callout, autorelease pools, priorities and the perfmon counters of apply; DISPATCH_INTROSPECTION, which keeps `da_dc` on the heap.
- ApplyRedirect.Others: other threads may change what they hold between two of our atomic operations; that they give back only what they hold is proved in `WidthProtocol`, not there.
- ApplyRedirect.RunParallel: pushing the continuations and what the workers do is in `ApplyProtocol`; here it only says how many there are.
- The manager queue as a wakeup target, and the parts of these loops that are about workloops; masks on the lock word are written as divisions and remainders.
- Drain locks that steal, the manager queue's drain, QoS overrides that make `_dispatch_queue_drain_try_lock` start over, and workloop (WLH) locks.
- Suspension side counts, `dispatch_suspend`, activation and changes of `dq_width`: `WidthProtocol` lets others change those bits of the word freely, and keeps the width fixed.
- Waiters pushed onto workloops, and the main queue's lock in `dispatch_main`.
- Unconditional `_dispatch_queue_reserve_sync_width` on root queues; in the protocol only a drainer uses it.
- Malloc failure, and overflow in the size of an allocation; destructors are a counter on the object that says how often its buffer was destroyed.
- Target queues, finalizers, and the destructor kinds of data objects; `dispatch_data_make_memory_entry` and the NSData bridge.
- DataReaders.Apply: the applier is a function of the calls it has seen, and does not itself change the object.
- DataHeap.World.Box: a record list is put together before its object is allocated, where the source patches the object's own array before anybody else sees it.
- AllocAddress.PlaceOfContinuation: masks are rounding down to a multiple, which is the same for the power-of-two sizes in use; the layout macros are assumptions in `Valid`.
- Mapping and chaining heaps, one magazine per processor, and `_dispatch_allocator_enumerate`.
- AllocProtocol.StepKeepsSuper: the compare-and-swap of a supermap word may fail at any time, rather than only when the word changed.
- AllocMagazine.Magazine.Alloc: the magazine of one processor; the next heap is not tried.
- Bitmaps are sets of bit numbers rather than machine words.
- RefCount.RunKeepsInv: balanced use of fewer references than an `int` counts; the type-specific xref dispose hooks come down to the internal release.
- Object memory after dispose, weak reference tables, and the Objective-C side of os_object.
- Attribute pointers outside the table (a client crash) and DISPATCH_VARIANT_STATIC aliases.
- Groups, semaphores, sources, once gates, I/O channels, Mach and kernel code, benchmarks, and the public headers: each would be a model of its own.
