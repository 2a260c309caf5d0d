# Cynosure: a verified model

Cynosure is a set of concurrency primitives, each a small protocol over a few
mutable words. This project models the hard ones in Dafny and proves what every
interleaving (for the cross-thread primitives) and every order of polls, wakes,
cancellations and guard drops (for the single-threaded ones) keeps.

`dafny verify dfyconfig.toml` checks the whole project.

## How it is built

**Cross-thread primitives (`src/site_d`).** Each one is a step system. A state
holds the shared words, the memory they guard, a program counter per party and
ghost-like histories (bytes committed and released, items accepted and
delivered, values given and their fates). One transition is one atomic load,
store or read-modify-write; a critical section of `mpsc_light` is one
transition. `X.dfy` holds the steps, `XProof.dfy` the inductive invariant, and
`XTheorems.dfy` the statements over all runs: `IsRun(run)` is any finite
sequence of states that starts initial and moves by enabled actions.

- `Notify.dfy` has the wakeup core in full detail (the `AtomicWaker` word and
  cell, the `armed` flag, one waiter, any number of signallers). Every other
  primitive embeds these very steps, so a lost wakeup anywhere would show.
  `WakeupContract.dfy` closes it over an arbitrary condition.
- `BipBuffer*.dfy`, `RingBuf*.dfy`, `MpscLight*.dfy`, `TripleBuffer*.dfy` and
  `Oneshot*.dfy` are the five protocols. `MpscChannel.dfy` has the critical
  sections as functions; `MpscMemory.dfy` is the object that performs them.
- `RingBufCalls.dfy` treats whole calls: the two-part bulk copy against one item
  at a time, on machine words and masks. `RingBufMemory.dfy` is the ring as an
  object over an array, with its four index caches and its drop loop.
  `RingBufProgress.dfy` follows one counted transfer from its start to its
  completion, and `RingBufStaleCell.dfy` shows two runs of a one-slot ring.

**Single-threaded primitives (`src/site_c`).** `Queue.dfy` is the inline ring
that spills to the heap, as a class over an array, proved against a plain
sequence. `Waiters.dfy` has registration and its invariants as functions and
lemmas, `WaitQueue.dfy` the same on a `Queue` object. `LocalMutex.dfy`,
`LocalRwLock.dfy`, `LocalSemaphore*.dfy` and `LocalBufferPool.dfy` give each
primitive's operations as functions, a system of any number of futures and
guards, and its run theorems; `*Memory.dfy` are the objects, each method proved
equal to its function. `LocalRwLockReaders.dfy` looks closer at queued readers.

A waker is a number: two wakers that `will_wake` each other are equal. A wake
sets the `notified` flag of the future it was registered for; a poll clears it.

## What came out of it

Three properties that the code suggests do not hold. For each there is a run
that breaks it and an exact condition, testable beforehand.

- `LocalSemaphore`: "a front waiter whose request fits has been woken" and
  "awaited grants follow registration order" fail when a waiter is re-polled
  with a different waker, which moves it to the back.
  `LocalSemaphoreTheorems.FrontCanBeStranded` and `GrantsCanBeReversed` are the
  runs. A poll breaks the first exactly when the front changes its waker while
  its request does not fit and the next one's does (`PollKeepsFrontExactly`), and
  the order exactly when a pending future other than the last changes its waker
  (`PollKeepsOrderExactly`). With equivalent wakers both hold in every run. In
  the pool every request is for one permit, so there the first holds for all
  wakers (`LocalBufferPool.FirstWaiterWoken`).
- `push_slice_counted` and `pop_slice_counted` are documented to update the
  caller's cell on every step (`src/site_d/ringbuf.rs:311-314`, `560-563`). A
  poll that completes the call does not (`RingBufStaleCell.PushCellCanBeStale`,
  `PopCellCanBeStale`). The cell is exact at every pending point
  (`PushProgressExact`, `PopProgressExact`). At completion it is exact if and
  only if everything asked for was visible in the caller's cache when the call
  started; if the cache showed nothing, what the opening attempt's load of the
  shared index finds decides (`RingBufProgress.PushCellExactIff`,
  `PopCellExactIff`). `free_count` and `available_count` make the cache show the
  truth (`RefreshShowsTruth`), so a caller can test before the call.
- `LocalRwLock`: "a queued reader that a poll would grant has been woken" fails
  when the turn goes to the only queued writer, and when the only queued writer
  is cancelled while somebody reads (`LocalRwLockReaders.ReaderCanBeLeftAsleep`).
  `StepServesExactly` says exactly which operations do it. Such a reader is not
  lost: a live read guard or a woken writer will pass the turn on
  (`SleepersWillBePassed`).

In `LocalSemaphore` and the locks, the second look after registering can never
succeed when wakers do not re-enter the primitive
(`LocalSemaphore.RecheckNeverGrants`).

## Model

| member | source | states |
|---|---|---|
| `Notify.StepArmInv` | src/site_d/notify.rs:48-86 | Each access of `register` and `arm` keeps the slot invariant: one owner of the state word, the cell holds the current waker while it must, and an armed, un-notified waiter is covered |
| `Notify.StepSignalInv` | src/site_d/notify.rs:90-109 | Each access of a signaller keeps the same invariant, with any number of other signallers in flight |
| `Notify.BeginArmInv` | src/site_d/notify.rs:155-158 | Arming with any waker, from armed or disarmed, keeps the slot invariant |
| `Notify.DisarmInv` | src/site_d/notify.rs:163-165 | Disarming keeps the slot invariant |
| `Notify.BeginSignalInv` | src/site_d/notify.rs:173-179 | A further signaller may start at any moment |
| `Notify.OtherSignallersKept` | src/site_d/notify.rs:90-109 | A signaller's access leaves every other signaller where it was, never re-arms the flag and never retracts a notification |
| `Notify.HolderClaims` | src/site_d/notify.rs:97-109 | Whoever holds the WAKING lock while the waiter is un-notified leads to a signaller that is bound to fire the current waker |
| `WakeupContract.CellNeverShared` | src/site_d/notify.rs:48-109 | In every run the waker cell has at most one user: waiter and signaller exclude each other, and so do two signallers |
| `WakeupContract.TakeBackFindsWaker` | src/site_d/notify.rs:48-86 | The `unwrap` in `register` never fails: the cell holds the waker just stored and only a wake can have raced |
| `WakeupContract.NoLostWakeup` | src/site_d/notify.rs:155-188 | A parked task whose condition holds is notified or a signaller is still inside `signal`, also when the condition is withdrawn and re-published |
| `WakeupContract.QuietMeansNotified` | src/site_d/notify.rs:111-188 | With no signal in flight, a parked task whose condition holds has been notified |
| `BipBufferProof.StepInv` | src/site_d/bipbuffer.rs:105-202 | Every access of producer, consumer, grants and signallers keeps the invariant on cursors, samples, grants, bytes and wakeups |
| `BipBufferTheorems.EveryActionHasItsStep` | src/site_d/bipbuffer.rs:105-202 | In every reachable state each enabled action has its step: indices, copies and calls in progress are always well formed |
| `BipBufferTheorems.WriteGrantIsExclusive` | src/site_d/bipbuffer.rs:105-160 | A live write grant lies in [0, cap) and shares no byte with the read grant or with a committed unread byte |
| `BipBufferTheorems.ReleasedIsPrefix` | src/site_d/bipbuffer.rs:313-414 | Released bytes are a prefix of committed bytes, and the rest is exactly what cursors and watermark delimit, under partial commits and releases, abandoned grants, wraps and resets |
| `BipBufferTheorems.ReadGrantShowsNextBytes` | src/site_d/bipbuffer.rs:356-414 | A held read grant shows the next committed bytes, unchanged for as long as it is held |
| `BipBufferTheorems.SampleNeverTorn` | src/site_d/bipbuffer.rs:164-202 | An equal epoch means that no reset overlapped the sample, although the counter wraps: the triple names only readable bytes |
| `BipBufferTheorems.OneResetPerTryRead` | src/site_d/bipbuffer.rs:132-185 | At most one reset starts during one `try_read`, so at most one sample is thrown away |
| `BipBufferTheorems.ReserveWakeupNotLost` | src/site_d/bipbuffer.rs:313-353 | A parked, un-notified `reserve(n)` that could proceed has a `space` signal in flight |
| `BipBufferTheorems.ReadWakeupNotLost` | src/site_d/bipbuffer.rs:385-485 | A parked, un-notified `read` with unread bytes has a `data` signal in flight |
| `BipBufferTheorems.NeverBothAsleep` | src/site_d/bipbuffer.rs:445-485 | With no grant out and no signal in flight, a parked `reserve` and a parked `read` are never both un-notified |
| `BipBufferTheorems.CanReserveIsExact` | src/site_d/bipbuffer.rs:105-160 | `try_reserve(n)` alone returns a grant of n free bytes exactly when the placement predicate says so, including the drained reset |
| `BipBufferTheorems.ResetAlone` | src/site_d/bipbuffer.rs:120-146 | A drained buffer is reset to its head and always grants a request that fits the capacity |
| `BipBufferTheorems.CanReadIsExact` | src/site_d/bipbuffer.rs:164-202 | `try_read` alone refuses exactly when nothing is unread; otherwise the grant starts at the oldest unread byte and runs to the write cursor or the watermark |
| `WordArithmetic.WrapSubExact` | src/site_d/ringbuf.rs:160-176 | Wrapping subtraction of two wrapped counters gives their true distance |
| `WordArithmetic.MaskIsMod` | src/site_d/ringbuf.rs:30-34 | `index & (2^e - 1)` is `index mod 2^e`, bit by bit |
| `WordArithmetic.SlotOfWrapped` | src/site_d/ringbuf.rs:179-183 | Wrapping an index does not move its slot, because a power of two divides the word size |
| `WordArithmetic.SlotsDiffer` | src/site_d/ringbuf.rs:30-34 | Positions less than a capacity apart fall into different slots |
| `RingBufProof.StepInv` | src/site_d/ringbuf.rs:160-540 | Every access of either half keeps the invariant on indices, caches, slots, histories and wakeups |
| `RingBufTheorems.EveryActionHasItsStep` | src/site_d/ringbuf.rs:160-540 | In every reachable state each enabled action has its step: indices, copies and calls in progress are always well formed |
| `RingBufTheorems.RefinesBoundedQueue` | src/site_d/ringbuf.rs:160-289 | What came out is a prefix of what went in, and the wrapped difference of the indices is the number of unread items, at most the capacity |
| `RingBufTheorems.UnreadItemInItsSlot` | src/site_d/ringbuf.rs:442-446 | The masked slot of each unread position holds that item |
| `RingBufTheorems.UnreadSlotsDistinct` | src/site_d/ringbuf.rs:179-183 | Two unread items never share a slot |
| `RingBufTheorems.CachesConservative` | src/site_d/ringbuf.rs:145-176 | A cached index never promises more room or more items than there are |
| `RingBufTheorems.RecheckMustReload` | src/site_d/ringbuf.rs:659-837 | The attempt after arming finds its cache exhausted, so it loads the shared index |
| `RingBufTheorems.PushWakeupNotLost` | src/site_d/ringbuf.rs:659-785 | A parked, un-notified push with room has the consumer inside its `signal` call |
| `RingBufTheorems.PopWakeupNotLost` | src/site_d/ringbuf.rs:708-837 | A parked, un-notified pop with an unread item has the producer inside its `signal` call |
| `RingBufTheorems.NeverBothAsleep` | src/site_d/ringbuf.rs:659-837 | Both halves are never parked un-notified together |
| `RingBufTheorems.PushProgressExact` | src/site_d/ringbuf.rs:744-785 | At every pending point the progress cell counts exactly the items moved, which are that prefix of the slice |
| `RingBufTheorems.PopProgressExact` | src/site_d/ringbuf.rs:798-837 | The same for a pop |
| `RingBufProgress.PushCellExactIff` | src/site_d/ringbuf.rs:311-340 | A counted push completes with an exact cell if and only if all its items fitted the room its cache showed at the start, or, with an exhausted cache, the room that the opening load found |
| `RingBufProgress.RefreshShowsTruth` | src/site_d/ringbuf.rs:343-349 | After `free_count` or `available_count` the visible amount is the true one |
| `RingBufStaleCell.PushCellCanBeStale` | src/site_d/ringbuf.rs:744-785 | A run in which a poll completes a push of two items and the cell still says one |
| `RingBufProgress.PopCellExactIff` | src/site_d/ringbuf.rs:560-589 | A counted pop completes with an exact cell if and only if all it asked for was visible in its cache at the start, or, with an exhausted cache, at the opening load |
| `RingBufStaleCell.PopCellCanBeStale` | src/site_d/ringbuf.rs:798-837 | A run in which a poll completes a pop of two items and the cell still says one |
| `RingBufCalls.PushOneAppends` | src/site_d/ringbuf.rs:160-201 | `try_push` succeeds exactly when there is room, appends, and keeps the caches conservative |
| `RingBufCalls.PopOneTakesFirst` | src/site_d/ringbuf.rs:424-463 | `try_pop` succeeds exactly when the ring is not empty and returns the oldest item |
| `RingBufCalls.PushSliceIsRepeatedPush` | src/site_d/ringbuf.rs:221-289 | A slice push is its accepted prefix pushed one by one, down to caches and dead slots; one that moves nothing is a refused push |
| `RingBufCalls.PopSliceIsRepeatedPop` | src/site_d/ringbuf.rs:478-540 | A slice pop is that many single pops; one that moves nothing is a refused pop |
| `RingBufCalls.PushSliceAppends` | src/site_d/ringbuf.rs:221-289 | A slice push appends a prefix, empty only for an empty slice or a full ring |
| `RingBufCalls.PopSliceTakesPrefix` | src/site_d/ringbuf.rs:478-540 | A slice pop takes a prefix of the contents, empty only for an empty slice or an empty ring |
| `RingBufCalls.PartialPushExhaustsCache` | src/site_d/ringbuf.rs:221-289 | A push that leaves items behind leaves the cached index saying full |
| `RingBufCalls.PartialPopExhaustsCache` | src/site_d/ringbuf.rs:478-540 | A pop that wants more leaves the cached index saying empty |
| `RingBufCalls.PushEachAppends` | src/site_d/ringbuf.rs:160-201 | Pushing one by one accepts exactly as many items as there is room |
| `RingBufCalls.PopEachTakesPrefix` | src/site_d/ringbuf.rs:424-463 | Popping one by one yields exactly the oldest items |
| `RingBufMemory.RingBuffer.constructor` | src/site_d/ringbuf.rs:89-141 | A new ring is empty, whatever the allocation contains |
| `RingBufMemory.RingBuffer.TryPush` | src/site_d/ringbuf.rs:160-201 | In memory: the new state is the specified one, the contents grow by the item exactly when there was room |
| `RingBufMemory.RingBuffer.TryPushSlice` | src/site_d/ringbuf.rs:221-289 | In memory: both bulk copies together append the accepted prefix |
| `RingBufMemory.RingBuffer.TryPop` | src/site_d/ringbuf.rs:424-463 | In memory: the oldest item leaves |
| `RingBufMemory.RingBuffer.TryPopSlice` | src/site_d/ringbuf.rs:478-540 | In memory: the items returned, followed by what remains, are the old contents |
| `RingBufMemory.RingBuffer.DropRemaining` | src/site_d/ringbuf.rs:59-77 | The drop loop visits exactly the unread items, oldest first, across index wrap-around, and terminates |
| `MpscChannel.PushInv` | src/site_d/mpsc_light.rs:173-269 | Each push keeps the bounds, the `nonempty` hint and fresh ascending ids; a sender parks only on a full, open channel |
| `MpscChannel.RepollInv` | src/site_d/mpsc_light.rs:275-287 | A re-poll takes exactly its own id off both lists |
| `MpscChannel.WakeOneInv` | src/site_d/mpsc_light.rs:356-372 | Waking moves exactly the head of the wait-list to `selected`, and afterwards nobody waits without a credit |
| `MpscChannel.CancelInv` | src/site_d/mpsc_light.rs:293-316 | A cancelled sender leaves the lists; an unredeemed wake passes to the next waiter, so the credit is kept |
| `MpscChannel.StealInv` | src/site_d/mpsc_light.rs:326-352 | A steal takes the whole queue and leaves a credit for whoever still waits |
| `MpscLightProof.StepInv` | src/site_d/mpsc_light.rs:226-582 | Every step of any number of sends, batches, cancellations, clones and drops and of the receiver keeps the invariant |
| `MpscLightTheorems.EveryActionHasItsStep` | src/site_d/mpsc_light.rs:226-582 | In every reachable state each enabled action has its step: indices, copies and calls in progress are always well formed |
| `MpscLightTheorems.GlobalFifo` | src/site_d/mpsc_light.rs:173-352 | Accepted items in lock order are delivered ++ staging ++ queue; queue and staging stay within capacity; `nonempty` and `waiters_len` are exact |
| `MpscLightTheorems.WakeCredits` | src/site_d/mpsc_light.rs:226-372 | While open, a non-empty wait-list implies a non-empty queue, a live call holding an unredeemed wake, or a call between re-poll and push |
| `MpscLightTheorems.IdsBelongToOneCall` | src/site_d/mpsc_light.rs:254-316 | The lists are disjoint, ids are fresh, and each listed id belongs to exactly one live call |
| `MpscLightTheorems.SelectedIsWoken` | src/site_d/mpsc_light.rs:326-372 | A sender in `selected` has been notified or its wake is on the way |
| `MpscLightTheorems.FlushedStays` | src/site_d/mpsc_light.rs:696-703 | Once `wake_all_waiters` has run the channel stays flushed |
| `MpscLightTheorems.NobodyParksAfterFlush` | src/site_d/mpsc_light.rs:226-390 | From then on nobody is on the wait-list, and every call that was parked has been woken or its wake is on the way |
| `MpscLightTheorems.EndMeansDelivered` | src/site_d/mpsc_light.rs:619-765 | `Closed` and `None` are reported only when no sender is left and everything accepted has been delivered |
| `MpscLightTheorems.RecvWakeupNotLost` | src/site_d/mpsc_light.rs:716-765 | A parked, un-notified receiver with a non-empty queue or no senders has a signal in flight |
| `MpscLightTheorems.NeverAllAsleep` | src/site_d/mpsc_light.rs:716-765 | A sleeping receiver and a non-empty wait-list imply a woken sender or one on its way to push |
| `MpscMemory.Inner.constructor` | src/site_d/mpsc_light.rs:401-430 | A new channel is empty with capacity at least one |
| `MpscMemory.Inner.Push` | src/site_d/mpsc_light.rs:173-188 | In memory: accept below capacity, raise the hint on the first item |
| `MpscMemory.Inner.PushMany` | src/site_d/mpsc_light.rs:193-211 | In memory: accept the prefix that fits |
| `MpscMemory.Inner.Park` | src/site_d/mpsc_light.rs:239-269 | In memory: refuse, push, or park under an id that was on no list |
| `MpscMemory.Inner.RepollWaiter` | src/site_d/mpsc_light.rs:275-287 | In memory: the id is on no list afterwards |
| `MpscMemory.Inner.PopFirst` | src/site_d/mpsc_light.rs:356-372 | In memory: wake the head; nobody then waits without a credit |
| `MpscMemory.Inner.CancelWaiter` | src/site_d/mpsc_light.rs:293-316 | In memory: the credit is kept |
| `MpscMemory.Inner.StealAll` | src/site_d/mpsc_light.rs:326-352 | In memory: the whole queue changes hands |
| `MpscMemory.Inner.WakeAllWaiters` | src/site_d/mpsc_light.rs:376-390 | The loop wakes exactly the waiters, in order, and dissolves all credits |
| `MpscMemory.Receiver.NextStaged` | src/site_d/mpsc_light.rs:601-615 | The oldest pending item is delivered if there is one, nothing else is lost or moved, and the first waiter is selected |
| `MpscMemory.Receiver.RecvMany` | src/site_d/mpsc_light.rs:638-650 | A batch is exactly the oldest `max` pending items, or all of them |
| `TripleBufferProof.StepInv` | src/site_d/triplebuffer.rs:246-385 | Every access of writer and reader keeps the invariant on generations, indices, slots and messages |
| `TripleBufferTheorems.EveryActionHasItsStep` | src/site_d/triplebuffer.rs:246-385 | In every reachable state each enabled action has its step: indices, copies and calls in progress are always well formed |
| `TripleBufferTheorems.BuffersConserved` | src/site_d/triplebuffer.rs:246-385 | The three buffers are conserved at every step, also after cancelled futures whose buffer is recovered |
| `TripleBufferTheorems.IndicesPermutation` | src/site_d/triplebuffer.rs:246-350 | The three indices are a permutation of {0,1,2} exactly outside the two stores of a rotation |
| `TripleBufferTheorems.NeverPanics` | src/site_d/triplebuffer.rs:246-385 | The null-slot panics are unreachable and no buffer in a slot is ever overwritten |
| `TripleBufferTheorems.RotationsExclude` | src/site_d/triplebuffer.rs:246-350 | The two rotations never overlap; the writer's late take never meets the reader's slots |
| `TripleBufferTheorems.TakenExactlyOnceInOrder` | src/site_d/triplebuffer.rs:246-385 | Every (buffer, length, contents) that a caller handed to a publish is taken exactly once, in that order, at most one outstanding; what lies in the middle at the bump is what was handed over |
| `TripleBufferTheorems.ReaderSeesLastTaken` | src/site_d/triplebuffer.rs:298-350 | What the reader holds is the message it took last, untouched by the writer |
| `TripleBufferTheorems.GenLast` | src/site_d/triplebuffer.rs:213-240 | Comparing wrapping generations is exact: equal if and only if nothing is unread |
| `TripleBufferTheorems.AttemptsDecideExactly` | src/site_d/triplebuffer.rs:361-385 | A publish goes ahead exactly when everything was taken; a take goes ahead only over an unread buffer and is refused only if there was none at its generation load |
| `TripleBufferTheorems.PublishWakeupNotLost` | src/site_d/triplebuffer.rs:621-650 | A parked, un-notified publish with a free middle has the reader inside `signal` |
| `TripleBufferTheorems.NextWakeupNotLost` | src/site_d/triplebuffer.rs:661-684 | A parked, un-notified `next` with an unread buffer has the writer past its generation bump and not yet out of `signal` |
| `TripleBufferTheorems.NeverBothAsleep` | src/site_d/triplebuffer.rs:621-684 | Writer and reader are never parked un-notified together |
| `OneshotProof.StepInv` | src/site_d/oneshot.rs:66-222 | Every access of sender, receiver and teardown keeps the invariant |
| `OneshotProof.EveryActionHasItsStep` | src/site_d/oneshot.rs:66-222 | In every reachable state each enabled action has its step: indices, copies and calls in progress are always well formed |
| `OneshotProof.OneFate` | src/site_d/oneshot.rs:66-161 | The value has at most one fate (handed back, received, dropped with the cell), it is the value given, and exactly one once the channel is freed |
| `OneshotProof.OnlyAbandonedValuesReturn` | src/site_d/oneshot.rs:79-132 | A value is handed back or dropped with the cell only when the receiver has gone |
| `OneshotProof.CellReadIsSound` | src/site_d/oneshot.rs:66-76 | The cell is read only while it holds the value, before any other fate, and never while the sender writes |
| `OneshotProof.LostBitMeansPublished` | src/site_d/oneshot.rs:128-161 | A receiver-dropped bit is lost only to a publishing store, and the value is then still received or dropped |
| `OneshotProof.DeliveredOnce` | src/site_d/oneshot.rs:167-198 | At most one receive yields the value, and it is the one sent |
| `OneshotProof.ClosedIsFinal` | src/site_d/oneshot.rs:167-214 | `RecvError` is reported only when no value was or will be published, or it was already received |
| `OneshotProof.ReceiverWakeupNotLost` | src/site_d/oneshot.rs:128-199 | A pending, un-notified receiver of a resolved channel has the sender inside `signal` |
| `OneshotProof.SenderGoneMeansWoken` | src/site_d/oneshot.rs:153-162 | Once the sender is gone a pending receiver has been notified |
| `Queue.SelectPicks` | src/site_c/queue.rs:410-441 | Selecting picks strictly ascending positions, so survivors keep their order and none is picked twice, for a predicate whose answers may depend on all earlier questions |
| `Queue.SplitCovers` | src/site_c/queue.rs:430-441 | Each position goes to exactly one of the kept and the removed part, by the answer given when its turn came |
| `Queue.SplitConserves` | src/site_c/queue.rs:430-441 | The two parts together are the whole, as multisets |
| `Queue.PushBackAppends` | src/site_c/queue.rs:88-104 | On the ring: the new slot was dead, `tail` stays (head + len) mod n, the contents grow at the back |
| `Queue.PushFrontPrepends` | src/site_c/queue.rs:125-141 | On the ring: the contents grow at the front |
| `Queue.PopFrontRemoves` | src/site_c/queue.rs:162-176 | On the ring: the slot read was written, and the first element leaves |
| `Queue.PopBackRemoves` | src/site_c/queue.rs:184-198 | On the ring: the slot read was written, and the last element leaves |
| `Queue.SwapExchanges` | src/site_c/queue.rs:484-507 | Swapping two modular slots swaps exactly those two positions |
| `Queue.Queue.constructor` | src/site_c/queue.rs:67-74 | A new queue is empty and inline, for every n including 0 |
| `Queue.Queue.Visit` | src/site_c/queue.rs:205-219 | The drain loop yields the abstract sequence and reads written slots only |
| `Queue.Queue.Iterate` | src/site_c/queue.rs:571-590 | An iterator yields the abstract sequence |
| `Queue.Queue.PushBack` | src/site_c/queue.rs:88-121 | Appends in every representation, and spills exactly when the inline ring is full |
| `Queue.Queue.PushFront` | src/site_c/queue.rs:125-158 | Prepends in every representation, and spills exactly when the inline ring is full |
| `Queue.Queue.PopFront` | src/site_c/queue.rs:162-180 | Removes the first element, or reports an empty queue |
| `Queue.Queue.PopBack` | src/site_c/queue.rs:184-202 | Removes the last element, or reports an empty queue |
| `Queue.Queue.IntoVec` | src/site_c/queue.rs:205-227 | Returns the whole sequence and leaves the queue empty |
| `Queue.Queue.Length` | src/site_c/queue.rs:315-320 | The length of the abstract sequence |
| `Queue.Queue.Reserve` | src/site_c/queue.rs:329-354 | Keeps the contents; stays inline exactly when the total fits |
| `Queue.Queue.MakeContiguous` | src/site_c/queue.rs:360-406 | Keeps the contents and the invariant, also when full; the elements then lie side by side |
| `Queue.Queue.Retain` | src/site_c/queue.rs:410-419 | The contents become the elements kept, the predicate being asked oldest first and allowed to change its mind |
| `Queue.Queue.TakeWhere` | src/site_c/queue.rs:430-441 | Removed and remaining elements are the two halves of the split, under the same kind of predicate |
| `Queue.Queue.Clear` | src/site_c/queue.rs:448-477 | Every element is dropped once, oldest first, and the queue is consistent before each drop |
| `Queue.Queue.Swap` | src/site_c/queue.rs:484-507 | Exactly two positions of the sequence change places |
| `Waiters.OthersKeeps` | src/site_c/mutex.rs:186-211 | Removing an id removes exactly its entries and keeps ids distinct |
| `Waiters.RegisterBound` | src/site_c/rwlock.rs:273-313 | Registering keeps every entry queued once and owned by exactly one live future; tokens only grow |
| `Waiters.RegisterTorch` | src/site_c/rwlock.rs:273-313 | A future that registers is queued and no longer counts as woken; nobody else changes |
| `Waiters.DeregisterBound` | src/site_c/rwlock.rs:316-330 | Deregistering or dropping a future leaves every other entry with its owner |
| `Waiters.DeregisterTorch` | src/site_c/rwlock.rs:316-330 | Deregistering changes nobody else's standing |
| `Waiters.PopBound` | src/site_c/mutex.rs:144-155 | A popped entry wakes its owner, and the rest stay owned |
| `Waiters.PopTorch` | src/site_c/mutex.rs:144-155 | After a pop exactly the owner has moved from queued to woken |
| `Waiters.DrainKeeps` | src/site_c/rwlock.rs:259-263 | Draining a queue leaves every registered future woken |
| `WaitQueue.IsQueued` | src/site_c/mutex.rs:164-171 | The scan finds a token exactly when it is queued |
| `WaitQueue.RegisterIn` | src/site_c/rwlock.rs:273-313 | In memory: stale or changed entries move to the back under the same token, current ones stay |
| `WaitQueue.DeregisterIn` | src/site_c/rwlock.rs:316-330 | In memory: exactly the slot's entry leaves the queue |
| `WaitQueue.Drain` | src/site_c/rwlock.rs:259-263 | In memory: the loop pops every entry, oldest first, and terminates |
| `LocalMutex.StepInv` | src/site_c/mutex.rs:102-281 | Every operation keeps the mutex invariant |
| `LocalMutex.AtMostOneGuard` | src/site_c/mutex.rs:102-135 | There is at most one guard, and the flag says whether there is one |
| `LocalMutex.NobodyStranded` | src/site_c/mutex.rs:132-155 | A free lock with a non-empty queue has a future that was woken and not polled or dropped since |
| `LocalMutex.QueuedOrWoken` | src/site_c/mutex.rs:160-211 | A pending registered future is queued exactly once or woken and un-polled, never both |
| `LocalMutex.EntriesAreLive` | src/site_c/mutex.rs:160-211 | Every queue entry belongs to exactly one live future |
| `LocalMutex.TurnGoesToFirst` | src/site_c/mutex.rs:132-155 | Releasing the lock wakes the longest queued future and nobody else |
| `LocalMutex.PollTakesFreeLock` | src/site_c/mutex.rs:249-269 | A poll takes the lock exactly when it is free and then leaves no entry behind; otherwise it is queued |
| `LocalMutexMemory.MutexCell.constructor` | src/site_c/mutex.rs:77-84 | A new mutex is free with nobody queued |
| `LocalMutexMemory.MutexCell.Lock` | src/site_c/mutex.rs:102-108 | In memory: `try_lock` |
| `LocalMutexMemory.MutexCell.Pass` | src/site_c/mutex.rs:144-155 | In memory: pops and wakes the first waiter only while free |
| `LocalMutexMemory.MutexCell.Release` | src/site_c/mutex.rs:132-135 | In memory: frees the lock and passes the turn on |
| `LocalMutexMemory.LockFuture.Poll` | src/site_c/mutex.rs:249-269 | In memory: one poll is the specified transition of mutex and slot |
| `LocalMutexMemory.LockFuture.Drop` | src/site_c/mutex.rs:272-281 | In memory: cancellation removes the entry and passes the turn on |
| `LocalRwLock.StepInv` | src/site_c/rwlock.rs:142-453 | Every operation keeps the lock invariant |
| `LocalRwLock.WriterExcludesAll` | src/site_c/rwlock.rs:142-188 | A writer excludes readers and other writers; the count is the number of live read guards |
| `LocalRwLock.NobodyStranded` | src/site_c/rwlock.rs:224-264 | While the lock is free and either queue is non-empty, a write future has been woken and not polled or dropped since |
| `LocalRwLock.QueuedOrWoken` | src/site_c/rwlock.rs:267-330 | A pending future of either kind is queued or woken and un-polled, never both |
| `LocalRwLock.QueuedIdsAreLive` | src/site_c/rwlock.rs:267-330 | Every queued token belongs to exactly one live future, and to none of the other kind |
| `LocalRwLock.GrantsExactly` | src/site_c/rwlock.rs:142-188 | An awaited read defers to active and queued writers, `try_read` only to an active one, a write to everybody; each succeeds exactly then |
| `LocalRwLock.TurnGoesToWriterFirst` | src/site_c/rwlock.rs:233-264 | When a writer releases, exactly the longest queued writer is woken; if none waits, all readers are |
| `LocalRwLockReaders.ServedMeansEmpty` | src/site_c/rwlock.rs:160-174 | "Every grantable pending reader has been woken" holds exactly when readers queue only behind an active or queued writer |
| `LocalRwLockReaders.StepServesExactly` | src/site_c/rwlock.rs:224-264 | An operation leaves a grantable reader asleep exactly when it passes the turn to the only queued writer with readers queued, or cancels the only queued writer while somebody reads and readers queue |
| `LocalRwLockReaders.ReaderCanBeLeftAsleep` | src/site_c/rwlock.rs:446-453 | A run of seven states that ends with no writer active, queued or live and an un-woken queued reader whose poll would be granted |
| `LocalRwLockReaders.SleepersWillBePassed` | src/site_c/rwlock.rs:224-264 | In every run such a reader coexists with a live read guard or a woken, un-polled writer |
| `LocalRwLockMemory.RwLockCell.Read` | src/site_c/rwlock.rs:142-154 | In memory: `try_read`, which barges past queued writers |
| `LocalRwLockMemory.RwLockCell.ReadFair` | src/site_c/rwlock.rs:160-174 | In memory: the write-preferring read |
| `LocalRwLockMemory.RwLockCell.Write` | src/site_c/rwlock.rs:181-188 | In memory: `try_write` |
| `LocalRwLockMemory.RwLockCell.Pass` | src/site_c/rwlock.rs:248-264 | In memory: one writer, or else the loop drains all waiting readers in order |
| `LocalRwLockMemory.RwLockCell.EndRead` | src/site_c/rwlock.rs:224-229 | In memory: release of a read guard |
| `LocalRwLockMemory.RwLockCell.EndWrite` | src/site_c/rwlock.rs:233-237 | In memory: release of a write guard |
| `LocalRwLockMemory.ReadFuture.Poll` | src/site_c/rwlock.rs:368-390 | In memory: one poll of a read future |
| `LocalRwLockMemory.ReadFuture.Drop` | src/site_c/rwlock.rs:393-400 | In memory: cancellation of a read future |
| `LocalRwLockMemory.WriteFuture.Poll` | src/site_c/rwlock.rs:421-443 | In memory: one poll of a write future |
| `LocalRwLockMemory.WriteFuture.Drop` | src/site_c/rwlock.rs:446-453 | In memory: cancellation of a write future |
| `LocalSemaphore.StepInv` | src/site_c/semaphore.rs:64-310 | Every operation keeps conservation, ownership and the queueing of registered futures |
| `LocalSemaphore.RecheckNeverGrants` | src/site_c/semaphore.rs:257-270 | The second look after registering never grants |
| `LocalSemaphoreTheorems.PermitsConserved` | src/site_c/semaphore.rs:64-111 | available + held + forgotten + lost to an overflow panic = initial + added, in every run |
| `LocalSemaphoreTheorems.RegisteredIsQueued` | src/site_c/semaphore.rs:160-207 | A registered future is queued exactly once with its own request |
| `LocalSemaphoreTheorems.OnlyFrontIsWoken` | src/site_c/semaphore.rs:134-158 | In every run a woken, un-polled future is the front of the queue |
| `LocalSemaphoreTheorems.PollKeepsFrontExactly` | src/site_c/semaphore.rs:160-194 | A poll keeps "a fitting front has been woken" if and only if it is not the front changing its waker while its request does not fit and the second's does |
| `LocalSemaphoreTheorems.OtherStepsKeepFront` | src/site_c/semaphore.rs:105-218 | No other operation leaves a fitting front un-woken |
| `LocalSemaphoreTheorems.PollKeepsOrderExactly` | src/site_c/semaphore.rs:160-194 | A poll keeps the queue in registration order if and only if no pending future other than the last changes its waker |
| `LocalSemaphoreTheorems.FrontAlwaysWoken` | src/site_c/semaphore.rs:134-158 | In every run with equivalent wakers a front whose request fits has been woken |
| `LocalSemaphoreTheorems.GrantsInOrder` | src/site_c/semaphore.rs:116-126 | In every run with equivalent wakers awaited grants follow first-registration order and everybody queued registered later |
| `LocalSemaphoreTheorems.GrantsOnlyToFront` | src/site_c/semaphore.rs:241-271 | In every run a poll is granted exactly when the request fits and nobody is ahead; a small request never overtakes the front |
| `LocalSemaphoreTheorems.FrontCanBeStranded` | src/site_c/semaphore.rs:160-194 | A run of six states that ends with a fitting, never woken front and the queue out of registration order, because the previous front changed its waker |
| `LocalSemaphoreTheorems.GrantsCanBeReversed` | src/site_c/semaphore.rs:160-194 | The same run continued until the second to register has been granted before the first |
| `LocalSemaphoreMemory.SemaphoreCell.constructor` | src/site_c/semaphore.rs:41-48 | A new semaphore has its permits and nobody queued |
| `LocalSemaphoreMemory.SemaphoreCell.Take` | src/site_c/semaphore.rs:64-72 | In memory: barging acquisition |
| `LocalSemaphoreMemory.SemaphoreCell.MayProceed` | src/site_c/semaphore.rs:116-126 | The fair test: enough permits and nobody ahead |
| `LocalSemaphoreMemory.SemaphoreCell.FrontToWake` | src/site_c/semaphore.rs:134-158 | Exactly the fitting front is woken, and nobody is popped |
| `LocalSemaphoreMemory.SemaphoreCell.Return` | src/site_c/semaphore.rs:93-111 | In memory: permits come back, the front is woken if it fits, an overflow panics and changes nothing |
| `LocalSemaphoreMemory.AcquireFuture.Poll` | src/site_c/semaphore.rs:241-271 | In memory: one poll with its cascade |
| `LocalSemaphoreMemory.AcquireFuture.Drop` | src/site_c/semaphore.rs:274-283 | In memory: cancellation passes the turn on |
| `LocalBufferPool.StepInv` | src/site_c/pool.rs:98-180 | Every pool operation keeps free list and permits in step |
| `LocalBufferPool.NeverDemotes` | src/site_c/semaphore.rs:160-194 | Requests of one permit never strand a waiter, whatever wakers are used |
| `LocalBufferPool.FreeListMatchesPermits` | src/site_c/pool.rs:113-134 | Between operations the free list is as long as there are permits, and free + checked out is the pool size |
| `LocalBufferPool.CheckOutNeverFails` | src/site_c/pool.rs:117-120 | The `expect` never fails, also after a woken acquire is cancelled, and returning a buffer never overflows |
| `LocalBufferPool.FirstWaiterWoken` | src/site_c/pool.rs:106-111 | While a buffer is free the first waiter has been woken, for all wakers |
| `LocalBufferPool.HandsOutExactly` | src/site_c/pool.rs:98-111 | A buffer is handed out exactly when one is free and, for an awaited one, nobody is ahead |
| `LocalBufferPool.BuffersConserved` | src/site_c/pool.rs:98-180 | No buffer is lost, duplicated or invented |
| `LocalBufferPoolMemory.PoolCell.Build` | src/site_c/pool.rs:78-90 | The fill loop makes as many zeroed, distinct buffers as permits |
| `LocalBufferPoolMemory.PoolCell.CheckOut` | src/site_c/pool.rs:117-134 | In memory: the most recently returned buffer leaves, cleaned |
| `LocalBufferPoolMemory.PoolCell.TryAcquire` | src/site_c/pool.rs:100-104 | In memory: a clean buffer exactly when one is free |
| `LocalBufferPoolMemory.PoolCell.PollAcquire` | src/site_c/pool.rs:107-111 | In memory: grant and check-out happen in one poll |
| `LocalBufferPoolMemory.PoolCell.Return` | src/site_c/pool.rs:168-180 | In memory: the buffer is back before the permit, the count never overflows, and a fitting front is woken |

## Left out

- Weak memory: each atomic access is one sequentially consistent step, so the choice between Relaxed, Acquire, Release and SeqCst orderings is not examined.
- Raw allocation, alignment and pointers of `src/site_d/buffer.rs`: a buffer is an identity with a length and contents; uninitialised memory is arbitrary or marked unwritten.
- `src/hints.rs`, `src/site_d/padding.rs` and `src/blocking.rs`: branch hints are identities, padding is layout, `block_on` is thread parking.
- The spinlock, its backoff, spin budgets and `recv_hot`'s spin window in `mpsc_light`: a critical section is atomic, and the spin loop only repeats attempts that `recv` also makes.
- `IoBuf`, `IoBufMut`, `io::Read`, `io::Write`, `Debug`, `Clone`, `Default`, `PartialEq`, `From` and `Extend` impls, counters such as `free_count`, and `stats`: they would only add easy members.
- Wakers that re-enter the primitive while they run, and destructors that panic: a wake sets a flag. A bip-buffer grant taken between the flag clear of a commit and the end of its signals is covered by the steps.
- Overflow of waiter ids after 2^64 registrations and of the reader count: both are natural numbers.
- The wait-list map of `mpsc_light` is an ascending sequence of ids; the wakers stored in it are identified with those ids.
- The private copies of a half's own index are equal to the shared ones between steps, so the ring's step system keeps one of the two; `RingBufCalls` and `RingBufMemory` keep both.
- Triple buffer: callers keep the documented contract (they publish the buffer they own and give the previous one back); the foreign-buffer assertion and dropping the structure with buffers in flight are not modelled.
- Predicates given to `retain` and `take_where` answer from the element and from everything they were asked before; one that reads state which something else changes meanwhile is not modelled.
- `Queue::iter_mut`, `IntoIter` and the queue's own drop visit the same slots as `Queue.Queue.Visit` and are not separate members.
- Liveness in the sense of fair scheduling: the wakeup theorems say that a sleeper who could proceed has been notified or has a notifier at work, not that an executor will run it.
- `benches/`, `tools/chartgen/`, `docs/` and `tests/`.
