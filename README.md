# Atomics-based primitives of simple-executor, modelled in Dafny

This project models the hand-written synchronisation primitives of the
`simple-executor` repository:

- the three `Arc` implementations of `src/bin/chapter6.rs`:
  - `basic`: one reference count;
  - `weak`: a data count plus an allocation count, where an `Arc` wraps a `Weak`;
  - `optimized`: a strong count plus a weak count, where `get_mut` locks the weak count with the sentinel `usize::MAX`;
- the four one-shot channels of `src/bin/chapter5.rs`:
  - a `Mutex<VecDeque>` with a `Condvar`;
  - a state byte with runtime checks;
  - a `ready` flag in an allocation shared by a `Sender` and a `Receiver`;
  - a caller-owned channel lent out by `split`;
- the futex-based three-state `Mutex` of `src/ch9_locks/mutex.rs`;
- the reader-writer lock of `src/ch9_locks/rwlock.rs`.

Every primitive is written twice:

- **A `...Spec` module.** Its datatype holds the atomic words, the payload or message slot, and some ghost bookkeeping: how many handles or guards are live, and which messages were sent, received, or dropped. Each atomic operation is one function returning a `Step`. A `Step` holds how the operation ended (`Ok`, `Aborted`, `Panicked(message)`, `Blocked` for a futex wait or a park, `Spinning`), its reply, and the next state. Each module also has:
  - an invariant `Inv` that relates the words to the live handles;
  - `Apply` and `Run` over any sequence of operations. `Run` is model vocabulary with no counterpart in the source: it is one interleaving of the threads' steps;
  - lemmas proving that every run keeps `Inv` and what follows from it. Examples: the payload is dropped exactly once; shared and exclusive access exclude each other; messages arrive in order; every sent message is received or dropped exactly once.
  - lemmas that follow the repository's own tests step by step.
- **An imperative module.** It has a class whose fields are the words and slots, updated in place. Each method performs the source's atomic operations in program order. Its `ensures` says that it takes exactly the step that the spec function gives for it.

`Machine` holds the shared vocabulary:

- `Option`, `Status` and `Step`;
- the widths `usize::MAX` (64-bit) and `u32::MAX`;
- the wrapping `fetch_add` / `fetch_sub`.

Two facts about the reader-writer lock follow from the code as written:

- **The wake counter never moves.** A read guard's release applies `fetch_and(1)` to `writer_wake_counter` (rwlock.rs:132-134), and nothing else writes it. So the counter stays 0. The model keeps the code's behaviour and proves the consequence: a writer that loaded the counter before the last reader left still sleeps after that reader's wake (`RwlockSpec.LostWriterWakeup`).
- **The word can read `u32::MAX` without a write guard.** With 2^31 − 1 readers and a waiting writer, the word reads `u32::MAX` although no write guard exists (`RwlockSpec.MaxWord`, `RwlockSpec.MaxWordWithoutWriter`).

The field comment at rwlock.rs:16-17 says the wake counter is "incremented to wake up writers". The release at rwlock.rs:132-134 instead applies `fetch_and(1)` to it, and the model follows the code.

## Model

| member | source | states |
|---|---|---|
| Machine.UsizeAdd | src/bin/chapter6.rs:102 | `fetch_add` on a `usize` gives a value below 2^64, equal to the true sum when that fits |
| Machine.UsizeDec | src/bin/chapter6.rs:110 | `fetch_sub(1)` on a `usize` decrements a positive value and wraps 0 to `usize::MAX` |
| Machine.U32Sub | src/ch9_locks/rwlock.rs:131 | `fetch_sub` on a `u32` subtracts when it can and wraps modulo 2^32 otherwise |
| ArcBasicSpec.New | src/bin/chapter6.rs:69-77 | a new Arc has count 1, holds the payload, and satisfies the counting invariant |
| ArcBasicSpec.CloneArc | src/bin/chapter6.rs:100-107 | clone succeeds iff the previous count is at most `usize::MAX / 2`, else aborts; on success count and Arcs both grow by 1 and the invariant holds |
| ArcBasicSpec.DropArc | src/bin/chapter6.rs:108-116 | only the drop that takes the count from 1 to 0 frees the allocation and drops the payload, which happens exactly when it was the last Arc |
| ArcBasicSpec.GetMut | src/bin/chapter6.rs:82-90 | a mutable payload is handed out iff the Arc is the only one; nothing changes |
| ArcBasicSpec.Deref | src/bin/chapter6.rs:95-97 | a live Arc always reaches the payload |
| ArcBasicSpec.Apply | src/bin/chapter6.rs:100-116 | every operation that returns normally keeps the counting invariant |
| ArcBasicSpec.RunKeepsInv | src/bin/chapter6.rs:56-116 | every sequence of operations keeps the counting invariant (by induction) |
| ArcBasicSpec.Lifecycle | src/bin/chapter6.rs:108-116 | from `Arc::new`, the payload is dropped at most once, exactly when no Arc remains, and the allocation is freed then |
| ArcBasicSpec.CloneThenDropBoth | src/bin/chapter6.rs:118-153 | the `test` scenario: after a clone, the first drop keeps the payload, the second drops and frees it |
| ArcBasic.ArcData.constructor | src/bin/chapter6.rs:69-77 | the new allocation is `ArcBasicSpec.New` and valid |
| ArcBasic.ArcData.CloneArc | src/bin/chapter6.rs:100-107 | the in-place `fetch_add` and abort check take exactly the `CloneArc` step |
| ArcBasic.ArcData.DropArc | src/bin/chapter6.rs:108-116 | the in-place `fetch_sub` and free take exactly the `DropArc` step and keep validity |
| ArcBasic.ArcData.GetMut | src/bin/chapter6.rs:82-90 | returns the payload iff this is the only Arc |
| ArcBasic.ArcData.Deref | src/bin/chapter6.rs:95-97 | returns the payload held by the allocation |
| ArcWeakSpec.New | src/bin/chapter6.rs:210-220 | both counts 1, payload present, invariant holds |
| ArcWeakSpec.AddAllocRef | src/bin/chapter6.rs:253-260 | the allocation count grows by 1 iff its previous value is at most `usize::MAX / 2`, otherwise abort |
| ArcWeakSpec.ReleaseAllocRef | src/bin/chapter6.rs:271-279 | the allocation count drops by 1, and the allocation is freed exactly on the step from 1 to 0; nothing else changes |
| ArcWeakSpec.CloneWeak | src/bin/chapter6.rs:253-260 | a Weak clone adds one allocation reference and one Weak, keeping the invariant |
| ArcWeakSpec.Downgrade | src/bin/chapter6.rs:233-235 | downgrade adds one allocation reference and one Weak, keeping the invariant |
| ArcWeakSpec.CloneArc | src/bin/chapter6.rs:262-270 | under the invariant the clone succeeds iff the allocation count is at most `usize::MAX / 2`; both counts and the Arcs grow by 1 |
| ArcWeakSpec.DropWeak | src/bin/chapter6.rs:271-279 | a Weak drop frees the allocation iff it was the last handle of any kind, keeping the invariant |
| ArcWeakSpec.DropArc | src/bin/chapter6.rs:281-293 | an Arc drop destroys the payload iff it was the last Arc, then releases its allocation reference; the allocation is freed iff it was the last handle |
| ArcWeakSpec.Upgrade | src/bin/chapter6.rs:186-204 | upgrade returns nothing and changes nothing once the data count is 0; on success it adds an Arc to both counts; under the invariant it succeeds iff the payload is alive |
| ArcWeakSpec.GetMut | src/bin/chapter6.rs:222-231 | the payload is handed out mutably iff there is exactly one Arc and no Weak |
| ArcWeakSpec.Deref | src/bin/chapter6.rs:240-250 | the `unwrap` in `deref` never panics while an Arc lives |
| ArcWeakSpec.Apply | src/bin/chapter6.rs:186-293 | every operation that returns normally keeps the invariant |
| ArcWeakSpec.RunKeepsInv | src/bin/chapter6.rs:167-293 | every sequence of operations keeps the invariant (by induction) |
| ArcWeakSpec.Lifecycle | src/bin/chapter6.rs:281-293 | from `Arc::new`, the payload is dropped at most once, exactly when no Arc is left; the allocation is freed exactly when no handle is left |
| ArcWeakSpec.TwoWeaksUpgradeWhileArcLives | src/bin/chapter6.rs:331-369 | `test_weak`, first part: with an Arc alive, a Weak upgrades |
| ArcWeakSpec.TwoWeaksThreadEnds | src/bin/chapter6.rs:331-369 | `test_weak`, second part: after the thread's handles drop, the payload is intact and still upgradable |
| ArcWeakSpec.TwoWeaksAfterArcDropped | src/bin/chapter6.rs:331-369 | `test_weak`, third part: the last Arc drops the payload once, upgrades then fail, and the last Weak frees the allocation |
| ArcWeak.ArcData.constructor | src/bin/chapter6.rs:210-220 | the new allocation is `ArcWeakSpec.New` and valid |
| ArcWeak.ArcData.AddAllocRef | src/bin/chapter6.rs:255-257 | takes exactly the `AddAllocRef` step |
| ArcWeak.ArcData.ReleaseAllocRef | src/bin/chapter6.rs:273-277 | takes exactly the `ReleaseAllocRef` step |
| ArcWeak.ArcData.CloneWeak | src/bin/chapter6.rs:253-260 | takes exactly the `CloneWeak` step |
| ArcWeak.ArcData.Downgrade | src/bin/chapter6.rs:233-235 | takes exactly the `Downgrade` step |
| ArcWeak.ArcData.CloneArc | src/bin/chapter6.rs:262-270 | takes exactly the `CloneArc` step |
| ArcWeak.ArcData.DropWeak | src/bin/chapter6.rs:271-279 | takes exactly the `DropWeak` step |
| ArcWeak.ArcData.DropArc | src/bin/chapter6.rs:281-293 | takes exactly the `DropArc` step, drop glue included |
| ArcWeak.ArcData.Upgrade | src/bin/chapter6.rs:186-204 | takes exactly the `Upgrade` step |
| ArcWeak.ArcData.GetMut | src/bin/chapter6.rs:222-231 | returns the payload iff this is the only handle |
| ArcWeak.ArcData.Deref | src/bin/chapter6.rs:240-250 | returns the live payload |
| ArcOptimizedSpec.New | src/bin/chapter6.rs:443-451 | strong 1 and weak 1 (the implicit Weak of all Arcs), payload present, invariant holds |
| ArcOptimizedSpec.CloneArc | src/bin/chapter6.rs:566-573 | succeeds iff the previous strong count is at most `usize::MAX / 2`, else aborts; keeps the invariant |
| ArcOptimizedSpec.CloneWeak | src/bin/chapter6.rs:557-564 | succeeds iff the previous weak count is at most `usize::MAX / 2`, else aborts; keeps the invariant |
| ArcOptimizedSpec.ReleaseWeakCount | src/bin/chapter6.rs:574-582 | the weak count drops by 1, and the allocation is freed exactly on the step from 1 to 0 |
| ArcOptimizedSpec.DropWeak | src/bin/chapter6.rs:574-582 | frees the allocation iff no Arc and no other Weak remain; keeps the invariant |
| ArcOptimizedSpec.DropArc | src/bin/chapter6.rs:584-600 | destroys the payload iff it was the last Arc and then drops the implicit Weak; frees the allocation iff no Weak remains |
| ArcOptimizedSpec.Downgrade | src/bin/chapter6.rs:517-541 | spins iff the weak count is `WEAK_LOCKED`, which under the invariant is exactly while a `get_mut` holds the lock; panics above `usize::MAX / 2`; otherwise adds exactly one Weak |
| ArcOptimizedSpec.Upgrade | src/bin/chapter6.rs:419-437 | no Arc when strong is 0; otherwise adds one Arc or panics above `usize::MAX / 2`; succeeds iff the payload is alive |
| ArcOptimizedSpec.LockWeak | src/bin/chapter6.rs:488-494 | the compare-exchange locks the weak count iff it was 1, which for a live Arc means no Weak exists and no other `get_mut` holds the lock; keeps the invariant |
| ArcOptimizedSpec.UnlockWeak | src/bin/chapter6.rs:495-496 | the lock holder loads strong and stores 1 into weak; under the invariant strong is 1 iff its Arc is the only handle; keeps the invariant |
| ArcOptimizedSpec.FreeArcs | src/bin/chapter6.rs:457 | the Arcs other threads can use: all of them, except the one a `get_mut` holding the lock has mutably borrowed |
| ArcOptimizedSpec.GetMut | src/bin/chapter6.rs:457-515 | lock then unlock with nothing in between: hands out the payload iff there is exactly one Arc, no Weak and no other lock holder; under the invariant leaves the state as it found it |
| ArcOptimizedSpec.Deref | src/bin/chapter6.rs:546-554 | a live Arc always reaches the payload |
| ArcOptimizedSpec.DowngradeWaitsForGetMut | src/bin/chapter6.rs:457-541 | with two Arcs, a `downgrade` between `get_mut`'s lock and unlock spins and changes nothing; the unlock sees two Arcs, and the downgrade then goes through |
| ArcOptimizedSpec.Apply | src/bin/chapter6.rs:419-600 | every operation that returns normally keeps the invariant, including those other Arcs take while a `get_mut` holds the lock |
| ArcOptimizedSpec.RunKeepsInv | src/bin/chapter6.rs:398-600 | every sequence of operations keeps the invariant (by induction) |
| ArcOptimizedSpec.Lifecycle | src/bin/chapter6.rs:457-600 | from `Arc::new`, the payload is destroyed at most once, exactly when no Arc is left; the allocation is freed exactly when no handle is left, after the payload; the payload is never replaced; while a `get_mut` holds the lock no Weak exists and a `downgrade` spins, and at no other time does it spin |
| ArcOptimizedSpec.RunKeepsData | src/bin/chapter6.rs:398-402 | no run replaces the payload with another value |
| ArcOptimizedSpec.CloneThenDropBoth | src/bin/chapter6.rs:601-636 | the `test` scenario: only the second drop destroys the payload and frees the allocation |
| ArcOptimizedSpec.TwoWeaksScenario | src/bin/chapter6.rs:638-676 | the `test_weak` scenario: upgrades succeed while the Arc lives; its drop destroys the payload once; upgrade then fails; the last Weak frees the allocation |
| ArcOptimized.ArcData.constructor | src/bin/chapter6.rs:443-451 | the new allocation is `ArcOptimizedSpec.New` and valid |
| ArcOptimized.ArcData.CloneArc | src/bin/chapter6.rs:566-573 | takes exactly the `CloneArc` step |
| ArcOptimized.ArcData.CloneWeak | src/bin/chapter6.rs:557-564 | takes exactly the `CloneWeak` step |
| ArcOptimized.ArcData.ReleaseWeakCount | src/bin/chapter6.rs:575-580 | takes exactly the `ReleaseWeakCount` step |
| ArcOptimized.ArcData.DropWeak | src/bin/chapter6.rs:574-582 | takes exactly the `DropWeak` step |
| ArcOptimized.ArcData.DropArc | src/bin/chapter6.rs:584-600 | takes exactly the `DropArc` step |
| ArcOptimized.ArcData.Downgrade | src/bin/chapter6.rs:517-541 | takes exactly the `Downgrade` step |
| ArcOptimized.ArcData.Upgrade | src/bin/chapter6.rs:419-437 | takes exactly the `Upgrade` step |
| ArcOptimized.ArcData.LockWeak | src/bin/chapter6.rs:488-494 | takes exactly the `LockWeak` step, storing `WEAK_LOCKED` in place on success |
| ArcOptimized.ArcData.UnlockWeak | src/bin/chapter6.rs:495-496 | takes exactly the `UnlockWeak` step, storing 1 in place |
| ArcOptimized.ArcData.GetMut | src/bin/chapter6.rs:457-515 | locks, loads strong and unlocks the weak count in place, taking exactly the `GetMut` step; the state afterwards equals the state before; returns the payload iff this is the only handle |
| ArcOptimized.ArcData.Deref | src/bin/chapter6.rs:546-554 | returns the live payload |
| MutexSpec.New | src/ch9_locks/mutex.rs:39-44 | a new mutex is unlocked (state 0) and satisfies the invariant |
| MutexSpec.SpinIterations | src/ch9_locks/mutex.rs:55-59 | the spin loop runs at most 100 times, and only while the state is 1 |
| MutexSpec.SwapToContended | src/ch9_locks/mutex.rs:64-66 | the swap leaves the state at 2; it acquires iff the old state was 0, else the thread blocks |
| MutexSpec.LockContended | src/ch9_locks/mutex.rs:53-67 | the contended path acquires iff the state is 0 (state 1), else marks the state 2 and blocks |
| MutexSpec.Acquire | src/ch9_locks/mutex.rs:46-51 | `lock` acquires at once iff the state is 0, moving it to 1; otherwise it sets 2 and blocks; keeps the invariant |
| MutexSpec.Resume | src/ch9_locks/mutex.rs:64-66 | a woken thread retries the swap, acquiring iff the state is 0 |
| MutexSpec.Release | src/ch9_locks/mutex.rs:70-76 | the guard's drop unlocks and wakes iff the previous state was 2; keeps the value and the invariant, so no blocked thread is stranded |
| MutexSpec.Write | src/ch9_locks/mutex.rs:32-36 | the guard holder's write changes only the value |
| MutexSpec.Apply | src/ch9_locks/mutex.rs:46-76 | every step of a thread (lock, a woken thread's retry, a write through the guard, unlock) keeps the invariant, blocked locks included |
| MutexSpec.RunKeepsInv | src/ch9_locks/mutex.rs:7-76 | every interleaving keeps the invariant, so when the lock is free and threads are blocked a woken thread is on its way (by induction) |
| MutexSpec.Increments | src/ch9_locks/mutex.rs:83-85 | any number of `*m.lock() += 1` rounds keeps the invariant |
| MutexSpec.IncrementsAddN | src/ch9_locks/mutex.rs:78-88 | `test_mutex`: n rounds of `*m.lock() += 1` from an unlocked mutex never block and add exactly n |
| MutexSpec.ContendedHandOver | src/ch9_locks/mutex.rs:46-76 | a second locker blocks and sets 2; the release wakes it; it acquires with state 2, so its own release wakes again |
| Mutex.Mutex.constructor | src/ch9_locks/mutex.rs:39-44 | the new mutex is `MutexSpec.New` and valid |
| Mutex.Mutex.SwapToContended | src/ch9_locks/mutex.rs:64-66 | takes exactly the `SwapToContended` step |
| Mutex.Mutex.LockContended | src/ch9_locks/mutex.rs:53-67 | takes exactly the `LockContended` step; the spin loop runs `SpinIterations` times |
| Mutex.Mutex.Lock | src/ch9_locks/mutex.rs:46-51 | takes exactly the `Acquire` step |
| Mutex.Mutex.Resume | src/ch9_locks/mutex.rs:64-66 | takes exactly the `Resume` step |
| Mutex.Mutex.Unlock | src/ch9_locks/mutex.rs:70-76 | takes exactly the `Release` step |
| Mutex.Mutex.Read | src/ch9_locks/mutex.rs:24-30 | the guard holder reads the protected value |
| Mutex.Mutex.Write | src/ch9_locks/mutex.rs:32-36 | takes exactly the `Write` step |
| Mutex.IncrementTimes | src/ch9_locks/mutex.rs:78-88 | `test_mutex` loop: after n rounds the value is larger by exactly n and the mutex is unlocked and valid |
| RwlockSpec.New | src/ch9_locks/rwlock.rs:24-30 | both words start at 0, no guard is live, and the invariant holds |
| RwlockSpec.Read | src/ch9_locks/rwlock.rs:32-54 | a read lock is granted iff the word is even and below `u32::MAX - 2`, adding exactly 2; an odd word blocks; an even word at or above it panics "too many readers" |
| RwlockSpec.Write | src/ch9_locks/rwlock.rs:56-97 | a write lock is granted iff the word is at most 1, setting it to `u32::MAX`; otherwise an even word gets the waiting bit and the writer blocks with the word above 2 |
| RwlockSpec.ReadRelease | src/ch9_locks/rwlock.rs:129-138 | subtracts 2 and wakes a writer iff the previous word was 3; keeps the invariant and the wake counter |
| RwlockSpec.WriteRelease | src/ch9_locks/rwlock.rs:140-146 | stores 0 and ends the write guard, keeping the invariant |
| RwlockSpec.WriteValue | src/ch9_locks/rwlock.rs:123-127 | the write guard's holder changes only the value |
| RwlockSpec.Exclusion | src/ch9_locks/rwlock.rs:10-19 | under the invariant, no read guard coexists with a write guard; an odd word or a writer blocks readers; readers or a writer block writers |
| RwlockSpec.MaxWord | src/ch9_locks/rwlock.rs:11-14 | the word is `u32::MAX` iff a write guard is live or 2^31 − 1 readers hold it with the waiting bit set |
| RwlockSpec.MaxWordWithoutWriter | src/ch9_locks/rwlock.rs:36-37 | the second case is reachable: one more reader then a waiting writer bring the word to `u32::MAX` with no write guard |
| RwlockSpec.WriterHandOver | src/ch9_locks/rwlock.rs:77-95 | a waiting writer turns new readers away; only the last reader's release wakes it, and it then acquires |
| RwlockSpec.WriterWait | src/ch9_locks/rwlock.rs:89-95 | the writer's futex wait sleeps iff the wake counter still holds the value loaded before |
| RwlockSpec.LostWriterWakeup | src/ch9_locks/rwlock.rs:129-136 | a writer that loaded the wake counter before the last reader left sleeps after that reader's wake, although the lock is free for it and readers are held off; the state is the one `Run` reaches by read, write, read-unlock |
| RwlockSpec.ReleaseNeverChangesWakeCounter | src/ch9_locks/rwlock.rs:132-134 | no read-guard release changes the wake counter, so a wait on an earlier snapshot always sleeps |
| RwlockSpec.Apply | src/ch9_locks/rwlock.rs:32-146 | every operation that proceeds keeps the invariant, including a `write` that blocks after setting the waiting bit |
| RwlockSpec.RunKeepsInv | src/ch9_locks/rwlock.rs:10-146 | every sequence of operations, writer-waiting states included, keeps the invariant and mutual exclusion (by induction) |
| Rwlock.Rwlock.constructor | src/ch9_locks/rwlock.rs:24-30 | the new lock is `RwlockSpec.New` and valid |
| Rwlock.Rwlock.Read | src/ch9_locks/rwlock.rs:32-54 | takes exactly the `Read` step |
| Rwlock.Rwlock.Write | src/ch9_locks/rwlock.rs:56-97 | takes exactly the `Write` step |
| Rwlock.Rwlock.ReadUnlock | src/ch9_locks/rwlock.rs:129-138 | takes exactly the `ReadRelease` step |
| Rwlock.Rwlock.WriteUnlock | src/ch9_locks/rwlock.rs:140-146 | takes exactly the `WriteRelease` step |
| Rwlock.Rwlock.ReadValue | src/ch9_locks/rwlock.rs:107-121 | a guard holder reads the protected value |
| Rwlock.Rwlock.WriteValue | src/ch9_locks/rwlock.rs:123-127 | takes exactly the `WriteValue` step |
| MutexChannelSpec.New | src/bin/chapter5.rs:42-47 | a new channel has an empty queue and nothing sent |
| MutexChannelSpec.Send | src/bin/chapter5.rs:48-51 | the message joins the back of the queue and of the sent messages; keeps the invariant |
| MutexChannelSpec.Receive | src/bin/chapter5.rs:52-60 | returns the front message iff the queue is non-empty, else blocks; the message returned is the oldest one not yet received |
| MutexChannelSpec.Apply | src/bin/chapter5.rs:48-60 | every operation that proceeds keeps the invariant |
| MutexChannelSpec.RunKeepsInv | src/bin/chapter5.rs:36-60 | every sequence of sends and receives keeps "received then queued equals sent" (by induction) |
| MutexChannelSpec.Fifo | src/bin/chapter5.rs:48-60 | messages are received in sending order: the received ones are a prefix of those sent, and the queue holds the rest |
| MutexChannelSpec.TwoMessagesInOrder | src/bin/chapter5.rs:48-60 | two sends come out in order, and a third receive blocks |
| MutexChannel.Channel.constructor | src/bin/chapter5.rs:42-47 | the new channel is `MutexChannelSpec.New` and valid |
| MutexChannel.Channel.Send | src/bin/chapter5.rs:48-51 | takes exactly the `Send` step |
| MutexChannel.Channel.Receive | src/bin/chapter5.rs:52-60 | takes exactly the `Receive` step |
| RuntimeChannelSpec.New | src/bin/chapter5.rs:84-89 | a new channel is EMPTY with nothing sent |
| RuntimeChannelSpec.ClaimSend | src/bin/chapter5.rs:93-98 | the send's claim succeeds iff the state is EMPTY, else panics "can't send more than one message!" |
| RuntimeChannelSpec.Publish | src/bin/chapter5.rs:99-102 | writing the slot and storing READY makes the message the one message sent |
| RuntimeChannelSpec.Send | src/bin/chapter5.rs:92-103 | a send succeeds iff the state is EMPTY, leaving the message READY; otherwise panics and changes nothing |
| RuntimeChannelSpec.IsReady | src/bin/chapter5.rs:105-107 | ready iff the state is READY, which under the invariant means a message was sent and not received |
| RuntimeChannelSpec.Receive | src/bin/chapter5.rs:113-124 | succeeds iff the state is READY, returning the message sent and moving to READING; otherwise panics "no message available!" |
| RuntimeChannelSpec.Dispose | src/bin/chapter5.rs:130-138 | the drop disposes of a message iff the state is READY; afterwards received plus disposed is exactly what was sent |
| RuntimeChannelSpec.Apply | src/bin/chapter5.rs:92-124 | every step that proceeds keeps the invariant |
| RuntimeChannelSpec.RunKeepsInv | src/bin/chapter5.rs:74-124 | every sequence of steps keeps the invariant (by induction) |
| RuntimeChannelSpec.ExactlyOnce | src/bin/chapter5.rs:92-138 | at most one message is ever sent, and at drop it has been received or disposed of, exactly once |
| RuntimeChannelSpec.ReceiveDuringWrite | src/bin/chapter5.rs:92-124 | between a send's claim and its publish, `is_ready` is false and `receive` panics |
| RuntimeChannelSpec.SendReceive | src/bin/chapter5.rs:147-161 | the `test` scenario: the message arrives; a second send or receive panics; the drop disposes of nothing |
| RuntimeChannelSpec.UnreceivedIsDropped | src/bin/chapter5.rs:130-138 | a message sent and never received is dropped with the channel |
| RuntimeChannel.Channel.constructor | src/bin/chapter5.rs:84-89 | the new channel is `RuntimeChannelSpec.New` and valid |
| RuntimeChannel.Channel.Send | src/bin/chapter5.rs:92-103 | takes exactly the `Send` step |
| RuntimeChannel.Channel.IsReady | src/bin/chapter5.rs:105-107 | answers `IsReady` |
| RuntimeChannel.Channel.Receive | src/bin/chapter5.rs:113-124 | takes exactly the `Receive` step |
| RuntimeChannel.Channel.Drop | src/bin/chapter5.rs:130-138 | takes exactly the `Dispose` step |
| TypedChannelSpec.Pending | src/bin/chapter5.rs:227-233 | the pending message exists iff the flag is set and the slot holds one |
| TypedChannelSpec.Channel | src/bin/chapter5.rs:192-202 | `channel()` gives both handles, no message, and the invariant |
| TypedChannelSpec.Free | src/bin/chapter5.rs:227-233 | the channel's drop disposes of the pending message and frees the allocation |
| TypedChannelSpec.ReleaseHandle | src/bin/chapter5.rs:192-202 | dropping a handle's share frees the allocation iff no handle remains |
| TypedChannelSpec.Send | src/bin/chapter5.rs:205-211 | the message is published and the sender consumed; if the receiver is already gone, the message is disposed with the allocation |
| TypedChannelSpec.IsReady | src/bin/chapter5.rs:215-217 | ready iff a message is pending |
| TypedChannelSpec.Receive | src/bin/chapter5.rs:218-224 | succeeds iff the flag was set, returning the one message sent; otherwise panics "no message available!"; the receiver is consumed either way |
| TypedChannelSpec.DropSender | src/bin/chapter5.rs:177-179 | dropping an unused sender keeps the invariant |
| TypedChannelSpec.DropReceiver | src/bin/chapter5.rs:181-183 | dropping an unused receiver keeps the invariant |
| TypedChannelSpec.Apply | src/bin/chapter5.rs:205-233 | every handle use that proceeds keeps the invariant |
| TypedChannelSpec.RunKeepsInv | src/bin/chapter5.rs:185-233 | every sequence of handle uses keeps the invariant (by induction) |
| TypedChannelSpec.ExactlyOnce | src/bin/chapter5.rs:204-233 | at most one message is sent; the allocation is freed iff both handles are gone, and then the message was received or disposed of exactly once |
| TypedChannelSpec.SendReceive | src/bin/chapter5.rs:240-255 | the `test` scenario: the message arrives and the allocation is freed with nothing to dispose of |
| TypedChannelSpec.ReceiverGoneFirst | src/bin/chapter5.rs:227-233 | a message sent after the receiver dropped is disposed of with the allocation |
| TypedChannel.Channel.constructor | src/bin/chapter5.rs:192-202 | the new channel is `TypedChannelSpec.Channel` and valid |
| TypedChannel.Channel.ReleaseHandle | src/bin/chapter5.rs:227-233 | takes exactly the `ReleaseHandle` step |
| TypedChannel.Channel.Send | src/bin/chapter5.rs:205-211 | takes exactly the `Send` step |
| TypedChannel.Channel.IsReady | src/bin/chapter5.rs:215-217 | answers `IsReady` |
| TypedChannel.Channel.Receive | src/bin/chapter5.rs:218-224 | takes exactly the `Receive` step |
| TypedChannel.Channel.DropSender | src/bin/chapter5.rs:177-179 | takes exactly the `DropSender` step |
| TypedChannel.Channel.DropReceiver | src/bin/chapter5.rs:181-183 | takes exactly the `DropReceiver` step |
| BorrowChannelSpec.Pending | src/bin/chapter5.rs:338-344 | the pending message exists iff the flag is set and the slot holds one |
| BorrowChannelSpec.New | src/bin/chapter5.rs:290-295 | a new channel has the flag clear and nothing lent out |
| BorrowChannelSpec.Split | src/bin/chapter5.rs:297-311 | `split` disposes of the old unreceived message, clears the flag and lends out a fresh pair; keeps the invariant |
| BorrowChannelSpec.Send | src/bin/chapter5.rs:315-322 | the message becomes the pending one and the sender is consumed |
| BorrowChannelSpec.IsReady | src/bin/chapter5.rs:326-328 | ready iff a message is pending |
| BorrowChannelSpec.Receive | src/bin/chapter5.rs:329-335 | parks (blocks) iff the flag is clear; otherwise returns the pending message and consumes the receiver |
| BorrowChannelSpec.DropSender | src/bin/chapter5.rs:273-276 | the end of an unused sender's borrow keeps the invariant |
| BorrowChannelSpec.DropReceiver | src/bin/chapter5.rs:278-280 | the end of an unused receiver's borrow keeps the invariant |
| BorrowChannelSpec.Drop | src/bin/chapter5.rs:338-344 | the drop disposes of the pending message; afterwards received plus disposed equals sent, as multisets |
| BorrowChannelSpec.Apply | src/bin/chapter5.rs:297-335 | every step that proceeds keeps the invariant |
| BorrowChannelSpec.RunKeepsInv | src/bin/chapter5.rs:282-344 | every sequence of splits and handle uses keeps the invariant (by induction) |
| BorrowChannelSpec.ExactlyOnce | src/bin/chapter5.rs:297-344 | over any number of splits, at drop every message sent was received or disposed of exactly once |
| BorrowChannelSpec.ParkUntilSent | src/bin/chapter5.rs:352-363 | the `test` scenario: the receiver parks until the send, then gets the message |
| BorrowChannelSpec.SplitDropsUnreceived | src/bin/chapter5.rs:297-311 | a second split disposes of the first pair's unreceived message and starts empty |
| BorrowChannel.Channel.constructor | src/bin/chapter5.rs:290-295 | the new channel is `BorrowChannelSpec.New` and valid |
| BorrowChannel.Channel.Split | src/bin/chapter5.rs:297-311 | takes exactly the `Split` step |
| BorrowChannel.Channel.Send | src/bin/chapter5.rs:315-322 | takes exactly the `Send` step |
| BorrowChannel.Channel.IsReady | src/bin/chapter5.rs:326-328 | answers `IsReady` |
| BorrowChannel.Channel.Receive | src/bin/chapter5.rs:329-335 | takes exactly the `Receive` step |
| BorrowChannel.Channel.DropSender | src/bin/chapter5.rs:273-276 | takes exactly the `DropSender` step |
| BorrowChannel.Channel.DropReceiver | src/bin/chapter5.rs:278-280 | takes exactly the `DropReceiver` step |
| BorrowChannel.Channel.Drop | src/bin/chapter5.rs:338-344 | takes exactly the `Drop` step |

## Left out

- Memory orderings, fences and the happens-before relations they create are not modelled. The model is sequential: interleavings are sequences of steps. A step is one atomic operation or, in the cases named below, a short run of them by one thread.
- `ArcWeakSpec.CloneArc`: its two `fetch_add`s (allocation count, then data count) are one step, so the state between them is not a state of `Run`.
- `ArcWeakSpec.DropArc`: the `fetch_sub` on the data count and the drop glue's `fetch_sub` on the allocation count are one step.
- `ArcWeakSpec.Upgrade`: the compare-exchange on the data count and the Weak clone that follows it are one step.
- `ArcOptimizedSpec.GetMut`: the lock and the unlock are separate steps (`LockWeak`, `UnlockWeak`), but the load of strong and the store of 1 are one step, and so are the `strong_count` check and the `fence` after it.
- `MutexSpec.LockContended`: the bounded spin, the compare-exchange and the first swap to 2 are one step.
- Compare-exchange retry loops (`upgrade`, `downgrade`, `read`, `write`, the mutex fast path) never fail in a sequential run, so each becomes one attempt. A spurious failure of `compare_exchange_weak` is a retry that changes nothing, and is not modelled.
- Futex waits, `thread::park` and `Condvar::wait` are modelled as the status `Blocked`. The wait-queue protocol itself is not modelled, nor are wake-ups beyond the `reply` flags and the mutex's `woken` count. A woken thread retries by calling the operation again.
- A spin loop that cannot end in a sequential run (`downgrade` on `WEAK_LOCKED`) is modelled as the status `Spinning`. The mutex's bounded spin is modelled as a loop that leaves the state unchanged.
- `std::process::abort` and `panic!`/`assert!` become the statuses `Aborted` and `Panicked(message)`. Unwinding beyond dropping the consumed receiver is not modelled.
- `usize` is modelled as 64 bits wide. A 32-bit target would change `USIZE_MAX` only.
- The model has no type-system proof that `send`/`receive` consume their handle. It states this instead as a precondition: the handle must be live.
- Timing, `println!` output and benchmarks are not modelled: `test_mutex`'s elapsed time, and the `main`, test-processor and executor code in the other binaries and modules.
- `MyStr` and the other drop-counting test helpers are not modelled. The model counts drops in its own `drops` and `disposed` fields instead.
- `ArcBasic.ArcData.GetMut`: its contract covers uniqueness and the payload returned, not a mutable borrow that later writes go through.
- `ArcWeak.ArcData.GetMut`: it returns the payload value, not a mutable borrow that later writes go through.
- `ArcOptimized.ArcData.GetMut`: it returns the payload value, not a mutable borrow that later writes go through.
- `ArcOptimized.ArcData.DropArc`: the Arc a `get_mut` holds mutably borrowed cannot be dropped, so the method requires `FreeArcs > 0`. Rust's borrow rules guarantee this; the model states it as a precondition. `ArcOptimized.ArcData.GetMut` requires the same.
- `MutexChannelSpec.Receive`: when the queue is empty, the model blocks rather than waiting on the `Condvar` and re-locking. A spurious `Condvar` wake-up is the same as calling `Receive` again.
