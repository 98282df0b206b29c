# aiopp, modelled and proved

aiopp runs coroutines on top of io_uring. This project models the parts of it where the order of steps decides
whether it works, and proves what those parts promise:

* the lock-free multi-producer single-consumer queue, one atomic access a step, with any number of producers and
  an allocator that may hand freed addresses out again (`MpscQueue.dfy`, `MpscGuarantees.dfy`,
  `MpscRefinement.dfy`, `MpscProgress.dfy`, and the object itself in `MpscClass.dfy`);
* the completer table, open addressing with double hashing and tombstones, for all 64-bit keys
  (`Primes.dfy`, `ProbeSequence.dfy`, `CompleterMap.dfy`);
* the event loop: ids, submission and completion queues, awaiters, completers, cancellation and linked timeouts
  (`IoQueue.dfy`, `IoSound.dfy`, `IoGuarantees.dfy`, what the ring holds in `IoEntries.dfy`, runs that go wrong in
  `IoExamples.dfy`, the object in `IoClass.dfy`, which uses the completer table, and in `IoProgress.dfy` that its loop
  serves everybody who waits in time);
* the thread pool, with its mutex and condition variable (`ThreadPool.dfy`, `ThreadPoolClass.dfy`), and futures over
  the whole pool (`Future.dfy`, `FutureProgress.dfy`, `FutureClass.dfy`);
* the channel (`Channel.dfy`) and the slot map over its storage (`SlotMap.dfy`);
* two helpers: `Options.dfy` and `Counting.dfy`.

Each part that changes state has two layers. The first is a machine over values: a state, the steps that can come
next, an invariant every step keeps, and theorems over every run. A step that would use freed memory, call `front` on
an empty queue or fail an assertion has no result, so "every run has a result" is the statement that none of this
happens. Fields called history record what happened; no step reads them. The second layer is a class with the fields
of the source, whose methods are proved to take exactly the steps of the machine. Before every access a method makes,
the other threads may take any steps, given as a schedule; in the event loop, which is one thread, the kernel may take
any steps before the loop looks at the completion queue, and a resumed coroutine and the kernel any steps until the
coroutine comes back.

What the proofs found in the code:

* `mpscqueue.hpp:45-46` says that the check in line 47 could be dropped. Without it two calls during a pending link
  make the stub its own successor, and a run ends with the stub freed (`CheckIsNeeded`). What it protects is exact:
  going on from the check keeps the invariant if and only if the stub is not in the chain (`CheckProtectsStub`);
  if it is, it becomes its own successor or cuts off what is behind it (`StubInChainGoesWrong`).
* Insertion into a completer table that is not full finds a slot for all tables exactly when `key + (n-1)*h` stays
  below 2^64. The largest id the queue can allocate violates this for every table size, so there is a table with room
  for which `insert` aborts (`LargestIdDoesNotFit`), and a run from a new table leads there (`LargestIdAborts`). Ids of
  the first 2^63 operations never do (`EarlyIdsFit`).
* `getNextSize` asserts `num <= 196613`, but for 196613 itself it reaches the abort below; `GetNextSize`
  follows the code.
* `ioqueue.hpp:211-214` says that a handler cancelled with `cancelHandler` is not called in either case. That holds for
  an operation somebody already waits for; an operation awaited only after the cancel is resumed as usual
  (`CancelledOutcome`, `EarlyCancelDoesNotStick`).
* An operation awaited after the loop has looked at its completion is never resumed and keeps `run` from returning
  (`Fate`, `QuietLoop`, `LateWaitsForever`, and a run that ends so: `LateAwaitHangs`).
* `linkTimeout` sets the link flag before it knows whether the ring has room for the timeout; when it has none the
  operation stays flagged with nothing behind it (`TimeoutFollowsItsOperation`, `FullRingLeavesFlag`).
* The destructor of the pool stores the flag without the mutex. Its wakeup reaches every worker exactly when none is
  between deciding to sleep and sleeping (`StopReachesAll`, `StopCanMissWorker`); if it does, they all finish
  (`JoinReturns`).
* A receiver destroyed while its read is outstanding, granted or not, leaves that read with the kernel, which may still
  take an event for it. A message then stays queued that no event announces. Destroying a receiver is the only way to
  get there, and any one can lead there (`StuckExactlyByAbandoning`, `NeverStuckWithoutAbandon`,
  `AbandonedReadLeavesMessage`).
* An explicit `SlotMap::resize` loses all indices between the next new one and the old size for good (`ResizeLeaks`,
  `LeakedNeverReturn`, `TwoResizesLeak`). The sized constructors leave the size at 0, so the first
  insertion reallocates.

## Model

| member | source | states |
|---|---|---|
| MpscProtocol.ReachableIsSound | include/aiopp/mpscqueue.hpp:19-103 | the invariant of the queue holds after every interleaving of any number of producers with the consumer |
| MpscProtocol.StepKeepsSound | include/aiopp/mpscqueue.hpp:19-103 | every atomic access keeps the exchange-ordered chain, the owed links and what the consumer knows in its registers |
| MpscGuarantees.NoUseAfterFree | include/aiopp/mpscqueue.hpp:35-38 | no reachable step touches a freed node; chain, links and registers only name allocated ones |
| MpscGuarantees.NoLeak | include/aiopp/mpscqueue.hpp:92-103 | every allocated node is the stub, in the chain, held by a producer before its exchange, or being unpacked |
| MpscGuarantees.StubIsSafe | include/aiopp/mpscqueue.hpp:26-58 | the stub is in the chain at most once, never unpacked, and nobody owes a store to it when its link is reset |
| MpscGuarantees.EveryLinkIsStoredOrOwed | include/aiopp/mpscqueue.hpp:99-103 | each adjacent pair of the chain is linked, or exactly one thread owes exactly that link |
| MpscRefinement.StepRefinesQueue | include/aiopp/mpscqueue.hpp:19-103 | each access is an enqueue, a dequeue of the oldest value, or nothing, of a sequential queue |
| MpscRefinement.RunRefinesQueue | include/aiopp/mpscqueue.hpp:19-103 | every interleaving is a run of the sequential queue at its linearization points |
| MpscRefinement.Linearizable | include/aiopp/mpscqueue.hpp:19-103 | returned values followed by pending ones are the values in the order of the exchanges: FIFO, none lost, none twice |
| MpscProgress.CallReturnsOldest | include/aiopp/mpscqueue.hpp:19-83 | an undisturbed call returns the oldest pending value exactly when the queue is ready, and otherwise nothing |
| MpscProgress.ReadyMeans | include/aiopp/mpscqueue.hpp:26-60 | ready exactly when a first value is exchanged in, linked from the stub, and last or linked onwards |
| MpscProgress.OnlyProducersBlock | include/aiopp/mpscqueue.hpp:99-103 | if values are pending and a call returns nothing, a producer between exchange and store is the reason |
| MpscProgress.Drains | include/aiopp/mpscqueue.hpp:19-83 | with producers at rest and k values pending, k calls return them in order and the next returns nothing |
| MpscProgress.NoLinkExcuses | include/aiopp/mpscqueue.hpp:26-82 | a consumer that finds no link behind the stub, or behind a node that is not last, has nothing pending or is held up by a producer |
| MpscProgress.StubInChainGoesWrong | include/aiopp/mpscqueue.hpp:45-58 | from every sound state at the check with the stub in the chain, going on makes the stub its own successor, or no node behind it can be reached from the consume end any more |
| MpscProgress.CheckProtectsStub | include/aiopp/mpscqueue.hpp:45-49 | going on from the check keeps the invariant if and only if the stub is not in the chain, which finding the last node shows |
| MpscProgress.CheckIsNeeded | include/aiopp/mpscqueue.hpp:45-49 | without the check there are runs with the stub linked to itself and with the stub freed |
| MpscQueues.MpscQueue.constructor | include/aiopp/mpscqueue.hpp:10-15 | an empty queue of one stub satisfies the invariant |
| MpscQueues.MpscQueue.ConsumeValue | include/aiopp/mpscqueue.hpp:19-83 | consume in the order of the source, with any steps of producers before every access, returns the next value of the history; if it returns nothing, then at some moment of the call nothing was pending or a producer between exchange and store held it up |
| MpscQueues.MpscQueue.EnqueueStub | include/aiopp/mpscqueue.hpp:51-73 | putting the stub back and reloading the link are the steps of the machine |
| MpscQueues.MpscQueue.UnpackNode | include/aiopp/mpscqueue.hpp:92-97 | unpacking frees a node that nothing names any more |
| MpscQueues.MpscQueue.ExchangeProduceEnd | include/aiopp/mpscqueue.hpp:99-103 | the exchange is the step that enqueues |
| MpscQueues.MpscQueue.StoreLink | include/aiopp/mpscqueue.hpp:99-103 | storing the link pays what the producer owes |
| ProbeSequence.TableSizesArePrime | src/completermap.cpp:64-77 | every table size is prime and does not divide 2^64 |
| ProbeSequence.HashIsReversible | src/completermap.cpp:16-24 | every word is the hash of a key, which the inverse of the five steps gives |
| ProbeSequence.StridesAreSpread | src/completermap.cpp:30 | over all keys the strides are spread like the words are modulo n - 1: the second hash is not constant |
| ProbeSequence.UnwrappedProbesAreDistinct | src/completermap.cpp:30-32 | without wrap-around no two probes of a key hit the same slot |
| ProbeSequence.WrappedProbesCollide | src/completermap.cpp:30-32 | with wrap-around two probes of a key always hit the same slot |
| ProbeSequence.ProbesCoverIffNoWrap | src/completermap.cpp:30-32 | the probes of a key visit every slot, each once, exactly when key + (n-1)*h stays below 2^64 |
| CompleterTable.LookupFinds | src/completermap.cpp:79-92 | lookup finds the live entry of a key exactly when the abstract map has the key |
| CompleterTable.InsertActsOnMap | src/completermap.cpp:27-41 | insertion of an absent key keeps every entry reachable on its own probe path and adds exactly that entry |
| CompleterTable.RemoveActsOnMap | src/completermap.cpp:52-62 | removal leaves a tombstone that keeps every other entry reachable and removes exactly that entry |
| CompleterTable.InsertAlwaysFitsIffNoWrap | src/completermap.cpp:27-41 | a key fits into every table with room exactly when its probes do not wrap |
| CompleterTable.LargestIdDoesNotFit | src/completermap.cpp:27-41 | for the largest id, 2^64 - 3, some table with room makes insertion abort, at every size |
| CompleterTable.WrappedKeyAborts | src/completermap.cpp:27-41 | every key whose probes wrap makes some proper run of a new table abort |
| CompleterTable.LargestIdAborts | src/completermap.cpp:27-41 | for the largest id there is such a run at every size |
| CompleterTable.StepAgrees | src/completermap.cpp:27-62 | one operation on a table acts and answers like the finite map |
| CompleterTable.RunAgrees | src/completermap.cpp:27-62 | over every run of insert, get and remove the table answers and holds what a finite map does |
| CompleterMaps.GetNextSize | src/completermap.cpp:64-77 | the smallest prime table size above the request, which is the first one or at most twice the request and 15 more; the abort exactly from 196613 on |
| CompleterMaps.CompleterMap.constructor | src/completermap.cpp:9-12 | an empty table larger than the request, but not by more than about the factor two, that hashes with SplitMix64 |
| CompleterMaps.CompleterMap.Insert | src/completermap.cpp:27-41 | adds an absent key to the map, or aborts with nothing changed; never aborts when the probes do not wrap |
| CompleterMaps.CompleterMap.Find | src/completermap.cpp:79-92 | the loop of lookup computes the specified scan |
| CompleterMaps.CompleterMap.Get | src/completermap.cpp:43-50 | the value of the key in the map, or null |
| CompleterMaps.CompleterMap.Remove | src/completermap.cpp:52-62 | removes the key from the map and returns its value, or null |
| IoSoundness.StepKeepsSound | src/ioqueue_impl_iouring.cpp:130-222 | every step of clients, loop and kernel succeeds and keeps the invariant of ids, ring, awaiters and completers |
| IoSoundness.RunKeepsSound | src/ioqueue_impl_iouring.cpp:130-222 | no run uses a freed completer or awaiter, resumes a coroutine that is not suspended, registers a key twice or fails an assertion |
| IoSoundness.RegisteredIsAwaited | include/aiopp/ioqueue.hpp:70-76 | a registered completer is allocated and points to a live, suspended awaiter that holds exactly that operation |
| IoSoundness.NextCompletionIsOwn | src/ioqueue_impl_iouring.cpp:187-194 | the completion the loop looks at belongs to the operation its id names now, which has had none before |
| IoGuarantees.KthIdIsK | src/ioqueue.cpp:171-180 | in any sequence of steps, whatever clients do, the k-th allocation returns k mod (2^64 - 2) |
| IoGuarantees.EveryRun | src/ioqueue_impl_iouring.cpp:130-222 | from a new queue no run fails; registered ids, allocated completers and completed operations are exactly those they should be |
| IoSoundness.LinkTargetIsNewest | src/ioqueue_impl_iouring.cpp:130-133 | the assertion of linkTimeout holds exactly when the operation's own entry is the newest one |
| IoGuarantees.KeysAreWaitedFor | src/ioqueue_impl_iouring.cpp:164-222 | the registered ids are exactly those of suspended awaiters whose handler was not cancelled, one awaiter each |
| IoGuarantees.LeavesWhenNobodyWaits | src/ioqueue_impl_iouring.cpp:177-179 | run can return exactly when no such awaiter remains |
| IoGuarantees.AllocatedIsRegistered | src/ioqueue_impl_iouring.cpp:164-201 | a completer is allocated exactly while it is registered or its coroutine runs, so each is deleted exactly once |
| IoGuarantees.StepOfWaiter | src/ioqueue_impl_iouring.cpp:164-201 | what any one step does to an awaited operation: cut, completed, or unchanged; completed means that its awaiter holds the result of its own completion and no operation, and that its coroutine runs |
| IoGuarantees.OnlyCompletionsResume | include/aiopp/ioqueue.hpp:70-76 | a coroutine is only ever resumed by the completion of the operation its awaiter waits for, and is handed that result |
| IoGuarantees.Fate | src/ioqueue_impl_iouring.cpp:164-201 | over every run an operation completes exactly if it was awaited before its completion was looked at, that has happened, and no cancel or destruction came first |
| IoGuarantees.ResumedForever | include/aiopp/ioqueue.hpp:70-76 | an operation that has completed stays as it is: nothing completes twice |
| IoGuarantees.MissedForever | src/ioqueue_impl_iouring.cpp:164-175 | an operation that was cancelled with its handler, destroyed or awaited too late never completes |
| IoGuarantees.LateWaitsForever | src/ioqueue_impl_iouring.cpp:177-201 | whoever awaits too late stays registered and keeps run from returning, until a step takes the handler away |
| IoGuarantees.ResultIsOwn | src/ioqueue_impl_iouring.cpp:187-197 | the result an operation is recorded to have completed with is that of the only completion of its own submission |
| IoGuarantees.CancelledOutcome | include/aiopp/ioqueue.hpp:211-215 | cancelling with the handler is final for whoever waits, and changes nothing for whoever awaits later |
| IoExamples.EarlyCancelDoesNotStick | include/aiopp/ioqueue.hpp:211-215 | for every capacity and every ring of at least two entries, a run in which a handler is called although the operation was cancelled with its handler |
| IoGuarantees.QuietLoop | src/ioqueue_impl_iouring.cpp:177-201 | with nothing more to come from the kernel, whoever still waits came too late and keeps the loop running |
| IoExamples.LateAwaitHangs | src/ioqueue_impl_iouring.cpp:177-201 | for every capacity and every ring of at least two entries, a run from a new queue that ends so: one operation awaited too late, and no continuation leaves the loop unless it is cancelled or destroyed |
| IoGuarantees.IdsAreDistinct | src/ioqueue.cpp:171-180 | ids are never magic and any 2^64 - 2 consecutive ones are distinct |
| IoGuarantees.WindowKeepsIdsFree | src/ioqueue.cpp:171-180 | if everything in use is among the last 2^64 - 2 allocations, no id is recycled while in use |
| IoGuarantees.TimeoutFollowsItsOperation | src/ioqueue_impl_iouring.cpp:130-139 | linkTimeout flags its own, unsubmitted operation and puts the timeout right behind it exactly when the ring has room |
| IoGuarantees.TimeoutsAreBehindOperations | src/ioqueue_impl_iouring.cpp:130-139 | every timeout ever prepared stands right behind a flagged operation |
| IoExamples.FullRingLeavesFlag | src/ioqueue_impl_iouring.cpp:130-139 | for every capacity and every depth of the ring, once it is full of new operations a timeout linked to the last one fails and leaves it flagged with nothing behind it |
| IoEntries.OthersAppend | src/ioqueue_impl_iouring.cpp:164-212 | an issue, a cancel and the destruction of an awaiter that holds an operation add exactly the entry they want, the cancels with the operation they are about, if and only if fewer than `depth` entries wait to be submitted; every other step leaves the queue alone |
| IoEntries.EntriesOfRun | src/ioqueue_impl_iouring.cpp:164-217 | over every run the submission queue is what it was, followed by what was asked for while there was room, up to link flags |
| IoEntries.CancelsWhatWasAsked | src/ioqueue_impl_iouring.cpp:164-175 | over every run the kernel is asked to cancel exactly the operations that were cancelled, or held by destroyed awaiters, while there was room, in that order |
| IoEntries.EntriesWaiting | src/ioqueue_impl_iouring.cpp:177-185 | over every run, entries waiting to be submitted are those at the start plus the added minus the submitted; a failed submit hands over none |
| IoEntries.SubmittedForever | src/ioqueue_impl_iouring.cpp:130-139 | over every run, what the kernel was handed is never written to again, and its completions stay |
| IoEntries.FirstGetEntries | src/ioqueue_impl_iouring.cpp:203-217 | of any number of operations issued in a row, in any state, those get an entry that find fewer than `depth` waiting to be submitted, and no others: all `depth` once everything is submitted |
| IoEntries.NeverOverflows | src/iouring.cpp:80-83 | no run leaves more than `depth` entries waiting to be submitted |
| IoEntries.IssueCanBeLinked | src/ioqueue_impl_iouring.cpp:130-133 | an operation that got an entry can be given a timeout at once |
| IoEntries.NothingToLink | src/ioqueue_impl_iouring.cpp:177-185 | after an attempt to submit, successful or not, no timeout can be linked before something new is prepared |
| IoQueues.IoQueue.constructor | src/ioqueue_impl_iouring.cpp:28-32 | a queue with an empty table and ring satisfies the invariant |
| IoQueues.IoQueue.GetNextOpId | src/ioqueue.cpp:171-180 | returns the next id, or 0 in place of a magic value, and moves on by one |
| IoQueues.IoQueue.FinalizeSqe | src/ioqueue_impl_iouring.cpp:203-212 | the new entry is the newest one and carries the user data; the empty handle, and nothing changed, exactly when `depth` entries wait to be submitted |
| IoQueues.IoQueue.Issue | src/ioqueue_impl_iouring.cpp:55-109 | takes the step of the machine; returns the handle k mod (2^64 - 2) of the k-th operation exactly when fewer than `depth` entries wait to be submitted, and uses the id up also otherwise |
| IoQueues.IoQueue.LinkTimeout | src/ioqueue_impl_iouring.cpp:130-139 | the mutable form of linking takes the step of the machine |
| IoQueues.IoQueue.Cancel | src/ioqueue_impl_iouring.cpp:164-175 | takes the step of the machine: removes and deletes the completer if asked to, then prepares the cancel of this operation (`OthersAppend`), with a handle that carries no id, or none when the ring has no entry |
| IoQueues.IoQueue.SetCompleter | src/ioqueue_impl_iouring.cpp:219-222 | registers the completer in the table; aborts only if the probes of the id wrap |
| IoQueues.EarlyIdsFit | src/completermap.cpp:27-41 | no id of a queue that has issued at most 2^63 operations wraps in its table, so insertion does not abort |
| IoQueues.IoQueue.Suspend | include/aiopp/ioqueue.hpp:123-128 | suspending registers a new completer for the awaiter's operation; it aborts only after more than 2^63 operations |
| IoQueues.IoQueue.DestroyAwaiter | include/aiopp/ioqueue.hpp:114-119 | takes the step of the machine: destroying an awaiter that still holds an operation cancels that operation (`OthersAppend`) with its handler, and destroying any other prepares nothing |
| IoQueues.IoQueue.Complete | include/aiopp/ioqueue.hpp:70-76 | the awaiter gets the result and loses its operation before its coroutine runs |
| IoQueues.IoQueue.Dispatch | src/ioqueue_impl_iouring.cpp:187-198 | takes the step of the machine: passes one completion (`LookAdvances`) and completes the operation it belongs to, if someone waits for it |
| IoQueues.IoQueue.Run | src/ioqueue_impl_iouring.cpp:177-201 | the loop takes the turns of the machine, each with one look unless its submit fails, with arbitrary coroutines and kernel in between, leaves exactly when nobody waits, and aborts only after more than 2^63 operations; `LoopServes` says whom it serves |
| IoProgress.WaitedForChanges | src/ioqueue_impl_iouring.cpp:164-222 | how each step changes the set of ids somebody waits for: suspending adds one, cancelling with the handler, destroying and looking at a completion take one away, nothing else does |
| IoProgress.LookAdvances | src/ioqueue_impl_iouring.cpp:186-199 | looking at a completion passes it, whether it is ignored, late or dispatched |
| IoProgress.LooksOfRun | src/ioqueue_impl_iouring.cpp:186-199 | over every run each look passes one completion if there is one, and none is skipped |
| IoProgress.LooksServe | src/ioqueue_impl_iouring.cpp:177-201 | over every run that looks often enough to get to its completion, an operation awaited in time completes with the posted result, unless a step takes its handler away |
| IoProgress.LoopServes | src/ioqueue_impl_iouring.cpp:177-201 | the same for the loop of the object: rounds enough, with any coroutines and kernel, serve who waits in time, also if the loop is left before they are used up |
| IoProgress.EverybodyIsServed | src/ioqueue_impl_iouring.cpp:177-201 | from every state at its condition the loop can go on by itself, and within as many rounds as there are completions it has not looked at it resumes everybody who waits in time for an operation that is completed, each with its own result |
| PoolProtocol.StepKeepsSound | src/threadpool.cpp:6-44 | every access of workers, pushers and destructor keeps the invariant |
| PoolProtocol.EveryRun | src/threadpool.cpp:6-44 | from a new pool no run calls front on an empty queue, tasks leave in order, each to one worker, and no wakeup is lost |
| PoolProtocol.NoLostWakeup | src/threadpool.cpp:23-44 | while the pool runs and someone sleeps, queued tasks are at most pending notifications plus awake workers that will look |
| PoolProtocol.WorkGetsDone | src/threadpool.cpp:23-44 | a running pool with a queued task can always move without new pushes or spurious wakeups |
| PoolProtocol.QueueEmpties | src/threadpool.cpp:23-44 | every run of a pool that is not stopped, without new pushes and spurious wakeups, is finite, with a bound known from its start, and cannot stop before all tasks are taken |
| PoolProtocol.TasksLeaveInOrder | src/threadpool.cpp:23-44 | removed tasks followed by queued ones are the pushed ones, and no two workers execute the same one |
| PoolProtocol.TasksRunUnlocked | src/threadpool.cpp:37-41 | a worker that executes a task does not hold the mutex, and whoever holds it can go on without waiting for a task to end |
| PoolProtocol.StopReachesAll | src/threadpool.cpp:14-21 | the wakeup of the destructor reaches every worker exactly when none has decided to sleep and not done so |
| PoolProtocol.StopCanMissWorker | src/threadpool.cpp:14-21 | a run from a fresh pool to a destructor that misses a worker |
| PoolProtocol.TestDecides | src/threadpool.cpp:34 | a worker at its loop condition finishes if and only if the flag is stored |
| PoolProtocol.TaskThenDone | src/threadpool.cpp:34-43 | a worker that comes back from a task after the flag is stored finishes with its next access |
| PoolProtocol.AtMostOneMoreTask | src/threadpool.cpp:34-43 | over every run, once the flag is stored at most one more task is begun, by the worker that had seen it unset and holds the mutex |
| PoolProtocol.WorkersFinish | src/threadpool.cpp:14-44 | once the pool is stopped and nobody sleeps, every run without new calls is finite, with a bound known from its start, and where it cannot go on every worker has finished |
| PoolProtocol.JoinReturns | src/threadpool.cpp:14-21 | if nobody is between deciding to sleep and sleeping when the destructor wakes everybody up, every run after that comes to an end with all workers finished |
| ThreadPools.ThreadPool.constructor | src/threadpool.cpp:6-12 | at least one worker, at its loop condition |
| ThreadPools.ThreadPool.Push | src/threadpool.cpp:23-30 | the whole new state, from the four accesses of the call, of which one appends the task, behind everything pushed before, and any steps of others before each of them; it does not get the mutex only if that is held at the end of the schedule |
| ThreadPools.ThreadPool.TakeTask | src/threadpool.cpp:37-40 | the worker takes the oldest task, which is there, and releases the mutex |
| ThreadPools.ThreadPool.WorkerFunc | src/threadpool.cpp:32-44 | with any steps of others before every access, a worker finishes only when the pool has stopped, and at once if it had stopped before; it executes exactly the tasks removed in its name, in order, and comes back unfinished only at the end of the schedule |
| FutureProtocol.StepKeepsSound | include/aiopp/threadpool.hpp:23-57 | every step of pool, promises and waiters keeps the invariant that ties each call to its place in the queue |
| FutureProtocol.EveryRun | include/aiopp/threadpool.hpp:23-57 | from a new pool, in every run no value is set twice, a granted read sees exactly 1, get never blocks after waiting in the event loop, and results are those of the functions |
| FutureProtocol.GrantMeansValue | include/aiopp/ioqueue.hpp:195-209 | a granted read saw exactly 1, after the value was set |
| FutureProtocol.GetReturnsOutcome | include/aiopp/future.hpp:64-69 | get yields exactly what the function returned; after waiting in the event loop it never blocks, and when called right away it blocks exactly if the value is not there yet |
| FutureProtocol.BlockedIsNotified | include/aiopp/future.hpp:118-128 | whoever blocks in get has the notification of the worker still to come, which wakes it with the value set |
| FutureProtocol.ReadyIsFast | include/aiopp/ioqueue.hpp:195-200 | a value that is there is got in two steps, without reading the event |
| FutureProtocol.ReaderIsServed | include/aiopp/ioqueue.hpp:195-209 | once the call is over, a waiter that still reads can be granted |
| FutureProtocol.InvokedOnce | include/aiopp/threadpool.hpp:23-36 | the function of a call runs at most once and its outcome is never replaced |
| FutureProgress.EveryoneIsServed | include/aiopp/threadpool.hpp:23-57 | every run of a pool that is not stopped, without new submissions and spurious wakeups, is finite, with a bound known from its start, and cannot stop before every function has run and everybody who waits, in the event loop or in get, has its outcome |
| Futures.SharedState.Set | include/aiopp/future.hpp:118-128 | value, notification and event, with the waiter in between, end with the value set, the event written and nobody blocked in get |
| Futures.SharedState.Get | include/aiopp/future.hpp:64-69 | returns the outcome, at once if the value is there, and otherwise after a wakeup at which it is; it sleeps on only while the worker has not notified |
| Futures.SharedState.CallAndGet | include/aiopp/future.hpp:64-69 | get called at any time returns exactly the function's outcome, unless the schedule ends before the worker has notified |
| Futures.SharedState.Wait | include/aiopp/ioqueue.hpp:195-209 | both paths return exactly the function's outcome, with any progress of the worker before every access |
| ChannelProtocol.StepKeepsSound | include/aiopp/channel.hpp:20-61 | queue length = count of the event + granted reads + unannounced sends + events read for receivers that are gone, and sent = received + queued, also when reads of destroyed receivers complete late |
| ChannelProtocol.RunKeepsSound | include/aiopp/channel.hpp:53-61 | in no run does pop find the queue empty |
| ChannelProtocol.ReceivedInOrder | include/aiopp/channel.hpp:20-61 | over every run from a new channel, received messages followed by queued ones are the sent ones |
| ChannelProtocol.StuckMessages | include/aiopp/channel.hpp:42-50 | at rest with receivers waiting, as many messages are stuck as events were read for receivers that are gone |
| ChannelProtocol.CanStickIffSpoiled | include/aiopp/channel.hpp:42-61 | without further receivers destroyed, a channel can come to rest with a message queued and a receiver waiting if and only if an event was read, or may yet be, for a receiver that is gone |
| ChannelProtocol.StuckExactlyByAbandoning | include/aiopp/channel.hpp:42-61 | from a state where no receiver was destroyed, a step opens the way to a stuck message if and only if it destroys one, granted or not |
| ChannelProtocol.NeverStuckWithoutAbandon | include/aiopp/channel.hpp:42-61 | from a new channel, a run on which no waiting receiver is destroyed never has a stuck message |
| ChannelProtocol.NewReceiverIsServed | include/aiopp/channel.hpp:42-61 | at any time the read of a new receiver can be granted at once, and gives the oldest message, exactly when more are queued than are promised, about to be announced or lost; only another read, waiting or orphaned, that takes the last event can prevent it |
| ChannelProtocol.GrantIsKept | include/aiopp/channel.hpp:42-61 | a granted receiver can pop at any later time, whatever others have done since |
| ChannelProtocol.AbandonedReadLeavesMessage | include/aiopp/channel.hpp:42-50 | a run from a new channel to a queued message beside a waiting receiver, with another receiver destroyed after its read was granted, and one with it destroyed before |
| Channels.Channel.SendMessage | include/aiopp/channel.hpp:20-27 | the whole new state, from one append and one write of the event with any steps of others before each; the message goes behind everything sent before the call |
| Channels.Channel.PopMessage | include/aiopp/channel.hpp:53-61 | takes the oldest message, which is there |
| Channels.Channel.ReceiveMessage | include/aiopp/channel.hpp:42-50 | the whole new state, from one granted read and one pop with any steps of others in between; the message is the oldest one at the time it pops |
| SlotSpec.RunAgrees | include/aiopp/slotmap.hpp:22-56 | over every run the slot map holds what a finite map holds and never hands out a live index |
| SlotSpec.SpaceIsBoundedByPeak | include/aiopp/vectormap.hpp:46-56 | without explicit resizes the next index is the peak of live entries, all live or free, and storage is below twice that |
| SlotSpec.ResizeLeaks | include/aiopp/slotmap.hpp:22-27 | after an explicit resize an index is lost if and only if it was before or lies between the next one and the old size |
| SlotSpec.TwoResizesLeak | include/aiopp/slotmap.hpp:22-27 | a run from a new slot map that loses an index |
| SlotSpec.LeakedNeverReturn | include/aiopp/slotmap.hpp:22-27 | a lost index is never handed out again |
| SlotSpec.FreedComeBackInOrder | include/aiopp/slotmap.hpp:51-79 | first in, first out: after live indices are removed, any number of insertions get the indices that were free before, then the removed ones in the order of removal, then new ones in order |
| SlotSpec.MovesArePaidFor | include/aiopp/vectormap.hpp:46-56 | over every run, insertions move no more places to new storage than the storage has grown by: it at least doubles when it grows |
| SlotSpec.MovesAreLinear | include/aiopp/vectormap.hpp:46-56 | from a new slot map, without explicit resizes, all insertions together move at most twice as many places as entries were ever live at once |
| SlotMaps.VectorMap.constructor | include/aiopp/vectormap.hpp:15-19 | nothing held, and a size of 0 whatever was asked for |
| SlotMaps.VectorMap.Resize | include/aiopp/vectormap.hpp:27-39 | everything held is moved to a new buffer of the new size |
| SlotMaps.VectorMap.Emplace | include/aiopp/vectormap.hpp:46-56 | adds the entry, growing to the larger of twice the size and the index plus one |
| SlotMaps.VectorMap.Remove | include/aiopp/vectormap.hpp:60-66 | removes exactly that entry |
| SlotMaps.SlotMap.Insert | include/aiopp/slotmap.hpp:29-41 | takes the step of the specification and returns an index that was not live |
| SlotMaps.SlotMap.GetNewIndex | include/aiopp/slotmap.hpp:71-79 | the front of the list of freed indices, or the next new one |
| SlotMaps.SlotMap.Remove | include/aiopp/slotmap.hpp:51-56 | takes the step of the specification, which `FreedComeBackInOrder` is about |
| SlotMaps.SlotMap.Resize | include/aiopp/slotmap.hpp:22-27 | takes the step of the specification |

## Left out

- MpscQueue: its destructor, with values still queued, is not modelled.
- MpscQueues.MpscQueue: a call to produce is three methods, one for each access, as other threads run in between; `consume` is one method.
- CompleterMaps.CompleterMap.Insert: the precondition that a key is not inserted twice and the table is not full is that of the source.
- IoQueues.IoQueue.Suspend: that fewer operations are suspended than the table has slots is a precondition; the ring does not bound operations in flight.
- IoProtocol: that no id comes round again while its operation is in use, and that a handle is awaited at most once, are assumptions on clients; `WindowKeepsIdsFree` says when the first holds.
- IoProtocol: awaiting the handle that `cancel` returns is excluded; its id is that of ignored completions, so it would never be resumed.
- IoProtocol: a handle is used only while its id still means its operation.
- IoProtocol: a call of `run` from inside a resumed coroutine is excluded.
- IoQueues.IoQueue.Run: the kernel's completions come before the loop looks at the queue or while a coroutine runs; nothing else in the loop depends on when they come.
- IoProtocol: the operations of the ring are one kind of request; buffers, addresses and what the kernel does with them are left out, and a completion may have any result at any time. The kernel's cancellation and timing are part of that.
- IoProtocol: the entry in the completion queue counts as consumed when the loop looks at it; nothing looks at the queue until the source consumes it.
- IoQueues.IoQueue: awaiters and completers are entries of maps from addresses, not objects of their own.
- `setTimespec`: the arithmetic of deadlines, and its assertion, which excludes deadlines in the future.
- PoolProtocol: that the destructor always finishes joining is false; `StopReachesAll` has the exact condition for its wakeup, and `JoinReturns` that the workers then finish.
- FutureProtocol: void results, where `submit` sets the promise without calling the function and no event is written.
- FutureProtocol: an error from reading the eventfd, which aborts the program.
- FutureProtocol: a second call of `get` on the same future, which would find a value that was moved from.
- FutureProtocol: a coroutine that is destroyed while it waits for a future.
- ChannelProtocol: an error from reading the eventfd, which aborts the program.
- ChannelProtocol: the callback form of `receive`, which calls an overload that does not exist.
- ThreadPools.ThreadPool, Channels.Channel and Futures.SharedState: the mutex is a field or a single step, and other threads appear as schedules.
- SlotMaps.VectorMap: lifetimes of values in raw storage; a place that was never written holds None.
- Counter saturation of the eventfd.
- Sockets, name resolution, file descriptors, logging, `Task` and `Function`, `WaitAny` and `WaitAll`.
