# DefaultStreamPoller, modelled in Dafny

This project models the sequential logic of OpenSearch's pull-based ingestion
poller, `DefaultStreamPoller`. The poller reads ordered records from one shard
of a stream source. It skips the records whose pointers were already applied
before this poller instance started, and hands the rest to the processing
stage through a queue. It keeps goal flags (`started`, `closed`, `paused`)
apart from the observed state that the poll loop reports (NONE, POLLING,
PROCESSING, PAUSED, CLOSED).

The two executor threads are gone. The poll thread's `while (true)` becomes
repeated calls to `Step`, one iteration of the loop body per call. The shard
consumer's answers and the error strategy's "should ignore" verdict are
inputs to each call.

Files:

- `ingestion.dfy` (module `Ingestion`) holds the shared values. Shard pointers are `int`s, since only their total order matters. It also defines records (`ReadResult`), observed state, the reset instruction, `Answer` (a consumer call returned or threw) and `Result` (a lifecycle call succeeded or threw with a message).
- `persisted_filter.dfy` (module `PersistedFilter`) holds the already-processed filter:
  - the constructor's maximum computation;
  - `isProcessed`;
  - `Enqueued`, the records of a batch that the dispatch loop puts on the queue;
  - `NotPersisted`, a reference filter that does not use the cache.
- `poll_loop.dfy` (module `PollLoop`) is the state machine written as functions:
  - `PollIteration` is one loop iteration;
  - the lifecycle operations `Start`, `Pause`, `Resume` and `Close`;
  - `Run`, which interleaves lifecycle calls with iterations.
- `poll_loop_properties.dfy` (module `PollLoopProperties`) holds the lemmas about those functions, covering single iterations, single calls and whole runs.
- `stream_poller.dfy` (module `StreamPoller`) holds the class `DefaultStreamPoller`. Its fields are the source's loop and goal-state fields, plus `processorErrorStrategy`, the strategy held by the processing stage; the consumer, the executors and the processing runnable have no field. Its methods update the fields in place. Each method is proved to leave exactly the state that the matching `PollLoop` function gives, so every lemma about the functions also holds for the class. `PersistedScenario` is a client of the class that runs one end-to-end scenario.

Two details of the code that a reader might expect to be otherwise:

- The reset step never sets `includeBatchStartPointer` (DefaultStreamPoller.java:169-193). It does not need to: `PendingResetInvariant` shows that a started poller with a pending reset still has the flag set, and `ResetIsReadInclusively` shows that the reads after a reset, up to and including the one that dispatches a batch, are inclusive reads from the resolved position.
- `start()` does not write `state`; only the poll loop does. `start()` sets `started` and `includeBatchStartPointer` and nothing else (DefaultStreamPoller.java:142-144).

## Model

| member | source | states |
|---|---|---|
| PersistedFilter.ComputeMax | server/src/main/java/org/opensearch/indices/pollingingest/DefaultStreamPoller.java:110-112 | the cached maximum is absent exactly when the persisted set is empty; otherwise it is an element of the set that no element exceeds |
| PersistedFilter.IsProcessed | server/src/main/java/org/opensearch/indices/pollingingest/DefaultStreamPoller.java:259-267 | whatever the cache holds, a pointer is reported processed only if it is in the persisted set |
| PersistedFilter.IsProcessedIsMembership | server/src/main/java/org/opensearch/indices/pollingingest/DefaultStreamPoller.java:259-267 | with a faithful max cache, the check is exactly membership in the persisted set (both directions) |
| PersistedFilter.NotProcessedFastPaths | server/src/main/java/org/opensearch/indices/pollingingest/DefaultStreamPoller.java:260-265 | a record is never skipped when the persisted set is empty, or when its pointer exceeds every persisted pointer |
| PersistedFilter.Enqueued | server/src/main/java/org/opensearch/indices/pollingingest/DefaultStreamPoller.java:224-244 | the records put on the queue from a batch are never more than the batch |
| PersistedFilter.EnqueuedAppend | server/src/main/java/org/opensearch/indices/pollingingest/DefaultStreamPoller.java:224-244 | filtering a concatenation filters each part and keeps their order |
| PersistedFilter.EnqueuedIsNotPersisted | server/src/main/java/org/opensearch/indices/pollingingest/DefaultStreamPoller.java:224-244 | with a faithful cache, the enqueued records equal the reference filter: the batch's records whose pointer is not persisted, in batch order |
| PersistedFilter.EnqueuedMembership | server/src/main/java/org/opensearch/indices/pollingingest/DefaultStreamPoller.java:231-237 | a record is enqueued if and only if it is in the batch and its pointer is not persisted |
| PollLoop.Initial | server/src/main/java/org/opensearch/indices/pollingingest/DefaultStreamPoller.java:104-109 | no contract of its own; the goal flags false, the given start pointer, reset instruction and observed state, nothing polled (the constructor's row states the class's promise) |
| PollLoop.Start | server/src/main/java/org/opensearch/indices/pollingingest/DefaultStreamPoller.java:133-144 | no contract of its own; its meaning is stated by `StartContract` and `StartOnlyOnce` |
| PollLoop.Pause | server/src/main/java/org/opensearch/indices/pollingingest/DefaultStreamPoller.java:278-283 | no contract of its own; its meaning is stated by `PauseResumeContract` |
| PollLoop.Resume | server/src/main/java/org/opensearch/indices/pollingingest/DefaultStreamPoller.java:286-291 | no contract of its own; its meaning is stated by `PauseResumeContract` |
| PollLoop.Close | server/src/main/java/org/opensearch/indices/pollingingest/DefaultStreamPoller.java:294-314 | no contract of its own; its meaning is stated by `CloseContract` |
| PollLoop.ResolveReset | server/src/main/java/org/opensearch/indices/pollingingest/DefaultStreamPoller.java:170-191 | no contract of its own; the consumer query each reset instruction resolves with (earliest, latest, by offset, by timestamp) |
| PollLoop.Fault | server/src/main/java/org/opensearch/indices/pollingingest/DefaultStreamPoller.java:247-254 | no contract of its own; the catch branch, pausing on a non-ignorable verdict, as `IterationReadFault` and `ResetFaultKeepsReset` state |
| PollLoop.PollIteration | server/src/main/java/org/opensearch/indices/pollingingest/DefaultStreamPoller.java:162-255 | an iteration never changes `started` or `closed`, only appends to the queue, raises the polled counter by exactly the number of records appended, and leaves the reset instruction either as it was or NONE |
| PollLoop.PollAfterReset | server/src/main/java/org/opensearch/indices/pollingingest/DefaultStreamPoller.java:195-254 | the part after the reset step keeps `started`, `closed` and the reset instruction, only appends to the queue, and the counter tracks what it appends |
| PollLoopProperties.IterationWhenClosed | server/src/main/java/org/opensearch/indices/pollingingest/DefaultStreamPoller.java:163-166 | when closed, the iteration sets CLOSED, issues no read, exits, and leaves every other field unchanged |
| PollLoopProperties.ResetIsConsumed | server/src/main/java/org/opensearch/indices/pollingingest/DefaultStreamPoller.java:169-193 | a pending reset whose query answers becomes NONE. The batch start pointer is the resolved position unless a batch is then dispatched. A paused iteration still consumes it. An unpaused iteration then issues the inclusive read from the resolved position when the flag is set, and otherwise the continuation read, which takes no position. On a started poller the flag is always set while a reset is pending (`PendingResetInvariant`) |
| PollLoopProperties.ResetFaultKeepsReset | server/src/main/java/org/opensearch/indices/pollingingest/DefaultStreamPoller.java:169-193 | when the positional query throws, the reset stays pending and nothing changes except `paused`, which becomes true on a non-ignorable verdict |
| PollLoopProperties.IterationWhenPaused | server/src/main/java/org/opensearch/indices/pollingingest/DefaultStreamPoller.java:195-204 | a paused iteration sets PAUSED and issues no read. The queue, the counter and `includeBatchStartPointer` are unchanged, and so is the batch start pointer apart from the reset step |
| PollLoopProperties.ReadRequestFollowsFlag | server/src/main/java/org/opensearch/indices/pollingingest/DefaultStreamPoller.java:206-214 | a running iteration issues the inclusive read from the batch start pointer exactly when `includeBatchStartPointer` is set; otherwise it issues the continuation read |
| PollLoopProperties.IterationDispatches | server/src/main/java/org/opensearch/indices/pollingingest/DefaultStreamPoller.java:221-246 | for a non-empty batch, the batch start pointer becomes the first record's pointer, skipped or not, and the state becomes PROCESSING. The flag is cleared. The queue grows by exactly the non-persisted records in batch order, and the counter by their number |
| PollLoopProperties.IterationEmptyBatch | server/src/main/java/org/opensearch/indices/pollingingest/DefaultStreamPoller.java:206-219 | an empty batch leaves the state POLLING, keeps `includeBatchStartPointer`, and enqueues nothing |
| PollLoopProperties.IterationReadFault | server/src/main/java/org/opensearch/indices/pollingingest/DefaultStreamPoller.java:247-254 | a throwing read is caught. A non-ignorable verdict sets `paused`, an ignorable one leaves it false, and nothing is enqueued |
| PollLoopProperties.StartContract | server/src/main/java/org/opensearch/indices/pollingingest/DefaultStreamPoller.java:133-144 | `start()` throws exactly when the poller is closed or started. Otherwise it sets `started` and `includeBatchStartPointer` and nothing else |
| PollLoopProperties.StartOnlyOnce | server/src/main/java/org/opensearch/indices/pollingingest/DefaultStreamPoller.java:138-140 | a second `start()` always throws |
| PollLoopProperties.FirstReadAfterStartIsInclusive | server/src/main/java/org/opensearch/indices/pollingingest/DefaultStreamPoller.java:142-144 | after a successful `start()` with no reset pending, every iteration up to and including the one that dispatches the first batch reads inclusively from the configured start pointer unless closed or paused, whatever pause/resume cycles, empty batches and faults come first |
| PollLoopProperties.PauseResumeContract | server/src/main/java/org/opensearch/indices/pollingingest/DefaultStreamPoller.java:278-291 | `pause()` and `resume()` throw exactly when closed. Otherwise they set or clear `paused` and nothing else, and calling either twice equals calling it once |
| PollLoopProperties.CloseContract | server/src/main/java/org/opensearch/indices/pollingingest/DefaultStreamPoller.java:294-314 | `close()` always sets `closed`. A poller never started is otherwise unchanged. A started one ends with an empty queue. Closing twice equals closing once |
| PollLoopProperties.ResetStaysConsumed | server/src/main/java/org/opensearch/indices/pollingingest/DefaultStreamPoller.java:169-193 | once NONE, the reset instruction stays NONE through any run of calls and iterations, pause/resume cycles included |
| PollLoopProperties.PolledCountNeverDecreases | server/src/main/java/org/opensearch/indices/pollingingest/DefaultStreamPoller.java:236 | the polled counter never decreases over any run |
| PollLoopProperties.ApplyWhenClosed | server/src/main/java/org/opensearch/indices/pollingingest/DefaultStreamPoller.java:163-166 | on a closed poller, any one call or iteration changes at most the observed state (to CLOSED) and the queue (which may only be emptied) |
| PollLoopProperties.ClosedIsFinal | server/src/main/java/org/opensearch/indices/pollingingest/DefaultStreamPoller.java:163-166 | once closed, no run changes anything except the observed state (which may become CLOSED) and the queue (which may only be emptied) |
| PollLoopProperties.NothingEnqueuedAfterClose | server/src/main/java/org/opensearch/indices/pollingingest/DefaultStreamPoller.java:294-314 | after `close()` of a started poller, the queue is empty and stays empty through any later run |
| PollLoopProperties.ApplyWhilePaused | server/src/main/java/org/opensearch/indices/pollingingest/DefaultStreamPoller.java:195-204 | on a paused poller, any call except `resume()`, and any iteration, keeps it paused, keeps the counter, and adds nothing to the queue |
| PollLoopProperties.NothingEnqueuedWhilePaused | server/src/main/java/org/opensearch/indices/pollingingest/DefaultStreamPoller.java:195-204 | over a run without `resume()`, a paused poller stays paused, its counter does not move, and no new record is queued |
| PollLoopProperties.ApplyKeepsNextReadInclusive | server/src/main/java/org/opensearch/indices/pollingingest/DefaultStreamPoller.java:195-254 | a call, or an iteration that dispatches nothing, keeps the inclusive-read flag, the batch start pointer and the absence of a reset |
| PollLoopProperties.InclusiveUntilDispatch | server/src/main/java/org/opensearch/indices/pollingingest/DefaultStreamPoller.java:142-144 | over any run without a dispatched batch, the next read stays the inclusive read from the same pointer |
| PollLoopProperties.IterationReadsInclusively | server/src/main/java/org/opensearch/indices/pollingingest/DefaultStreamPoller.java:195-214 | with the flag set and no reset pending, an iteration issues no read exactly when closed or paused, and otherwise the inclusive read from the batch start pointer |
| PollLoopProperties.PendingResetInvariant | server/src/main/java/org/opensearch/indices/pollingingest/DefaultStreamPoller.java:142-144 | over any run, a started poller with a pending reset keeps `includeBatchStartPointer` set |
| PollLoopProperties.ResetIsReadInclusively | server/src/main/java/org/opensearch/indices/pollingingest/DefaultStreamPoller.java:169-214 | from construction on, the iteration that resolves a reset reads inclusively from the resolved position unless paused; if it dispatches nothing, every later iteration up to and including the one that dispatches a batch does the same unless closed or paused |
| PollLoopProperties.PersistedPointersAreSkipped | server/src/main/java/org/opensearch/indices/pollingingest/DefaultStreamPoller.java:224-244 | persisted {1, 2} and batch [1, 2, 3]: only 3 is enqueued, the counter grows by one, and the batch start pointer is 1 |
| PollLoopProperties.EarliestResetScenario | server/src/main/java/org/opensearch/indices/pollingingest/DefaultStreamPoller.java:169-214 | with reset EARLIEST, the first iteration after start reads inclusively from the earliest pointer, and no later run seeks again |
| PollLoopProperties.BlockingFaultScenario | server/src/main/java/org/opensearch/indices/pollingingest/DefaultStreamPoller.java:247-254 | a non-ignorable read fault sets `paused`. The next iteration reports PAUSED, and the counter stays put until `resume()` |
| StreamPoller.DefaultStreamPoller.constructor | server/src/main/java/org/opensearch/indices/pollingingest/DefaultStreamPoller.java:72-130 | the goal flags are false, the start pointer, reset instruction and initial state are as given, and the queue and counter are empty. The max cache is faithful, and one error strategy serves both stages |
| StreamPoller.DefaultStreamPoller.Start | server/src/main/java/org/opensearch/indices/pollingingest/DefaultStreamPoller.java:133-147 | the new fields are those `PollLoop.Start` gives. On a throw, including its message, nothing changes |
| StreamPoller.DefaultStreamPoller.Pause | server/src/main/java/org/opensearch/indices/pollingingest/DefaultStreamPoller.java:278-283 | the new fields are those `PollLoop.Pause` gives. On a throw nothing changes |
| StreamPoller.DefaultStreamPoller.Resume | server/src/main/java/org/opensearch/indices/pollingingest/DefaultStreamPoller.java:286-291 | the new fields are those `PollLoop.Resume` gives. On a throw nothing changes |
| StreamPoller.DefaultStreamPoller.Close | server/src/main/java/org/opensearch/indices/pollingingest/DefaultStreamPoller.java:294-319 | the new fields are those `PollLoop.Close` gives |
| StreamPoller.DefaultStreamPoller.Step | server/src/main/java/org/opensearch/indices/pollingingest/DefaultStreamPoller.java:162-255 | the new fields, the read issued and the outcome are those `PollLoop.PollIteration` gives |
| StreamPoller.DefaultStreamPoller.PollAfterReset | server/src/main/java/org/opensearch/indices/pollingingest/DefaultStreamPoller.java:195-246 | the new fields, the read and the outcome are those `PollLoop.PollAfterReset` gives |
| StreamPoller.DefaultStreamPoller.HandleError | server/src/main/java/org/opensearch/indices/pollingingest/DefaultStreamPoller.java:247-254 | a non-ignorable verdict sets `paused` through `Pause`, and an ignorable one changes nothing |
| StreamPoller.DefaultStreamPoller.Dispatch | server/src/main/java/org/opensearch/indices/pollingingest/DefaultStreamPoller.java:223-244 | for a non-empty batch, the batch start pointer becomes the first record's pointer, the queue gains exactly `Enqueued` of the batch, and the counter gains its length. Nothing else changes |
| StreamPoller.DefaultStreamPoller.UpdateErrorStrategy | server/src/main/java/org/opensearch/indices/pollingingest/DefaultStreamPoller.java:353-357 | the poller and its processing stage both hold the new strategy, and nothing else changes |
| StreamPoller.DefaultStreamPoller.GetMaxPersistedPointer | server/src/main/java/org/opensearch/indices/pollingingest/DefaultStreamPoller.java:273-275 | the result is absent exactly when nothing was persisted; otherwise it is the greatest persisted pointer |

The getters `isPaused`, `isClosed`, `getBatchStartPointer`, `getState` and
`getErrorStrategy` (DefaultStreamPoller.java:321-351) are the functions
`IsPaused`, `IsClosed`, `GetBatchStartPointer`, `GetState` and
`GetErrorStrategy` of the class. The polled half of `getStats`
(`totalPolledCount.count()`, DefaultStreamPoller.java:337-342) is the
function `GetTotalPolledCount`; the processed count comes from the
processing stage, which is not part of this model. Each returns its field,
so they carry no contract of their own.

## Left out

- Threads and executors are not modelled: `submit`, `shutdown`, `shutdownNow`, thread naming and `volatile` visibility. Lifecycle calls interleave with iterations only at iteration boundaries (`PollLoop.Run`), never in the middle of one.
- The entry checks of `startPoll` (lines 152-158) are not modelled. In the code the loop is launched only by a successful `start()`; the model's runs over-approximate this, since `PollLoop.Run` also accepts iterations on a poller never started. Every lemma about runs holds for those extra runs too.
- Wall-clock timing is not modelled: the 100 ms sleep in the pause branch and its catch, and `close()`'s 5000 ms wait for CLOSED. Only the effect of `close()` on the flags and the queue is kept.
- The shard consumer is replaced by its answers, given as inputs. The read's arguments `MAX_POLL_SIZE` and `POLL_TIMEOUT` are not modelled, so a batch may be any length. `Long.parseLong(resetValue)` is folded into the timestamp query's answer: a parse failure is that answer throwing.
- The capacity (100) and blocking `put` of the `ArrayBlockingQueue` are not modelled; the queue is an unbounded sequence. Draining by the processing stage is not modelled either, so the queue holds every record handed off and not discarded by `close()`.
- A fault inside the dispatch loop is not modelled: the model assumes that `isProcessed` (`compareTo`, `contains`), the log arguments (`asString`, `getPayload`, lines 233 and 241-242) and `put` never throw, although `put` throws on a null record or an interrupted thread. The faults modelled are throws from the positional queries and from the read.
- The side effects and logging of `handleError` are not modelled; the strategy's `shouldIgnoreError` verdict is a boolean input. The model assumes `handleError` and `shouldIgnoreError` never throw; a throw there would escape the catch (lines 249-251) and end the poll thread.
- HandleError: it does not model `pause()` throwing inside the catch branch. That needs `close()` to run on another thread in the middle of an iteration, and in the sequential model `closed` is still false there.
- `MessageProcessorRunnable`, the processed count of `getStats`, and the package-private constructor that receives an existing runnable are not modelled. The constructor modelled is the public one, with a fresh queue and one error strategy for both stages.
- `totalPolledCount` is an unbounded `nat`; the 64-bit `CounterMetric` cannot overflow in practice. Pointer string rendering (`asString`) and logging are not modelled.
