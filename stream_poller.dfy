/** `DefaultStreamPoller` as a class: the goal flags, the observed state, the
    loop's own state and the hand-off queue are fields that its methods update
    in place. Each method is proved to leave exactly the state the matching
    function of module PollLoop describes, so every property proved there
    about those functions holds of the class. */
module StreamPoller {
  import opened Ingestion
  import PersistedFilter
  import PollLoop
  import PollLoopProperties

  class DefaultStreamPoller {
    // observed state, written by the poll loop
    var state: State

    // goal state, written by the lifecycle operations
    var started: bool
    var closed: bool
    var paused: bool

    // the error strategy of the poller and the one held by its processing stage
    var errorStrategy: ErrorStrategy
    var processorErrorStrategy: ErrorStrategy

    // the loop's own state: the start of the batch and whether the next read includes it
    var batchStartPointer: Pointer
    var includeBatchStartPointer: bool
    var resetState: ResetState
    const resetValue: string

    // pointers applied before this poller began, and their cached maximum
    const persistedPointers: set<Pointer>
    const maxPersistedPointer: Option<Pointer>

    // the hand-off queue to the processing stage, and the polled counter
    var blockingQueue: seq<ReadResult>
    var totalPolledCount: nat

    /** The maximum cache is faithful and both stages use one error strategy. */
    ghost predicate Valid()
      reads this
    {
      PersistedFilter.IsMaxCache(maxPersistedPointer, persistedPointers)
      && processorErrorStrategy == errorStrategy
    }

    /** The fields the poll loop and the lifecycle operations change, as a value. */
    function Snapshot(): PollLoop.PollerState
      reads this
    {
      PollLoop.PollerState(state, started, closed, paused, batchStartPointer,
                           includeBatchStartPointer, resetState, totalPolledCount, blockingQueue)
    }

    /** The public constructor: a fresh, empty hand-off queue whose processing
        stage shares the poller's error strategy, and the maximum of the
        persisted pointers computed once. */
    constructor (startPointer: Pointer, persisted: set<Pointer>, reset: ResetState, resetLiteral: string,
                 strategy: ErrorStrategy, initialState: State)
      ensures Valid()
      ensures Snapshot() == PollLoop.Initial(startPointer, reset, initialState)
      ensures persistedPointers == persisted && resetValue == resetLiteral && errorStrategy == strategy
    {
      var max := PersistedFilter.ComputeMax(persisted);
      resetState := reset;
      resetValue := resetLiteral;
      batchStartPointer := startPointer;
      state := initialState;
      persistedPointers := persisted;
      maxPersistedPointer := max;
      blockingQueue := [];
      errorStrategy := strategy;
      processorErrorStrategy := strategy;
      started, closed, paused := false, false, false;
      includeBatchStartPointer := false;
      totalPolledCount := 0;
    }

    /** `start()`: throws on a closed or an already started poller, otherwise
        marks it started so that its first read includes the batch start
        pointer. */
    method Start() returns (r: Result<()>)
      requires Valid()
      modifies this
      ensures Valid() && errorStrategy == old(errorStrategy)
      ensures match PollLoop.Start(old(Snapshot()))
        case Ok(t) => r == Ok(()) && Snapshot() == t
        case Err(m) => r == Err(m) && Snapshot() == old(Snapshot())
    {
      if closed {
        return Err("poller is closed!");
      }
      if started {
        return Err("poller is already running");
      }
      started := true;
      includeBatchStartPointer := true;
      r := Ok(());
    }

    /** `pause()`: throws once closed, otherwise sets the paused goal flag. */
    method Pause() returns (r: Result<()>)
      requires Valid()
      modifies this
      ensures Valid() && errorStrategy == old(errorStrategy)
      ensures match PollLoop.Pause(old(Snapshot()))
        case Ok(t) => r == Ok(()) && Snapshot() == t
        case Err(m) => r == Err(m) && Snapshot() == old(Snapshot())
    {
      if closed {
        return Err("consumer is closed!");
      }
      paused := true;
      r := Ok(());
    }

    /** `resume()`: throws once closed, otherwise clears the paused goal flag. */
    method Resume() returns (r: Result<()>)
      requires Valid()
      modifies this
      ensures Valid() && errorStrategy == old(errorStrategy)
      ensures match PollLoop.Resume(old(Snapshot()))
        case Ok(t) => r == Ok(()) && Snapshot() == t
        case Err(m) => r == Err(m) && Snapshot() == old(Snapshot())
    {
      if closed {
        return Err("consumer is closed!");
      }
      paused := false;
      r := Ok(());
    }

    /** The effect of `close()`: set the closed goal flag first; a poller that
        was started then discards its hand-off queue. */
    method Close()
      requires Valid()
      modifies this
      ensures Valid() && errorStrategy == old(errorStrategy)
      ensures Snapshot() == PollLoop.Close(old(Snapshot()))
    {
      closed := true;
      if !started {
        return;
      }
      blockingQueue := [];
    }

    /** One pass of the body of the poll loop, with the consumer's answers
        and the error strategy's verdict as inputs. Returns the read it
        issued and how it ended. */
    method Step(consumer: PollLoop.Consumer, ignore: bool) returns (request: PollLoop.ReadRequest, outcome: PollLoop.Outcome)
      requires Valid()
      modifies this
      ensures Valid() && errorStrategy == old(errorStrategy)
      ensures var r := PollLoop.PollIteration(old(Snapshot()), maxPersistedPointer, persistedPointers, consumer, ignore);
        Snapshot() == r.next && request == r.request && outcome == r.outcome
    {
      if closed {
        state := Closed;
        return PollLoop.NoRead, PollLoop.Exited;
      }
      if resetState != NoReset {
        var answer := PollLoop.ResolveReset(resetState, consumer);
        if answer.Threw? {
          outcome := HandleError(ignore);
          return PollLoop.NoRead, outcome;
        }
        batchStartPointer := answer.value;
        resetState := NoReset;
      }
      request, outcome := PollAfterReset(consumer, ignore);
    }

    /** The rest of a pass once the reset step is behind: pause check, the
        read, and the dispatch of a non-empty batch. */
    method PollAfterReset(consumer: PollLoop.Consumer, ignore: bool) returns (request: PollLoop.ReadRequest, outcome: PollLoop.Outcome)
      requires Valid() && !closed
      modifies this
      ensures Valid() && errorStrategy == old(errorStrategy)
      ensures var r := PollLoop.PollAfterReset(old(Snapshot()), maxPersistedPointer, persistedPointers, consumer, ignore);
        Snapshot() == r.next && request == r.request && outcome == r.outcome
    {
      if paused {
        state := Paused;
        return PollLoop.NoRead, PollLoop.PausedWait;
      }
      state := Polling;
      request := if includeBatchStartPointer then PollLoop.ReadInclusive(batchStartPointer) else PollLoop.ReadContinue;
      match consumer.batch
      case Threw =>
        outcome := HandleError(ignore);
      case Returned(results) =>
        if results == [] {
          return request, PollLoop.NoRecords;
        }
        state := Processing;
        Dispatch(results);
        includeBatchStartPointer := false;
        outcome := PollLoop.Dispatched;
    }

    /** The catch branch of the poll loop: unless the error strategy says the
        fault may be ignored, the poller pauses itself. */
    method HandleError(ignore: bool) returns (outcome: PollLoop.Outcome)
      requires Valid() && !closed
      modifies this
      ensures Valid() && errorStrategy == old(errorStrategy)
      ensures var r := PollLoop.Fault(old(Snapshot()), PollLoop.NoRead, ignore);
        Snapshot() == r.next && outcome == r.outcome
    {
      if !ignore {
        var _ := Pause();
      }
      outcome := PollLoop.Faulted(ignore);
    }

    /** The dispatch loop of one iteration over a non-empty batch: the batch
        start pointer moves to the first record, and every record whose
        pointer is not already processed is counted and put on the queue, in
        batch order. */
    method Dispatch(results: seq<ReadResult>)
      requires Valid() && results != []
      modifies this
      ensures Valid() && errorStrategy == old(errorStrategy)
      ensures var put := PersistedFilter.Enqueued(results, maxPersistedPointer, persistedPointers);
        Snapshot() == old(Snapshot()).(batchStartPointer := results[0].pointer,
                                       queue := old(blockingQueue) + put,
                                       totalPolledCount := old(totalPolledCount) + |put|)
    {
      var firstInBatch := true;
      for i := 0 to |results|
        invariant firstInBatch <==> i == 0
        invariant Valid() && errorStrategy == old(errorStrategy)
        invariant state == old(state) && started == old(started) && closed == old(closed) && paused == old(paused)
        invariant includeBatchStartPointer == old(includeBatchStartPointer) && resetState == old(resetState)
        invariant batchStartPointer == if i == 0 then old(batchStartPointer) else results[0].pointer
        invariant blockingQueue == old(blockingQueue) + PersistedFilter.Enqueued(results[..i], maxPersistedPointer, persistedPointers)
        invariant totalPolledCount == old(totalPolledCount) + |PersistedFilter.Enqueued(results[..i], maxPersistedPointer, persistedPointers)|
      {
        var result := results[i];
        if firstInBatch {
          batchStartPointer := result.pointer;
          firstInBatch := false;
        }
        PersistedFilter.EnqueuedExtend(results, i, maxPersistedPointer, persistedPointers);
        if !PersistedFilter.IsProcessed(maxPersistedPointer, persistedPointers, result.pointer) {
          totalPolledCount := totalPolledCount + 1;
          blockingQueue := blockingQueue + [result];
        }
      }
      assert results[..|results|] == results;
    }

    /** `updateErrorStrategy`: both the poller and its processing stage take
        the new strategy; nothing else changes. */
    method UpdateErrorStrategy(strategy: ErrorStrategy)
      requires Valid()
      modifies this
      ensures Valid()
      ensures errorStrategy == strategy && processorErrorStrategy == strategy
      ensures Snapshot() == old(Snapshot())
    {
      errorStrategy := strategy;
      processorErrorStrategy := strategy;
    }

    /** `getMaxPersistedPointer`: absent exactly when nothing was persisted,
        otherwise the greatest persisted pointer. */
    function GetMaxPersistedPointer(): (m: Option<Pointer>)
      requires Valid()
      reads this
      ensures m.None? <==> persistedPointers == {}
      ensures m.Some? ==> m.value in persistedPointers && PersistedFilter.IsUpperBound(m.value, persistedPointers)
    {
      maxPersistedPointer
    }

    // The plain getters of the source.

    function IsPaused(): bool
      reads this
    {
      paused
    }

    function IsClosed(): bool
      reads this
    {
      closed
    }

    function GetBatchStartPointer(): Pointer
      reads this
    {
      batchStartPointer
    }

    function GetState(): State
      reads this
    {
      state
    }

    function GetErrorStrategy(): ErrorStrategy
      reads this
    {
      errorStrategy
    }

    /** The polled half of `getStats`; the processed count belongs to the
        processing stage. */
    function GetTotalPolledCount(): nat
      reads this
    {
      totalPolledCount
    }
  }

  /** A client of the class: persisted pointers {1, 2}, and a first batch at
      pointers 1, 2, 3 read inclusively from the start pointer. Only the
      record at 3 reaches the queue, the counter is one, the batch start
      pointer is 1; after close the queue is empty and stays so. */
  method PersistedScenario(m1: Message, m2: Message, m3: Message, strategy: ErrorStrategy)
  {
    var poller := new DefaultStreamPoller(0, {1, 2}, NoReset, "", strategy, NoState);
    var started := poller.Start();
    assert started == Ok(());
    assert poller.maxPersistedPointer == Some(2);
    var batch := [ReadResult(1, m1), ReadResult(2, m2), ReadResult(3, m3)];
    var consumer := PollLoop.Consumer(Threw, Threw, Threw, Threw, Returned(batch));
    ghost var before := poller.Snapshot();
    PollLoopProperties.PersistedPointersAreSkipped(before, m1, m2, m3, true);
    var request, outcome := poller.Step(consumer, true);
    assert request == PollLoop.ReadInclusive(0);
    assert poller.blockingQueue == [ReadResult(3, m3)];
    assert poller.totalPolledCount == 1 && poller.batchStartPointer == 1;
    assert poller.state == Processing;
    poller.Close();
    request, outcome := poller.Step(consumer, true);
    assert outcome == PollLoop.Exited && poller.state == Closed;
    assert poller.blockingQueue == [] && poller.totalPolledCount == 1;
    var paused := poller.Pause();
    assert paused.Err?;
  }
}
