/** What the poll loop and the lifecycle operations promise, stated about the
    functions of module PollLoop: one lemma per behaviour of a single
    iteration or call, and lemmas by induction over runs for the behaviours
    that span many iterations. */
module PollLoopProperties {
  import opened Ingestion
  import opened PersistedFilter
  import opened PollLoop

  /** The pointer a pending reset resolves to, when the consumer answers. */
  predicate ResetResolves(s: PollerState, c: Consumer)
  {
    s.resetState == NoReset || ResolveReset(s.resetState, c).Returned?
  }

  /** `batchStartPointer` after the reset step of an iteration. */
  function AfterReset(s: PollerState, c: Consumer): Pointer
    requires ResetResolves(s, c)
  {
    if s.resetState == NoReset then s.batchStartPointer else ResolveReset(s.resetState, c).value
  }

  // ---------------------------------------------------------------------------
  // One iteration

  /** A closed poller's iteration only records CLOSED and exits: queue,
      pointers, counter, reset and goal flags are left as they were. */
  lemma IterationWhenClosed(s: PollerState, max: Option<Pointer>, persisted: set<Pointer>, c: Consumer, ignore: bool)
    requires s.closed
    ensures var r := PollIteration(s, max, persisted, c, ignore);
      r.next == s.(state := Closed) && r.request == NoRead && r.outcome == Exited
  {
  }

  /** A pending reset is consumed by the first iteration that is not closed
      and whose consumer answers the positional query, paused or not: the
      batch start pointer becomes the resolved position (unless a non-empty
      batch then moves it on) and the instruction becomes NONE. */
  lemma ResetIsConsumed(s: PollerState, max: Option<Pointer>, persisted: set<Pointer>, c: Consumer, ignore: bool)
    requires !s.closed && s.resetState != NoReset && ResolveReset(s.resetState, c).Returned?
    ensures var r := PollIteration(s, max, persisted, c, ignore);
      var p := ResolveReset(s.resetState, c).value;
      && r.next.resetState == NoReset
      && (r.outcome != Dispatched ==> r.next.batchStartPointer == p)
      && (s.paused ==> r.outcome == PausedWait)
      && (!s.paused ==> r.request == if s.includeBatchStartPointer then ReadInclusive(p) else ReadContinue)
  {
  }

  /** When the positional query of a pending reset throws, nothing but the
      pause verdict changes and the reset is tried again next iteration. */
  lemma ResetFaultKeepsReset(s: PollerState, max: Option<Pointer>, persisted: set<Pointer>, c: Consumer, ignore: bool)
    requires !s.closed && s.resetState != NoReset && ResolveReset(s.resetState, c).Threw?
    ensures var r := PollIteration(s, max, persisted, c, ignore);
      && r.next == s.(paused := s.paused || !ignore)
      && r.request == NoRead && r.outcome == Faulted(ignore)
  {
  }

  /** A paused iteration (once the reset step has passed) records PAUSED and
      reads nothing: the queue, the counter, the inclusive-read flag and,
      apart from the reset, the batch start pointer are untouched. */
  lemma IterationWhenPaused(s: PollerState, max: Option<Pointer>, persisted: set<Pointer>, c: Consumer, ignore: bool)
    requires !s.closed && s.paused && ResetResolves(s, c)
    ensures var r := PollIteration(s, max, persisted, c, ignore);
      && r.next == s.(state := Paused, batchStartPointer := AfterReset(s, c), resetState := NoReset)
      && r.request == NoRead && r.outcome == PausedWait
  {
  }

  /** The read issued by a running iteration is the inclusive read from the
      batch start pointer exactly when the inclusive-read flag is set. */
  lemma ReadRequestFollowsFlag(s: PollerState, max: Option<Pointer>, persisted: set<Pointer>, c: Consumer, ignore: bool)
    requires !s.closed && !s.paused && ResetResolves(s, c)
    ensures var r := PollIteration(s, max, persisted, c, ignore);
      r.request == if s.includeBatchStartPointer then ReadInclusive(AfterReset(s, c)) else ReadContinue
  {
  }

  /** A non-empty batch: the batch start pointer lands on the batch's first
      record whether or not that record is skipped, the state is PROCESSING,
      the inclusive-read flag is cleared, and the queue grows by exactly the
      records whose pointers are not persisted, in batch order, the counter
      by their number. */
  lemma {:induction false} IterationDispatches(s: PollerState, max: Option<Pointer>, persisted: set<Pointer>, c: Consumer, ignore: bool)
    requires IsMaxCache(max, persisted)
    requires !s.closed && !s.paused && ResetResolves(s, c)
    requires c.batch.Returned? && c.batch.value != []
    ensures var r := PollIteration(s, max, persisted, c, ignore);
      var records := c.batch.value;
      && r.outcome == Dispatched
      && r.next.state == Processing
      && r.next.batchStartPointer == records[0].pointer
      && !r.next.includeBatchStartPointer
      && r.next.queue == s.queue + NotPersisted(records, persisted)
      && r.next.totalPolledCount == s.totalPolledCount + |NotPersisted(records, persisted)|
      && r.next.paused == s.paused && r.next.resetState == NoReset
  {
    EnqueuedIsNotPersisted(c.batch.value, max, persisted);
  }

  /** An empty batch: the state is POLLING, the inclusive-read flag keeps its
      value and nothing is enqueued. */
  lemma IterationEmptyBatch(s: PollerState, max: Option<Pointer>, persisted: set<Pointer>, c: Consumer, ignore: bool)
    requires !s.closed && !s.paused && ResetResolves(s, c) && c.batch == Returned([])
    ensures var r := PollIteration(s, max, persisted, c, ignore);
      && r.next == s.(state := Polling, batchStartPointer := AfterReset(s, c), resetState := NoReset)
      && r.outcome == NoRecords
  {
  }

  /** A throwing read: the fault is caught; a non-ignorable verdict pauses the
      poller, an ignorable one leaves the goal flags alone; nothing is
      enqueued and the inclusive-read flag is kept for the retry. */
  lemma IterationReadFault(s: PollerState, max: Option<Pointer>, persisted: set<Pointer>, c: Consumer, ignore: bool)
    requires !s.closed && !s.paused && ResetResolves(s, c) && c.batch == Threw
    ensures var r := PollIteration(s, max, persisted, c, ignore);
      && r.next == s.(state := Polling, batchStartPointer := AfterReset(s, c), resetState := NoReset, paused := !ignore)
      && r.outcome == Faulted(ignore)
  {
  }

  // ---------------------------------------------------------------------------
  // Lifecycle operations

  /** `start()` throws, changing nothing, exactly on a closed or a started
      poller; otherwise it sets `started` and the inclusive-read flag and
      nothing else. */
  lemma StartContract(s: PollerState)
    ensures Start(s).Err? <==> s.closed || s.started
    ensures Start(s).Ok? ==> Start(s).value == s.(started := true, includeBatchStartPointer := true)
  {
  }

  /** A second `start()` always fails. */
  lemma StartOnlyOnce(s: PollerState)
    ensures Start(OrUnchanged(Start(s), s)).Err?
  {
  }

  /** `pause()` and `resume()` throw exactly on a closed poller; otherwise
      they set or clear `paused`, nothing else, and are idempotent. */
  lemma PauseResumeContract(s: PollerState)
    ensures Pause(s).Err? <==> s.closed
    ensures Resume(s).Err? <==> s.closed
    ensures Pause(s).Ok? ==> Pause(s).value == s.(paused := true) && Pause(Pause(s).value) == Pause(s)
    ensures Resume(s).Ok? ==> Resume(s).value == s.(paused := false) && Resume(Resume(s).value) == Resume(s)
  {
  }

  /** `close()` always sets `closed`; a poller never started is otherwise
      unchanged (its counter stays where it was); a started one ends with an
      empty queue. Closing twice is closing once. */
  lemma CloseContract(s: PollerState)
    ensures Close(s).closed
    ensures !s.started ==> Close(s) == s.(closed := true)
    ensures s.started ==> Close(s) == s.(closed := true, queue := [])
    ensures Close(Close(s)) == Close(s)
  {
  }

  // ---------------------------------------------------------------------------
  // Runs

  /** Once consumed, the reset instruction stays NONE for every later
      iteration and call, pause/resume cycles included. */
  lemma {:induction false} ResetStaysConsumed(s: PollerState, events: seq<Event>, max: Option<Pointer>, persisted: set<Pointer>)
    requires s.resetState == NoReset
    ensures Run(s, events, max, persisted).resetState == NoReset
    decreases |events|
  {
    if events != [] {
      ResetStaysConsumed(s, events[..|events| - 1], max, persisted);
    }
  }

  /** The polled counter never decreases. */
  lemma {:induction false} PolledCountNeverDecreases(s: PollerState, events: seq<Event>, max: Option<Pointer>, persisted: set<Pointer>)
    ensures Run(s, events, max, persisted).totalPolledCount >= s.totalPolledCount
    decreases |events|
  {
    if events != [] {
      PolledCountNeverDecreases(s, events[..|events| - 1], max, persisted);
    }
  }

  /** Once closed, one call or iteration changes at most the observed
      state (to CLOSED) and the queue (which close may empty). */
  lemma ApplyWhenClosed(s: PollerState, e: Event, max: Option<Pointer>, persisted: set<Pointer>)
    requires s.closed
    ensures var t := Apply(s, e, max, persisted);
      && t.(state := s.state, queue := s.queue) == s
      && (t.state == s.state || t.state == Closed)
      && (t.queue == s.queue || t.queue == [])
  {
    match e
    case Iteration(c, ignore) => IterationWhenClosed(s, max, persisted, c, ignore);
    case _ =>
  }

  /** Closing is terminal: after it no call and no iteration changes anything
      but the observed state (which can only become CLOSED) and the queue
      (which a later close may only empty). */
  lemma {:induction false} ClosedIsFinal(s: PollerState, events: seq<Event>, max: Option<Pointer>, persisted: set<Pointer>)
    requires s.closed
    ensures var t := Run(s, events, max, persisted);
      && t.(state := s.state, queue := s.queue) == s
      && (t.state == s.state || t.state == Closed)
      && (t.queue == s.queue || t.queue == [])
    decreases |events|
  {
    if events != [] {
      var init := events[..|events| - 1];
      ClosedIsFinal(s, init, max, persisted);
      ApplyWhenClosed(Run(s, init, max, persisted), events[|events| - 1], max, persisted);
    }
  }

  /** After `close()` on a started poller the queue is empty and stays empty:
      no record polled afterwards ever reaches the processing stage. */
  lemma NothingEnqueuedAfterClose(s: PollerState, events: seq<Event>, max: Option<Pointer>, persisted: set<Pointer>)
    requires s.started
    ensures Run(Close(s), events, max, persisted).queue == []
  {
    ClosedIsFinal(Close(s), events, max, persisted);
  }

  /** Any call but `resume()`, or any iteration, leaves a paused poller
      paused, its counter where it was and no new record on the queue. */
  lemma ApplyWhilePaused(s: PollerState, e: Event, max: Option<Pointer>, persisted: set<Pointer>)
    requires s.paused && !e.ResumeCall?
    ensures var t := Apply(s, e, max, persisted);
      t.paused && t.totalPolledCount == s.totalPolledCount && t.queue <= s.queue
  {
  }

  /** While no `resume()` is called, a paused poller stays paused, its counter
      does not move and nothing new reaches the queue. */
  lemma {:induction false} NothingEnqueuedWhilePaused(s: PollerState, events: seq<Event>, max: Option<Pointer>, persisted: set<Pointer>)
    requires s.paused
    requires forall i :: 0 <= i < |events| ==> !events[i].ResumeCall?
    ensures var t := Run(s, events, max, persisted);
      t.paused && t.totalPolledCount == s.totalPolledCount && t.queue <= s.queue
    decreases |events|
  {
    if events != [] {
      var init := events[..|events| - 1];
      assert forall i :: 0 <= i < |init| ==> init[i] == events[i];
      NothingEnqueuedWhilePaused(s, init, max, persisted);
      ApplyWhilePaused(Run(s, init, max, persisted), events[|events| - 1], max, persisted);
    }
  }

  /** The next read the poll loop issues will be the inclusive read from `p`:
      the flag is set, no reset is pending, and the batch start pointer is `p`. */
  ghost predicate NextReadInclusiveFrom(s: PollerState, p: Pointer)
  {
    s.includeBatchStartPointer && s.resetState == NoReset && s.batchStartPointer == p
  }

  /** No iteration of the run dispatches a batch: each one exits, waits while
      paused, reads an empty batch or catches a fault. */
  predicate NoDispatch(s: PollerState, events: seq<Event>, max: Option<Pointer>, persisted: set<Pointer>)
    decreases |events|
  {
    events == [] ||
    (var init, e := events[..|events| - 1], events[|events| - 1];
     && NoDispatch(s, init, max, persisted)
     && (e.Iteration? ==> PollIteration(Run(s, init, max, persisted), max, persisted, e.consumer, e.ignore).outcome != Dispatched))
  }

  /** A call, or an iteration that dispatches nothing, keeps the next read
      inclusive from the same pointer. */
  lemma ApplyKeepsNextReadInclusive(s: PollerState, e: Event, p: Pointer, max: Option<Pointer>, persisted: set<Pointer>)
    requires NextReadInclusiveFrom(s, p)
    requires e.Iteration? ==> PollIteration(s, max, persisted, e.consumer, e.ignore).outcome != Dispatched
    ensures NextReadInclusiveFrom(Apply(s, e, max, persisted), p)
  {
  }

  /** Until a batch is dispatched, whatever pauses, resumes, closes, empty
      batches and faults come between, the next read stays the inclusive read
      from the same pointer. */
  lemma {:induction false} InclusiveUntilDispatch(s: PollerState, events: seq<Event>, p: Pointer, max: Option<Pointer>, persisted: set<Pointer>)
    requires NextReadInclusiveFrom(s, p) && NoDispatch(s, events, max, persisted)
    ensures NextReadInclusiveFrom(Run(s, events, max, persisted), p)
    decreases |events|
  {
    if events != [] {
      var init := events[..|events| - 1];
      InclusiveUntilDispatch(s, init, p, max, persisted);
      ApplyKeepsNextReadInclusive(Run(s, init, max, persisted), events[|events| - 1], p, max, persisted);
    }
  }

  /** The iteration after such a run reads, unless closed or paused, and its
      read is the inclusive read from that pointer. */
  lemma IterationReadsInclusively(s: PollerState, p: Pointer, max: Option<Pointer>, persisted: set<Pointer>, c: Consumer, ignore: bool)
    requires NextReadInclusiveFrom(s, p)
    ensures PollIteration(s, max, persisted, c, ignore).request == if s.closed || s.paused then NoRead else ReadInclusive(p)
  {
  }

  /** After a successful `start()` without a pending reset, every read up to
      and including the one that dispatches the first batch is the inclusive
      read from the configured pointer, however many pause/resume cycles,
      empty batches and faults come first. */
  lemma FirstReadAfterStartIsInclusive(s: PollerState, events: seq<Event>, max: Option<Pointer>, persisted: set<Pointer>, c: Consumer, ignore: bool)
    requires Start(s).Ok? && s.resetState == NoReset
    requires NoDispatch(Start(s).value, events, max, persisted)
    ensures var t := Run(Start(s).value, events, max, persisted);
      PollIteration(t, max, persisted, c, ignore).request == if t.closed || t.paused then NoRead else ReadInclusive(s.batchStartPointer)
  {
    InclusiveUntilDispatch(Start(s).value, events, s.batchStartPointer, max, persisted);
    IterationReadsInclusively(Run(Start(s).value, events, max, persisted), s.batchStartPointer, max, persisted, c, ignore);
  }

  /** A started poller with a pending reset still has the inclusive-read
      flag set: the flag is only cleared by a dispatched batch, which comes
      after the reset has been consumed. */
  ghost predicate PendingResetReadsInclusive(s: PollerState)
  {
    s.started && s.resetState != NoReset ==> s.includeBatchStartPointer
  }

  /** The invariant holds from construction on, through every run. */
  lemma {:induction false} PendingResetInvariant(s: PollerState, events: seq<Event>, max: Option<Pointer>, persisted: set<Pointer>)
    requires PendingResetReadsInclusive(s)
    ensures PendingResetReadsInclusive(Run(s, events, max, persisted))
    decreases |events|
  {
    if events != [] {
      PendingResetInvariant(s, events[..|events| - 1], max, persisted);
    }
  }

  /** Hence a reset, although the reset step itself never sets the flag, is
      read inclusively: the iteration that resolves it reads inclusively from
      the resolved position unless paused, and if it dispatches nothing, so
      does every later read up to and including the one that dispatches a
      batch, whichever pause/resume cycles, empty batches and faults come
      between. */
  lemma ResetIsReadInclusively(start: Pointer, reset: ResetState, initial: State, events: seq<Event>,
                               max: Option<Pointer>, persisted: set<Pointer>, c: Consumer, ignore: bool,
                               later: seq<Event>, c': Consumer, ignore': bool)
    requires var s := Run(Initial(start, reset, initial), events, max, persisted);
      s.started && !s.closed && s.resetState != NoReset && ResolveReset(s.resetState, c).Returned?
    ensures var s := Run(Initial(start, reset, initial), events, max, persisted);
      var p := ResolveReset(s.resetState, c).value;
      var r := PollIteration(s, max, persisted, c, ignore);
      && r.request == (if s.paused then NoRead else ReadInclusive(p))
      && (r.outcome != Dispatched && NoDispatch(r.next, later, max, persisted) ==>
            var t := Run(r.next, later, max, persisted);
            PollIteration(t, max, persisted, c', ignore').request == if t.closed || t.paused then NoRead else ReadInclusive(p))
  {
    var s := Run(Initial(start, reset, initial), events, max, persisted);
    var p := ResolveReset(s.resetState, c).value;
    var r := PollIteration(s, max, persisted, c, ignore);
    PendingResetInvariant(Initial(start, reset, initial), events, max, persisted);
    if r.outcome != Dispatched && NoDispatch(r.next, later, max, persisted) {
      assert NextReadInclusiveFrom(r.next, p);
      InclusiveUntilDispatch(r.next, later, p, max, persisted);
      IterationReadsInclusively(Run(r.next, later, max, persisted), p, max, persisted, c', ignore');
    }
  }

  // ---------------------------------------------------------------------------
  // Scenarios

  /** Persisted {1, 2} and a batch at pointers 1, 2, 3: only the record at 3
      is enqueued, the counter grows by one and the batch start pointer is 1. */
  lemma PersistedPointersAreSkipped(s: PollerState, m1: Message, m2: Message, m3: Message, ignore: bool)
    requires !s.closed && !s.paused && s.resetState == NoReset
    ensures var batch := [ReadResult(1, m1), ReadResult(2, m2), ReadResult(3, m3)];
      var c := Consumer(Threw, Threw, Threw, Threw, Returned(batch));
      var r := PollIteration(s, Some(2), {1, 2}, c, ignore);
      && r.next.queue == s.queue + [ReadResult(3, m3)]
      && r.next.totalPolledCount == s.totalPolledCount + 1
      && r.next.batchStartPointer == 1
  {
    var batch := [ReadResult(1, m1), ReadResult(2, m2), ReadResult(3, m3)];
    var c := Consumer(Threw, Threw, Threw, Threw, Returned(batch));
    assert IsMaxCache(Some(2), {1, 2});
    IterationDispatches(s, Some(2), {1, 2}, c, ignore);
    assert batch[1..][1..] == [ReadResult(3, m3)];
    assert NotPersisted(batch[1..][1..], {1, 2}) == [ReadResult(3, m3)] + NotPersisted([], {1, 2});
    assert NotPersisted(batch, {1, 2}) == [ReadResult(3, m3)];
  }

  /** Reset EARLIEST at construction: after `start()` the first iteration
      reads inclusively from the earliest pointer, and no later iteration,
      across any pause/resume cycles, seeks again. */
  lemma EarliestResetScenario(start: Pointer, initial: State, c: Consumer, ignore: bool,
                              events: seq<Event>, max: Option<Pointer>, persisted: set<Pointer>)
    requires c.earliest.Returned?
    ensures var s := Start(Initial(start, Earliest, initial)).value;
      var r := PollIteration(s, max, persisted, c, ignore);
      && r.request == ReadInclusive(c.earliest.value)
      && Run(r.next, events, max, persisted).resetState == NoReset
  {
    var s := Start(Initial(start, Earliest, initial)).value;
    ResetStaysConsumed(PollIteration(s, max, persisted, c, ignore).next, events, max, persisted);
  }

  /** A non-ignorable read fault pauses the poller exactly once, the next
      iteration reports PAUSED, and the counter stays put until `resume()`. */
  lemma BlockingFaultScenario(s: PollerState, max: Option<Pointer>, persisted: set<Pointer>,
                              c: Consumer, c': Consumer, ignore': bool, events: seq<Event>)
    requires !s.closed && !s.paused && s.resetState == NoReset && c.batch == Threw
    requires forall i :: 0 <= i < |events| ==> !events[i].ResumeCall?
    ensures var t := PollIteration(s, max, persisted, c, false).next;
      && t.paused
      && PollIteration(t, max, persisted, c', ignore').next.state == Paused
      && Run(t, events, max, persisted).totalPolledCount == s.totalPolledCount
  {
    var t := PollIteration(s, max, persisted, c, false).next;
    NothingEnqueuedWhilePaused(t, events, max, persisted);
  }
}
