/** The poller's state machine on values: the goal flags, the observed state
    and the loop's own state, one iteration of the poll loop, the lifecycle
    operations, and runs that interleave lifecycle calls with iterations. The
    class in module StreamPoller is proved to follow these functions. */
module PollLoop {
  import opened Ingestion
  import opened PersistedFilter

  /** Everything an iteration or a lifecycle call may change. `queue` holds
      the records handed to the processing stage and not yet discarded by
      close; `totalPolledCount` is the polled-records counter. */
  datatype PollerState = PollerState(
    state: State,
    started: bool,
    closed: bool,
    paused: bool,
    batchStartPointer: Pointer,
    includeBatchStartPointer: bool,
    resetState: ResetState,
    totalPolledCount: nat,
    queue: seq<ReadResult>)

  /** What the shard consumer answers during one iteration: its positional
      queries (earliest, latest, pointer for the configured offset, pointer
      for the configured timestamp) and the batch returned by whichever read
      the iteration issues. Any of them may throw. */
  datatype Consumer = Consumer(
    earliest: Answer<Pointer>,
    latest: Answer<Pointer>,
    fromOffset: Answer<Pointer>,
    fromTimestamp: Answer<Pointer>,
    batch: Answer<seq<ReadResult>>)

  /** The read an iteration issues: none, the inclusive read starting at a
      pointer, or the continuation read after the last record. */
  datatype ReadRequest = NoRead | ReadInclusive(from: Pointer) | ReadContinue

  /** How an iteration ended: the loop exits on close, waits while paused,
      read an empty batch, dispatched a batch, or caught a fault; `ignored` is
      the error strategy's verdict. */
  datatype Outcome = Exited | PausedWait | NoRecords | Dispatched | Faulted(ignored: bool)

  datatype IterationResult = IterationResult(next: PollerState, request: ReadRequest, outcome: Outcome)

  /** The state the constructor sets up: goal flags all false, the given
      start pointer, reset instruction and observed state, nothing polled. */
  function Initial(startPointer: Pointer, resetState: ResetState, initialState: State): PollerState
  {
    PollerState(initialState, false, false, false, startPointer, false, resetState, 0, [])
  }

  // ---------------------------------------------------------------------------
  // Lifecycle operations

  /** `start()`: refused on a closed or a started poller; otherwise marks it
      started and makes the first read include the batch start pointer. */
  function Start(s: PollerState): Result<PollerState>
  {
    if s.closed then Err("poller is closed!")
    else if s.started then Err("poller is already running")
    else Ok(s.(started := true, includeBatchStartPointer := true))
  }

  /** `pause()`: refused once closed; otherwise sets the paused goal flag. */
  function Pause(s: PollerState): Result<PollerState>
  {
    if s.closed then Err("consumer is closed!") else Ok(s.(paused := true))
  }

  /** `resume()`: refused once closed; otherwise clears the paused goal flag. */
  function Resume(s: PollerState): Result<PollerState>
  {
    if s.closed then Err("consumer is closed!") else Ok(s.(paused := false))
  }

  /** The effect of `close()`: the closed goal flag is set; a started poller
      also discards whatever is left in the hand-off queue. */
  function Close(s: PollerState): PollerState
  {
    if s.started then s.(closed := true, queue := []) else s.(closed := true)
  }

  // ---------------------------------------------------------------------------
  // One iteration of the poll loop

  /** The consumer query that resolves a pending reset instruction. */
  function ResolveReset(reset: ResetState, c: Consumer): Answer<Pointer>
    requires reset != NoReset
  {
    match reset
    case Earliest => c.earliest
    case Latest => c.latest
    case RewindByOffset => c.fromOffset
    case RewindByTimestamp => c.fromTimestamp
  }

  /** The catch branch: the fault is reported, and unless the strategy says to
      ignore it the poller pauses itself. `pause()` cannot throw here, since
      the iteration only gets this far when the poller is not closed. */
  function Fault(s: PollerState, request: ReadRequest, ignore: bool): IterationResult
    requires !s.closed
  {
    IterationResult(if ignore then s else Pause(s).value, request, Faulted(ignore))
  }

  /** One pass of the body of the poll loop: closed check, one-shot reset,
      then the rest of the pass; a throwing positional query lands in the
      catch branch with the reset still pending. */
  function PollIteration(s: PollerState, max: Option<Pointer>, persisted: set<Pointer>, c: Consumer, ignore: bool): (r: IterationResult)
    ensures r.next.started == s.started && r.next.closed == s.closed
    ensures s.queue <= r.next.queue
    ensures r.next.totalPolledCount == s.totalPolledCount + (|r.next.queue| - |s.queue|)
    ensures r.next.resetState == s.resetState || r.next.resetState == NoReset
  {
    if s.closed then IterationResult(s.(state := Closed), NoRead, Exited)
    else if s.resetState == NoReset then PollAfterReset(s, max, persisted, c, ignore)
    else
      match ResolveReset(s.resetState, c)
      case Threw => Fault(s, NoRead, ignore)
      case Returned(p) => PollAfterReset(s.(batchStartPointer := p, resetState := NoReset), max, persisted, c, ignore)
  }

  /** The rest of a pass once the reset step is behind: pause check,
      inclusive or continuation read, dispatch of the batch into the queue,
      and the catch branch for a throwing read. */
  function PollAfterReset(s: PollerState, max: Option<Pointer>, persisted: set<Pointer>, c: Consumer, ignore: bool): (r: IterationResult)
    requires !s.closed
    ensures r.next.started == s.started && r.next.closed == s.closed && r.next.resetState == s.resetState
    ensures s.queue <= r.next.queue
    ensures r.next.totalPolledCount == s.totalPolledCount + (|r.next.queue| - |s.queue|)
  {
    if s.paused then IterationResult(s.(state := Paused), NoRead, PausedWait)
    else
      var s' := s.(state := Polling);
      var request := if s'.includeBatchStartPointer then ReadInclusive(s'.batchStartPointer) else ReadContinue;
      match c.batch
      case Threw => Fault(s', request, ignore)
      case Returned(records) =>
        if records == [] then IterationResult(s', request, NoRecords)
        else
          var put := Enqueued(records, max, persisted);
          IterationResult(
            s'.(state := Processing,
                batchStartPointer := records[0].pointer,
                queue := s'.queue + put,
                totalPolledCount := s'.totalPolledCount + |put|,
                includeBatchStartPointer := false),
            request, Dispatched)
  }

  // ---------------------------------------------------------------------------
  // Runs: the poll thread's iterations interleaved with lifecycle calls

  /** A lifecycle call made by another thread, or one iteration of the poll
      loop with the consumer's answers and the error strategy's verdict. */
  datatype Event = StartCall | PauseCall | ResumeCall | CloseCall | Iteration(consumer: Consumer, ignore: bool)

  /** A refused lifecycle call throws to its caller and changes nothing. */
  function OrUnchanged(r: Result<PollerState>, s: PollerState): PollerState
  {
    match r
    case Ok(t) => t
    case Err(_) => s
  }

  function Apply(s: PollerState, e: Event, max: Option<Pointer>, persisted: set<Pointer>): PollerState
  {
    match e
    case StartCall => OrUnchanged(Start(s), s)
    case PauseCall => OrUnchanged(Pause(s), s)
    case ResumeCall => OrUnchanged(Resume(s), s)
    case CloseCall => Close(s)
    case Iteration(c, ignore) => PollIteration(s, max, persisted, c, ignore).next
  }

  function Run(s: PollerState, events: seq<Event>, max: Option<Pointer>, persisted: set<Pointer>): PollerState
    decreases |events|
  {
    if events == [] then s
    else Apply(Run(s, events[..|events| - 1], max, persisted), events[|events| - 1], max, persisted)
  }
}
