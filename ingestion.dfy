/** Values shared by the poller model: shard pointers, the records a shard
    consumer returns, the poller's observed state and its reset instruction. */
module Ingestion {

  /** A position in a shard. The only thing the poller needs of a pointer is
      its total order (`compareTo`), so pointers are integers. */
  type Pointer = int

  datatype Option<+T> = None | Some(value: T)

  /** An opaque message payload; the poller forwards it without looking at it. */
  datatype Message = Message(payload: seq<char>)

  /** One record read from the shard: a pointer and the message it addresses. */
  datatype ReadResult = ReadResult(pointer: Pointer, message: Message)

  /** The observed state the poll loop reports. `NoState` is the source's NONE. */
  datatype State = NoState | Polling | Processing | Paused | Closed

  /** The one-shot reset instruction. `NoReset` is the source's NONE. */
  datatype ResetState = NoReset | Earliest | Latest | RewindByOffset | RewindByTimestamp

  /** The answer of a call into the shard consumer: either the call returned a
      value or it threw. */
  datatype Answer<+T> = Returned(value: T) | Threw

  /** The outcome of a lifecycle operation that throws a RuntimeException on
      misuse: success with a value, or the exception's message. */
  datatype Result<+T> = Ok(value: T) | Err(message: string)

  /** The error strategy in force. Its verdicts reach the model as inputs;
      only its identity matters here. */
  datatype ErrorStrategy = ErrorStrategy(name: string)
}
