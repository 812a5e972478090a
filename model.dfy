/**
  Types of the change-data-capture `model` package that the owner/processor
  protocol and the scheduler's info provider share. Go's fixed-width integers
  are newtypes over `int`, so every value the model holds is in range.
 */
module Model {

  newtype uint64 = x: int | 0 <= x < 0x1_0000_0000_0000_0000

  newtype int64 = x: int | -0x8000_0000_0000_0000 <= x < 0x8000_0000_0000_0000

  newtype byte = x: int | 0 <= x < 0x100

  /** A logical timestamp; only its order matters. */
  type Ts = uint64

  /** Identifies one replication task. */
  type ChangeFeedID = string

  /** Identifies one processor instance. */
  type CaptureID = string

  /** Identifies one contiguous key range. */
  type KeySpanID = uint64

  /** The state of an operation on a keyspan, as seen by the monitoring layer. */
  datatype OperStatus = OperDispatched | OperProcessed | OperFinished

  /** The monitoring view of one keyspan replicated by a capture. */
  datatype KeySpanReplicaInfo = KeySpanReplicaInfo(startTs: Ts)

  /** An add (`delete == false`) or remove (`delete == true`) of a keyspan. */
  datatype KeySpanOperation = KeySpanOperation(delete: bool, boundaryTs: Ts, status: OperStatus)

  /** Per-capture monitoring view: the keyspans it holds and the operations in flight. */
  datatype TaskStatus = TaskStatus(
    keySpans: map<KeySpanID, KeySpanReplicaInfo>,
    operation: map<KeySpanID, KeySpanOperation>)

  /** Per-capture watermarks in the monitoring view. */
  datatype TaskPosition = TaskPosition(checkPointTs: Ts, resolvedTs: Ts)

}
