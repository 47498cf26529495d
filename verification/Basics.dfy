/// Types shared by every component of the model.

module Basics {

  datatype Option<+T> = None | Some(value: T)

  /// The crate's error enum. Messages and error sources are reduced to an opaque `cause`.
  datatype Error =
    | QueueError(cause: int)
    | FutureClosed
    | JobTimeout
    | TaskExecution(cause: int)
    | TaskPanic(cause: int)
    | BatchSizeMismatch(expected: nat, actual: nat)
    | InvalidStreamCapacity(capacity: int)
    | ConsumerCancelled
    | ConsumerLag
    | IncompleteStreamBatch

  datatype Result<+T> = Ok(value: T) | Err(error: Error)

  /// The terminal outcome of a stream: `Result<(), Error>`.
  type Outcome = Result<()>

  datatype JobStatus = Pending | Running | Completed | Failed
}
