/** Optional values and results with an error message, as used throughout the model. */
module Wrappers {

  datatype Option<+T> = None | Some(value: T)

  /** A computation that either yields a value or fails with the message of the error it threw. */
  datatype Result<+T> = Success(value: T) | Failure(message: string)
}
