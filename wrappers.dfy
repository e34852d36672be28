/** Optional values and results that may carry an error: the SDK's `undefined`
    fields and its thrown exceptions. */
module Wrappers {

  datatype Option<+T> = None | Some(value: T)

  /** The outcome of an operation that may throw: its value, or the message of
      the error it raised. */
  datatype Result<+T, +E> = Success(value: T) | Failure(error: E)
}
