/** Optional values and results with an error, as used throughout the model. */
module Wrappers {

  /** A value that may be missing: a key absent from a JSON object, or set to null. */
  datatype Option<+T> = None | Some(value: T)

  /** The outcome of a step that may raise: a value, or the error it raised. */
  datatype Result<+T, +E> = Success(value: T) | Failure(error: E)
}
