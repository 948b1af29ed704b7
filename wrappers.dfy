/** Optional values and results with an error payload, used across the model. */
module Wrappers {

  /** A value that may be absent (`undefined` / `null` in the source). */
  datatype Option<+T> = None | Some(value: T)

  /** The outcome of a validation: the parsed value, or the failed fields. */
  datatype Result<+T, +E> = Success(value: T) | Failure(error: E)
}
