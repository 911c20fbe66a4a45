/** Option and Result, used across the model. */
module Wrappers {

  /** A value that may be missing: a failed decode, an absent JSON key, a failed round trip. */
  datatype Option<+T> = None | Some(value: T)

  /** The outcome of one client operation: the decoded value, or the single error it fails with. */
  datatype Result<+T, +E> = Success(value: T) | Failure(error: E)
}
