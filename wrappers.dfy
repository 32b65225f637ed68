/** Failure-carrying values used where the source raises or returns early. */
module Wrappers {

  /** A value that may be absent; `None` also stands for a foreign call that raised. */
  datatype Option<+T> = None | Some(value: T)

  /** The outcome of a step that either produces a value or fails with an error. */
  datatype Result<+T, +E> = Success(value: T) | Failure(error: E)
}
