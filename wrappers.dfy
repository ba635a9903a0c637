/** Failure-carrying values used in place of Python's None and exceptions. */
module Wrappers {

  /** A value that may be absent (Python's Optional / None). */
  datatype Option<+T> = None | Some(value: T)

  /** The outcome of an operation that either yields a value or fails with an error. */
  datatype Result<+R, +E> = Success(value: R) | Failure(error: E)
}
