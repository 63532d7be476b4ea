/** Failure-carrying result types used by the readers and validators. */
module Wrappers {

  /** A value that may be absent (Python's `None`). */
  datatype Option<+T> = None | Some(value: T)

  /** A computed value, or the error that the Python code raises instead. */
  datatype Result<+T, +E> = Ok(value: T) | Err(error: E)

  /** A check that either passes silently or raises an error. */
  datatype Outcome<+E> = Pass | Fail(error: E)
}
