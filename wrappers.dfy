/** Failure-carrying values used where the Python code raises or exits. */
module Wrappers {

  /** A value that may be absent: Python's `None` or a set attribute. */
  datatype Option<+T> = None | Some(value: T)

  /** The value of a computation, or the error that stops it. */
  datatype Result<+R, +E> = Success(value: R) | Failure(error: E)

  /** The outcome of a state-changing operation that returns nothing on success. */
  datatype Outcome<+E> = Pass | Fail(error: E)
}
