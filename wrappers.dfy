/** Option and Result: absence and failure as data. */
module Wrappers {

  /** A value that may be missing (Python's `None`). */
  datatype Option<+T> = None | Some(value: T)

  /** The normal result of a computation, or the exception it raised. */
  datatype Result<+R, +E> = Success(value: R) | Failure(error: E)
}
