/** Option and Result, standing for Python's `None` returns and raised exceptions. */
module Wrappers {

  datatype Option<+T> = None | Some(value: T)

  datatype Result<+R, +E> = Success(value: R) | Failure(error: E)

  /** An operation that returns nothing on success, or the error it raised. */
  datatype Outcome<+E> = Pass | Fail(error: E)
}
