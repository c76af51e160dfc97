/** Failure-carrying result types used in place of the exceptions the Python code raises. */
module Wrappers {

  datatype Option<+T> = None | Some(value: T)

  /** A computation that yields a value or reports the error it raised. */
  datatype Result<+R, +E> = Success(value: R) | Failure(error: E)

  /** A computation that changes state and either completes or reports the error it raised. */
  datatype Outcome<+E> = Pass | Fail(error: E)
}
