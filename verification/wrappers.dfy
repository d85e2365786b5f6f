/** Failure-compatible wrappers shared by the whole model: Python's `None`
    becomes `Option.None`, and an operation that may raise an exception
    returns a `Result` (with a value) or an `Outcome` (without one). */
module Wrappers {

  datatype Option<+T> = None | Some(value: T)

  datatype Result<+R, +E> = Success(value: R) | Failure(error: E)

  datatype Outcome<+E> = Pass | Fail(error: E)
}
