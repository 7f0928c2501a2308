/** Failure-carrying values: the model's stand-in for Python exceptions. */
module Wrappers {

  datatype Option<+T> = None | Some(value: T)

  /** A computation that produced a value or raised an exception whose `str()` is `error`. */
  datatype Result<+T, +E> = Success(value: T) | Failure(error: E)

  /** A step run for its effect that either completed or raised. */
  datatype Outcome<+E> = Pass | Fail(error: E)
}
