/** Failure-carrying values used for the orchestrator's exceptions. */
module Wrappers {

  datatype Option<+T> = None | Some(value: T)

  /** A value, or the message of the exception that was raised instead. */
  datatype Result<+R, +E> = Success(value: R) | Failure(error: E)

  /** An operation that returns nothing, or the message of the exception it raised. */
  datatype Outcome<+E> = Pass | Fail(error: E)
}
