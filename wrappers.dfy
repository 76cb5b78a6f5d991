/** Failure-carrying results used by the adapters. */
module Wrappers {

  datatype Option<+T> = None | Some(value: T)

  /** A value or the message of the error the adapter throws. */
  datatype Result<+T, +E> = Success(value: T) | Failure(error: E)

  /** The outcome of an operation that returns nothing on success (a `Promise<void>`). */
  datatype Outcome<+E> = Pass | Fail(error: E)
}
