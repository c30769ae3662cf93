/** Failure-carrying values: how the model states a JavaScript `throw`. */
module Wrappers {

  datatype Option<+T> = None | Some(value: T)

  /** The value an operation returns, or the error it throws. */
  datatype Result<+T, +E> = Success(value: T) | Failure(error: E)

  /** A check that returns nothing or throws. */
  datatype Outcome<+E> = Pass | Fail(error: E)
}
