/** Failure-carrying datatypes used across the model. */
module Wrappers {

  datatype Option<+T> = None | Some(value: T)

  datatype Result<+R, +E> = Success(value: R) | Failure(error: E)

  /** Success or failure of an operation that yields no value (a promise that resolves to nothing). */
  datatype Outcome<+E> = Pass | Fail(error: E)
}
