/** Option, result and outcome types used across the model. */
module Wrappers {

  datatype Option<+T> = None | Some(value: T)

  /** A computed value, or the error that stopped the computation. */
  datatype Result<+R, +E> = Success(value: R) | Failure(error: E)

  /** Completion of an operation that returns no value: it either passes or fails with an error. */
  datatype Outcome<+E> = Pass | Fail(error: E)
}
