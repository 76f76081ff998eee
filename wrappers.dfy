/** Failure-compatible result types shared by the other modules. */
module Wrappers {

  datatype Option<+T> = None | Some(value: T)

  /** A computation that either produces a value or raises one of the errors of E. */
  datatype Result<+T, +E> = Success(value: T) | Failure(error: E)
}
