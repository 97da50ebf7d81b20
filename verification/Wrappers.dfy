/** Option and Result, shared by every module of the project. */
module Wrappers {

  datatype Option<+T> = None | Some(value: T)

  /** A JavaScript `throw` or a Go error return is a Failure. */
  datatype Result<+T, +E> = Success(value: T) | Failure(error: E)
}
