/** Failure-carrying result types shared by the whole model. */
module Wrappers {

  /** A value that may be missing. */
  datatype Option<+T> = None | Some(value: T)

  /** The value a computation produced, or the error it raised. */
  datatype Result<+T, +E> = Success(value: T) | Failure(error: E)

  /** A step that either returns normally or raises; it produces no value. */
  datatype Outcome<+E> = Pass | Fail(error: E)
}
