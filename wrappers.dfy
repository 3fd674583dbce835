/** Failure-compatible wrappers: Go's `(value, error)` returns and optional
    results are modelled with these two datatypes. */
module Wrappers {

  /** A value that may be absent (a nil pointer, a missing environment variable). */
  datatype Option<+T> = None | Some(value: T)

  /** A value or the error that replaced it. */
  datatype Result<+R, +E> = Success(value: R) | Failure(error: E)
}
