/** Failure-carrying values: Go's `(value, error)` pairs and nil-able pointers. */
module Wrappers {

  /** A value that may be absent: a nil pointer or a nil error. */
  datatype Option<+T> = None | Some(value: T)

  /** A value or the error that prevented computing it. */
  datatype Result<+R, +E> = Success(value: R) | Failure(error: E)
}
