/** Failure-carrying values used across the model: Go's `error` results. */
module Wrappers {

  datatype Option<+T> = None | Some(value: T)

  /** A value or an error, for Go's `(T, error)` pairs. */
  datatype Result<+T, +E> = Ok(value: T) | Err(error: E)

  /** A bare Go `error`: nil (Pass) or an error value (Fail). */
  datatype Outcome<+E> = Pass | Fail(error: E)
}
