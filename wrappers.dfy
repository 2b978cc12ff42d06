/** Failure-carrying result types shared by every module of the model. */
module Wrappers {

  /** An optional value: Go's nil or an absent map entry. */
  datatype Option<+T> = None | Some(value: T)

  /** A value or an error: Go's `(value, error)` return pair. */
  datatype Result<+T, +E> = Ok(value: T) | Err(error: E)

  /** The outcome of an operation that returns only a Go `error`: nil or an error. */
  datatype Outcome<+E> = Pass | Fail(error: E)
}
