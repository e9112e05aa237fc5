/** Option, Result and Outcome: the values the validator and the codec return instead of Go's `error`. */
module Wrappers {

  /** A value that may be absent: a nullable field, a search that may find nothing. */
  datatype Option<+T> = None | Some(value: T)

  /** The value of a computation that either succeeds or reports one error. */
  datatype Result<+R, +E> = Ok(value: R) | Err(error: E)

  /** The value of a check that either passes or reports one error (Go's `nil` or non-nil `error`). */
  datatype Outcome<+E> = Pass | Fail(error: E)
}
