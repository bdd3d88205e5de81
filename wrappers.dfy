/** Failure-carrying result types shared by every component model. */
module Wrappers {

  /** An optional value: a Go `nil` / `ok == false` lookup becomes `None`. */
  datatype Option<+T> = None | Some(value: T)

  /** A value or an error: a Go `(value, error)` pair where exactly one side is meaningful. */
  datatype Result<+T, +E> = Ok(value: T) | Err(error: E)
}
