/** Failure-compatible wrappers used for the Go `(value, error)` returns of the model. */
module Wrappers {

  /** An optional value; `None` plays the role of a nil Go `error`. */
  datatype Option<+T> = None | Some(value: T)

  /** Either a value or an error message, standing for a Go `(T, error)` pair. */
  datatype Result<+T> = Ok(value: T) | Err(error: string)
}
