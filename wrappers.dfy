/** Option and Result types used throughout the model. */
module Wrappers {

  /** A value that may be absent. */
  datatype Option<+T> = None | Some(value: T)

  /** A Go `(value, error)` pair: either a value or an error, never both. */
  datatype Result<+T, +E> = Ok(value: T) | Err(error: E)
}
