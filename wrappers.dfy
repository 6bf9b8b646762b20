/** Option and Result, the two failure-carrying types the model uses. */
module Wrappers {

  /** A Go pointer field: `None` is nil, `Some(v)` points at `v`. */
  datatype Option<+T> = None | Some(value: T)

  /** A value or an error, for the Go functions that return `(T, error)`. */
  datatype Result<+T, +E> = Ok(value: T) | Err(error: E)
}
