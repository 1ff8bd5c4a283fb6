/** Option and Result, the two failure-carrying shapes the model uses in
    place of Go's nil pointers and `(value, error)` pairs. */
module Wrappers {

  /** `None` stands for a nil pointer, `Some(v)` for a non-nil one. */
  datatype Option<+T> = None | Some(value: T)

  /** The outcome of a Go call returning `(T, error)`: `Ok` when the error is nil. */
  datatype Result<+T, +E> = Ok(value: T) | Err(error: E)
}
