/** Option and Result datatypes shared by the whole model. */
module Wrappers {

  datatype Option<+T> = None | Some(value: T)

  /** The value-or-error shape of a Go `(T, error)` return. */
  datatype Result<+T, +E> = Ok(value: T) | Err(error: E)
}
