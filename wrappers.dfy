/** Option and Result values for the error returns of the modelled code. */
module Wrappers {

  datatype Option<+T> = None | Some(value: T)

  /** A Go `(value, error)` pair or a Python exception, as a value. */
  datatype Result<+T, +E> = Ok(value: T) | Err(error: E)
}
