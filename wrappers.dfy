/** Option and Result values: Go's nil and its (value, error) pairs. */
module Wrappers {

  /** A value that may be absent: Go's nil pointer, nil function or nil error. */
  datatype Option<+T> = None | Some(value: T)

  /** The outcome of a Go call returning (value, error): a value or an error message. */
  datatype Result<+T, +E> = Success(value: T) | Failure(error: E)
}
