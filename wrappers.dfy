/** Option and Result, the shapes of Go's nil pointers and (value, error) pairs. */
module Wrappers {

  /** A value that may be missing: a nil pointer or an absent map entry. */
  datatype Option<+T> = None | Some(value: T)

  /** The outcome of a Go call returning `(value, error)`; only an error's message is ever observed. */
  datatype Result<+T, +E> = Success(value: T) | Failure(error: E)
}
