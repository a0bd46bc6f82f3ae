/** Option and Result: the two shapes a Go `(value, ok)` or `(value, error)` pair takes here. */
module Wrappers {

  datatype Option<+T> = None | Some(value: T)

  datatype Result<+R, +E> = Success(value: R) | Failure(error: E)
}
