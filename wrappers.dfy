/** A Go nil pointer or nil collection as `None`; a Go `(value, error)` pair as `Result`. */
module Wrappers {

  datatype Option<+T> = None | Some(value: T)

  datatype Result<+R, +E> = Success(value: R) | Failure(error: E)
}
