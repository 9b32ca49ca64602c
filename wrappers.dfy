/** Option and Result, the two shapes in which the adapter returns "a value or nothing"
    and "a value or a Go `error`". */
module Wrappers {

  datatype Option<+T> = None | Some(value: T)

  datatype Result<+R, +E> = Success(value: R) | Failure(error: E)
}
