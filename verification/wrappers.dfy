/** Option and Result: the `nil`-or-value and value-or-`error` pairs that Go returns. */
module Wrappers {

  datatype Option<+T> = None | Some(value: T)

  datatype Result<+R, +E> = Success(value: R) | Failure(error: E)
}
