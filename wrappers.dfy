/** Option and Result, used for the null-able identifiers and for the errors
    that `validateParams` throws. */
module Wrappers {

  datatype Option<+T> = None | Some(value: T)

  datatype Result<+R, +E> = Success(value: R) | Failure(error: E)
}
