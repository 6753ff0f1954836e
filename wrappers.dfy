/** Option and Result: the failure-compatible shapes used for JavaScript's
    "maybe a number" and "throws an Error" outcomes. */
module Wrappers {

  datatype Option<+T> = None | Some(value: T)

  datatype Result<+T, +E> = Success(value: T) | Failure(error: E)
}
