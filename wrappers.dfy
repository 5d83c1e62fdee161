/** Option and Result values, used for the "model not loaded" and
    "no spam label" failures of the request handlers. */
module Wrappers {

  datatype Option<+T> = None | Some(value: T)

  datatype Result<+R, +E> = Success(value: R) | Failure(error: E)
}
