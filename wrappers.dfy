/** Option and Result, the two failure-carrying shapes the model uses in place of
    `undefined` and of thrown errors. */
module Wrappers {

  datatype Option<+T> = None | Some(value: T)

  datatype Result<+T, +E> = Success(value: T) | Failure(error: E)
}
