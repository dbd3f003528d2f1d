/** Option and Result, the two failure-carrying types the model uses. */
module Wrappers {

  datatype Option<+T> = None | Some(value: T)

  /** The outcome of a step of the resolver: a value, or the error the Go code returns. */
  datatype Result<+R, +E> = Success(value: R) | Failure(error: E)
}
