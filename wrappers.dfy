/** Option and Result, the two failure-carrying datatypes the model uses. */
module Wrappers {

  /** A value that may be absent: Ruby's `nil` versus a present value. */
  datatype Option<+T> = None | Some(value: T)

  /** The outcome of an operation that may raise: the value, or the error raised. */
  datatype Result<+T, +E> = Success(value: T) | Failure(error: E)
}
