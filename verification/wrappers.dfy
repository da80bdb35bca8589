/** Failure-carrying results: the model's stand-in for Python's raised exceptions. */
module Wrappers {

  /** A value of type T, or the error that was raised instead. */
  datatype Result<+T, +E> = Success(value: T) | Failure(error: E)

  /** The outcome of an operation that returns nothing but may raise. */
  datatype Outcome<+E> = Pass | Fail(error: E)
}
