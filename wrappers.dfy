/** Failure-carrying results: the model's stand-in for Java exceptions. */
module Wrappers {

  /** A value that may be absent; used for a nullable reference to a non-class value. */
  datatype Option<+T> = None | Some(value: T)

  /** The result of an operation that either returns a value or throws. */
  datatype Result<+R, +E> = Success(value: R) | Failure(error: E)

  /** The result of a `void` operation that either completes or throws. */
  datatype Outcome<+E> = Pass | Fail(error: E)
}
