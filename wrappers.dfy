/** Failure-carrying result types shared by the bean and graph modules. */
module Wrappers {

  /** A possibly absent value: the model's rendering of a Java reference that may be null. */
  datatype Option<+T> = None | Some(value: T)

  /** A value or the error that was raised instead of it. */
  datatype Result<+R, +E> = Success(value: R) | Failure(error: E)

  /** Completion of an operation that returns nothing, or the error it raised. */
  datatype Outcome<+E> = Pass | Fail(error: E)
}
