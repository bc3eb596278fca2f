/** Failure-carrying datatypes shared by the modules of this model. */
module Wrappers {

  /** A value that may be missing (Python's `None`). */
  datatype Option<+T> = None | Some(value: T)

  /** The result of an operation that either succeeds with a value or raises an error. */
  datatype Result<+R, +E> = Success(value: R) | Failure(error: E)

  /** The result of a check that either passes or raises an error. */
  datatype Outcome<+E> = Pass | Fail(error: E)
}
