/** Failure-carrying values used where the analysis code throws or aborts. */
module Wrappers {

  datatype Option<+T> = None | Some(value: T)

  /** A value, or the error the source reports instead of returning one. */
  datatype Result<+R, +E> = Success(value: R) | Failure(error: E)

  /** The outcome of a check that returns nothing on success. */
  datatype Outcome<+E> = Pass | Fail(error: E)
}
