/** Failure-carrying values used wherever the Python code raises an exception. */
module Wrappers {

  datatype Option<+T> = None | Some(value: T)

  /** The value of a call that either returns `value` or raises `error`. */
  datatype Result<+R, +E> = Success(value: R) | Failure(error: E)

  /** The value of a call that returns nothing or raises `error`. */
  datatype Outcome<+E> = Pass | Fail(error: E)
}
