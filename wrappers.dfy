/** Failure-carrying values used in place of PHP's null and exceptions. */
module Wrappers {

  /** A value or nothing (PHP `null`). */
  datatype Option<+T> = None | Some(value: T)

  /** A value, or the exception that replaced it. */
  datatype Result<+R, +E> = Success(value: R) | Failure(error: E)

  /** No value, or the exception raised instead of returning normally. */
  datatype Outcome<+E> = Pass | Fail(error: E)
}
