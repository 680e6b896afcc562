/** Failure-compatible wrappers shared by every module of the model. */
module Wrappers {

  /** An optional value; `None` stands for JavaScript's `undefined` or `null`. */
  datatype Option<+T> = None | Some(value: T) {
    function GetOr(default: T): T {
      match this
      case Some(v) => v
      case None => default
    }
  }

  /** A computation that either produced a value or failed with an error. */
  datatype Result<+R, +E> = Success(value: R) | Failure(error: E)

  /** A check that either passed or failed with an error (a `throw` of the source). */
  datatype Outcome<+E> = Pass | Fail(error: E)
}
