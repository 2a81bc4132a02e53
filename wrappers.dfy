/** Failure-carrying wrappers used for the thrown errors of the modelled code. */
module Wrappers {

  datatype Option<+T> = None | Some(value: T) {
    function GetOr(default: T): T {
      match this
      case Some(v) => v
      case None => default
    }
  }

  datatype Result<+R, +E> = Success(value: R) | Failure(error: E)

  /** A step that either completes (`Pass`) or throws `error` (`Fail`). */
  datatype Outcome<+E> = Pass | Fail(error: E)
}
