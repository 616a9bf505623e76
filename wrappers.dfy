/** Failure-carrying values: JavaScript's `undefined` and thrown errors, made explicit. */
module Wrappers {

  /** A value that may be absent (`undefined` in the source). */
  datatype Option<+T> = None | Some(value: T) {
    function GetOr(default: T): T {
      match this
      case Some(v) => v
      case None => default
    }
  }

  /** The outcome of an operation that returns a value or throws. */
  datatype Result<+R, +E> = Success(value: R) | Failure(error: E)

  /** The outcome of an operation that returns nothing or throws (a rejected promise). */
  datatype Outcome<+E> = Pass | Fail(error: E)
}
