/**
 * Optional values, the model's stand-in for JavaScript's null / undefined,
 * and results, its stand-in for a call that may throw.
 */
module Wrappers {

  datatype Option<+T> = None | Some(value: T) {

    /** The value, or a fallback when absent (JavaScript's `x || fallback` on an optional). */
    function GetOr(fallback: T): T {
      match this
      case Some(v) => v
      case None => fallback
    }
  }

  datatype Result<+T, +E> = Success(value: T) | Failure(error: E)
}
