/** Optional values and results with an error, used for JavaScript's `undefined`
    and for thrown errors. */
module Wrappers {

  /** A value that may be absent (`undefined` or `null` in the configuration). */
  datatype Option<+T> = None | Some(value: T) {

    /** The value, or `default` when absent: JavaScript's `x ?? default`. */
    function GetOr(default: T): T {
      match this
      case Some(v) => v
      case None => default
    }
  }

  /** The outcome of an operation that may throw. */
  datatype Result<+R, +E> = Success(value: R) | Failure(error: E)
}
