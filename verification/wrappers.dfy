/** Optional values and success-or-error results, standing in for JavaScript's
    `undefined`-able fields and for handlers that return early with an error toast. */
module Wrappers {

  /** A value that may be absent (`undefined` in the source). */
  datatype Option<+T> = None | Some(value: T) {

    /** Returns the encapsulated value, or `default` when absent. */
    function GetOr(default: T): T {
      match this
      case Some(v) => v
      case None => default
    }
  }

  /** The outcome of an operation that is either accepted or rejected with a reason. */
  datatype Result<+R, +E> = Ok(value: R) | Err(error: E)
}
