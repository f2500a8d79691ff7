/** Optional values and results, the model's stand-ins for JavaScript's
    `undefined` and for a thrown exception. */
module Wrappers {

  /** A value that may be absent (`undefined` or `null` in the source). */
  datatype Option<+T> = None | Some(value: T) {
    function GetOr(default: T): T {
      match this
      case Some(v) => v
      case None => default
    }
  }

  /** The outcome of an operation that either returns or throws. */
  datatype Result<+T, +E> = Success(value: T) | Failure(error: E)
}
