/** Optional values and results, as the rest of the model uses them. */
module Wrappers {

  /** `None` stands for JavaScript's `undefined` or `null`. */
  datatype Option<+T> = None | Some(value: T) {
    function GetOr(default: T): T {
      match this
      case Some(v) => v
      case None => default
    }
  }

  /** The outcome of an operation that either returns a value or fails. */
  datatype Result<+R, +E> = Success(value: R) | Failure(error: E)
}
