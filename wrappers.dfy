/** Optional values and results with an error, used across the model. */
module Wrappers {

  /** A value that may be absent. In the JavaScript source, `None` stands for
      `null`/`undefined` (or, where a comment says so, any falsy value). */
  datatype Option<+T> = None | Some(value: T) {
    function GetOr(default: T): T {
      match this
      case Some(v) => v
      case None => default
    }
  }

  /** The outcome of an operation that may throw. */
  datatype Result<+T, +E> = Success(value: T) | Failure(error: E)
}
