/** Failure-carrying values used across the model: `Option` for Python's
    `dict.get` without a default, `Result` for calls that return or raise. */
module Wrappers {

  datatype Option<+T> = None | Some(value: T) {

    /** Python's `d.get(key, default)` once the key lookup is an `Option`. */
    function GetOr(default: T): T {
      match this
      case Some(v) => v
      case None => default
    }
  }

  /** A returned value or a raised error carrying its message. */
  datatype Result<+R, +E> = Success(value: R) | Failure(error: E)
}
