/** Failure-compatible wrappers used across the model: `Option` stands for a
    Python value that may be `None` (or a dictionary key that may be absent),
    `Result` for a computation that may raise. */
module Wrappers {

  datatype Option<+T> = None | Some(value: T) {

    /** The value, or `default` when absent (Python's `dict.get(key, default)`). */
    function GetOr(default: T): T {
      match this
      case Some(v) => v
      case None => default
    }
  }

  datatype Result<+R, +E> = Success(value: R) | Failure(error: E)
}
