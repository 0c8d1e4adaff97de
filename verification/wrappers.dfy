/** Failure-compatible wrappers shared by every module of the model. */
module Wrappers {

  /** `None` stands for JavaScript's `null` (or for a non-finite number where noted). */
  datatype Option<+T> = None | Some(value: T) {

    /** The wrapped value, or `default` when absent. */
    function GetOr(default: T): T {
      match this
      case Some(v) => v
      case None => default
    }
  }

  /** The outcome of an operation that may throw. */
  datatype Result<+R, +E> = Success(value: R) | Failure(error: E)
}
