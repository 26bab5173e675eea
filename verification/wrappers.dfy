/** Failure-compatible result types shared by every module of the planner model. */
module Wrappers {

  /** A value that may be absent: `undefined`/`null` in the source. */
  datatype Option<+T> = None | Some(value: T) {

    /** The wrapped value, or `default` when absent (the source's `x || default`). */
    function GetOr(default: T): T {
      match this
      case Some(v) => v
      case None => default
    }
  }

  /** Either a new value or a typed rejection that leaves the caller's state as it was. */
  datatype Result<+R, +E> = Success(value: R) | Failure(error: E)
}
