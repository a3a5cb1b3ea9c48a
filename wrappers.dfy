/** Nullable values and thrown-or-returned outcomes. */
module Wrappers {

  /** A Kotlin nullable value: `None` is `null`. */
  datatype Option<+T> = None | Some(value: T) {
    function GetOr(default: T): T {
      match this
      case Some(v) => v
      case None => default
    }
  }

  /** The outcome of a call that either returns a value or throws an exception. */
  datatype Result<+R, +E> = Success(value: R) | Failure(error: E)
}
