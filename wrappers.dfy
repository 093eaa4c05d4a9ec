/** Failure-compatible wrappers shared by every screen model. */
module Wrappers {

  /** A value that may be missing (the source's `null`). */
  datatype Option<+T> = None | Some(value: T) {
    function GetOr(default: T): (r: T)
      ensures this.Some? ==> r == value
    {
      match this
      case Some(v) => v
      case None => default
    }
  }

  /** The outcome of a check that either yields a value or an error. */
  datatype Result<+R, +E> = Success(value: R) | Failure(error: E)
}
