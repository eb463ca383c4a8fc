/** Option and Result, the two failure-carrying values the model uses in place of
    JavaScript's `undefined` / `null` and of thrown exceptions. */
module Wrappers {

  datatype Option<+T> = None | Some(value: T) {
    /** The value, or `default` when absent (JavaScript's `x || default` on an optional). */
    function GetOr(default: T): T {
      match this
      case Some(v) => v
      case None => default
    }
  }

  /** `Success` is a normal return, `Failure` a thrown error carrying its value. */
  datatype Result<+R, +E> = Success(value: R) | Failure(error: E)
}
