/** Option and Result: the "maybe undefined" values and the thrown-or-returned outcomes of the proxy. */
module Wrappers {

  /** A JavaScript value that may be `undefined`. */
  datatype Option<+T> = None | Some(value: T) {
    /** The value, or `default` where JavaScript's `??` would take the right-hand side. */
    function GetOr(default: T): T {
      match this
      case Some(v) => v
      case None => default
    }
  }

  /** The outcome of an asynchronous handler: a resolved value or a thrown error. */
  datatype Result<+R, +E> = Success(value: R) | Failure(error: E)
}
