/** Optional values and failures, standing in for Kotlin's nullable types and thrown exceptions. */
module Wrappers {

  /** A Kotlin `T?`: either no value (null) or a value. */
  datatype Option<+T> = None | Some(value: T) {
    /** Kotlin's elvis operator `this ?: default`. */
    function GetOr(default: T): T {
      match this
      case Some(v) => v
      case None => default
    }
  }

  /** A computation that either returns a value or fails loudly (an exception). */
  datatype Result<+T, +E> = Ok(value: T) | Err(error: E)
}
