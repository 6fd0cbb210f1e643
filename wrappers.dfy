/** Optional values and error results, standing in for Java's null and exceptions. */
module Wrappers {

  /** A value that may be absent; None plays the part of a Java null. */
  datatype Option<+T> = None | Some(value: T) {
    function GetOr(default: T): T {
      match this
      case Some(v) => v
      case None => default
    }
  }

  /** The outcome of an operation that either returns a value or throws. */
  datatype Result<+T, +E> = Ok(value: T) | Err(error: E)
}
