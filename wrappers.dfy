/** Option and Result, the two shapes every fallible step of the model returns. */
module Wrappers {

  datatype Option<+T> = None | Some(value: T) {
    /** The value, or `default` when there is none. */
    function GetOr(default: T): T {
      match this
      case Some(v) => v
      case None => default
    }
  }

  /** A value, or the message of the exception the source would raise. */
  datatype Result<+T, +E> = Success(value: T) | Failure(error: E)
}
