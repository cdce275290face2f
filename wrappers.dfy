/** Failure-compatible wrappers shared by every module of the model. */
module Wrappers {

  /** A value that may be absent: an unset environment variable, an omitted
      request field, a JSON text that does not parse. */
  datatype Option<+T> = None | Some(value: T) {
    function GetOr(default: T): T {
      match this
      case Some(v) => v
      case None => default
    }
  }

  /** The outcome of an operation that either yields a value or reports why not. */
  datatype Result<+R, +E> = Success(value: R) | Failure(error: E)
}
