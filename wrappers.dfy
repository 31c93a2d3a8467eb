/** Presence and failure wrappers used across the model. */
module Wrappers {

  /** A value that may be absent: a key of a sparse mapping that the caller did not set. */
  datatype Option<+T> = None | Some(value: T) {

    /** The carried value, or `default` when absent. */
    function GetOr(default: T): T {
      match this
      case Some(v) => v
      case None => default
    }
  }

  /** The outcome of a handler: its payload, or the error it raises. */
  datatype Result<+R, +E> = Success(value: R) | Failure(error: E)
}
