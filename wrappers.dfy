/** Failure-carrying values shared by every module of the model. */
module Wrappers {

  /** A value that may be missing: JavaScript's `null` / `undefined`. */
  datatype Option<T> = None | Some(value: T) {

    /** The wrapped value, or `default` when missing (JavaScript's `??`). */
    function GetOr(default: T): T {
      match this
      case Some(v) => v
      case None => default
    }
  }

  /** The outcome of an operation that either returns or throws an `Error`
      with the given message. */
  datatype Result<T> = Ok(value: T) | Err(message: string)
}
