/** Optional values and results with an error message, as used across the model. */
module Wrappers {

  /** A value that may be absent (Ruby's `nil`). */
  datatype Option<+T> = None | Some(value: T) {
    function GetOr(default: T): T {
      match this
      case Some(v) => v
      case None => default
    }
  }

  /** The outcome of an operation that may raise: the value, or the message it raises with. */
  datatype Result<+T> = Ok(value: T) | Err(message: string)
}
