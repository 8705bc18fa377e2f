/**
 * Optional values, used wherever the source returns None or may be missing a
 * key, and results, used where the source raises an exception with a message.
 */
module Wrappers {
  datatype Option<+T> = None | Some(value: T) {
    function GetOr(default: T): T {
      match this
      case Some(v) => v
      case None => default
    }
  }

  datatype Result<+T> = Ok(value: T) | Err(error: string)
}
