/** Optional values and outcomes shared by the other modules. */
module Wrappers {

  /** A value that may be absent: JavaScript's `null` / `undefined`. */
  datatype Option<+T> = None | Some(value: T) {
    function GetOr(default: T): T {
      match this
      case Some(v) => v
      case None => default
    }
  }

  /** The result of an operation that either succeeds or throws an `Error` with a message. */
  datatype Outcome = Pass | Fail(message: string)
}
