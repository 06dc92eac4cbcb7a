/** Optional values and pass/fail outcomes shared by every module of the model. */
module Wrappers {

  /** A value that may be absent: JavaScript's `undefined` / `null`, or a missing storage key. */
  datatype Option<+T> = None | Some(value: T) {
    function GetOr(default: T): T {
      match this
      case Some(v) => v
      case None => default
    }
  }

  /** The result of an operation that either completes or throws an error carrying a message. */
  datatype Outcome<+E> = Pass | Fail(error: E)
}
