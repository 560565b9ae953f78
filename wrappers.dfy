/** Optional values and settled requests. */
module Wrappers {

  /** A JavaScript property that may be `undefined`/`null`. */
  datatype Option<+T> = None | Some(value: T) {

    /** The value, or `default` when absent. */
    function GetOr(default: T): T {
      match this
      case Some(v) => v
      case None => default
    }
  }

  /**
   * How a call or an awaited request completed: the value it returned or
   * resolved with, or the error it threw or rejected with (its message).
   */
  datatype Outcome<+T> = Resolved(value: T) | Rejected(reason: string)
}
