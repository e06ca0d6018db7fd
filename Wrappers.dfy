/** Optional values and pass/fail outcomes shared by the other modules. */
module Wrappers {

  /** A value that may be absent (an unset field, a falsy start result). */
  datatype Option<+T> = None | Some(value: T) {

    /** The carried value, or `default` when there is none. */
    function GetOr(default: T): T
    {
      match this
      case Some(v) => v
      case None => default
    }
  }

  /** The completion of a lifecycle step: it either resolves or rejects with an error. */
  datatype Outcome<+E> = Pass | Fail(error: E)
}
