/** Option and Outcome values standing for Python's `None` and for exceptions. */
module Wrappers {

  datatype Option<+T> = None | Some(value: T) {
    function GetOr(default: T): T {
      match this
      case Some(v) => v
      case None => default
    }
  }

  /** A check that either passes or fails with an error (a raised exception). */
  datatype Outcome<+E> = Pass | Fail(error: E)
}
