/** Failure-compatible result types shared by the model. */
module Wrappers {

  /** A JavaScript value that may be `null`/`undefined` (None) or present (Some). */
  datatype Option<+T> = None | Some(value: T) {
    function GetOr(default: T): T {
      match this
      case Some(v) => v
      case None => default
    }
  }

  /** The settlement of a `Promise<void>`: resolved (Pass) or rejected with an error (Fail). */
  datatype Outcome<+E> = Pass | Fail(error: E)
}
