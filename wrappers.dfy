/** Optional values and error-carrying results, used for JavaScript's
    `null`/`undefined` and for thrown errors. */
module Wrappers {

  datatype Option<+T> = None | Some(value: T) {
    function GetOr(default: T): T {
      match this
      case Some(v) => v
      case None => default
    }
  }

  datatype Result<+R, +E> = Ok(value: R) | Err(error: E)

  /** A check that either passes or fails with an error (a rejected promise). */
  datatype Outcome<+E> = Pass | Fail(error: E)
}
