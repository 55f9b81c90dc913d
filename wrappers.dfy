/** Optional values and results with an error, standing for JavaScript's
    `undefined`/`null` and for thrown errors. */
module Wrappers {

  datatype Option<+T> = None | Some(value: T) {
    /** `x ?? d`: the value when present, the default otherwise. */
    function GetOr(default: T): T {
      match this
      case Some(v) => v
      case None => default
    }
  }

  datatype Result<+R, +E> = Success(value: R) | Failure(error: E)
}
