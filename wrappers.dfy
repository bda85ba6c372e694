/** Optional values and fallible results, used for JavaScript's `undefined`
    returns and for thrown errors. */
module Wrappers {

  datatype Option<+T> = None | Some(value: T) {
    /** `this ?? default` */
    function GetOr(default: T): T {
      match this
      case Some(v) => v
      case None => default
    }
  }

  datatype Result<+R, +E> = Success(value: R) | Failure(error: E)
}
