/** Optional values, as JavaScript's `undefined`/`null` alternatives are used by the application. */
module Wrappers {

  /** A value that may be missing (`undefined` in the application). */
  datatype Option<+T> = None | Some(value: T) {
    function GetOr(default: T): T {
      match this
      case Some(v) => v
      case None => default
    }
  }

  /** A value that a schema allows to be absent (`undefined`) or explicitly `null`. */
  datatype Nullish<+T> = Undefined | Null | Present(value: T)
}
