/** Optional values, used where the source signals "no answer" with a sentinel
    (`Infinity` for no payback, `undefined` for a missing array element). */
module Wrappers {

  datatype Option<+T> = None | Some(value: T) {

    /** The value inside `Some`, or `default` when there is none. */
    function GetOr(default: T): T {
      match this
      case Some(v) => v
      case None => default
    }
  }
}
