/** Optional values: a JavaScript `undefined`/`null` field or result is `None`. */
module Wrappers {

  datatype Option<+T> = None | Some(value: T) {

    /** `x || fallback` on a field that is either absent or holds a value. */
    function GetOr(fallback: T): T
    {
      match this
      case Some(v) => v
      case None => fallback
    }
  }
}
