/** Optional values, for the `T | null` and `T | undefined` types of the front end. */
module Wrappers {

  datatype Option<+T> = None | Some(value: T) {

    /** The `?? fallback` of the source: the value if present, otherwise `fallback`. */
    function GetOr(fallback: T): T {
      match this
      case Some(v) => v
      case None => fallback
    }
  }
}
