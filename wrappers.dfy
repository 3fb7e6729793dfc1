/** Optional values: Python's `None` and the outcomes of lookups and parses. */
module Wrappers {

  datatype Option<+T> = None | Some(value: T) {

    /** The carried value, or the given default when there is none. */
    function GetOr(default: T): T {
      match this
      case Some(v) => v
      case None => default
    }
  }
}
