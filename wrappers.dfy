/** Optional values, standing for the source's `undefined`/`null` results
    (`find` that misses, a missing prop, a missing drop target). */
module Wrappers {

  datatype Option<+T> = None | Some(value: T) {

    /** The encapsulated value, or `default` when there is none (`x || default`). */
    function GetOr(default: T): T {
      match this
      case Some(v) => v
      case None => default
    }
  }
}
