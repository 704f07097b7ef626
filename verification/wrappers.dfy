/** Optional values: stands for a field that may be `undefined` or `null`. */
module Wrappers {

  datatype Option<+T> = None | Some(value: T) {

    /** Returns the value held in Some, or `default` for None (the `??` operator). */
    function GetOr(default: T): T {
      match this
      case Some(v) => v
      case None => default
    }

    /** `a.Or(b)` is `a ?? b`: the first of the two that is present. */
    function Or(other: Option<T>): Option<T> {
      if Some? then this else other
    }
  }
}
