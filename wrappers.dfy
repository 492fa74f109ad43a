/** Optional values: JavaScript's `undefined` / `null` for a missing record,
    an absent key of a partial object, or an optional field of a record. */
module Wrappers {

  datatype Option<+T> = None | Some(value: T) {

    /** The value, or `default` when there is none (`x ?? default`). */
    function GetOr(default: T): T {
      match this
      case Some(v) => v
      case None => default
    }

    /** The left-biased choice used by an object spread: a present value wins. */
    function Or(other: Option<T>): Option<T> {
      if Some? then this else other
    }
  }
}
