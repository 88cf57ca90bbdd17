/** Optional values: the model's stand-in for Go's nil pointers, missing map
    entries and failed `(value, ok)` returns. */
module Wrappers {

  datatype Option<+T> = None | Some(value: T) {

    /** The value, or `default` when there is none (Go's zero-value fallback). */
    function GetOr(default: T): T {
      match this
      case Some(v) => v
      case None => default
    }
  }
}
