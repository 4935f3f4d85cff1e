/** Optional values, standing for the source's `T | null`, and JavaScript truthiness of an optional string. */
module Wrappers {

  datatype Option<+T> = None | Some(value: T) {
    /** The value when present, the given default otherwise. */
    function GetOr(default: T): T {
      match this
      case Some(v) => v
      case None => default
    }
  }

  /** `if (v)` on a `string | null`: false for null and for the empty string. */
  predicate Truthy(v: Option<string>) {
    v.Some? && v.value != ""
  }
}
