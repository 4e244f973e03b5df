/** Optional values: JavaScript's `null`/`undefined` and a missing query parameter. */
module Wrappers {

  datatype Option<+T> = None | Some(value: T) {

    /** The carried value, or `default` when there is none. */
    function GetOr(default: T): T {
      match this
      case Some(v) => v
      case None => default
    }
  }

  /** JavaScript truthiness of an optional string: present and non-empty. */
  predicate Truthy(m: Option<string>) {
    m.Some? && m.value != ""
  }

  /** `m || fallback` for an optional string. */
  function OrElse(m: Option<string>, fallback: string): string {
    if Truthy(m) then m.value else fallback
  }
}
