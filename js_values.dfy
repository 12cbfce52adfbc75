/**
 * The few JavaScript value semantics the service relies on: a value that may
 * be `undefined`, the nullish-coalescing operator `??`, and the truthiness of
 * an optional string.
 */
module JsValues {

  /** A value that may be `undefined` (or `null`). */
  datatype Option<+T> = None | Some(value: T) {

    /** The value, or `default` when it is absent. */
    function GetOr(default: T): T {
      match this
      case Some(v) => v
      case None => default
    }
  }

  /** `a ?? b`: `a` unless it is nullish. An empty string is not nullish. */
  function Coalesce<T>(a: Option<T>, b: Option<T>): Option<T> {
    if a.Some? then a else b
  }

  /** Whether an optional string is truthy: present and not the empty string. */
  predicate Truthy(s: Option<string>) {
    s.Some? && s.value != ""
  }
}
