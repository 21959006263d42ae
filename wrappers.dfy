/** Optional values and results, the shapes the TypeScript code expresses with
    `undefined` and with thrown errors. */
module Wrappers {

  /** `undefined` (None) versus a present value; `Some("")` is a present empty string. */
  datatype Option<+T> = None | Some(value: T) {

    /** The `??` operator: the value when present, `default` only when absent. */
    function GetOr(default: T): T {
      match this
      case Some(v) => v
      case None => default
    }

    /** `a ?? b` where both sides are optional. */
    function OrElse(other: Option<T>): Option<T> {
      if Some? then this else other
    }
  }

  datatype Result<+T, +E> = Ok(value: T) | Err(error: E)

  /** JavaScript truthiness of an optional string: `undefined` and `""` are falsy. */
  predicate Truthy(s: Option<string>) {
    s.Some? && s.value != ""
  }
}
