/** Optional values and results with an error, shared by every module of the model. */
module Wrappers {

  /** A value that may be missing: `undefined`/`null` in the original JavaScript. */
  datatype Option<+T> = None | Some(value: T)

  /** The outcome of an operation that can fail, such as a token verification that throws. */
  datatype Result<+T, +E> = Ok(value: T) | Err(error: E)

  /** JavaScript truthiness of an optional string: present and not the empty string. */
  predicate Truthy(o: Option<string>) {
    o.Some? && o.value != ""
  }

  /** `String(v)` for a request field that is a string or `undefined`. */
  function JsString(o: Option<string>): string {
    if o.Some? then o.value else "undefined"
  }

  function Min(a: int, b: int): int {
    if a <= b then a else b
  }
}
