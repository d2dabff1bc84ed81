/** Optional values and results, standing in for JavaScript's `undefined` and thrown errors. */
module Wrappers {

  /** A value that may be missing (`undefined` or `null` in the SDK). */
  datatype Option<+T> = None | Some(value: T)

  /** The value of a computation that may throw. */
  datatype Result<+R, +E> = Success(value: R) | Failure(error: E)

  /** JavaScript truthiness of an optional string: present and not empty. */
  predicate Truthy(s: Option<string>) {
    s.Some? && s.value != ""
  }

  /** `s || fallback` for an optional string. */
  function Or(s: Option<string>, fallback: string): string {
    if Truthy(s) then s.value else fallback
  }
}
