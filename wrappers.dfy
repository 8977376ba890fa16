/** Optional values, standing in for the `null`/`undefined` cases of the client code. */
module Wrappers {

  datatype Option<+T> = None | Some(value: T)

  /** A JavaScript string in a boolean position: `undefined`, `null` and `""` are falsy. */
  predicate Truthy(s: Option<string>) {
    s.Some? && s.value != ""
  }
}
