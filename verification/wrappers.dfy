/** The optional value used for JavaScript's `null` / `undefined`, and the
    truthiness test the routers apply to optional strings. */
module Wrappers {
  datatype Option<+T> = None | Some(value: T)

  /** A JavaScript string value is truthy when it is present and not empty. */
  predicate IsTruthy(s: Option<string>) {
    s.Some? && s.value != []
  }
}
