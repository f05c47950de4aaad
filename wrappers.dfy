/** Option and Result, the shapes used for the library's nullable values and thrown errors. */
module Wrappers {

  /** A value that may be absent (`undefined` or `null` in the library). */
  datatype Option<+T> = None | Some(value: T) {
    function GetOr(default: T): T {
      if Some? then value else default
    }
  }

  /** The outcome of an operation that either returns a value or throws an error. */
  datatype Result<+T, +E> = Success(value: T) | Failure(error: E)
}

/**
 * JavaScript's truthiness on optional strings, written out: `undefined`, `null` and `""`
 * are all falsy, so `a || b` falls back to `b` for each of them.
 */
module JsStrings {
  import opened Wrappers

  /** `!!s` for an optional string. */
  predicate Truthy(s: Option<string>) {
    s.Some? && s.value != ""
  }

  /** `s || fallback` for an optional string. */
  function OrElse(s: Option<string>, fallback: string): (r: string)
    ensures Truthy(s) ==> r == s.value
    ensures !Truthy(s) ==> r == fallback
  {
    if s.Some? && s.value != "" then s.value else fallback
  }
}
