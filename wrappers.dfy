/** Optional values and results, standing for TypeScript's `T | null` and for
    the `{ error }` objects the handlers return. */
module Wrappers {

  /** A value that may be absent (`null` / `undefined` in the source). */
  datatype Option<+T> = None | Some(value: T) {
    /** The value, or `default` when absent (the source's `x ?? default`). */
    function GetOr(default: T): T {
      match this
      case Some(v) => v
      case None => default
    }
  }

  /** The outcome of an operation that either yields a value or fails with a message. */
  datatype Result<+T> = Ok(value: T) | Err(message: string)

  /** JavaScript's `v || fallback` on an optional string: an absent or empty
      string is falsy and gives way to the fallback. */
  function OrElse(v: Option<string>, fallback: string): (r: string)
    ensures v.Some? && v.value != "" ==> r == v.value
    ensures (v.None? || v.value == "") ==> r == fallback
  {
    if v.Some? && v.value != "" then v.value else fallback
  }
}
