/** Optional values: the model's stand-in for JavaScript's null/undefined. */
module Wrappers {

  datatype Option<+T> = None | Some(value: T) {

    /** Returns the value in Some, or the default when None (`x ?? d`). */
    function GetOr(default: T): T {
      match this
      case Some(v) => v
      case None => default
    }
  }

  /** JavaScript truthiness of an optional string: null, undefined and "" are falsy. */
  predicate Truthy(s: Option<string>) {
    s.Some? && |s.value| > 0
  }

  /** `s || d` for an optional string: the string when truthy, otherwise the default. */
  function OrElse(s: Option<string>, d: string): (r: string)
    ensures Truthy(s) ==> r == s.value
    ensures !Truthy(s) ==> r == d
    ensures |r| > 0 <== |d| > 0
  {
    if Truthy(s) then s.value else d
  }
}
