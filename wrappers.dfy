/** Optional values and fallible results, as used throughout the client model.
    JavaScript's `undefined` is `None`; a thrown error is `Failure`. */
module Wrappers {

  datatype Option<+T> = None | Some(value: T) {
    function GetOr(default: T): T {
      match this
      case Some(v) => v
      case None => default
    }
  }

  datatype Result<+R, +E> = Success(value: R) | Failure(error: E)

  /** JavaScript truthiness of an optional number: `undefined` and `0` are falsy. */
  predicate Truthy(o: Option<int>) {
    o.Some? && o.value != 0
  }

  /** The bound a caller actually gave: a falsy number counts as not given. */
  function Given(o: Option<int>): (r: Option<int>)
    ensures r.Some? <==> Truthy(o)
    ensures r.Some? ==> r.value == o.value && r.value != 0
  {
    if Truthy(o) then o else None
  }

  /** `x || fallback` for an optional number. */
  function OrElse(o: Option<int>, fallback: int): (r: int)
    ensures Truthy(o) ==> r == o.value
    ensures !Truthy(o) ==> r == fallback
  {
    if Truthy(o) then o.value else fallback
  }

  function Max(a: int, b: int): int { if a < b then b else a }
  function Min(a: int, b: int): int { if a < b then a else b }
}
