/** Optional values and the outcome of a request that either succeeds with a value or throws. */
module Wrappers {

  datatype Option<+T> = None | Some(value: T)

  /** The result of an awaited network call. Every error kind is handled the same way by
      the callers modelled here, so a failure carries no payload. */
  datatype Outcome<+T> = Success(value: T) | Failure

  /** Swift's `first` on an optional collection: `xs?.first`. */
  function First<T>(xs: Option<seq<T>>): (r: Option<T>)
    ensures r.Some? <==> xs.Some? && |xs.value| > 0
    ensures r.Some? ==> r.value == xs.value[0]
  {
    if xs.Some? && |xs.value| > 0 then Some(xs.value[0]) else None
  }
}
