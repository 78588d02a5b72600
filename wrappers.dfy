/** Optional values, standing for Swift's `T?`. */
module Wrappers {

  datatype Option<+T> = None | Some(value: T)

  /** The value an optional holds, as a set of at most one element. */
  function Elements<T>(o: Option<T>): (s: set<T>)
    ensures o.None? <==> s == {}
    ensures o.Some? ==> s == {o.value}
  {
    if o.Some? then {o.value} else {}
  }
}
