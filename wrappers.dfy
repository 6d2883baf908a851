/** Failure-carrying values: the model's stand-in for exceptions and missing values. */
module Wrappers {

  datatype Option<+T> = None | Some(value: T)

  datatype Result<+R, +E> = Success(value: R) | Failure(error: E)

  /** The value of an optional sequence, or the empty sequence when it is absent. */
  function OrEmpty<T>(o: Option<seq<T>>): (s: seq<T>)
    ensures o.None? ==> s == []
    ensures o.Some? ==> s == o.value
  {
    match o
    case None => []
    case Some(v) => v
  }
}
