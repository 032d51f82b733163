/** Optional values and results, the shapes Rust's Option and Result take in this model. */
module Wrappers {

  datatype Option<+T> = None | Some(value: T)

  datatype Result<+T, +E> = Ok(value: T) | Err(error: E)

  /** `Option::map` with a total function: the optional value rendered through `f`. */
  function Lift<T, U>(o: Option<T>, f: T -> U): (r: Option<U>)
    ensures r.Some? <==> o.Some?
    ensures o.Some? ==> r.value == f(o.value)
  {
    match o
    case None => None
    case Some(v) => Some(f(v))
  }

  /** Maps `f` over every element of an optional list, keeping order and length. */
  function LiftSeq<T, U>(o: Option<seq<T>>, f: T -> U): (r: Option<seq<U>>)
    ensures r.Some? <==> o.Some?
    ensures o.Some? ==> |r.value| == |o.value| && forall i :: 0 <= i < |o.value| ==> r.value[i] == f(o.value[i])
  {
    match o
    case None => None
    case Some(xs) => Some(seq(|xs|, i requires 0 <= i < |xs| => f(xs[i])))
  }
}
