/** Small datatypes shared by the models. */
module Common {

  /** A nullable column or an optional dictionary entry. */
  datatype Option<+T> = None | Some(value: T)

  /** The outcome of a Python call: a returned value, or an exception. */
  datatype Outcome<+T> = Return(value: T) | Raise

  function Min(a: int, b: int): int {
    if a <= b then a else b
  }

  function Map<A, B>(f: A -> B, s: seq<A>): (r: seq<B>)
    ensures |r| == |s| && forall k :: 0 <= k < |s| ==> r[k] == f(s[k])
  {
    if s == [] then [] else Map(f, s[..|s| - 1]) + [f(s[|s| - 1])]
  }
}
