/** Optional values: the model's stand-in for a C# reference that may be null. */
module Wrappers {

  datatype Option<+T> = None | Some(value: T)

  function Max(a: int, b: int): int
  {
    if a > b then a else b
  }

  /** Unity's Mathf.Max on two floats, over the reals. */
  function MaxReal(a: real, b: real): real
  {
    if a > b then a else b
  }

  /** Every entry of a sequence of weights or frame times is at least zero. */
  predicate NonNegative(xs: seq<real>)
  {
    forall i :: 0 <= i < |xs| ==> xs[i] >= 0.0
  }
}
