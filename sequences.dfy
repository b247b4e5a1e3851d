/** Searching Python lists. */
module Sequences {
  import opened Options

  /** The first position of `x` in `s`, or None when `x` does not occur:
      Python's `list.index` with its ValueError turned into None. */
  function IndexOf<T(==)>(s: seq<T>, x: T): (r: Option<nat>)
    ensures r.None? <==> x !in s
    ensures r.Some? ==> r.value < |s| && s[r.value] == x
    ensures r.Some? ==> forall k | 0 <= k < r.value :: s[k] != x
  {
    if s == [] then None
    else if s[0] == x then Some(0)
    else
      match IndexOf(s[1..], x)
      case None => None
      case Some(k) => Some(k + 1)
  }
}
