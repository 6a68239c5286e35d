/** Searching a sequence, shared by the column lookup and the name parsers. */
module Sequences {
  /** The position of the first `x` in `s`, or `|s|` if there is none. */
  function IndexOf<T(==)>(s: seq<T>, x: T): (k: nat)
    ensures k <= |s|
    ensures k < |s| ==> s[k] == x
    ensures forall i :: 0 <= i < k ==> s[i] != x
  {
    if s == [] || s[0] == x then 0 else 1 + IndexOf(s[1..], x)
  }
}
