/** Order between sequences, shared by the list operations of the model. */
module Sequences {

  /** `a` occurs in `b` in order, possibly with gaps. */
  predicate IsSubsequence<T(==)>(a: seq<T>, b: seq<T>) {
    if a == [] then true
    else if b == [] then false
    else if a[0] == b[0] then IsSubsequence(a[1..], b[1..])
    else IsSubsequence(a, b[1..])
  }

  /** `map` over a sequence: each element through `f`, in place. */
  function Map<T, U>(f: T -> U, s: seq<T>): (r: seq<U>)
    ensures |r| == |s|
    ensures forall i :: 0 <= i < |s| ==> r[i] == f(s[i])
  {
    seq(|s|, i requires 0 <= i < |s| => f(s[i]))
  }

  /** Mapping a two-element sequence. */
  lemma MapPair<T, U>(f: T -> U, a: T, b: T)
    ensures Map(f, [a, b]) == [f(a)] + [f(b)]
  {
  }
}
