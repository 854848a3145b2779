/** Order facts about sequences shared by the models. */
module Seqs {

  /**
   * `a` can be obtained from `b` by deleting elements: it keeps the order of
   * `b`. Matching from the right is complete for subsequences.
   */
  predicate IsSubsequence<T(==)>(a: seq<T>, b: seq<T>)
    decreases |b|
  {
    if a == [] then true
    else if b == [] then false
    else if a[|a| - 1] == b[|b| - 1] then IsSubsequence(a[..|a| - 1], b[..|b| - 1])
    else IsSubsequence(a, b[..|b| - 1])
  }

  /** A non-empty sequence is its prefix followed by its last element. */
  lemma SplitLast<T>(s: seq<T>)
    requires s != []
    ensures s[..|s| - 1] + [s[|s| - 1]] == s
  {
    var t := s[..|s| - 1] + [s[|s| - 1]];
    assert forall i :: 0 <= i < |s| ==> t[i] == s[i];
  }

  /** Appending a sequence that ends in `x` is appending its front, then `x`. */
  lemma AppendSnoc<T>(a: seq<T>, b: seq<T>)
    requires b != []
    ensures a + b == (a + b[..|b| - 1]) + [b[|b| - 1]]
  {
    SplitLast(b);
  }
}
