/** The part of System.Linq that the validators rely on: Enumerable.All. */
module Linq {

  /** Every element of `s` satisfies `p` (the quantifier reading of All). */
  predicate Every<T>(s: seq<T>, p: T -> bool) {
    forall i :: 0 <= i < |s| ==> p(s[i])
  }

  /** Enumerable.All: scans the sequence from the front and stops at the
      first element for which `p` is false; an empty sequence yields true. */
  function All<T>(s: seq<T>, p: T -> bool): bool {
    if s == [] then true else p(s[0]) && All(s[1..], p)
  }

  /** The scan answers exactly the quantified question, in both directions. */
  lemma {:induction false} AllMeansEvery<T>(s: seq<T>, p: T -> bool)
    ensures All(s, p) <==> Every(s, p)
  {
    if s != [] {
      AllMeansEvery(s[1..], p);
      assert forall i :: 1 <= i < |s| ==> s[1..][i - 1] == s[i];
    }
  }

}
