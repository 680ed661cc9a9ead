/** Where in a sequence a property holds. */
module Positions {

  /** The positions, in ascending order. */
  function Where<T>(s: seq<T>, p: T -> bool): (at: seq<nat>)
    ensures forall k :: 0 <= k < |at| ==> at[k] < |s| && p(s[at[k]])
  {
    if s == [] then []
    else Where(s[..|s| - 1], p) + (if p(s[|s| - 1]) then [|s| - 1] else [])
  }

  /** `at` has exactly the positions at which the property holds, each once, in ascending order. */
  ghost predicate Picks<T>(at: seq<nat>, s: seq<T>, p: T -> bool) {
    && (forall i, j :: 0 <= i < j < |at| ==> at[i] < at[j])
    && (forall k :: 0 <= k < |at| ==> at[k] < |s| && p(s[at[k]]))
    && (forall i :: 0 <= i < |s| && p(s[i]) ==> i in at)
  }

  lemma {:induction false} WherePicks<T>(s: seq<T>, p: T -> bool)
    ensures Picks(Where(s, p), s, p)
  {
    if s != [] {
      var n := |s| - 1;
      WherePicks(s[..n], p);
      var front, at := Where(s[..n], p), Where(s, p);
      forall i | 0 <= i < |s| && p(s[i]) ensures i in at {
        if i < n {
          assert s[..n][i] == s[i];
          assert i in front;
        } else {
          assert at[|front|] == n;
        }
      }
    }
  }
}
