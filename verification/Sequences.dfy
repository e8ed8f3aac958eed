/** Sequences of distinct numbers. */
module Sequences {

  ghost predicate Distinct(s: seq<nat>) {
    forall i, j :: 0 <= i < j < |s| ==> s[i] != s[j]
  }

  ghost function Members(s: seq<nat>): set<nat> {
    set v | v in s
  }

  lemma {:induction false} DistinctSize(s: seq<nat>)
    requires Distinct(s)
    ensures |Members(s)| == |s|
  {
    if s != [] {
      var front := s[..|s| - 1];
      DistinctSize(front);
      assert Members(s) == Members(front) + {s[|s| - 1]};
    }
  }

  lemma {:induction false} BelowSize(n: nat, s: set<nat>)
    requires forall v: nat :: v in s ==> v < n
    ensures |s| <= n && ((forall v: nat :: v < n ==> v in s) ==> |s| == n)
  {
    if n == 0 {
      assert s == {};
    } else {
      BelowSize(n - 1, s - {n - 1});
    }
  }

  /** Distinct numbers below `n` are at most `n`. */
  lemma DistinctFit(s: seq<nat>, n: nat)
    requires Distinct(s) && forall v :: v in s ==> v < n
    ensures |s| <= n
  {
    DistinctSize(s);
    BelowSize(n, Members(s));
  }
}
