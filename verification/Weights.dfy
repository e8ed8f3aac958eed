/** Sums of integer weights over finite sets of derivations. */
module Weights {
  import opened Ground

  type Weight = map<Deriv, int>

  ghost function Sum(s: set<Deriv>, w: Weight): int
    requires s <= w.Keys
  {
    if s == {} then 0
    else
      var d :| d in s;
      w[d] + Sum(s - {d}, w)
  }

  lemma {:induction false} SumSplit(s: set<Deriv>, w: Weight, d: Deriv)
    requires s <= w.Keys && d in s
    ensures Sum(s, w) == w[d] + Sum(s - {d}, w)
    decreases s
  {
    var e :| e in s && Sum(s, w) == w[e] + Sum(s - {e}, w);
    if e != d {
      SumSplit(s - {e}, w, d);
      SumSplit(s - {d}, w, e);
      assert s - {e} - {d} == s - {d} - {e};
    }
  }

  lemma {:induction false} SumSame(s: set<Deriv>, w: Weight, v: Weight)
    requires s <= w.Keys && s <= v.Keys
    requires forall d :: d in s ==> w[d] == v[d]
    ensures Sum(s, w) == Sum(s, v)
    decreases s
  {
    if s != {} {
      var d :| d in s;
      SumSplit(s, w, d);
      SumSplit(s, v, d);
      SumSame(s - {d}, w, v);
    }
  }

  /** Changing one weight changes the sum by the same amount when the derivation is a summand. */
  lemma SumUpdate(s: set<Deriv>, w: Weight, d: Deriv, x: int)
    requires s <= w.Keys && d in w
    ensures Sum(s, w[d := x]) == Sum(s, w) + (if d in s then x - w[d] else 0)
  {
    if d in s {
      SumSplit(s, w, d);
      SumSplit(s, w[d := x], d);
      SumSame(s - {d}, w, w[d := x]);
    } else {
      SumSame(s, w, w[d := x]);
    }
  }

  lemma {:induction false} SumMonotone(s: set<Deriv>, w: Weight, v: Weight)
    requires s <= w.Keys && s <= v.Keys
    requires forall d :: d in s ==> w[d] <= v[d]
    ensures Sum(s, w) <= Sum(s, v)
    decreases s
  {
    if s != {} {
      var d :| d in s;
      SumSplit(s, w, d);
      SumSplit(s, v, d);
      SumMonotone(s - {d}, w, v);
    }
  }

  lemma {:induction false} SumAtLeast(s: set<Deriv>, w: Weight)
    requires s <= w.Keys
    requires forall d :: d in s ==> 0 <= w[d]
    ensures 0 <= Sum(s, w)
    ensures forall d :: d in s ==> w[d] <= Sum(s, w)
    decreases s
  {
    forall d | d in s ensures w[d] <= Sum(s, w) {
      SumSplit(s, w, d);
      SumAtLeast(s - {d}, w);
    }
    if s != {} {
      var d :| d in s;
      assert w[d] <= Sum(s, w);
    }
  }

  /** A positive sum has a positive summand. */
  lemma {:induction false} SumWitness(s: set<Deriv>, w: Weight) returns (d: Deriv)
    requires s <= w.Keys && 0 < Sum(s, w)
    ensures d in s && 0 < w[d]
    decreases s
  {
    d :| d in s;
    if w[d] <= 0 {
      SumSplit(s, w, d);
      d := SumWitness(s - {d}, w);
    }
  }

  /** When every weight is 0 or 1, the sum counts the derivations of weight 1. */
  lemma {:induction false} SumCounts(s: set<Deriv>, w: Weight)
    requires s <= w.Keys
    requires forall d :: d in s ==> w[d] == 0 || w[d] == 1
    ensures Sum(s, w) == |set d | d in s && w[d] == 1|
    decreases s
  {
    var ones := set d | d in s && w[d] == 1;
    if s != {} {
      var d :| d in s;
      SumSplit(s, w, d);
      SumCounts(s - {d}, w);
      var rest := set e | e in s - {d} && w[e] == 1;
      if w[d] == 1 {
        assert ones == rest + {d};
      } else {
        assert ones == rest;
      }
    }
  }
}
