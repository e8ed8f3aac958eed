/** Facts, ground derivations and the two-state delta law.

    A derivation is one instance of one rule: one row per body position, in the
    schema order in which the engine reads positions (lower strata first, then
    the head's own stratum).  The row of a negated position is the key whose
    absence is tested. */
module Ground {

  type Value = x: int | 0 <= x < 0x1_0000_0000_0000_0000
  type Row = seq<Value>

  datatype Fact = Fact(view: nat, row: Row)

  datatype Literal = Literal(fact: Fact, negated: bool)

  datatype Deriv = Deriv(rule: nat, head: Fact, body: seq<Literal>, recursive: bool)

  function Bit(b: bool): int {
    if b then 1 else 0
  }

  predicate Holds(l: Literal, s: set<Fact>) {
    if l.negated then l.fact !in s else l.fact in s
  }

  ghost predicate Active(d: Deriv, s: set<Fact>) {
    forall p :: 0 <= p < |d.body| ==> Holds(d.body[p], s)
  }

  /** The literal changes truth from `s` to `t`: it is gained or it is lost. */
  ghost predicate Flips(l: Literal, s: set<Fact>, t: set<Fact>, gained: bool) {
    Holds(l, s) == !gained && Holds(l, t) == gained
  }

  /** The delta schema: position `p` flips, positions before it are read in the
      new state `t`, positions after it in the old state `s`. */
  ghost predicate FiresAt(d: Deriv, p: nat, s: set<Fact>, t: set<Fact>, gained: bool) {
    && p < |d.body|
    && Flips(d.body[p], s, t, gained)
    && (forall q :: 0 <= q < p ==> Holds(d.body[q], t))
    && (forall q :: p < q < |d.body| ==> Holds(d.body[q], s))
  }

  ghost predicate Fires(d: Deriv, s: set<Fact>, t: set<Fact>, gained: bool) {
    exists p: nat :: FiresAt(d, p, s, t, gained)
  }

  /** A derivation fires at no more than one position with a given sign. */
  lemma FiresOnce(d: Deriv, p: nat, q: nat, s: set<Fact>, t: set<Fact>, gained: bool)
    requires FiresAt(d, p, s, t, gained) && FiresAt(d, q, s, t, gained)
    ensures p == q
  {
  }

  /** The first position in [lo, |body|) that fails in `t`, everything before it holding in `t`. */
  lemma FirstFailing(d: Deriv, lo: nat, t: set<Fact>) returns (p: nat)
    requires lo <= |d.body|
    requires forall q :: 0 <= q < lo ==> Holds(d.body[q], t)
    requires !Active(d, t)
    ensures lo <= p < |d.body| && !Holds(d.body[p], t)
    ensures forall q :: 0 <= q < p ==> Holds(d.body[q], t)
  {
    p := lo;
    while p < |d.body| && Holds(d.body[p], t)
      invariant lo <= p <= |d.body|
      invariant forall q :: 0 <= q < p ==> Holds(d.body[q], t)
    {
      p := p + 1;
    }
  }

  /** The last position in [0, hi) that fails in `s`, everything after it holding in `s`. */
  lemma LastFailing(d: Deriv, hi: nat, s: set<Fact>) returns (p: nat)
    requires hi <= |d.body|
    requires forall q :: hi <= q < |d.body| ==> Holds(d.body[q], s)
    requires !Active(d, s)
    ensures p < hi && !Holds(d.body[p], s)
    ensures forall q :: p < q < |d.body| ==> Holds(d.body[q], s)
  {
    var k: int := hi - 1;
    while 0 <= k && Holds(d.body[k], s)
      invariant -1 <= k < hi
      invariant forall q :: k < q < |d.body| ==> Holds(d.body[q], s)
    {
      k := k - 1;
    }
    p := k;
  }

  /** A derivation that is inactive in both states fires with both signs or with neither. */
  lemma PhantomsCancel(d: Deriv, s: set<Fact>, t: set<Fact>)
    requires !Active(d, s) && !Active(d, t)
    ensures Fires(d, s, t, true) == Fires(d, s, t, false)
  {
    if Fires(d, s, t, true) {
      var p: nat :| FiresAt(d, p, s, t, true);
      var q := FirstFailing(d, p + 1, t);
      assert FiresAt(d, q, s, t, false);
    }
    if Fires(d, s, t, false) {
      var p: nat :| FiresAt(d, p, s, t, false);
      var q := LastFailing(d, p, s);
      assert FiresAt(d, q, s, t, true);
    }
  }

  /** The signed sum of the delta schema's firings is exactly the change of activity
      from `s` to `t`, for any number of positions of either polarity. */
  lemma DeltaLaw(d: Deriv, s: set<Fact>, t: set<Fact>)
    ensures Bit(Active(d, t)) == Bit(Active(d, s)) + Bit(Fires(d, s, t, true)) - Bit(Fires(d, s, t, false))
  {
    if Active(d, s) && !Active(d, t) {
      var p := FirstFailing(d, 0, t);
      assert FiresAt(d, p, s, t, false);
    } else if !Active(d, s) && Active(d, t) {
      var p := LastFailing(d, |d.body|, s);
      assert FiresAt(d, p, s, t, true);
    } else if !Active(d, s) {
      PhantomsCancel(d, s, t);
    }
  }
}
