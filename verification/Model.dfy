/** Stratified ground programs and their least models. */
module Model {
  import opened Ground

  /** `external` lists the views whose rows are supported from outside the rules:
      message receives (explicit facts) and aggregates (group reductions). */
  datatype GroundProgram = GroundProgram(
    facts: set<Fact>, derivs: set<Deriv>, strata: seq<nat>, external: set<nat>)

  function Stratum(g: GroundProgram, f: Fact): nat {
    if f.view < |g.strata| then g.strata[f.view] else 0
  }

  function At(g: GroundProgram, s: set<Fact>, n: nat): (r: set<Fact>) {
    set f | f in s && Stratum(g, f) == n
  }

  function Below(g: GroundProgram, s: set<Fact>, n: nat): (r: set<Fact>) {
    set f | f in s && Stratum(g, f) < n
  }

  /** A derivation reads its head's stratum and below, and negates below only. */
  ghost predicate StratifiedDeriv(g: GroundProgram, d: Deriv) {
    && d.head in g.facts
    && (forall p :: 0 <= p < |d.body| ==> d.body[p].fact in g.facts)
    && (forall p :: 0 <= p < |d.body| ==> Stratum(g, d.body[p].fact) <= Stratum(g, d.head))
    && (forall p :: 0 <= p < |d.body| && Stratum(g, d.body[p].fact) == Stratum(g, d.head) ==> !d.body[p].negated)
  }

  ghost predicate Stratified(g: GroundProgram) {
    forall d :: d in g.derivs ==> StratifiedDeriv(g, d)
  }

  /** What rule construction guarantees of one derivation (bin/Oracle/Main.cpp:901-931). */
  ghost predicate WellFormedDeriv(g: GroundProgram, d: Deriv) {
    && StratifiedDeriv(g, d)
    && (forall p :: 0 <= p < |d.body| && Stratum(g, d.body[p].fact) == Stratum(g, d.head) ==> d.recursive)
    && (forall p, q :: 0 <= p < q < |d.body| && Stratum(g, d.body[p].fact) == Stratum(g, d.head)
          ==> Stratum(g, d.body[q].fact) == Stratum(g, d.head))
    && (d.body != [] ==> exists p :: 0 <= p < |d.body| && !d.body[p].negated)
  }

  ghost predicate HasLowerAtom(g: GroundProgram, d: Deriv) {
    exists p :: 0 <= p < |d.body| && Stratum(g, d.body[p].fact) < Stratum(g, d.head)
  }

  /** A recursive derivation that can be counted negatively in mid-batch: it has a
      lower-stratum literal and at least one more literal. */
  ghost predicate CanDip(g: GroundProgram, d: Deriv) {
    d.recursive && |d.body| >= 2 && HasLowerAtom(g, d)
  }

  /** Such a derivation never shares its head view with non-recursive support. */
  ghost predicate Unmixed(g: GroundProgram) {
    forall d, e :: d in g.derivs && e in g.derivs && CanDip(g, d) && e.head.view == d.head.view
      ==> e.recursive && d.head.view !in g.external
  }

  ghost predicate WellFormed(g: GroundProgram) {
    && (forall d :: d in g.derivs ==> WellFormedDeriv(g, d))
    && Unmixed(g)
  }

  /** `x` contains the external support of stratum `n` and is closed under every
      derivation whose head is in that stratum, read over `lower` and `x`. */
  ghost predicate Closed(g: GroundProgram, n: nat, lower: set<Fact>, ext: set<Fact>, x: set<Fact>) {
    && At(g, ext, n) <= x
    && forall d :: d in g.derivs && Stratum(g, d.head) == n && Active(d, lower + x) ==> d.head in x
  }

  /** The least model of stratum `n` over `lower`: the facts in every closed set. */
  ghost function Least(g: GroundProgram, n: nat, lower: set<Fact>, ext: set<Fact>): set<Fact> {
    set f | f in At(g, g.facts, n) &&
            forall x: set<Fact> :: x <= At(g, g.facts, n) && Closed(g, n, lower, ext, x) ==> f in x
  }

  /** `x` is the stratified least model under external support `ext`. */
  ghost predicate IsModel(g: GroundProgram, ext: set<Fact>, x: set<Fact>) {
    x <= g.facts && forall n: nat :: At(g, x, n) == Least(g, n, Below(g, x, n), ext)
  }

  /** In its own stratum a derivation is monotone: its same-stratum literals are positive. */
  lemma ActiveMonotone(g: GroundProgram, d: Deriv, n: nat, lower: set<Fact>, x: set<Fact>, y: set<Fact>)
    requires StratifiedDeriv(g, d) && Stratum(g, d.head) == n
    requires lower == Below(g, lower, n)
    requires x <= At(g, g.facts, n) && x <= y && y <= At(g, g.facts, n)
    requires Active(d, lower + x)
    ensures Active(d, lower + y)
  {
    forall p | 0 <= p < |d.body| ensures Holds(d.body[p], lower + y) {
      assert Holds(d.body[p], lower + x);
    }
  }

  /** Only the facts below and at the head's stratum matter to a derivation. */
  lemma ActiveLocal(g: GroundProgram, d: Deriv, n: nat, s: set<Fact>, t: set<Fact>)
    requires StratifiedDeriv(g, d) && Stratum(g, d.head) == n
    requires Below(g, s, n) == Below(g, t, n) && At(g, s, n) == At(g, t, n)
    ensures Active(d, s) == Active(d, t)
  {
    forall p | 0 <= p < |d.body| ensures Holds(d.body[p], s) == Holds(d.body[p], t) {
      var f := d.body[p].fact;
      assert f in Below(g, s, n) <==> f in Below(g, t, n);
      assert f in At(g, s, n) <==> f in At(g, t, n);
    }
  }

  /** A derivation reads its own stratum and below, nothing else. */
  lemma ActiveSplit(g: GroundProgram, d: Deriv, n: nat, s: set<Fact>)
    requires StratifiedDeriv(g, d) && Stratum(g, d.head) == n
    ensures Active(d, Below(g, s, n) + At(g, s, n)) == Active(d, s)
  {
    ActiveLocal(g, d, n, Below(g, s, n) + At(g, s, n), s);
  }

  /** The least model is itself closed. */
  lemma LeastIsClosed(g: GroundProgram, n: nat, lower: set<Fact>, ext: set<Fact>)
    requires Stratified(g) && lower == Below(g, lower, n) && ext <= g.facts
    ensures Closed(g, n, lower, ext, Least(g, n, lower, ext))
  {
    var m := Least(g, n, lower, ext);
    forall d | d in g.derivs && Stratum(g, d.head) == n && Active(d, lower + m)
      ensures d.head in m
    {
      forall x: set<Fact> | x <= At(g, g.facts, n) && Closed(g, n, lower, ext, x)
        ensures d.head in x
      {
        assert m <= x;
        ActiveMonotone(g, d, n, lower, m, x);
      }
    }
  }

  lemma LeastIsLeast(g: GroundProgram, n: nat, lower: set<Fact>, ext: set<Fact>, x: set<Fact>)
    requires Closed(g, n, lower, ext, x)
    requires x <= At(g, g.facts, n)
    ensures Least(g, n, lower, ext) <= x
  {
  }

  /** Everything in the least model is supported: from outside, or by an active derivation. */
  lemma LeastIsSupported(g: GroundProgram, n: nat, lower: set<Fact>, ext: set<Fact>, f: Fact)
    requires Stratified(g) && lower == Below(g, lower, n) && ext <= g.facts
    requires f in Least(g, n, lower, ext)
    ensures f in ext || exists d :: d in g.derivs && d.head == f && Active(d, lower + Least(g, n, lower, ext))
  {
    var m := Least(g, n, lower, ext);
    LeastIsClosed(g, n, lower, ext);
    if f !in ext && forall d :: d in g.derivs && d.head == f ==> !Active(d, lower + m) {
      var x := m - {f};
      forall d | d in g.derivs && Stratum(g, d.head) == n && Active(d, lower + x)
        ensures d.head in x
      {
        ActiveMonotone(g, d, n, lower, x, m);
      }
      LeastIsLeast(g, n, lower, ext, x);
      assert false;
    }
  }

  /** The least model depends on the external support of its own stratum only. */
  lemma LeastLocal(g: GroundProgram, n: nat, lower: set<Fact>, ext: set<Fact>, ext': set<Fact>)
    requires At(g, ext, n) == At(g, ext', n)
    ensures Least(g, n, lower, ext) == Least(g, n, lower, ext')
  {
    forall x: set<Fact> ensures Closed(g, n, lower, ext, x) == Closed(g, n, lower, ext', x) {
    }
  }

  /** All facts are in strata below `n`. */
  ghost predicate AllBelow(g: GroundProgram, n: nat) {
    forall f :: f in g.facts ==> Stratum(g, f) < n
  }

  /** Strata without facts have the empty least model. */
  lemma LeastAbove(g: GroundProgram, n: nat, m: nat, x: set<Fact>, ext: set<Fact>)
    requires AllBelow(g, n) && n <= m && x <= g.facts
    ensures At(g, x, m) == Least(g, m, Below(g, x, m), ext)
  {
    assert At(g, g.facts, m) == {};
  }

  /** The stratified least model is unique. */
  lemma {:induction false} ModelBelowUnique(g: GroundProgram, ext: set<Fact>, x: set<Fact>, y: set<Fact>, n: nat)
    requires IsModel(g, ext, x) && IsModel(g, ext, y)
    ensures Below(g, x, n) == Below(g, y, n)
  {
    hide Least, Closed;
    if n > 0 {
      ModelBelowUnique(g, ext, x, y, n - 1);
      assert At(g, x, n - 1) == At(g, y, n - 1);
      assert Below(g, x, n) == Below(g, x, n - 1) + At(g, x, n - 1);
      assert Below(g, y, n) == Below(g, y, n - 1) + At(g, y, n - 1);
    }
  }

  lemma ModelUnique(g: GroundProgram, ext: set<Fact>, x: set<Fact>, y: set<Fact>)
    requires IsModel(g, ext, x) && IsModel(g, ext, y)
    ensures x == y
  {
    forall f | f in x + y ensures f in x && f in y {
      var n := Stratum(g, f) + 1;
      ModelBelowUnique(g, ext, x, y, n);
      assert f in x <==> f in Below(g, x, n);
      assert f in y <==> f in Below(g, y, n);
    }
  }

  /** A model is closed under every rule, and everything in it is supported. */
  lemma ModelFacts(g: GroundProgram, ext: set<Fact>, x: set<Fact>)
    requires Stratified(g) && ext <= g.facts && IsModel(g, ext, x)
    ensures ext <= x
    ensures forall d :: d in g.derivs && Active(d, x) ==> d.head in x
    ensures forall f :: f in x ==> f in ext || exists d :: d in g.derivs && d.head == f && Active(d, x)
  {
    hide Active;
    forall f | f in ext ensures f in x {
      LeastIsClosed(g, Stratum(g, f), Below(g, x, Stratum(g, f)), ext);
      assert f in At(g, ext, Stratum(g, f));
    }
    forall d | d in g.derivs && Active(d, x) ensures d.head in x {
      var n := Stratum(g, d.head);
      LeastIsClosed(g, n, Below(g, x, n), ext);
      ActiveSplit(g, d, n, x);
    }
    forall f | f in x && f !in ext ensures exists d :: d in g.derivs && d.head == f && Active(d, x) {
      var n := Stratum(g, f);
      assert f in At(g, x, n);
      LeastIsSupported(g, n, Below(g, x, n), ext, f);
      var d :| d in g.derivs && d.head == f && Active(d, Below(g, x, n) + Least(g, n, Below(g, x, n), ext));
      ActiveSplit(g, d, n, x);
    }
  }
}
