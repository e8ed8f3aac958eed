/** From firings to weights: what one seed pass and one claim round do to every derivation
    of the stratum, and the whole stratum step. */
module Passes {
  import opened Ground
  import opened Weights
  import opened Model
  import opened Phase
  import opened Overdeletion
  import opened Insertion

  /** Exactly the derivations of stratum `n` that fire from `s` to `t` had their weight changed. */
  ghost predicate Fired(g: GroundProgram, n: nat, before: Weight, after: Weight,
                        s: set<Fact>, t: set<Fact>, gained: bool)
    requires before.Keys == g.derivs && after.Keys == g.derivs
  {
    forall d :: d in g.derivs && Stratum(g, d.head) == n ==>
      after[d] == before[d] + (if gained then Bit(Fires(d, s, t, true)) else -Bit(Fires(d, s, t, false)))
  }

  /** Facts of stratum `n` leave (or enter), nothing else changes: no derivation fires the other way. */
  ghost predicate Shrinks(g: GroundProgram, n: nat, s: set<Fact>, t: set<Fact>) {
    t <= s && forall f :: f in s && f !in t ==> Stratum(g, f) == n
  }

  lemma ShrinkGainsNothing(g: GroundProgram, n: nat, d: Deriv, s: set<Fact>, t: set<Fact>)
    requires WellFormedDeriv(g, d) && Stratum(g, d.head) == n && Shrinks(g, n, s, t)
    ensures !Fires(d, s, t, true) && !Fires(d, t, s, false)
  {
  }

  /** The - seeds leave the weights short of the new lower state by the + seeds only. */
  lemma MinusSeedsWeigh(g: GroundProgram, n: nat, s: State, s': State, ext0: set<Fact>)
    requires Boundary(g, n, s, ext0) && Deleting(g, n, s, s', ext0)
    requires s'.deleted == s.deleted
    requires Fired(g, n, s.w, s'.w, s.present, s.Current(), false)
    ensures WeighsShort(g, n, s', s.Current(), s'.Current())
  {
    forall d | d in g.derivs && Stratum(g, d.head) == n
      ensures s'.w[d] == Bit(Active(d, s'.Current())) - Bit(Fires(d, s'.present, s.Current(), true))
    {
      DeltaLaw(d, s.present, s.Current());
    }
  }

  /** One claim round of OVERDELETE: subtracting the firings of the claimed rows moves the
      weights from the rows before the claim to the rows after it. */
  lemma DeleteRoundWeighs(g: GroundProgram, n: nat, s: State, c: State, t: State, mid: set<Fact>)
    requires WellFormed(g) && Shaped(g, s) && Shaped(g, c) && Shaped(g, t)
    requires WeighsShort(g, n, s, mid, s.Current())
    requires c.w == s.w && c.present == s.present && Shrinks(g, n, s.Current(), c.Current())
    requires t.present == s.present && t.Current() == c.Current()
    requires Fired(g, n, c.w, t.w, s.Current(), c.Current(), false)
    ensures WeighsShort(g, n, t, mid, t.Current())
  {
    forall d | d in g.derivs && Stratum(g, d.head) == n
      ensures t.w[d] == Bit(Active(d, t.Current())) - Bit(Fires(d, t.present, mid, true))
    {
      DeltaLaw(d, s.Current(), c.Current());
      ShrinkGainsNothing(g, n, d, s.Current(), c.Current());
    }
  }

  /** The + seeds pay back exactly what the weights were short of. */
  lemma PlusSeedsWeigh(g: GroundProgram, n: nat, s: State, t: State, mid: set<Fact>)
    requires Shaped(g, s) && Shaped(g, t)
    requires WeighsShort(g, n, s, mid, s.Current())
    requires t.Current() == s.Current()
    requires Fired(g, n, s.w, t.w, s.present, mid, true)
    ensures Weighs(g, n, t, t.Current())
  {
  }

  /** One claim round of INSERT, likewise. */
  lemma InsertRoundWeighs(g: GroundProgram, n: nat, s: State, c: State, t: State)
    requires WellFormed(g) && Shaped(g, s) && Shaped(g, c) && Shaped(g, t)
    requires Weighs(g, n, s, s.Current())
    requires c.w == s.w && Shrinks(g, n, c.Current(), s.Current())
    requires t.Current() == c.Current()
    requires Fired(g, n, c.w, t.w, s.Current(), c.Current(), true)
    ensures Weighs(g, n, t, t.Current())
  {
    forall d | d in g.derivs && Stratum(g, d.head) == n ensures t.w[d] == Bit(Active(d, t.Current())) {
      DeltaLaw(d, s.Current(), c.Current());
      ShrinkGainsNothing(g, n, d, c.Current(), s.Current());
    }
  }

  /** In an insert round a derivation that fires was inactive and becomes active. */
  lemma InsertFiringActivates(g: GroundProgram, n: nat, d: Deriv, s: set<Fact>, t: set<Fact>)
    requires WellFormedDeriv(g, d) && Stratum(g, d.head) == n && Shrinks(g, n, t, s)
    requires Fires(d, s, t, true)
    ensures !Active(d, s) && Active(d, t)
  {
    DeltaLaw(d, s, t);
    ShrinkGainsNothing(g, n, d, t, s);
  }

  // ------------------------------------------------------------------
  // The whole stratum step.

  /** `s0` reached stratum `n`, `s1` is the state after OVERDELETE, `s2` after INSERT. */
  lemma StratumStep(g: GroundProgram, n: nat, s0: State, s1: State, s2: State, ext0: set<Fact>)
    requires WellFormed(g) && Boundary(g, n, s0, ext0)
    requires Deleting(g, n, s0, s1, ext0) && At(g, s1.pendDel, n) == {}
    requires Inserting(g, n, s1, s2) && At(g, s2.pendAdd, n) == {} && Weighs(g, n, s2, s2.Current())
    ensures Boundary(g, n + 1, s2, ext0)
  {
    InsertedExactly(g, n, s1, s2);
    forall f | f in g.facts && Stratum(g, f) < n + 1 ensures FactDone(g, s2, f) {
      StepFactDone(g, n, s0, s1, s2, ext0, f);
    }
    StepBelow(g, n, s0, s1, s2, ext0);
    StepWaiting(g, n, s0, s1, s2, ext0);
  }

  lemma StepFactDone(g: GroundProgram, n: nat, s0: State, s1: State, s2: State, ext0: set<Fact>, f: Fact)
    requires Shaped(g, s0) && DoneBelow(g, n, s0)
    requires Deleting(g, n, s0, s1, ext0) && At(g, s1.pendDel, n) == {}
    requires Inserting(g, n, s1, s2) && At(g, s2.pendAdd, n) == {}
    requires f in g.facts && Stratum(g, f) <= n
    requires Stratum(g, f) == n ==> (f in s2.Current() <==> Total(s2, f) > 0)
    ensures FactDone(g, s2, f)
  {
    if Stratum(g, f) < n {
      assert FactDone(g, s0, f);
    } else {
      assert FactInserting(g, s2, f, Target(g, n, s1));
      assert f !in At(g, s2.pendAdd, n) && f !in At(g, s1.pendDel, n);
    }
  }

  /** Two states with the same rows below `n`. */
  ghost predicate SameBelow(g: GroundProgram, n: nat, s: set<Fact>, t: set<Fact>) {
    Below(g, s, n) == Below(g, t, n)
  }

  lemma SameBelowLower(g: GroundProgram, n: nat, m: nat, s: set<Fact>, t: set<Fact>)
    requires SameBelow(g, n, s, t) && m < n
    ensures Below(g, s, m) == Below(g, t, m) && At(g, s, m) == At(g, t, m)
  {
    assert Below(g, s, m) == Below(g, Below(g, s, n), m) && At(g, s, m) == At(g, Below(g, s, n), m);
    assert Below(g, t, m) == Below(g, Below(g, t, n), m) && At(g, t, m) == At(g, Below(g, t, n), m);
  }

  lemma StepSameBelow(g: GroundProgram, n: nat, s0: State, s1: State, s2: State, ext0: set<Fact>)
    requires Deleting(g, n, s0, s1, ext0) && Inserting(g, n, s1, s2)
    ensures SameBelow(g, n, s0.Current(), s2.Current())
    ensures s2.present == s0.present && s2.ext == s0.ext
  {
    TargetStays(g, n, s0, s1);
    TargetStays(g, n, s1, s2);
  }

  lemma StepWeights(g: GroundProgram, n: nat, s0: State, s2: State, d: Deriv)
    requires Shaped(g, s0) && DoneBelow(g, n, s0) && Shaped(g, s2)
    requires SameBelow(g, n, s0.Current(), s2.Current())
    requires d in g.derivs && WellFormedDeriv(g, d) && Stratum(g, d.head) < n && s2.w[d] == s0.w[d]
    ensures s2.w[d] == Bit(Active(d, s2.Current()))
  {
    SameBelowLower(g, n, Stratum(g, d.head), s0.Current(), s2.Current());
    ActiveLocal(g, d, Stratum(g, d.head), s0.Current(), s2.Current());
  }

  lemma StepModel(g: GroundProgram, n: nat, s0: State, s2: State, m: nat)
    requires Shaped(g, s0) && DoneBelow(g, n, s0) && m < n && s2.ext == s0.ext
    requires SameBelow(g, n, s0.Current(), s2.Current())
    ensures At(g, s2.Current(), m) == Least(g, m, Below(g, s2.Current(), m), s2.ext)
  {
    SameBelowLower(g, n, m, s0.Current(), s2.Current());
  }

  lemma StepBelow(g: GroundProgram, n: nat, s0: State, s1: State, s2: State, ext0: set<Fact>)
    requires WellFormed(g) && Shaped(g, s0) && DoneBelow(g, n, s0)
    requires Deleting(g, n, s0, s1, ext0) && Inserting(g, n, s1, s2)
    requires Weighs(g, n, s2, s2.Current()) && At(g, s2.Current(), n) == Target(g, n, s2)
    requires forall f :: f in g.facts && Stratum(g, f) < n + 1 ==> FactDone(g, s2, f)
    ensures DoneBelow(g, n + 1, s2)
  {
    StepSameBelow(g, n, s0, s1, s2, ext0);
    forall d | d in g.derivs && Stratum(g, d.head) < n + 1 ensures s2.w[d] == Bit(Active(d, s2.Current())) {
      if Stratum(g, d.head) < n {
        StepWeights(g, n, s0, s2, d);
      }
    }
    forall m: nat | m < n + 1 ensures At(g, s2.Current(), m) == Least(g, m, Below(g, s2.Current(), m), s2.ext) {
      if m < n {
        StepModel(g, n, s0, s2, m);
      }
    }
  }

  lemma StepWaiting(g: GroundProgram, n: nat, s0: State, s1: State, s2: State, ext0: set<Fact>)
    requires Shaped(g, s0) && WaitingFrom(g, n, s0, ext0)
    requires Deleting(g, n, s0, s1, ext0) && Inserting(g, n, s1, s2)
    ensures WaitingFrom(g, n + 1, s2, ext0)
  {
    forall f | f in g.facts && Stratum(g, f) >= n + 1 ensures FactWaiting(s2, f, ext0) {
      assert FactWaiting(s0, f, ext0);
    }
  }
}
