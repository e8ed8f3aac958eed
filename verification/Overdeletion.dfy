/** The state between strata, what every step of OVERDELETE keeps, and why the rows that
    survive it are all in the stratum's new least model. */
module Overdeletion {
  import opened Ground
  import opened Weights
  import opened Model
  import opened Phase

  // ------------------------------------------------------------------
  // Between strata.

  /** A batch starts empty, or from the stratified least model of its old support. */
  ghost predicate StartsFrom(g: GroundProgram, present: set<Fact>, ext0: set<Fact>) {
    (present == {} && ext0 == {}) || (ext0 <= g.facts && IsModel(g, ext0, present))
  }

  ghost predicate FactDone(g: GroundProgram, s: State, f: Fact)
    requires Shaped(g, s) && f in g.facts
  {
    && f !in s.pendDel && f !in s.pendAdd
    && !(f in s.added && s.Survives(f))
    && (f in s.Current() <==> Total(s, f) > 0)
  }

  /** Strata below `n` are finished: exact weights, exact membership, drained queues. */
  ghost predicate DoneBelow(g: GroundProgram, n: nat, s: State)
    requires Shaped(g, s)
  {
    && (forall f :: f in g.facts && Stratum(g, f) < n ==> FactDone(g, s, f))
    && (forall d :: d in g.derivs && Stratum(g, d.head) < n ==> s.w[d] == Bit(Active(d, s.Current())))
    && (forall m: nat :: m < n ==> At(g, s.Current(), m) == Least(g, m, Below(g, s.Current(), m), s.ext))
  }

  ghost predicate FactWaiting(s: State, f: Fact, ext0: set<Fact>)
    requires f in s.nr && f in s.rc
  {
    && f !in s.deleted && f !in s.added
    && (f in s.pendDel ==> f in s.present && s.nr[f] <= 0 && f in ext0 && f !in s.ext)
    && (f in s.present && f !in s.pendDel ==> s.nr[f] > 0 || (f in ext0 ==> f in s.ext))
    && (f in s.pendAdd <==> f !in s.present && Total(s, f) > 0)
  }

  /** Strata from `n` up still count over the batch-start state. */
  ghost predicate WaitingFrom(g: GroundProgram, n: nat, s: State, ext0: set<Fact>)
    requires Shaped(g, s)
  {
    && (forall f :: f in g.facts && Stratum(g, f) >= n ==> FactWaiting(s, f, ext0))
    && (forall d :: d in g.derivs && Stratum(g, d.head) >= n ==> s.w[d] == Bit(Active(d, s.present)))
  }

  ghost predicate Boundary(g: GroundProgram, n: nat, s: State, ext0: set<Fact>) {
    && Counted(g, s)
    && StartsFrom(g, s.present, ext0)
    && DoneBelow(g, n, s)
    && WaitingFrom(g, n, s, ext0)
  }

  /** A batch-start row is supported in the batch-start state. */
  lemma PresentSupported(g: GroundProgram, present: set<Fact>, ext0: set<Fact>, f: Fact)
    requires WellFormed(g) && StartsFrom(g, present, ext0) && f in present
    ensures f in ext0 || exists d :: d in g.derivs && d.head == f && Active(d, present)
  {
    var n := Stratum(g, f);
    assert f in At(g, present, n);
    LeastIsSupported(g, n, Below(g, present, n), ext0, f);
    if f !in ext0 {
      var d :| d in g.derivs && d.head == f && Active(d, Below(g, present, n) + At(g, present, n));
      ActiveSplit(g, d, n, present);
    }
  }

  /** A derivation active at batch start has its head present, or it has no body at all
      (an init rule that has just fired). */
  lemma PresentClosed(g: GroundProgram, present: set<Fact>, ext0: set<Fact>, d: Deriv)
    requires WellFormed(g) && StartsFrom(g, present, ext0)
    requires d in g.derivs && Active(d, present)
    ensures d.head in present || d.body == []
    ensures present != {} && d.body != [] ==> d.head in present
    ensures IsModel(g, ext0, present) && ext0 <= g.facts ==> d.head in present
  {
    if IsModel(g, ext0, present) && ext0 <= g.facts {
      var n := Stratum(g, d.head);
      LeastIsClosed(g, n, Below(g, present, n), ext0);
      ActiveSplit(g, d, n, present);
    } else {
      OnlyInitRulesStart(g, d);
    }
  }

  /** Over the empty state only a derivation without a body is active. */
  lemma OnlyInitRulesStart(g: GroundProgram, d: Deriv)
    requires WellFormedDeriv(g, d) && Active(d, {})
    ensures d.body == []
  {
  }

  // ------------------------------------------------------------------
  // Overdelete.

  /** Nothing counted for `f` has been taken away in this batch. */
  ghost predicate Intact(g: GroundProgram, s: State, f: Fact, ext0: set<Fact>)
    requires Shaped(g, s)
  {
    && (f in ext0 ==> f in s.ext)
    && (forall d :: d in g.derivs && d.head == f ==> s.w[d] == Bit(Active(d, s.present)))
  }

  ghost predicate FactDeleting(g: GroundProgram, s: State, s': State, f: Fact, ext0: set<Fact>)
    requires Shaped(g, s) && Shaped(g, s') && f in g.facts
  {
    && s'.nr[f] <= s.nr[f] && s'.rc[f] <= s.rc[f]
    && (f in s'.pendDel || f in s'.deleted ==> f in s'.present && s'.nr[f] <= 0)
    && (s'.Survives(f) && f !in s'.pendDel ==> s'.nr[f] > 0 || Intact(g, s', f, ext0))
  }

  /** `s'` agrees with `s` on everything outside stratum `n`. */
  ghost predicate SameElsewhere(g: GroundProgram, n: nat, s: State, s': State)
    requires Shaped(g, s) && Shaped(g, s')
  {
    && s'.present == s.present && s'.ext == s.ext
    && (forall d :: d in g.derivs && Stratum(g, d.head) != n ==> s'.w[d] == s.w[d])
    && (forall f :: f in g.facts && Stratum(g, f) != n ==>
          && s'.nr[f] == s.nr[f] && s'.rc[f] == s.rc[f]
          && (f in s'.deleted <==> f in s.deleted) && (f in s'.added <==> f in s.added)
          && (f in s'.pendDel <==> f in s.pendDel) && (f in s'.pendAdd <==> f in s.pendAdd))
  }

  /** What every step of OVERDELETE keeps; `s` is the state at the start of the stratum. */
  ghost predicate Deleting(g: GroundProgram, n: nat, s: State, s': State, ext0: set<Fact>) {
    && Shaped(g, s) && Counted(g, s')
    && SameElsewhere(g, n, s, s')
    && s'.added == s.added && s'.pendAdd == s.pendAdd
    && (forall f :: f in g.facts && Stratum(g, f) == n ==> FactDeleting(g, s, s', f, ext0))
  }

  lemma DeletingStarts(g: GroundProgram, n: nat, s: State, ext0: set<Fact>)
    requires Boundary(g, n, s, ext0)
    ensures Deleting(g, n, s, s, ext0)
  {
    forall f | f in g.facts && Stratum(g, f) == n ensures FactDeleting(g, s, s, f, ext0) {
      assert FactWaiting(s, f, ext0);
    }
  }

  lemma SubFoldElsewhere(g: GroundProgram, n: nat, s: State, s': State, d: Deriv)
    requires Shaped(g, s) && Shaped(g, s') && SameElsewhere(g, n, s, s')
    requires d in g.derivs && d.head in g.facts && Stratum(g, d.head) == n
    ensures Shaped(g, SubFold(s', d)) && SameElsewhere(g, n, s, SubFold(s', d))
  {
  }

  lemma SubFoldFact(g: GroundProgram, s: State, s': State, ext0: set<Fact>, d: Deriv, f: Fact)
    requires Shaped(g, s) && Shaped(g, s') && f in g.facts && FactDeleting(g, s, s', f, ext0)
    requires d in g.derivs && d.head in g.facts && Shaped(g, SubFold(s', d))
    ensures FactDeleting(g, s, SubFold(s', d), f, ext0)
  {
    var t := SubFold(s', d);
    if f == d.head {
      assert f !in t.pendDel && f in t.present ==> t.nr[f] > 0;
    } else if Intact(g, s', f, ext0) {
      assert Intact(g, t, f, ext0);
    }
  }

  lemma SubFoldKeeps(g: GroundProgram, n: nat, s: State, s': State, ext0: set<Fact>, d: Deriv)
    requires Deleting(g, n, s, s', ext0)
    requires d in g.derivs && d.head in g.facts && Stratum(g, d.head) == n
    ensures Deleting(g, n, s, SubFold(s', d), ext0)
  {
    SubFoldCounted(g, s', d);
    SubFoldElsewhere(g, n, s, s', d);
    forall f | f in g.facts && Stratum(g, f) == n ensures FactDeleting(g, s, SubFold(s', d), f, ext0) {
      SubFoldFact(g, s, s', ext0, d, f);
    }
  }

  /** One claim round: everything queued in stratum `n` joins D and the queue empties. */
  function ClaimDeletes(g: GroundProgram, n: nat, s: State): (t: State) {
    s.(deleted := s.deleted + At(g, s.pendDel, n), pendDel := s.pendDel - At(g, s.pendDel, n))
  }

  lemma ClaimDeletesKeeps(g: GroundProgram, n: nat, s: State, s': State, ext0: set<Fact>)
    requires Deleting(g, n, s, s', ext0)
    ensures Deleting(g, n, s, ClaimDeletes(g, n, s'), ext0)
  {
    var t := ClaimDeletes(g, n, s');
    assert forall f :: f in At(g, s'.pendDel, n) ==> FactDeleting(g, s, s', f, ext0);
    assert t.nr == s'.nr && t.rc == s'.rc && t.w == s'.w && t.ext == s'.ext;
    forall f | f in g.facts ensures CountedAt(g, t, f) {
      assert CountedAt(g, s', f);
    }
    forall f | f in g.facts && Stratum(g, f) == n ensures FactDeleting(g, s, t, f, ext0) {
      assert FactDeleting(g, s, s', f, ext0);
      if Intact(g, s', f, ext0) {
        assert Intact(g, t, f, ext0);
      }
    }
  }

  /** The weights of stratum `n` count activity in `x`, short of what the + seeds of the
      change from `present` to `mid` will add back. */
  ghost predicate WeighsShort(g: GroundProgram, n: nat, s: State, mid: set<Fact>, x: set<Fact>)
    requires Shaped(g, s)
  {
    forall d :: d in g.derivs && Stratum(g, d.head) == n ==>
      s.w[d] == Bit(Active(d, x)) - Bit(Fires(d, s.present, mid, true))
  }

  ghost predicate Weighs(g: GroundProgram, n: nat, s: State, x: set<Fact>)
    requires Shaped(g, s)
  {
    forall d :: d in g.derivs && Stratum(g, d.head) == n ==> s.w[d] == Bit(Active(d, x))
  }

  ghost predicate FactQuiet(g: GroundProgram, s: State, f: Fact, ext0: set<Fact>)
    requires Shaped(g, s) && f in g.facts
  {
    && f !in s.added && f !in s.pendDel
    && (f in s.deleted ==> s.nr[f] <= 0)
    && (s.Survives(f) ==> s.nr[f] > 0 || Intact(g, s, f, ext0))
  }

  /** OVERDELETE has quiesced in stratum `n`; `mid` is the new state below and the old state above. */
  ghost predicate Quiescent(g: GroundProgram, n: nat, s: State, mid: set<Fact>, ext0: set<Fact>) {
    && Counted(g, s)
    && WeighsShort(g, n, s, mid, s.Current())
    && forall f :: f in g.facts && Stratum(g, f) == n ==> FactQuiet(g, s, f, ext0)
  }

  lemma DeletingQuiesces(g: GroundProgram, n: nat, s: State, s': State, ext0: set<Fact>)
    requires Boundary(g, n, s, ext0) && Deleting(g, n, s, s', ext0)
    requires At(g, s'.pendDel, n) == {} && WeighsShort(g, n, s', s.Current(), s'.Current())
    ensures Quiescent(g, n, s', s.Current(), ext0)
  {
    forall f | f in g.facts && Stratum(g, f) == n ensures FactQuiet(g, s', f, ext0) {
      assert FactWaiting(s, f, ext0) && FactDeleting(g, s, s', f, ext0);
      assert f !in At(g, s'.pendDel, n);
    }
  }

  /** The least model the stratum must reach. */
  ghost function Target(g: GroundProgram, n: nat, s: State): set<Fact> {
    Least(g, n, Below(g, s.Current(), n), s.ext)
  }

  /** A non-recursive derivation reads lower strata only. */
  lemma NonRecursiveReadsBelow(g: GroundProgram, d: Deriv, n: nat, s: set<Fact>, x: set<Fact>)
    requires WellFormedDeriv(g, d) && Stratum(g, d.head) == n && !d.recursive
    requires x <= At(g, g.facts, n) && Active(d, s)
    ensures Active(d, Below(g, s, n) + x)
  {
    forall p | 0 <= p < |d.body| ensures Holds(d.body[p], Below(g, s, n) + x) {
      assert Holds(d.body[p], s) && Stratum(g, d.body[p].fact) < n;
    }
  }

  lemma TargetTakes(g: GroundProgram, n: nat, s: State, d: Deriv)
    requires WellFormed(g) && s.ext <= g.facts && d in g.derivs && Stratum(g, d.head) == n
    requires Active(d, Below(g, s.Current(), n) + Target(g, n, s))
    ensures d.head in Target(g, n, s)
  {
    LeastIsClosed(g, n, Below(g, s.Current(), n), s.ext);
  }

  lemma TargetTakesSupport(g: GroundProgram, n: nat, s: State, f: Fact)
    requires WellFormed(g) && s.ext <= g.facts && f in s.ext && Stratum(g, f) == n
    ensures f in Target(g, n, s)
  {
    LeastIsClosed(g, n, Below(g, s.Current(), n), s.ext);
    assert f in At(g, s.ext, n);
  }

  /** A non-recursive derivation or external support still counted puts its head in the new model. */
  lemma NonRecursiveInTarget(g: GroundProgram, n: nat, s: State, mid: set<Fact>, f: Fact)
    requires WellFormed(g) && Counted(g, s) && WeighsShort(g, n, s, mid, s.Current())
    requires f in g.facts && Stratum(g, f) == n && s.nr[f] > 0
    ensures f in Target(g, n, s)
  {
    NonRecursiveWitness(g, s, f);
    if f in s.ext {
      TargetTakesSupport(g, n, s, f);
    } else {
      var d :| d in Deriving(g, f, false) && s.w[d] > 0;
      NonRecursiveCounted(g, n, s, mid, d);
    }
  }

  /** A counted non-recursive derivation is active over the strata below. */
  lemma NonRecursiveCounted(g: GroundProgram, n: nat, s: State, mid: set<Fact>, d: Deriv)
    requires WellFormed(g) && Shaped(g, s) && WeighsShort(g, n, s, mid, s.Current())
    requires d in g.derivs && !d.recursive && Stratum(g, d.head) == n && s.w[d] > 0
    ensures d.head in Target(g, n, s)
  {
    hide Fires, Closed;
    NonRecursiveReadsBelow(g, d, n, s.Current(), Target(g, n, s));
    TargetTakes(g, n, s, d);
  }

  /** A derivation active over the survivors whose same-stratum literals are all deleted or in
      the new model has them all in the new model. */
  lemma SurvivingBody(g: GroundProgram, n: nat, s: State, d: Deriv, x: set<Fact>)
    requires WellFormedDeriv(g, d) && Stratum(g, d.head) == n
    requires forall f :: f in g.facts && Stratum(g, f) == n ==> f !in s.added
    requires forall f :: f in x ==> f in s.deleted || f in Target(g, n, s)
    requires Active(d, s.Current())
    requires forall p :: 0 <= p < |d.body| && Stratum(g, d.body[p].fact) == n ==> d.body[p].fact in x
    ensures Active(d, Below(g, s.Current(), n) + Target(g, n, s))
  {
    forall p | 0 <= p < |d.body| ensures Holds(d.body[p], Below(g, s.Current(), n) + Target(g, n, s)) {
      assert Holds(d.body[p], s.Current());
    }
  }

  lemma SurvivorInTarget(g: GroundProgram, n: nat, s: State, mid: set<Fact>, ext0: set<Fact>, f: Fact)
    requires WellFormed(g) && Quiescent(g, n, s, mid, ext0)
    requires f in g.facts && Stratum(g, f) == n && s.Survives(f) && f in ext0
    ensures f in Target(g, n, s)
  {
    assert FactQuiet(g, s, f, ext0);
    if s.nr[f] > 0 {
      NonRecursiveInTarget(g, n, s, mid, f);
    } else {
      TargetTakesSupport(g, n, s, f);
    }
  }

  lemma SurvivorDerived(g: GroundProgram, n: nat, s: State, mid: set<Fact>, ext0: set<Fact>, d: Deriv, x: set<Fact>)
    requires WellFormed(g) && Quiescent(g, n, s, mid, ext0)
    requires d in g.derivs && d.head in g.facts && Stratum(g, d.head) == n && s.Survives(d.head)
    requires forall f :: f in x ==> f in s.deleted || f in Target(g, n, s)
    requires forall p :: 0 <= p < |d.body| && Stratum(g, d.body[p].fact) == n ==> d.body[p].fact in x
    requires Active(d, s.present)
    ensures d.head in Target(g, n, s)
  {
    assert FactQuiet(g, s, d.head, ext0);
    if s.nr[d.head] > 0 {
      NonRecursiveInTarget(g, n, s, mid, d.head);
    } else {
      assert forall f :: f in g.facts && Stratum(g, f) == n ==> FactQuiet(g, s, f, ext0);
      SurvivingBody(g, n, s, d, x);
      TargetTakes(g, n, s, d);
    }
  }

  /** The old rows that are deleted or in the new model form a set closed under the old rules. */
  lemma SurvivorsClosed(g: GroundProgram, n: nat, s: State, mid: set<Fact>, ext0: set<Fact>, x: set<Fact>)
    requires WellFormed(g) && Quiescent(g, n, s, mid, ext0)
    requires ext0 <= g.facts && IsModel(g, ext0, s.present)
    requires x == set f | f in At(g, s.present, n) && (f in s.deleted || f in Target(g, n, s))
    ensures Closed(g, n, Below(g, s.present, n), ext0, x)
  {
    var lower := Below(g, s.present, n);
    LeastIsClosed(g, n, lower, ext0);
    forall f | f in At(g, ext0, n) ensures f in x {
      assert f in At(g, s.present, n);
      if f !in s.deleted {
        SurvivorInTarget(g, n, s, mid, ext0, f);
      }
    }
    forall d | d in g.derivs && Stratum(g, d.head) == n && Active(d, lower + x)
      ensures d.head in x
    {
      ActiveMonotone(g, d, n, lower, x, At(g, s.present, n));
      assert d.head in At(g, s.present, n);
      if d.head !in s.deleted {
        ActiveSplit(g, d, n, s.present);
        SameStratumIn(g, d, n, lower, x);
        SurvivorDerived(g, n, s, mid, ext0, d, x);
      }
    }
  }

  lemma SameStratumIn(g: GroundProgram, d: Deriv, n: nat, lower: set<Fact>, x: set<Fact>)
    requires WellFormedDeriv(g, d) && Stratum(g, d.head) == n
    requires Active(d, Below(g, lower, n) + x)
    ensures forall p :: 0 <= p < |d.body| && Stratum(g, d.body[p].fact) == n ==> d.body[p].fact in x
  {
    forall p | 0 <= p < |d.body| && Stratum(g, d.body[p].fact) == n ensures d.body[p].fact in x {
      assert Holds(d.body[p], Below(g, lower, n) + x);
    }
  }

  /** No survivor supports itself through a cycle: every surviving row is in the new least
      model, whatever was deleted, added or rederivable around it. */
  lemma SurvivorsInTarget(g: GroundProgram, n: nat, s: State, mid: set<Fact>, ext0: set<Fact>)
    requires WellFormed(g) && Quiescent(g, n, s, mid, ext0) && StartsFrom(g, s.present, ext0)
    ensures At(g, s.Current(), n) <= Target(g, n, s)
  {
    forall f | f in At(g, s.Current(), n) ensures f in Target(g, n, s) {
      assert FactQuiet(g, s, f, ext0);
      var x := set f | f in At(g, s.present, n) && (f in s.deleted || f in Target(g, n, s));
      SurvivorsClosed(g, n, s, mid, ext0, x);
      LeastIsLeast(g, n, Below(g, s.present, n), ext0, x);
      assert f in At(g, s.present, n);
    }
  }
}
