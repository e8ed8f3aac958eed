/** What REDERIVE and every step of INSERT keep, and why the stratum ends with the exact
    least model and exact counters. */
module Insertion {
  import opened Ground
  import opened Weights
  import opened Model
  import opened Phase
  import opened Overdeletion

  // ------------------------------------------------------------------
  // Survivors keep a positive total, so no fold can push one of them again.

  /** The new state below stratum `n`, the batch-start state in it. */
  ghost predicate Crosses(g: GroundProgram, n: nat, s: State, mid: set<Fact>) {
    Below(g, mid, n) == Below(g, s.Current(), n) && At(g, mid, n) == At(g, s.present, n)
  }

  /** Only a derivation that can dip is ever short of a + seed without being active. */
  lemma NoDip(g: GroundProgram, n: nat, s: State, mid: set<Fact>, d: Deriv)
    requires WellFormedDeriv(g, d) && Stratum(g, d.head) == n && Crosses(g, n, s, mid)
    requires d.recursive && !CanDip(g, d)
    ensures Bit(Fires(d, s.present, mid, true)) <= Bit(Active(d, s.Current()))
  {
    if Fires(d, s.present, mid, true) {
      var p: nat :| FiresAt(d, p, s.present, mid, true);
      var f := d.body[p].fact;
      assert f in At(g, mid, n) <==> f in At(g, s.present, n);
      assert Stratum(g, f) < n;
      assert f in Below(g, mid, n) <==> f in Below(g, s.Current(), n);
      assert |d.body| == 1;
      assert Active(d, s.Current());
    }
  }

  /** A head view with non-recursive support has no derivation that can dip. */
  lemma SupportExcludesDips(g: GroundProgram, s: State, f: Fact, d: Deriv)
    requires WellFormed(g) && Counted(g, s) && f in g.facts && s.nr[f] > 0
    requires d in g.derivs && d.head == f
    ensures !CanDip(g, d)
  {
    NonRecursiveWitness(g, s, f);
  }

  lemma SurvivorPositive(g: GroundProgram, n: nat, s: State, mid: set<Fact>, ext0: set<Fact>, f: Fact)
    requires WellFormed(g) && Quiescent(g, n, s, mid, ext0) && StartsFrom(g, s.present, ext0)
    requires Crosses(g, n, s, mid)
    requires f in g.facts && Stratum(g, f) == n && s.Survives(f)
    ensures Total(s, f) > 0
  {
    assert FactQuiet(g, s, f, ext0) && CountedAt(g, s, f);
    if s.nr[f] > 0 {
      forall d | d in Deriving(g, f, true) ensures 0 <= s.w[d] {
        SupportExcludesDips(g, s, f, d);
        NoDip(g, n, s, mid, d);
      }
      SumAtLeast(Deriving(g, f, true), s.w);
    } else {
      PresentSupported(g, s.present, ext0, f);
      TotalAtLeast(g, s, f);
    }
  }

  // ------------------------------------------------------------------
  // Rederive and Insert.

  /** REDERIVE is a counter read: claimed rows whose recursive counter stayed positive. */
  function Rederived(g: GroundProgram, n: nat, s: State): (t: State)
    requires s.deleted <= s.rc.Keys
  {
    s.(pendAdd := s.pendAdd + set f | f in s.deleted && Stratum(g, f) == n && s.rc[f] > 0)
  }

  ghost predicate FactInserting(g: GroundProgram, s: State, f: Fact, goal: set<Fact>)
    requires Shaped(g, s) && f in g.facts
  {
    && (f in s.added || f in s.pendAdd ==> f in goal && !s.Survives(f))
    && (s.Survives(f) ==> f in goal && Total(s, f) > 0)
    && (Total(s, f) > 0 ==> f in s.Current() || f in s.pendAdd)
  }

  ghost predicate WeighsAtMost(g: GroundProgram, n: nat, s: State, x: set<Fact>)
    requires Shaped(g, s)
  {
    forall d :: d in g.derivs && Stratum(g, d.head) == n ==> s.w[d] <= Bit(Active(d, x))
  }

  /** What every step of INSERT keeps; `s` is the state before REDERIVE. */
  ghost predicate Inserting(g: GroundProgram, n: nat, s: State, s': State) {
    && Shaped(g, s) && Counted(g, s')
    && SameElsewhere(g, n, s, s')
    && s'.deleted == s.deleted && s'.pendDel == s.pendDel
    && WeighsAtMost(g, n, s', s'.Current())
    && (forall f :: f in g.facts && Stratum(g, f) == n ==> FactInserting(g, s', f, Target(g, n, s)))
  }

  lemma TargetStays(g: GroundProgram, n: nat, s: State, s': State)
    requires Shaped(g, s) && Shaped(g, s') && SameElsewhere(g, n, s, s')
    ensures Below(g, s'.Current(), n) == Below(g, s.Current(), n)
    ensures Target(g, n, s') == Target(g, n, s)
  {
  }

  lemma TargetClosed(g: GroundProgram, n: nat, s: State, d: Deriv)
    requires WellFormed(g) && s.ext <= g.facts && s.Current() <= g.facts
    requires d in g.derivs && Stratum(g, d.head) == n
    requires At(g, s.Current(), n) <= Target(g, n, s)
    requires Active(d, s.Current())
    ensures d.head in Target(g, n, s)
  {
    ActiveSplit(g, d, n, s.Current());
    ActiveMonotone(g, d, n, Below(g, s.Current(), n), At(g, s.Current(), n), Target(g, n, s));
    TargetTakes(g, n, s, d);
  }

  lemma CurrentInTarget(g: GroundProgram, n: nat, s: State, s': State)
    requires Inserting(g, n, s, s')
    ensures At(g, s'.Current(), n) <= Target(g, n, s')
  {
    TargetStays(g, n, s, s');
    forall f | f in At(g, s'.Current(), n) ensures f in Target(g, n, s) {
      assert FactInserting(g, s', f, Target(g, n, s));
    }
  }

  lemma RederivedInTarget(g: GroundProgram, n: nat, s: State, f: Fact)
    requires WellFormed(g) && Counted(g, s) && WeighsAtMost(g, n, s, s.Current())
    requires At(g, s.Current(), n) <= Target(g, n, s)
    requires f in g.facts && Stratum(g, f) == n && s.rc[f] > 0
    ensures f in Target(g, n, s)
  {
    RecursiveWitness(g, s, f);
    var d :| d in Deriving(g, f, true) && s.w[d] > 0;
    TargetClosed(g, n, s, d);
  }

  /** A row queued for insertion before this stratum ran is in the new model: it gained
      external support, or it is an init fact. */
  lemma QueuedInTarget(g: GroundProgram, n: nat, s0: State, s: State, ext0: set<Fact>, f: Fact)
    requires WellFormed(g) && Boundary(g, n, s0, ext0) && s.ext == s0.ext && s.ext <= g.facts
    requires f in s0.pendAdd && Stratum(g, f) == n
    ensures f in Target(g, n, s) && f !in s0.present
  {
    assert FactWaiting(s0, f, ext0);
    TotalWitness(g, s0, f);
    if f in s.ext {
      TargetTakesSupport(g, n, s, f);
    } else {
      var d :| d in g.derivs && d.head == f && s0.w[d] > 0;
      PresentClosed(g, s0.present, ext0, d);
      TargetTakes(g, n, s, d);
    }
  }

  /** Rows that are in the state, queued, or about to be queued when INSERT begins. */
  lemma RederivedFact(g: GroundProgram, n: nat, s0: State, s: State, ext0: set<Fact>, f: Fact)
    requires WellFormed(g) && Boundary(g, n, s0, ext0) && Deleting(g, n, s0, s, ext0)
    requires Quiescent(g, n, s, s0.Current(), ext0) && Shaped(g, Rederived(g, n, s))
    requires f in g.facts && Stratum(g, f) == n
    requires f in s0.pendAdd || (f in s.deleted && s.rc[f] > 0) || s.Survives(f) ==> f in Target(g, n, s)
    requires s.Survives(f) ==> Total(s, f) > 0
    ensures FactInserting(g, Rederived(g, n, s), f, Target(g, n, s))
  {
    assert FactQuiet(g, s, f, ext0) && FactWaiting(s0, f, ext0) && FactDeleting(g, s0, s, f, ext0);
    RequeuedFact(g, n, s0, s, ext0, f);
  }

  /** A row deleted with its recursive counter still positive has a surviving derivation. */
  lemma SurvivorOrRederived(g: GroundProgram, n: nat, s: State, mid: set<Fact>, ext0: set<Fact>, f: Fact)
    requires WellFormed(g) && Quiescent(g, n, s, mid, ext0) && StartsFrom(g, s.present, ext0)
    requires Crosses(g, n, s, mid) && At(g, s.Current(), n) <= Target(g, n, s)
    requires f in g.facts && Stratum(g, f) == n
    ensures s.rc[f] > 0 || s.Survives(f) ==> f in Target(g, n, s)
    ensures s.Survives(f) ==> Total(s, f) > 0
  {
    if s.Survives(f) {
      SurvivorPositive(g, n, s, mid, ext0, f);
      assert f in At(g, s.Current(), n);
    } else if s.rc[f] > 0 {
      RederivedInTarget(g, n, s, f);
    }
  }

  lemma RequeuedFact(g: GroundProgram, n: nat, s0: State, s: State, ext0: set<Fact>, f: Fact)
    requires Shaped(g, s0) && Shaped(g, s) && Shaped(g, Rederived(g, n, s))
    requires f in g.facts && Stratum(g, f) == n
    requires FactQuiet(g, s, f, ext0) && FactWaiting(s0, f, ext0) && FactDeleting(g, s0, s, f, ext0)
    requires s.pendAdd == s0.pendAdd && s.present == s0.present
    requires f in s0.pendAdd || (f in s.deleted && s.rc[f] > 0) || s.Survives(f) ==> f in Target(g, n, s)
    requires s.Survives(f) ==> Total(s, f) > 0
    ensures FactInserting(g, Rederived(g, n, s), f, Target(g, n, s))
  {
  }

  lemma BoundaryCrosses(g: GroundProgram, n: nat, s0: State, s: State, ext0: set<Fact>)
    requires Boundary(g, n, s0, ext0) && Deleting(g, n, s0, s, ext0)
    ensures Crosses(g, n, s, s0.Current())
  {
    assert forall f :: f in At(g, g.facts, n) ==> FactWaiting(s0, f, ext0);
  }

  lemma RederivedCounted(g: GroundProgram, n: nat, s: State)
    requires Counted(g, s)
    ensures Counted(g, Rederived(g, n, s)) && SameElsewhere(g, n, s, Rederived(g, n, s))
  {
    forall f | f in g.facts ensures CountedAt(g, Rederived(g, n, s), f) {
      assert CountedAt(g, s, f);
    }
  }

  lemma RederivedFacts(g: GroundProgram, n: nat, s0: State, s: State, ext0: set<Fact>)
    requires WellFormed(g) && Boundary(g, n, s0, ext0) && Deleting(g, n, s0, s, ext0)
    requires Quiescent(g, n, s, s0.Current(), ext0) && Shaped(g, Rederived(g, n, s))
    ensures forall f :: f in g.facts && Stratum(g, f) == n ==> FactInserting(g, Rederived(g, n, s), f, Target(g, n, s))
  {
    SurvivorsInTarget(g, n, s, s0.Current(), ext0);
    BoundaryCrosses(g, n, s0, s, ext0);
    forall f | f in g.facts && Stratum(g, f) == n ensures FactInserting(g, Rederived(g, n, s), f, Target(g, n, s)) {
      if f in s0.pendAdd {
        QueuedInTarget(g, n, s0, s, ext0, f);
      }
      SurvivorOrRederived(g, n, s, s0.Current(), ext0, f);
      RederivedFact(g, n, s0, s, ext0, f);
    }
  }

  lemma InsertingStarts(g: GroundProgram, n: nat, s0: State, s: State, ext0: set<Fact>)
    requires WellFormed(g) && Boundary(g, n, s0, ext0) && Deleting(g, n, s0, s, ext0)
    requires At(g, s.pendDel, n) == {} && WeighsShort(g, n, s, s0.Current(), s.Current())
    ensures Inserting(g, n, s, Rederived(g, n, s))
  {
    DeletingQuiesces(g, n, s0, s, ext0);
    RederivedCounted(g, n, s);
    RederivedFacts(g, n, s0, s, ext0);
  }

  // ------------------------------------------------------------------
  // Folds and claim rounds of INSERT.

  lemma AddFoldFact(g: GroundProgram, s: State, d: Deriv, f: Fact, goal: set<Fact>)
    requires Shaped(g, s) && d in g.derivs && d.head in g.facts && Shaped(g, AddFold(s, d))
    requires f in g.facts && FactInserting(g, s, f, goal)
    requires f == d.head && Total(AddFold(s, d), f) > 0 ==> f in goal
    ensures FactInserting(g, AddFold(s, d), f, goal)
  {
  }

  lemma AddFoldElsewhere(g: GroundProgram, n: nat, s: State, s': State, d: Deriv)
    requires Shaped(g, s) && Shaped(g, s') && SameElsewhere(g, n, s, s')
    requires d in g.derivs && d.head in g.facts && Stratum(g, d.head) == n
    ensures Shaped(g, AddFold(s', d)) && SameElsewhere(g, n, s, AddFold(s', d))
  {
  }

  lemma AddFoldWeighs(g: GroundProgram, n: nat, s: State, d: Deriv)
    requires Shaped(g, s) && WeighsAtMost(g, n, s, s.Current())
    requires d in g.derivs && d.head in g.facts && Shaped(g, AddFold(s, d))
    requires s.w[d] < Bit(Active(d, s.Current()))
    ensures WeighsAtMost(g, n, AddFold(s, d), s.Current())
  {
  }

  lemma AddFoldInTarget(g: GroundProgram, n: nat, s: State, t: State, f: Fact)
    requires WellFormed(g) && Shaped(g, s) && Counted(g, t) && WeighsAtMost(g, n, t, s.Current())
    requires At(g, s.Current(), n) <= Target(g, n, s) && t.ext == s.ext
    requires f in g.facts && Stratum(g, f) == n && Total(t, f) > 0
    ensures f in Target(g, n, s)
  {
    TotalWitness(g, t, f);
    if f in s.ext {
      TargetTakesSupport(g, n, s, f);
    } else {
      var d :| d in g.derivs && d.head == f && t.w[d] > 0;
      TargetClosed(g, n, s, d);
    }
  }

  lemma AddFoldKeeps(g: GroundProgram, n: nat, s: State, s': State, d: Deriv)
    requires WellFormed(g) && Inserting(g, n, s, s')
    requires d in g.derivs && d.head in g.facts && Stratum(g, d.head) == n
    requires s'.w[d] < Bit(Active(d, s'.Current()))
    ensures Inserting(g, n, s, AddFold(s', d))
  {
    AddFoldElsewhere(g, n, s, s', d);
    CurrentInTarget(g, n, s, s');
    TargetStays(g, n, s, s');
    AddFoldCounted(g, s', d);
    AddFoldWeighs(g, n, s', d);
    forall f | f in g.facts && Stratum(g, f) == n ensures FactInserting(g, AddFold(s', d), f, Target(g, n, s)) {
      assert FactInserting(g, s', f, Target(g, n, s));
      if f == d.head && Total(AddFold(s', d), f) > 0 {
        AddFoldInTarget(g, n, s', AddFold(s', d), f);
      }
      AddFoldFact(g, s', d, f, Target(g, n, s));
    }
  }

  /** One claim round: everything queued in stratum `n` joins A and the queue empties. */
  function ClaimAdds(g: GroundProgram, n: nat, s: State): (t: State) {
    s.(added := s.added + At(g, s.pendAdd, n), pendAdd := s.pendAdd - At(g, s.pendAdd, n))
  }

  lemma ClaimAddsKeeps(g: GroundProgram, n: nat, s: State, s': State)
    requires WellFormed(g) && Inserting(g, n, s, s')
    ensures Inserting(g, n, s, ClaimAdds(g, n, s'))
  {
    var t := ClaimAdds(g, n, s');
    assert t.nr == s'.nr && t.rc == s'.rc && t.w == s'.w && t.ext == s'.ext;
    forall f | f in g.facts ensures CountedAt(g, t, f) {
      assert CountedAt(g, s', f);
    }
    forall f | f in g.facts && Stratum(g, f) == n ensures FactInserting(g, t, f, Target(g, n, s)) {
      assert FactInserting(g, s', f, Target(g, n, s));
    }
    forall d | d in g.derivs && Stratum(g, d.head) == n ensures t.w[d] <= Bit(Active(d, t.Current())) {
      if Active(d, s'.Current()) {
        ActiveGrows(g, d, n, s'.Current(), t.Current());
      }
    }
  }

  lemma ActiveGrows(g: GroundProgram, d: Deriv, n: nat, x: set<Fact>, y: set<Fact>)
    requires WellFormedDeriv(g, d) && Stratum(g, d.head) == n && Active(d, x)
    requires x <= y && forall f :: f in y && f !in x ==> Stratum(g, f) == n
    ensures Active(d, y)
  {
    forall p | 0 <= p < |d.body| ensures Holds(d.body[p], y) {
      assert Holds(d.body[p], x);
    }
  }

  // ------------------------------------------------------------------
  // The end of the stratum.

  /** The insert loop has drained: the rows of the stratum are its least model and the
      counters decide membership. */
  lemma InsertedExactly(g: GroundProgram, n: nat, s: State, s': State)
    requires WellFormed(g) && Inserting(g, n, s, s')
    requires At(g, s'.pendAdd, n) == {} && Weighs(g, n, s', s'.Current())
    ensures At(g, s'.Current(), n) == Target(g, n, s')
    ensures forall f :: f in g.facts && Stratum(g, f) == n ==> (f in s'.Current() <==> Total(s', f) > 0)
  {
    var goal := Target(g, n, s');
    var lower := Below(g, s'.Current(), n);
    var x := At(g, s'.Current(), n);
    TargetStays(g, n, s, s');
    CurrentInTarget(g, n, s, s');
    PositiveIsClosed(g, n, s, s');
    LeastIsLeast(g, n, lower, s'.ext, x);
    forall f | f in g.facts && Stratum(g, f) == n && f in s'.Current() ensures Total(s', f) > 0 {
      assert f in x;
      SupportedIsPositive(g, n, s', f);
    }
    forall f | f in g.facts && Stratum(g, f) == n && Total(s', f) > 0 ensures f in s'.Current() {
      PositiveIsCurrent(g, n, s, s', f);
    }
  }

  lemma PositiveIsCurrent(g: GroundProgram, n: nat, s: State, s': State, f: Fact)
    requires Inserting(g, n, s, s') && At(g, s'.pendAdd, n) == {}
    requires f in g.facts && Stratum(g, f) == n && Total(s', f) > 0
    ensures f in s'.Current()
  {
    assert FactInserting(g, s', f, Target(g, n, s)) && f !in At(g, s'.pendAdd, n);
  }

  lemma ActiveIsPositive(g: GroundProgram, n: nat, s: State, f: Fact)
    requires Counted(g, s) && Weighs(g, n, s, s.Current())
    requires f in g.facts && Stratum(g, f) == n
    requires f in s.ext || exists d :: d in g.derivs && d.head == f && Active(d, s.Current())
    ensures Total(s, f) > 0
  {
    TotalAtLeast(g, s, f);
  }

  lemma PositiveIsClosed(g: GroundProgram, n: nat, s: State, s': State)
    requires WellFormed(g) && Inserting(g, n, s, s')
    requires At(g, s'.pendAdd, n) == {} && Weighs(g, n, s', s'.Current())
    ensures Closed(g, n, Below(g, s'.Current(), n), s'.ext, At(g, s'.Current(), n))
  {
    forall f | f in At(g, s'.ext, n) ensures f in s'.Current() {
      ActiveIsPositive(g, n, s', f);
      PositiveIsCurrent(g, n, s, s', f);
    }
    forall d | d in g.derivs && Stratum(g, d.head) == n
        && Active(d, Below(g, s'.Current(), n) + At(g, s'.Current(), n))
      ensures d.head in At(g, s'.Current(), n)
    {
      ActiveSplit(g, d, n, s'.Current());
      ActiveIsPositive(g, n, s', d.head);
      PositiveIsCurrent(g, n, s, s', d.head);
    }
  }

  lemma SupportedIsPositive(g: GroundProgram, n: nat, s: State, f: Fact)
    requires WellFormed(g) && Counted(g, s) && Weighs(g, n, s, s.Current())
    requires At(g, s.Current(), n) == Target(g, n, s) && f in At(g, s.Current(), n)
    ensures Total(s, f) > 0
  {
    LeastIsSupported(g, n, Below(g, s.Current(), n), s.ext, f);
    if f !in s.ext {
      var d :| d in g.derivs && d.head == f && Active(d, Below(g, s.Current(), n) + Target(g, n, s));
      ActiveSplit(g, d, n, s.Current());
    }
    ActiveIsPositive(g, n, s, f);
  }
}
