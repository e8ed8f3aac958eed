/** External support between and during batches: the stratified least model with aggregates,
    and what gaining or losing support does to a batch that has not reached the fact's stratum. */
module Supports {
  import opened Ground
  import opened Weights
  import opened Model
  import opened Phase
  import opened Overdeletion
  import opened RowStore
  import opened Rules
  import A = Aggregates

  // ------------------------------------------------------------------
  // The model of a program with aggregates.

  ghost function RowsIn(x: set<Fact>, v: nat): set<Row> {
    set f | f in x && f.view == v :: f.row
  }

  /** The rows of an aggregate over a set of facts. */
  ghost function Desired(a: Aggregate, x: set<Fact>): set<Row> {
    set out | out in AllRows(|a.keySlots| + 1) && A.IsDesired(a, RowsIn(x, a.input), out)
  }

  lemma DesiredIs(a: Aggregate, x: set<Fact>, out: Row)
    ensures out in Desired(a, x) <==> A.IsDesired(a, RowsIn(x, a.input), out)
  {
    if A.IsDesired(a, RowsIn(x, a.input), out) {
      A.DesiredFits(a, RowsIn(x, a.input), out);
    }
  }

  /** What supports a program's facts from outside its rules: asserted facts and aggregate rows. */
  ghost function Support(p: Program, asserted: set<Fact>, x: set<Fact>): set<Fact> {
    asserted + set i: nat, out: Row | i < |p.aggs| && out in Desired(p.aggs[i], x) :: Fact(p.aggs[i].head, out)
  }

  /** Asserted facts are in receive views. */
  ghost predicate Received(p: Program, asserted: set<Fact>) {
    forall f :: f in asserted ==> f.view < |p.views| && p.views[f.view].receive
  }

  /** `x` is the stratified least model of the program for these asserted facts. */
  ghost predicate IsProgramModel(p: Program, g: GroundProgram, asserted: set<Fact>, x: set<Fact>) {
    IsModel(g, Support(p, asserted, x), x)
  }

  lemma AggregateIn(p: Program, i: nat)
    requires GoodProgram(p) && i < |p.aggs|
    ensures GoodAggregate(p, p.aggs[i])
  {
  }

  /** External support consists of facts. */
  lemma SupportFits(p: Program, g: GroundProgram, asserted: set<Fact>, x: set<Fact>)
    requires GoodProgram(p) && g == GroundOf(p) && asserted <= g.facts
    ensures Support(p, asserted, x) <= g.facts
  {
    forall j: nat, out: Row | j < |p.aggs| && out in Desired(p.aggs[j], x)
      ensures Fact(p.aggs[j].head, out) in g.facts
    {
      AggregateIn(p, j);
    }
  }

  lemma RowsBelow(g: GroundProgram, x: set<Fact>, y: set<Fact>, n: nat, v: nat)
    requires Below(g, x, n) == Below(g, y, n) && v < |g.strata| && g.strata[v] < n
    ensures RowsIn(x, v) == RowsIn(y, v)
  {
    forall row ensures row in RowsIn(x, v) <==> row in RowsIn(y, v) {
      assert Fact(v, row) in Below(g, x, n) <==> Fact(v, row) in Below(g, y, n);
      assert row in RowsIn(x, v) <==> Fact(v, row) in x;
      assert row in RowsIn(y, v) <==> Fact(v, row) in y;
    }
  }

  /** Aggregates read strictly below their own stratum. */
  lemma SupportBelow(p: Program, g: GroundProgram, asserted: set<Fact>, x: set<Fact>, y: set<Fact>, n: nat)
    requires GoodProgram(p) && g == GroundOf(p) && Below(g, x, n) == Below(g, y, n)
    ensures At(g, Support(p, asserted, x), n) == At(g, Support(p, asserted, y), n)
  {
    forall i: nat | i < |p.aggs| && p.views[p.aggs[i].head].stratum == n
      ensures Desired(p.aggs[i], x) == Desired(p.aggs[i], y)
    {
      AggregateIn(p, i);
      RowsBelow(g, x, y, n, p.aggs[i].input);
    }
    hide GoodProgram, Desired;
    HeadStrata(p, g);
  }

  lemma HeadStrata(p: Program, g: GroundProgram)
    requires GoodProgram(p) && g == GroundOf(p)
    ensures forall i, out :: 0 <= i < |p.aggs| ==>
      p.aggs[i].head < |p.views| && Stratum(g, Fact(p.aggs[i].head, out)) == p.views[p.aggs[i].head].stratum
  {
    forall i: nat | i < |p.aggs| ensures p.aggs[i].head < |p.views| {
      AggregateIn(p, i);
    }
  }

  lemma {:induction false} ProgramModelBelow(p: Program, g: GroundProgram, asserted: set<Fact>, x: set<Fact>, y: set<Fact>, n: nat)
    requires GoodProgram(p) && g == GroundOf(p)
    requires IsProgramModel(p, g, asserted, x) && IsProgramModel(p, g, asserted, y)
    ensures Below(g, x, n) == Below(g, y, n)
  {
    hide GoodProgram, GroundOf, Support;
    if n > 0 {
      ProgramModelBelow(p, g, asserted, x, y, n - 1);
      SupportBelow(p, g, asserted, x, y, n - 1);
      LeastLocal(g, n - 1, Below(g, x, n - 1), Support(p, asserted, x), Support(p, asserted, y));
      assert At(g, x, n - 1) == At(g, y, n - 1);
      BelowMore(g, x, n - 1);
      BelowMore(g, y, n - 1);
    }
  }

  lemma BelowMore(g: GroundProgram, x: set<Fact>, n: nat)
    ensures Below(g, x, n + 1) == Below(g, x, n) + At(g, x, n)
  {
  }

  /** A program has at most one stratified least model for given asserted facts. */
  lemma ProgramModelUnique(p: Program, g: GroundProgram, asserted: set<Fact>, x: set<Fact>, y: set<Fact>)
    requires GoodProgram(p) && g == GroundOf(p)
    requires IsProgramModel(p, g, asserted, x) && IsProgramModel(p, g, asserted, y)
    ensures x == y
  {
    hide GoodProgram, GroundOf, IsProgramModel;
    forall f | f in x + y ensures f in x && f in y {
      var n := Stratum(g, f) + 1;
      ProgramModelBelow(p, g, asserted, x, y, n);
      assert f in x <==> f in Below(g, x, n);
      assert f in y <==> f in Below(g, y, n);
    }
  }

  // ------------------------------------------------------------------
  // Support that changes before the fact's stratum runs.

  /** Support that changes at or above stratum `n` leaves everything else waiting. */
  ghost predicate OnlyFact(g: GroundProgram, s: State, t: State, f: Fact)
    requires Shaped(g, s) && Shaped(g, t)
  {
    && t.present == s.present && t.deleted == s.deleted && t.added == s.added && t.w == s.w
    && forall e :: e in g.facts && e != f ==>
         && t.nr[e] == s.nr[e] && t.rc[e] == s.rc[e] && (e in t.ext <==> e in s.ext)
         && (e in t.pendDel <==> e in s.pendDel) && (e in t.pendAdd <==> e in s.pendAdd)
  }

  lemma SupportChanged(g: GroundProgram, n: nat, s: State, t: State, ext0: set<Fact>, f: Fact)
    requires Boundary(g, n, s, ext0) && Counted(g, t) && f in g.facts && Stratum(g, f) >= n && OnlyFact(g, s, t, f)
    requires FactWaiting(t, f, ext0)
    ensures Boundary(g, n, t, ext0)
  {
    SupportBelowKeeps(g, n, s, t, f);
    forall e | e in g.facts && Stratum(g, e) >= n ensures FactWaiting(t, e, ext0) {
      assert FactWaiting(s, e, ext0);
    }
  }

  lemma AddSupportKeeps(g: GroundProgram, n: nat, s: State, ext0: set<Fact>, f: Fact)
    requires WellFormed(g) && Boundary(g, n, s, ext0)
    requires f in g.facts && Stratum(g, f) >= n && f.view in g.external && f !in s.ext && f !in ext0
    ensures f in s.nr && f in s.rc && Boundary(g, n, AddSupport(s, f), ext0)
  {
    hide WellFormed, StartsFrom;
    AddSupportCounted(g, s, f);
    assert FactWaiting(s, f, ext0);
    if f in s.present {
      PresentSupported(g, s.present, ext0, f);
      TotalAtLeast(g, s, f);
    }
    SupportChanged(g, n, s, AddSupport(s, f), ext0, f);
  }

  lemma SubSupportKeeps(g: GroundProgram, n: nat, s: State, ext0: set<Fact>, f: Fact)
    requires WellFormed(g) && Boundary(g, n, s, ext0)
    requires f in s.ext && Stratum(g, f) >= n && f in ext0
    ensures f in s.nr && f in s.rc && Boundary(g, n, SubSupport(s, f), ext0)
  {
    hide WellFormed, StartsFrom;
    SubSupportCounted(g, s, f);
    assert FactWaiting(s, f, ext0);
    SupportedPresent(g, s.present, ext0, f);
    SupportChanged(g, n, s, SubSupport(s, f), ext0, f);
  }

  lemma SupportedPresent(g: GroundProgram, present: set<Fact>, ext0: set<Fact>, f: Fact)
    requires WellFormed(g) && StartsFrom(g, present, ext0) && f in ext0
    ensures f in present
  {
    var n := Stratum(g, f);
    LeastIsClosed(g, n, Below(g, present, n), ext0);
    assert f in At(g, ext0, n);
    assert f in At(g, present, n);
  }

  /** Finished strata do not notice support that changes above them. */
  lemma SupportBelowKeeps(g: GroundProgram, n: nat, s: State, t: State, f: Fact)
    requires Shaped(g, s) && Shaped(g, t) && DoneBelow(g, n, s) && Stratum(g, f) >= n
    requires OnlyFact(g, s, t, f)
    ensures DoneBelow(g, n, t)
  {
    forall e | e in g.facts && Stratum(g, e) < n ensures FactDone(g, t, e) {
      assert FactDone(g, s, e);
    }
    forall m: nat | m < n ensures At(g, t.Current(), m) == Least(g, m, Below(g, t.Current(), m), t.ext) {
      assert At(g, t.ext, m) == At(g, s.ext, m);
      LeastLocal(g, m, Below(g, s.Current(), m), s.ext, t.ext);
    }
  }
}
