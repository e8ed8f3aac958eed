/** Counting rule instances over a finished materialization, and the cross-check of the
    incremental counters against the count. */
module Counting {
  import opened Ground
  import opened Weights
  import opened Model
  import opened Phase
  import opened RowStore
  import opened Rules
  import opened Deltas
  import opened Reads
  import opened Sweeps
  import opened Rounds
  import opened Steps
  import opened Snapshots
  import opened Supports
  import opened Overdeletion
  import opened Ingest
  import opened Settling
  import opened Batches
  import opened Fixpoint

  /** Expected counters of one row: non-recursive and recursive. */
  datatype Expected = Expected(nr: int, rc: int)

  type Expectations = map<Fact, Expected>

  function Of(e: Expectations, f: Fact): Expected {
    if f in e then e[f] else Expected(0, 0)
  }

  function Counted1(e: Expectations, f: Fact, recursive: bool): Expectations {
    e[f := if recursive then Expected(Of(e, f).nr, Of(e, f).rc + 1) else Expected(Of(e, f).nr + 1, Of(e, f).rc)]
  }

  /** The weights that count the derivations in `done` once. */
  ghost function Once(g: GroundProgram, done: set<Deriv>): (w: Weight)
    ensures w.Keys == g.derivs
  {
    map d | d in g.derivs :: Bit(d in done)
  }

  ghost predicate CountsAt(g: GroundProgram, e: Expectations, done: set<Deriv>, extra: set<Fact>, f: Fact) {
    Of(e, f) == Expected(Bit(f in extra) + Sum(Deriving(g, f, false), Once(g, done)), Sum(Deriving(g, f, true), Once(g, done)))
  }

  /** The derivations in `done` and the supported facts in `extra` have been counted. */
  ghost predicate Counts(g: GroundProgram, e: Expectations, done: set<Deriv>, extra: set<Fact>) {
    forall f :: f in g.facts ==> CountsAt(g, e, done, extra, f)
  }

  lemma {:induction false} SumNone(g: GroundProgram, ds: set<Deriv>)
    requires ds <= g.derivs
    ensures Sum(ds, Once(g, {})) == 0
    decreases ds
  {
    if ds != {} {
      var d :| d in ds;
      SumSplit(ds, Once(g, {}), d);
      SumNone(g, ds - {d});
    }
  }

  lemma CountsNothing(g: GroundProgram)
    ensures Counts(g, map[], {}, {})
  {
    forall f | f in g.facts ensures CountsAt(g, map[], {}, {}, f) {
      SumNone(g, Deriving(g, f, false));
      SumNone(g, Deriving(g, f, true));
    }
  }

  lemma OnceMore(g: GroundProgram, done: set<Deriv>, d: Deriv)
    requires d in g.derivs
    ensures Once(g, done + {d}) == Once(g, done)[d := 1]
  {
  }

  lemma CountsMore(g: GroundProgram, e: Expectations, done: set<Deriv>, extra: set<Fact>, d: Deriv)
    requires Counts(g, e, done, extra) && d in g.derivs && d !in done
    ensures Counts(g, Counted1(e, d.head, d.recursive), done + {d}, extra)
  {
    OnceMore(g, done, d);
    forall f | f in g.facts ensures CountsAt(g, Counted1(e, d.head, d.recursive), done + {d}, extra, f) {
      assert CountsAt(g, e, done, extra, f);
      SumUpdate(Deriving(g, f, false), Once(g, done), d, 1);
      SumUpdate(Deriving(g, f, true), Once(g, done), d, 1);
    }
  }

  lemma CountsSupport(g: GroundProgram, e: Expectations, done: set<Deriv>, extra: set<Fact>, f: Fact)
    requires Counts(g, e, done, extra) && f !in extra
    ensures Counts(g, Counted1(e, f, false), done, extra + {f})
  {
    forall x | x in g.facts ensures CountsAt(g, Counted1(e, f, false), done, extra + {f}, x) {
      assert CountsAt(g, e, done, extra, x);
    }
  }

  /** The derivations of rules [0, n) that are active over `x`. */
  ghost function ActiveRules(g: GroundProgram, n: nat, x: set<Fact>): set<Deriv> {
    set d | d in g.derivs && d.rule < n && Active(d, x)
  }

  ghost function ActiveOf(g: GroundProgram, ri: nat, x: set<Fact>): set<Deriv> {
    set d | d in g.derivs && d.rule == ri && Active(d, x)
  }

  lemma ActiveMore(g: GroundProgram, ri: nat, x: set<Fact>)
    ensures ActiveRules(g, ri + 1, x) == ActiveRules(g, ri, x) + ActiveOf(g, ri, x)
    ensures ActiveRules(g, ri, x) !! ActiveOf(g, ri, x) && ActiveRules(g, 0, x) == {}
  {
  }

  lemma ActiveIsListed(p: Program, g: GroundProgram, ri: nat, x: set<Fact>, heads: seq<Row>, ds: seq<Deriv>)
    requires DerivsShaped(p, g) && ri < |p.rules| && ActiveListed(p, g, ri, x, heads, ds)
    ensures |heads| == |ds| && NoRepeats(ds) && Listing(ds) == ActiveOf(g, ri, x)
    ensures forall k :: 0 <= k < |ds| ==> Headed(g, ds[k], p.rules[ri].head, heads[k], p.rules[ri].recursive, HeadStratum(p, ri))
  {
    hide DerivsShaped, Active, HeadStratum;
    forall k | 0 <= k < |ds|
      ensures Headed(g, ds[k], p.rules[ri].head, heads[k], p.rules[ri].recursive, HeadStratum(p, ri))
    {
      ListedHeaded(p, g, ri, ds[k], heads[k]);
    }
    forall d | d in ds ensures d in ActiveOf(g, ri, x) {
      assert ActiveDeriv(g, ri, x, d);
    }
    forall d | d in ActiveOf(g, ri, x) ensures d in ds {
      assert ActiveDeriv(g, ri, x, d);
    }
  }

  // ------------------------------------------------------------------
  // The cross-check.

  /** The exact counters of a fact: how many derivations of each kind are active over `x`, and one
      non-recursive count for external support. */
  ghost function ExactNr(g: GroundProgram, x: set<Fact>, ext: set<Fact>, f: Fact): int {
    Bit(f in ext) + |set d | d in g.derivs && d.head == f && !d.recursive && Active(d, x)|
  }

  ghost function ExactRc(g: GroundProgram, x: set<Fact>, f: Fact): int {
    |set d | d in g.derivs && d.head == f && d.recursive && Active(d, x)|
  }

  /** Weights of zero or one sum to the number of active derivations. */
  lemma SumIsCount(g: GroundProgram, w: Weight, x: set<Fact>, f: Fact, recursive: bool)
    requires w.Keys == g.derivs && forall d :: d in g.derivs ==> w[d] == Bit(Active(d, x))
    ensures Sum(Deriving(g, f, recursive), w) == |set d | d in g.derivs && d.head == f && d.recursive == recursive && Active(d, x)|
  {
    SumCounts(Deriving(g, f, recursive), w);
    assert (set d | d in Deriving(g, f, recursive) && w[d] == 1)
      == (set d | d in g.derivs && d.head == f && d.recursive == recursive && Active(d, x));
  }

  /** Between batches the engine's counters are the exact numbers of instances over the model. */
  lemma SettledIsExact(p: Program, g: GroundProgram, ss: Stores, w: Weight, ext: set<Fact>, f: Fact)
    requires Settled(p, g, true, ss, w, ext) && f in g.facts
    ensures
      var x := Snap(g, ss, w, ext).present;
      && StateOf(ss, f).nr == ExactNr(g, x, ext, f) && StateOf(ss, f).rc == ExactRc(g, x, f)
      && (f in x <==> StateOf(ss, f).inI) && (StateOf(ss, f).inI <==> StateOf(ss, f).nr + StateOf(ss, f).rc > 0)
  {
    hide IsModel, Support, Active;
    var s := Snap(g, ss, w, ext);
    assert CountedAt(g, s, f);
    SumIsCount(g, w, s.present, f, false);
    SumIsCount(g, w, s.present, f, true);
    SnapMember(g, ss, w, ext, f);
    assert (set d | d in g.derivs && d.head == f && d.recursive == false && Active(d, s.present))
      == (set d | d in g.derivs && d.head == f && !d.recursive && Active(d, s.present));
    assert (set d | d in g.derivs && d.head == f && d.recursive == true && Active(d, s.present))
      == (set d | d in g.derivs && d.head == f && d.recursive && Active(d, s.present));
    IdleIsClean(p, ss, f);
  }

  /** So are the counted expectations. */
  lemma CountsAreExact(p: Program, g: GroundProgram, e: Expectations, x: set<Fact>, ext: set<Fact>, f: Fact)
    requires (forall d :: d in g.derivs ==> d.rule < |p.rules|) && Counts(g, e, ActiveRules(g, |p.rules|, x), ext) && f in g.facts
    ensures Of(e, f) == Expected(ExactNr(g, x, ext, f), ExactRc(g, x, f))
  {
    hide Active;
    var done := ActiveRules(g, |p.rules|, x);
    assert CountsAt(g, e, done, ext, f);
    forall d | d in g.derivs ensures Once(g, done)[d] == Bit(Active(d, x)) {
    }
    SumIsCount(g, Once(g, done), x, f, false);
    SumIsCount(g, Once(g, done), x, f, true);
    assert (set d | d in g.derivs && d.head == f && d.recursive == false && Active(d, x))
      == (set d | d in g.derivs && d.head == f && !d.recursive && Active(d, x));
    assert (set d | d in g.derivs && d.head == f && d.recursive == true && Active(d, x))
      == (set d | d in g.derivs && d.head == f && d.recursive && Active(d, x));
  }

  // ------------------------------------------------------------------
  // What has been counted as support so far.

  /** The asserted rows of views [0, v), and of view `v` the first `k`. */
  ghost function AssertedBelow(facts: seq<seq<Row>>, v: nat, k: nat): set<Fact> {
    set u: nat, i: nat | u < |facts| && i < |facts[u]| && (u < v || (u == v && i < k)) :: Fact(u, facts[u][i])
  }

  lemma AssertedMore(facts: seq<seq<Row>>, v: nat, k: nat)
    requires v < |facts| && k < |facts[v]| && NoRepeats(facts[v])
    ensures AssertedBelow(facts, v, k + 1) == AssertedBelow(facts, v, k) + {Fact(v, facts[v][k])}
    ensures Fact(v, facts[v][k]) !in AssertedBelow(facts, v, k)
  {
  }

  lemma AssertedEnds(facts: seq<seq<Row>>, v: nat)
    ensures AssertedBelow(facts, 0, 0) == {}
    ensures v < |facts| ==> AssertedBelow(facts, v, |facts[v]|) == AssertedBelow(facts, v + 1, 0)
  {
  }

  lemma AssertedAll(p: Program, facts: seq<seq<Row>>, asserted: set<Fact>)
    requires FactsAre(p, facts, asserted)
    ensures AssertedBelow(facts, |facts|, 0) == asserted
  {
    forall f | f in asserted ensures f in AssertedBelow(facts, |facts|, 0) {
      assert f.row in facts[f.view];
      var i: nat :| i < |facts[f.view]| && facts[f.view][i] == f.row;
    }
  }

  /** The rows of the first `i` aggregates, and of aggregate `i` the first `k` of `rows`. */
  ghost function SummariesBelow(p: Program, x: set<Fact>, i: nat): set<Fact> {
    set f | f in x && exists j: nat :: j < |p.aggs| && j < i && p.aggs[j].head == f.view
  }

  ghost function RowsBelowK(v: nat, rows: seq<Row>, k: nat): set<Fact> {
    set i: nat | i < |rows| && i < k :: Fact(v, rows[i])
  }

  lemma RowsMoreK(v: nat, rows: seq<Row>, k: nat)
    requires k < |rows| && NoRepeats(rows)
    ensures RowsBelowK(v, rows, k + 1) == RowsBelowK(v, rows, k) + {Fact(v, rows[k])}
    ensures Fact(v, rows[k]) !in RowsBelowK(v, rows, k) && RowsBelowK(v, rows, 0) == {}
  {
  }

  lemma SummariesMore(p: Program, x: set<Fact>, i: nat, rows: seq<Row>)
    requires GoodProgram(p) && i < |p.aggs| && forall row :: row in rows <==> Fact(p.aggs[i].head, row) in x
    ensures SummariesBelow(p, x, i) !! RowsBelowK(p.aggs[i].head, rows, |rows|)
    ensures SummariesBelow(p, x, i + 1) == SummariesBelow(p, x, i) + RowsBelowK(p.aggs[i].head, rows, |rows|)
    ensures SummariesBelow(p, x, 0) == {}
  {
    hide GoodAggregate, GoodRule;
    forall f | f in x && f.view == p.aggs[i].head ensures f in RowsBelowK(p.aggs[i].head, rows, |rows|) {
      assert f.row in rows;
      var k: nat :| k < |rows| && rows[k] == f.row;
    }
  }

  /** Asserted facts and aggregate rows of the model are its support. */
  lemma SummariesAreSupport(p: Program, g: GroundProgram, asserted: set<Fact>, x: set<Fact>)
    requires GoodProgram(p) && g == GroundOf(p) && WellFormed(g) && asserted <= g.facts && IsProgramModel(p, g, asserted, x)
    ensures asserted + SummariesBelow(p, x, |p.aggs|) == Support(p, asserted, x)
  {
    hide GoodProgram, GroundOf, WellFormed, Desired;
    var ext := Support(p, asserted, x);
    SupportFits(p, g, asserted, x);
    forall f | f in SummariesBelow(p, x, |p.aggs|) ensures f in ext {
      var j: nat :| j < |p.aggs| && p.aggs[j].head == f.view;
      AggregatesOnlySupported(p, g, j, x, ext);
    }
    forall f | f in ext && f !in asserted ensures f in SummariesBelow(p, x, |p.aggs|) {
      var j: nat, out: Row :| j < |p.aggs| && out in Desired(p.aggs[j], x) && f == Fact(p.aggs[j].head, out);
      AggregatesOnlySupported(p, g, j, x, ext);
    }
  }

  lemma NotReceived(p: Program, asserted: set<Fact>, v: nat)
    requires Received(p, asserted) && v < |p.views| && !p.views[v].receive
    ensures forall row :: Fact(v, row) !in asserted
  {
  }

  lemma SummariesNone(p: Program, x: set<Fact>, asserted: set<Fact>)
    ensures asserted + SummariesBelow(p, x, 0) == asserted
  {
  }

  lemma SummaryStarts(p: Program, before: set<Fact>, i: nat, rows: seq<Row>, asserted: set<Fact>, below: set<Fact>)
    requires GoodProgram(p) && i < |p.aggs| && Received(p, asserted) && before == asserted + below
    requires below !! RowsBelowK(p.aggs[i].head, rows, |rows|)
    ensures before !! RowsBelowK(p.aggs[i].head, rows, |rows|)
    ensures before + RowsBelowK(p.aggs[i].head, rows, 0) == before
  {
    AggregateIn(p, i);
  }

  lemma SummaryMore(before: set<Fact>, v: nat, rows: seq<Row>, k: nat)
    requires k < |rows| && NoRepeats(rows) && before !! RowsBelowK(v, rows, |rows|)
    ensures before + RowsBelowK(v, rows, k + 1) == before + RowsBelowK(v, rows, k) + {Fact(v, rows[k])}
    ensures Fact(v, rows[k]) !in before + RowsBelowK(v, rows, k)
  {
    RowsMoreK(v, rows, k);
    assert Fact(v, rows[k]) in RowsBelowK(v, rows, |rows|);
  }

  /** One row of the incremental store agrees with the from-scratch facts and counts. */
  ghost predicate RowAgrees(s: Store, v: nat, x: set<Fact>, e: Expectations, id: nat) {
    id < |s.rows| && id < |s.st| ==>
      var f := Fact(v, s.rows[id]);
      && (s.st[id].inI <==> f in x)
      && s.st[id].nr == Of(e, f).nr && s.st[id].rc == Of(e, f).rc
  }

  ghost predicate Agrees(ss: Stores, v: nat, x: set<Fact>, e: Expectations) {
    v < |ss| ==>
      && (forall id :: 0 <= id < |ss[v].rows| ==> RowAgrees(ss[v], v, x, e, id))
      && (forall row :: Fact(v, row) in x ==> row in ss[v].ids)
  }

  /** The incremental state agrees with any exact count over the same model. */
  lemma SettledAgrees(p: Program, g: GroundProgram, ss: Stores, w: Weight, ext: set<Fact>, e: Expectations, v: nat)
    requires Typed(p, g) && Settled(p, g, true, ss, w, ext) && (forall d :: d in g.derivs ==> d.rule < |p.rules|)
    requires Counts(g, e, ActiveRules(g, |p.rules|, Snap(g, ss, w, ext).present), ext)
    ensures Agrees(ss, v, Snap(g, ss, w, ext).present, e)
  {
    hide Typed, Settled, Counts, Snap, ExactNr, ExactRc, RowAgrees, StoresFit, ActiveRules, Store.Valid, AllIdle;
    if v < |ss| {
      var x := Snap(g, ss, w, ext).present;
      PresentInterned(g, ss, w, ext);
      SettledFits(p, g, true, ss, w, ext);
      forall id: nat | id < |ss[v].rows| ensures RowAgrees(ss[v], v, x, e, id) {
        var f := Fact(v, ss[v].rows[id]);
        RowIsFact(p, g, ss, v, id);
        SettledIsExact(p, g, ss, w, ext, f);
        CountsAreExact(p, g, e, x, ext, f);
        FitAt(p, ss, v);
        InternedSizes(ss[v]);
        RowAgreesIs(ss[v], v, x, e, id);
      }
    }
  }

  lemma InternedSizes(s: Store)
    requires s.Interned()
    ensures |s.st| == |s.rows|
  {
  }

  lemma PresentInterned(g: GroundProgram, ss: Stores, w: Weight, ext: set<Fact>)
    ensures forall f :: f in Snap(g, ss, w, ext).present && f.view < |ss| ==> f.row in ss[f.view].ids
  {
    forall f | f in Snap(g, ss, w, ext).present && f.view < |ss| ensures f.row in ss[f.view].ids {
      assert StateOf(ss, f).inI;
    }
  }

  lemma RowAgreesIs(s: Store, v: nat, x: set<Fact>, e: Expectations, id: nat)
    requires id < |s.rows| == |s.st|
    ensures
      var f := Fact(v, s.rows[id]);
      RowAgrees(s, v, x, e, id) <==> (s.st[id].inI <==> f in x) && s.st[id].nr == Of(e, f).nr && s.st[id].rc == Of(e, f).rc
  {
  }

  /** Every row's counters are the exact numbers of instances over `x`, and it is in exactly when
      it is in `x`. */
  ghost predicate ExactlyCounted(g: GroundProgram, ss: Stores, x: set<Fact>, ext: set<Fact>) {
    forall f :: f in g.facts ==>
      && StateOf(ss, f).nr == ExactNr(g, x, ext, f) && StateOf(ss, f).rc == ExactRc(g, x, f)
      && (StateOf(ss, f).inI <==> f in x)
  }

  lemma SettledIsCounted(p: Program, g: GroundProgram, ss: Stores, w: Weight, ext: set<Fact>)
    requires Settled(p, g, true, ss, w, ext)
    ensures ExactlyCounted(g, ss, Snap(g, ss, w, ext).present, ext)
  {
    hide Settled, Snap, ExactNr, ExactRc, StateOf;
    forall f | f in g.facts
      ensures
        var x := Snap(g, ss, w, ext).present;
        StateOf(ss, f).nr == ExactNr(g, x, ext, f) && StateOf(ss, f).rc == ExactRc(g, x, f) && (StateOf(ss, f).inI <==> f in x)
    {
      SettledIsExact(p, g, ss, w, ext, f);
    }
  }

  // ------------------------------------------------------------------
  // The asserted rows of one view.

  ghost predicate ExplicitBelow(s: Store, n: nat, rows: seq<Row>) {
    && s.Interned() && n <= |s.rows| && NoRepeats(rows)
    && forall r :: r in rows <==> r in s.ids && s.ids[r] < n && s.Get(r).isExplicit
  }

  lemma ExplicitNone(s: Store)
    requires s.Interned()
    ensures ExplicitBelow(s, 0, [])
  {
  }

  lemma ExplicitMore(s: Store, id: nat, rows: seq<Row>)
    requires ExplicitBelow(s, id, rows) && id < |s.rows| == |s.st|
    ensures ExplicitBelow(s, id + 1, if s.st[id].isExplicit then rows + [s.rows[id]] else rows)
  {
    assert s.Get(s.rows[id]) == s.st[id];
  }

  lemma ExplicitAll(p: Program, g: GroundProgram, ss: Stores, v: nat, rows: seq<Row>)
    requires g.facts == AllFacts(p) && StoresFit(p, ss) && v < |ss| && ExplicitBelow(ss[v], |ss[v].rows|, rows)
    ensures NoRepeats(rows) && forall row :: row in rows <==> Fact(v, row) in Explicit(g, ss)
  {
    hide StoresFit, Store.Valid, AllFacts, Explicit;
    FitSize(p, ss);
    FitAt(p, ss, v);
    forall row ensures row in rows <==> Fact(v, row) in Explicit(g, ss) {
      ExplicitIs(p, g, ss, v, row);
    }
  }

  lemma ExplicitIs(p: Program, g: GroundProgram, ss: Stores, v: nat, row: Row)
    requires g.facts == AllFacts(p) && v < |ss| == |p.views| && ss[v].Interned() && ss[v].arity == p.views[v].arity
    ensures Fact(v, row) in Explicit(g, ss) <==> row in ss[v].ids && ss[v].ids[row] < |ss[v].rows| && ss[v].Get(row).isExplicit
  {
    var s := ss[v];
    assert row in s.ids ==> s.rows[s.ids[row]] == row;
  }
}
