/** A whole batch: how external support is accounted for, stratum by stratum, until it is exactly
    the support of the new model. */
module Batches {
  import opened Ground
  import opened Weights
  import opened Model
  import opened Phase
  import opened Overdeletion
  import opened RowStore
  import opened Rules
  import opened Grounding
  import opened Snapshots
  import opened Sweeps
  import opened Rounds
  import opened Steps
  import opened Stages
  import opened Supports
  import opened Ingest
  import opened Settling
  import A = Aggregates

  /** The aggregate has been recomputed when aggregates [0, i) of stratum `n` have. */
  ghost predicate Finished(p: Program, n: nat, i: nat, j: nat)
    requires j < |p.aggs|
  {
    p.aggs[j].head < |p.views| &&
    (p.views[p.aggs[j].head].stratum < n || (p.views[p.aggs[j].head].stratum == n && j < i))
  }

  ghost predicate SupportedBy(p: Program, n: nat, i: nat, ext0: set<Fact>, cur: set<Fact>, f: Fact, j: nat) {
    j < |p.aggs| && p.aggs[j].head == f.view && if Finished(p, n, i, j) then f.row in Desired(p.aggs[j], cur) else f in ext0
  }

  ghost predicate Summarized(p: Program, n: nat, i: nat, ext0: set<Fact>, cur: set<Fact>, f: Fact) {
    exists j: nat :: SupportedBy(p, n, i, ext0, cur, f, j)
  }

  /** External support so far: the asserted facts, the recomputed aggregates' rows, and the old
      rows of the aggregates still to come. */
  ghost predicate Accounted(p: Program, g: GroundProgram, n: nat, i: nat, asserted: set<Fact>, ext0: set<Fact>, ext: set<Fact>, cur: set<Fact>) {
    && ext <= g.facts
    && forall f :: f in g.facts ==> (f in ext <==> f in asserted || Summarized(p, n, i, ext0, cur, f))
  }

  /** The same aggregates are finished, with the same rows. */
  lemma SummarizedSame(p: Program, n: nat, i: nat, n': nat, i': nat, ext0: set<Fact>, cur: set<Fact>, cur': set<Fact>, f: Fact)
    requires forall j: nat :: j < |p.aggs| && p.aggs[j].head == f.view ==>
      && (Finished(p, n, i, j) <==> Finished(p, n', i', j))
      && (Finished(p, n, i, j) ==> Desired(p.aggs[j], cur) == Desired(p.aggs[j], cur'))
    ensures Summarized(p, n, i, ext0, cur, f) <==> Summarized(p, n', i', ext0, cur', f)
  {
    hide Finished, Desired;
    assert forall j: nat :: SupportedBy(p, n, i, ext0, cur, f, j) <==> SupportedBy(p, n', i', ext0, cur', f, j);
  }

  /** At batch start the support is that of the old model. */
  lemma SupportIsAccounted(p: Program, g: GroundProgram, asserted: set<Fact>, x: set<Fact>)
    requires GoodProgram(p) && g == GroundOf(p) && asserted <= g.facts && Support(p, asserted, x) <= g.facts
    ensures Accounted(p, g, 0, 0, asserted, Support(p, asserted, x), Support(p, asserted, x), x)
  {
    var ext := Support(p, asserted, x);
    forall f | f in g.facts
      ensures f in ext <==> f in asserted || Summarized(p, 0, 0, ext, x, f)
    {
      if f in ext && f !in asserted {
        var j: nat, out: Row :| j < |p.aggs| && out in Desired(p.aggs[j], x) && f == Fact(p.aggs[j].head, out);
        assert SupportedBy(p, 0, 0, ext, x, f, j);
      }
    }
  }

  /** After the last stratum the support is that of the new model. */
  lemma AccountedIsSupport(p: Program, g: GroundProgram, asserted: set<Fact>, ext0: set<Fact>, ext: set<Fact>, cur: set<Fact>)
    requires GoodProgram(p) && g == GroundOf(p) && asserted <= g.facts
    requires Accounted(p, g, p.numStrata, 0, asserted, ext0, ext, cur)
    ensures ext == Support(p, asserted, cur)
  {
    SupportFits(p, g, asserted, cur);
    forall j: nat | j < |p.aggs| ensures Finished(p, p.numStrata, 0, j) {
      AggregateIn(p, j);
    }
    forall f | f in g.facts ensures f in ext <==> f in Support(p, asserted, cur) {
      if f in ext && f !in asserted {
        var j: nat :| SupportedBy(p, p.numStrata, 0, ext0, cur, f, j);
      }
      if f in Support(p, asserted, cur) && f !in asserted {
        var j: nat, out: Row :| j < |p.aggs| && out in Desired(p.aggs[j], cur) && f == Fact(p.aggs[j].head, out);
        assert SupportedBy(p, p.numStrata, 0, ext0, cur, f, j);
      }
    }
  }

  lemma DesiredBelow(p: Program, g: GroundProgram, n: nat, cur: set<Fact>, cur': set<Fact>, j: nat)
    requires GoodProgram(p) && g == GroundOf(p) && Below(g, cur, n) == Below(g, cur', n)
    requires j < |p.aggs| && Finished(p, n + 1, 0, j)
    ensures Desired(p.aggs[j], cur) == Desired(p.aggs[j], cur')
  {
    AggregateIn(p, j);
    RowsBelow(g, cur, cur', n, p.aggs[j].input);
  }

  /** A stratum that keeps what lies below it keeps the accounts. */
  lemma AccountedAfter(p: Program, g: GroundProgram, n: nat, asserted: set<Fact>, ext0: set<Fact>, ext: set<Fact>,
                       cur: set<Fact>, cur': set<Fact>)
    requires GoodProgram(p) && g == GroundOf(p) && Below(g, cur, n) == Below(g, cur', n)
    requires Accounted(p, g, n, |p.aggs|, asserted, ext0, ext, cur)
    ensures Accounted(p, g, n + 1, 0, asserted, ext0, ext, cur')
  {
    hide GoodProgram, GroundOf, Desired;
    forall j: nat | j < |p.aggs| && Finished(p, n + 1, 0, j) ensures Desired(p.aggs[j], cur) == Desired(p.aggs[j], cur') {
      DesiredBelow(p, g, n, cur, cur', j);
    }
    assert forall j: nat :: j < |p.aggs| ==> (Finished(p, n, |p.aggs|, j) <==> Finished(p, n + 1, 0, j));
    hide Finished;
    forall f | f in g.facts
      ensures f in ext <==> f in asserted || Summarized(p, n + 1, 0, ext0, cur', f)
    {
      SummarizedSame(p, n, |p.aggs|, n + 1, 0, ext0, cur, cur', f);
    }
  }

  /** Only the recomputed aggregate's view has new support. */
  ghost predicate Recomputed(p: Program, g: GroundProgram, i: nat, before: set<Fact>, after: set<Fact>, cur: set<Fact>)
    requires i < |p.aggs|
  {
    && after <= g.facts
    && forall f :: f in g.facts ==>
         (f in after <==> if f.view == p.aggs[i].head then f.row in Desired(p.aggs[i], cur) else f in before)
  }

  lemma AccountedMore(p: Program, g: GroundProgram, n: nat, i: nat, asserted: set<Fact>, ext0: set<Fact>, ext: set<Fact>, ext': set<Fact>, cur: set<Fact>)
    requires GoodProgram(p) && i < |p.aggs| && p.views[p.aggs[i].head].stratum == n
    requires Received(p, asserted) && Accounted(p, g, n, i, asserted, ext0, ext, cur) && Recomputed(p, g, i, ext, ext', cur)
    ensures Accounted(p, g, n, i + 1, asserted, ext0, ext', cur)
  {
    hide GoodProgram, Desired;
    OneAggregate(p, i);
    forall f | f in g.facts
      ensures f in ext' <==> f in asserted || Summarized(p, n, i + 1, ext0, cur, f)
    {
      if f.view == p.aggs[i].head {
        assert SupportedBy(p, n, i + 1, ext0, cur, f, i) <==> f.row in Desired(p.aggs[i], cur);
        assert SupportedBy(p, n, i + 1, ext0, cur, f, i) ==> Summarized(p, n, i + 1, ext0, cur, f);
      } else {
        SummarizedSame(p, n, i, n, i + 1, ext0, cur, cur, f);
      }
    }
  }

  lemma OneAggregate(p: Program, i: nat)
    requires GoodProgram(p) && i < |p.aggs|
    ensures p.aggs[i].head < |p.views| && !p.views[p.aggs[i].head].receive
    ensures forall j: nat :: j < |p.aggs| && p.aggs[j].head == p.aggs[i].head ==> j == i
  {
    AggregateIn(p, i);
  }

  lemma AccountedSkips(p: Program, g: GroundProgram, n: nat, i: nat, asserted: set<Fact>, ext0: set<Fact>, ext: set<Fact>, cur: set<Fact>)
    requires i < |p.aggs| && p.aggs[i].head < |p.views| && p.views[p.aggs[i].head].stratum != n
    requires Accounted(p, g, n, i, asserted, ext0, ext, cur)
    ensures Accounted(p, g, n, i + 1, asserted, ext0, ext, cur)
  {
    forall f | f in g.facts
      ensures f in ext <==> f in asserted || Summarized(p, n, i + 1, ext0, cur, f)
    {
      SummarizedSame(p, n, i, n, i + 1, ext0, cur, cur, f);
    }
  }

  // ------------------------------------------------------------------
  // Ingest.

  /** Support while a batch is being ingested: the old aggregate rows and the facts asserted now. */
  ghost predicate Ingesting(p: Program, asserted0: set<Fact>, ext0: set<Fact>, asserted: set<Fact>, ext: set<Fact>) {
    && Received(p, asserted0) && Received(p, asserted) && asserted0 <= ext0
    && (forall f :: f in ext0 && f !in asserted0 ==> f.view >= |p.views| || !p.views[f.view].receive)
    && ext == (ext0 - asserted0) + asserted
  }

  lemma IngestStarts(p: Program, g: GroundProgram, asserted: set<Fact>, x: set<Fact>)
    requires GoodProgram(p) && Received(p, asserted)
    ensures Ingesting(p, asserted, Support(p, asserted, x), asserted, Support(p, asserted, x))
  {
    var ext := Support(p, asserted, x);
    forall f | f in ext && f !in asserted ensures f.view >= |p.views| || !p.views[f.view].receive {
      var j: nat, out: Row :| j < |p.aggs| && out in Desired(p.aggs[j], x) && f == Fact(p.aggs[j].head, out);
      AggregateIn(p, j);
    }
  }

  /** When the batch has been ingested, the accounts start. */
  lemma IngestedIsAccounted(p: Program, g: GroundProgram, asserted0: set<Fact>, x: set<Fact>, asserted: set<Fact>, ext: set<Fact>)
    requires GoodProgram(p) && g == GroundOf(p) && asserted0 <= g.facts && asserted <= g.facts
    requires Ingesting(p, asserted0, Support(p, asserted0, x), asserted, ext)
    ensures Accounted(p, g, 0, 0, asserted, Support(p, asserted0, x), ext, x)
  {
    var ext0 := Support(p, asserted0, x);
    SupportFits(p, g, asserted0, x);
    SupportIsAccounted(p, g, asserted0, x);
    forall f | f in g.facts
      ensures f in ext <==> f in asserted || Summarized(p, 0, 0, ext0, x, f)
    {
      if j: nat :| SupportedBy(p, 0, 0, ext0, x, f, j) {
        AggregateIn(p, j);
      }
    }
  }

  /** The stores after one ingested operation. */
  function IngestedStores(ss: Stores, f: Fact, add: bool): Stores
    requires f.view < |ss|
  {
    ss[f.view := if add then ExplicitUp(ss[f.view], f.row) else ExplicitDown(ss[f.view], f.row)]
  }

  ghost function IngestedExt(asserted0: set<Fact>, ext0: set<Fact>, asserted: set<Fact>): set<Fact> {
    (ext0 - asserted0) + asserted
  }

  /** The batch is being ingested on these stores. */
  ghost predicate IngestingOn(p: Program, g: GroundProgram, ss: Stores, w: Weight, ext0: set<Fact>, ext: set<Fact>,
                              asserted0: set<Fact>, asserted: set<Fact>, cur: set<Fact>)
  {
    && AtStratum(p, g, 0, ss, w, ext0, ext) && Explicit(g, ss) == asserted
    && Ingesting(p, asserted0, ext0, asserted, ext) && Snap(g, ss, w, ext).Current() == cur
  }

  ghost predicate ReceiveFact(p: Program, g: GroundProgram, f: Fact) {
    f in g.facts && f.view < |p.views| && p.views[f.view].receive && f.view in g.external
  }

  lemma IngestUp(p: Program, g: GroundProgram, ss: Stores, w: Weight, ext0: set<Fact>, ext: set<Fact>,
                 asserted0: set<Fact>, asserted: set<Fact>, cur: set<Fact>, f: Fact)
    requires WellFormed(g) && Typed(p, g) && IngestingOn(p, g, ss, w, ext0, ext, asserted0, asserted, cur)
    requires ReceiveFact(p, g, f) && f !in asserted && f !in asserted0
    ensures f.view < |ss|
    ensures IngestingOn(p, g, Up(ss, f, Supported(StateOf(ss, f), 1, true)), w, ext0, ext + {f}, asserted0, asserted + {f}, cur)
  {
    hide WellFormed, AtStratum, Typed, Snap, State.Current, Explicit, Ingesting, Up;
    IngestedSupport(p, asserted0, ext0, asserted, ext, f);
    UpSupports(p, g, 0, ss, w, ext0, ext, f, true);
  }

  lemma IngestDown(p: Program, g: GroundProgram, ss: Stores, w: Weight, ext0: set<Fact>, ext: set<Fact>,
                   asserted0: set<Fact>, asserted: set<Fact>, cur: set<Fact>, f: Fact)
    requires WellFormed(g) && Typed(p, g) && IngestingOn(p, g, ss, w, ext0, ext, asserted0, asserted, cur)
    requires ReceiveFact(p, g, f) && f in asserted && f in asserted0
    ensures f.view < |ss|
    ensures IngestingOn(p, g, Down(ss, f, Supported(StateOf(ss, f), -1, false)), w, ext0, ext - {f}, asserted0, asserted - {f}, cur)
  {
    hide WellFormed, AtStratum, Typed, Snap, State.Current, Explicit, Ingesting, Down;
    IngestedSupport(p, asserted0, ext0, asserted, ext, f);
    DownSupports(p, g, 0, ss, w, ext0, ext, f, false);
  }

  lemma IngestSame(p: Program, g: GroundProgram, ss: Stores, w: Weight, ext0: set<Fact>, ext: set<Fact>,
                   asserted0: set<Fact>, asserted: set<Fact>, cur: set<Fact>, f: Fact)
    requires Typed(p, g) && IngestingOn(p, g, ss, w, ext0, ext, asserted0, asserted, cur) && f in g.facts
    ensures f.view < |ss|
    ensures IngestingOn(p, g, ss[f.view := WithRow(ss[f.view], f.row)], w, ext0, ext, asserted0, asserted, cur)
  {
    hide AtStratum, Typed, Snap, State.Current, Explicit, Ingesting, WithRow;
    InternChangesNothing(p, g, 0, ss, w, ext0, ext, f);
  }

  /** One operation of the batch: the asserted set changes as asked, and the support with it. */
  lemma IngestOne(p: Program, g: GroundProgram, ss: Stores, w: Weight, ext0: set<Fact>, ext: set<Fact>,
                  asserted0: set<Fact>, asserted: set<Fact>, cur: set<Fact>, f: Fact, add: bool)
    requires WellFormed(g) && Typed(p, g) && IngestingOn(p, g, ss, w, ext0, ext, asserted0, asserted, cur)
    requires ReceiveFact(p, g, f) && (f in asserted <==> f in asserted0)
    ensures f.view < |ss|
    ensures
      var asserted' := if add then asserted + {f} else asserted - {f};
      IngestingOn(p, g, IngestedStores(ss, f, add), w, ext0, IngestedExt(asserted0, ext0, asserted'), asserted0, asserted', cur)
  {
    hide WellFormed, Typed, IngestingOn, IngestedExt, Up, Down, WithRow, IngestedStores, RowState.Bumped;
    IngestingSupport(p, g, ss, w, ext0, ext, asserted0, asserted, cur, f);
    IngestedIs(ss, f, add);
    if add {
      if f !in asserted {
        IngestUp(p, g, ss, w, ext0, ext, asserted0, asserted, cur, f);
      } else {
        assert asserted + {f} == asserted;
        IngestSame(p, g, ss, w, ext0, ext, asserted0, asserted, cur, f);
      }
    } else {
      if f in asserted {
        IngestDown(p, g, ss, w, ext0, ext, asserted0, asserted, cur, f);
      } else {
        assert asserted - {f} == asserted;
        IngestSame(p, g, ss, w, ext0, ext, asserted0, asserted, cur, f);
      }
    }
  }

  lemma IngestingSupport(p: Program, g: GroundProgram, ss: Stores, w: Weight, ext0: set<Fact>, ext: set<Fact>,
                         asserted0: set<Fact>, asserted: set<Fact>, cur: set<Fact>, f: Fact)
    requires IngestingOn(p, g, ss, w, ext0, ext, asserted0, asserted, cur)
    requires ReceiveFact(p, g, f) && (f in asserted <==> f in asserted0)
    ensures |ss| == |p.views| && (f in asserted <==> StateOf(ss, f).isExplicit)
    ensures ext + {f} == IngestedExt(asserted0, ext0, asserted + {f})
    ensures ext - {f} == IngestedExt(asserted0, ext0, asserted - {f})
    ensures ext == IngestedExt(asserted0, ext0, asserted)
  {
    hide AtStratum, Snap, State.Current, StateOf;
    AtStratumFits(p, g, 0, ss, w, ext0, ext);
    IngestedSupport(p, asserted0, ext0, asserted, ext, f);
  }

  lemma IngestedIs(ss: Stores, f: Fact, add: bool)
    requires f.view < |ss|
    ensures
      var y := StateOf(ss, f);
      IngestedStores(ss, f, add) ==
        if add && !y.isExplicit then Up(ss, f, Supported(y, 1, true))
        else if !add && y.isExplicit then Down(ss, f, Supported(y, -1, false))
        else ss[f.view := WithRow(ss[f.view], f.row)]
  {
    hide FoldUp, FoldDown, WithRow;
  }

  lemma IngestedSupport(p: Program, asserted0: set<Fact>, ext0: set<Fact>, asserted: set<Fact>, ext: set<Fact>, f: Fact)
    requires Ingesting(p, asserted0, ext0, asserted, ext) && f.view < |p.views| && p.views[f.view].receive
    requires f in asserted <==> f in asserted0
    ensures f in ext <==> f in asserted
    ensures f in ext0 <==> f in asserted0
    ensures ext + {f} == IngestedExt(asserted0, ext0, asserted + {f})
    ensures ext - {f} == IngestedExt(asserted0, ext0, asserted - {f})
    ensures ext == IngestedExt(asserted0, ext0, asserted)
    ensures Ingesting(p, asserted0, ext0, asserted + {f}, ext + {f}) && Ingesting(p, asserted0, ext0, asserted - {f}, ext - {f})
  {
  }

  lemma IngestingFits(p: Program, g: GroundProgram, ss: Stores, w: Weight, ext0: set<Fact>, ext: set<Fact>,
                      asserted0: set<Fact>, asserted: set<Fact>, cur: set<Fact>, v: nat)
    requires IngestingOn(p, g, ss, w, ext0, ext, asserted0, asserted, cur) && v < |p.views|
    ensures v < |ss| && ss[v].Interned()
  {
    hide AtStratum, Ingesting, Explicit, Snap, Store.Valid;
    AtStratumFits(p, g, 0, ss, w, ext0, ext);
    FitAt(p, ss, v);
  }

  // ------------------------------------------------------------------
  // Recomputing one aggregate.

  /** Stratum `n` is about to run; aggregates are being recomputed. */
  ghost predicate Midway(p: Program, g: GroundProgram, n: nat, ss: Stores, w: Weight, ext0: set<Fact>, ext: set<Fact>,
                         asserted: set<Fact>, present: set<Fact>, cur: set<Fact>)
  {
    && AtStratum(p, g, n, ss, w, ext0, ext) && Explicit(g, ss) == asserted
    && Snap(g, ss, w, ext).present == present && Snap(g, ss, w, ext).Current() == cur
  }

  ghost predicate AggregateFact(p: Program, g: GroundProgram, n: nat, f: Fact) {
    f in g.facts && Stratum(g, f) == n && f.view in g.external
  }

  lemma MidwayUp(p: Program, g: GroundProgram, n: nat, ss: Stores, w: Weight, ext0: set<Fact>, ext: set<Fact>,
                 asserted: set<Fact>, present: set<Fact>, cur: set<Fact>, f: Fact)
    requires WellFormed(g) && Typed(p, g) && Midway(p, g, n, ss, w, ext0, ext, asserted, present, cur)
    requires AggregateFact(p, g, n, f) && f !in ext && f !in ext0
    ensures f.view < |ss|
    ensures Midway(p, g, n, Up(ss, f, StateOf(ss, f).Bumped(false, 1)), w, ext0, ext + {f}, asserted, present, cur)
  {
    ExplicitMember(g, ss, f);
    hide WellFormed, AtStratum, Typed, Snap, State.Current, Explicit, Up, StateOf;
    UpSupports(p, g, n, ss, w, ext0, ext, f, StateOf(ss, f).isExplicit);
  }

  lemma MidwayDown(p: Program, g: GroundProgram, n: nat, ss: Stores, w: Weight, ext0: set<Fact>, ext: set<Fact>,
                   asserted: set<Fact>, present: set<Fact>, cur: set<Fact>, f: Fact)
    requires WellFormed(g) && Typed(p, g) && Midway(p, g, n, ss, w, ext0, ext, asserted, present, cur)
    requires AggregateFact(p, g, n, f) && f in ext && f in ext0
    ensures f.view < |ss|
    ensures Midway(p, g, n, Down(ss, f, StateOf(ss, f).Bumped(false, -1)), w, ext0, ext - {f}, asserted, present, cur)
  {
    ExplicitMember(g, ss, f);
    hide WellFormed, AtStratum, Typed, Snap, State.Current, Explicit, Down, StateOf;
    DownSupports(p, g, n, ss, w, ext0, ext, f, StateOf(ss, f).isExplicit);
  }

  lemma ExplicitMember(g: GroundProgram, ss: Stores, f: Fact)
    requires f in g.facts
    ensures f in Explicit(g, ss) <==> StateOf(ss, f).isExplicit
    ensures Explicit(g, ss) == if StateOf(ss, f).isExplicit then Explicit(g, ss) + {f} else Explicit(g, ss) - {f}
  {
  }

  /** An aggregate's rows at batch start are exactly its supported facts: it heads no rule. */
  ghost predicate OnlySupported(g: GroundProgram, v: nat, present: set<Fact>, ext0: set<Fact>) {
    forall f :: f in g.facts && f.view == v ==> (f in present <==> f in ext0)
  }

  lemma AggregatesOnlySupported(p: Program, g: GroundProgram, i: nat, present: set<Fact>, ext0: set<Fact>)
    requires GoodProgram(p) && g == GroundOf(p) && WellFormed(g) && i < |p.aggs| && StartsFrom(g, present, ext0)
    ensures OnlySupported(g, p.aggs[i].head, present, ext0)
  {
    hide StartsFrom, WellFormed;
    forall f | f in g.facts && f.view == p.aggs[i].head ensures f in present <==> f in ext0 {
      if f in present {
        PresentSupported(g, present, ext0, f);
        NoRuleFor(p, g, i);
      }
      if f in ext0 {
        SupportedPresent(g, present, ext0, f);
      }
    }
  }

  lemma NoRuleFor(p: Program, g: GroundProgram, i: nat)
    requires GoodProgram(p) && g == GroundOf(p) && i < |p.aggs|
    ensures forall d :: d in g.derivs ==> d.head.view != p.aggs[i].head
  {
    AggregateIn(p, i);
    forall d | d in g.derivs ensures d.head.view != p.aggs[i].head {
      DerivOfRule(p, d);
    }
  }

  /** The desired rows that were absent have gained support, up to a point. */
  ghost predicate Raised(g: GroundProgram, v: nat, out: seq<Row>, k: nat, present: set<Fact>, before: set<Fact>, ext: set<Fact>)
    requires k <= |out|
  {
    && ext <= g.facts
    && forall f :: f in g.facts ==> (f in ext <==> f in before || (f.view == v && f.row in out[..k] && f !in present))
  }

  /** The rows no longer desired have lost support, up to a point. */
  ghost predicate Lowered(g: GroundProgram, v: nat, out: seq<Row>, rows: seq<Row>, m: nat, present: set<Fact>, raised: set<Fact>, ext: set<Fact>)
    requires m <= |rows|
  {
    && ext <= g.facts
    && forall f :: f in g.facts ==>
         (f in ext <==> f in raised && !(f.view == v && f.row in rows[..m] && f in present && f.row !in out))
  }

  lemma RaisedMore(g: GroundProgram, v: nat, out: seq<Row>, k: nat, present: set<Fact>, before: set<Fact>, ext: set<Fact>, ext0: set<Fact>)
    requires k < |out| && NoRepeats(out) && Raised(g, v, out, k, present, before, ext) && Fact(v, out[k]) in g.facts
    requires OnlySupported(g, v, present, ext0) && forall f :: f in g.facts && f.view == v ==> (f in before <==> f in ext0)
    ensures
      var f := Fact(v, out[k]);
      if f in present then Raised(g, v, out, k + 1, present, before, ext)
      else f !in ext && f !in ext0 && Raised(g, v, out, k + 1, present, before, ext + {f})
  {
    assert out[..k + 1] == out[..k] + [out[k]];
  }

  lemma LoweredMore(g: GroundProgram, v: nat, out: seq<Row>, rows: seq<Row>, m: nat, present: set<Fact>, before: set<Fact>, raised: set<Fact>,
                    ext: set<Fact>, ext0: set<Fact>)
    requires m < |rows| && NoRepeats(rows) && Lowered(g, v, out, rows, m, present, raised, ext) && Fact(v, rows[m]) in g.facts
    requires Raised(g, v, out, |out|, present, before, raised)
    requires OnlySupported(g, v, present, ext0) && forall f :: f in g.facts && f.view == v ==> (f in before <==> f in ext0)
    ensures
      var f := Fact(v, rows[m]);
      if f in present && f.row !in out then f in ext && f in ext0 && Lowered(g, v, out, rows, m + 1, present, raised, ext - {f})
      else Lowered(g, v, out, rows, m + 1, present, raised, ext)
  {
    assert rows[..m + 1] == rows[..m] + [rows[m]];
  }

  /** Both passes done: the aggregate's support is exactly its desired rows. */
  lemma RecomputedAll(p: Program, g: GroundProgram, i: nat, out: seq<Row>, rows: seq<Row>, present: set<Fact>, cur: set<Fact>,
                      before: set<Fact>, raised: set<Fact>, ext: set<Fact>, ext0: set<Fact>)
    requires i < |p.aggs|
    requires Raised(g, p.aggs[i].head, out, |out|, present, before, raised)
    requires Lowered(g, p.aggs[i].head, out, rows, |rows|, present, raised, ext)
    requires OnlySupported(g, p.aggs[i].head, present, ext0)
    requires forall f :: f in g.facts && f.view == p.aggs[i].head ==> (f in before <==> f in ext0)
    requires forall f :: f in present && f.view == p.aggs[i].head ==> f.row in rows
    requires forall row :: row in out <==> row in Desired(p.aggs[i], cur)
    ensures Recomputed(p, g, i, before, ext, cur)
  {
    hide Desired;
    assert out[..|out|] == out && rows[..|rows|] == rows;
  }

  lemma MidwayFits(p: Program, g: GroundProgram, n: nat, ss: Stores, w: Weight, ext0: set<Fact>, ext: set<Fact>,
                   asserted: set<Fact>, present: set<Fact>, cur: set<Fact>, v: nat)
    requires Midway(p, g, n, ss, w, ext0, ext, asserted, present, cur)
    ensures StoresFit(p, ss) && |ss| == |p.views| && StartsFrom(g, present, ext0)
    ensures v < |ss| ==> ss[v].Interned()
  {
    hide AtStratum, Explicit, Snap, Store.Valid, StartsFrom, Counted, DoneBelow, WaitingFrom, State.Current;
    AtStratumFits(p, g, n, ss, w, ext0, ext);
    if v < |ss| {
      FitAt(p, ss, v);
    }
  }

  lemma MidwayExt(p: Program, g: GroundProgram, n: nat, ss: Stores, w: Weight, ext0: set<Fact>, ext: set<Fact>,
                  asserted: set<Fact>, present: set<Fact>, cur: set<Fact>)
    requires Midway(p, g, n, ss, w, ext0, ext, asserted, present, cur)
    ensures ext <= g.facts
  {
    hide AtStratum, Explicit, StartsFrom, DoneBelow, WaitingFrom, State.Current, StoresFit;
    AtStratumFits(p, g, n, ss, w, ext0, ext);
    SnapShape(g, ss, w, ext);
  }

  lemma UpDownGrow(ss: Stores, f: Fact)
    requires f.view < |ss|
    ensures
      var ts := Up(ss, f, StateOf(ss, f).Bumped(false, 1));
      |ts| == |ss| && ss[f.view].rows <= ts[f.view].rows
    ensures
      var ts := Down(ss, f, StateOf(ss, f).Bumped(false, -1));
      |ts| == |ss| && ss[f.view].rows <= ts[f.view].rows
  {
    hide FoldUp, FoldDown;
    RowsGrow(ss[f.view], f.row, StateOf(ss, f).Bumped(false, 1));
    RowsGrow(ss[f.view], f.row, StateOf(ss, f).Bumped(false, -1));
  }

  lemma RaisedNone(g: GroundProgram, v: nat, out: seq<Row>, present: set<Fact>, before: set<Fact>)
    requires before <= g.facts
    ensures Raised(g, v, out, 0, present, before, before)
  {
  }

  lemma LoweredNone(g: GroundProgram, v: nat, out: seq<Row>, rows: seq<Row>, present: set<Fact>, raised: set<Fact>)
    requires raised <= g.facts
    ensures Lowered(g, v, out, rows, 0, present, raised, raised)
  {
  }

  /** The rows in the new state are the current facts of the view. */
  lemma MembersAre(p: Program, g: GroundProgram, n: nat, ss: Stores, w: Weight, ext0: set<Fact>, ext: set<Fact>,
                   asserted: set<Fact>, present: set<Fact>, cur: set<Fact>, v: nat, members: seq<Row>)
    requires Typed(p, g) && Midway(p, g, n, ss, w, ext0, ext, asserted, present, cur) && v < |p.views|
    requires |ss| == |p.views|
    requires forall r :: r in members <==> r in ss[v].ids && Pass(ss[v].Get(r), InNew)
    ensures A.RowSet(members) == RowsIn(cur, v)
  {
    MidwayFits(p, g, n, ss, w, ext0, ext, asserted, present, cur, v);
    FitAt(p, ss, v);
    hide AtStratum, Explicit, Typed, StoresFit, Store.Valid;
    forall r ensures r in members <==> r in RowsIn(cur, v) {
      if r in members {
        RowIsFact(p, g, ss, v, ss[v].ids[r]);
        SnapMember(g, ss, w, ext, Fact(v, r));
        assert Fact(v, r) in cur;
      }
      if r in RowsIn(cur, v) {
        assert Fact(v, r) in cur;
        CurrentIsFact(g, ss, w, ext, Fact(v, r));
        SnapMember(g, ss, w, ext, Fact(v, r));
      }
    }
  }

  lemma CurrentIsFact(g: GroundProgram, ss: Stores, w: Weight, ext: set<Fact>, f: Fact)
    requires f in Snap(g, ss, w, ext).Current()
    ensures f in g.facts
  {
  }

  lemma AggregateViews(p: Program, g: GroundProgram, i: nat)
    requires GoodProgram(p) && g == GroundOf(p) && i < |p.aggs|
    ensures
      var a := p.aggs[i];
      && a.head < |p.views| && a.input < |p.views| && p.views[a.head].arity == |a.keySlots| + 1
      && forall row :: |row| == p.views[a.head].arity ==> AggregateFact(p, g, p.views[a.head].stratum, Fact(a.head, row))
  {
    AggregateIn(p, i);
  }

  /** What the reduction lists is what the model wants, and all of it are facts of the head view. */
  lemma DesiredRows(p: Program, g: GroundProgram, i: nat, cur: set<Fact>, members: seq<Row>, out: seq<Row>)
    requires GoodProgram(p) && g == GroundOf(p) && i < |p.aggs|
    requires A.RowSet(members) == RowsIn(cur, p.aggs[i].input)
    requires forall row :: row in out <==> A.IsDesired(p.aggs[i], A.RowSet(members), row)
    ensures p.aggs[i].head < |p.views|
    ensures forall row :: row in out <==> row in Desired(p.aggs[i], cur)
    ensures forall row :: row in out ==> AggregateFact(p, g, p.views[p.aggs[i].head].stratum, Fact(p.aggs[i].head, row))
  {
    hide GoodProgram, GroundOf, Desired, AggregateFact, A.IsDesired;
    AggregateViews(p, g, i);
    forall row ensures row in out <==> row in Desired(p.aggs[i], cur) {
      DesiredIs(p.aggs[i], cur, row);
    }
    forall row | row in out ensures |row| == |p.aggs[i].keySlots| + 1 {
      A.DesiredFits(p.aggs[i], A.RowSet(members), row);
    }
  }

  /** A view's log lists every row that was in at batch start, each row once. */
  lemma LogIsListed(p: Program, g: GroundProgram, i: nat, n: nat, ss: Stores, w: Weight, ext0: set<Fact>, ext: set<Fact>,
                    asserted: set<Fact>, present: set<Fact>, cur: set<Fact>)
    requires GoodProgram(p) && g == GroundOf(p) && i < |p.aggs| && Midway(p, g, n, ss, w, ext0, ext, asserted, present, cur)
    ensures p.aggs[i].head < |ss| == |p.views|
    ensures NoRepeats(ss[p.aggs[i].head].rows)
    ensures forall f :: f in present && f.view == p.aggs[i].head ==> f.row in ss[p.aggs[i].head].rows
    ensures forall row :: row in ss[p.aggs[i].head].rows ==>
      AggregateFact(p, g, p.views[p.aggs[i].head].stratum, Fact(p.aggs[i].head, row))
  {
    hide GoodProgram, GroundOf, AggregateFact, Midway, StoresFit;
    AggregateViews(p, g, i);
    var v := p.aggs[i].head;
    MidwayFits(p, g, n, ss, w, ext0, ext, asserted, present, cur, v);
    FitAt(p, ss, v);
    forall f | f in present && f.view == v ensures f.row in ss[v].rows {
      PresentIsLogged(p, g, n, ss, w, ext0, ext, asserted, present, cur, f);
    }
  }

  lemma PresentIsLogged(p: Program, g: GroundProgram, n: nat, ss: Stores, w: Weight, ext0: set<Fact>, ext: set<Fact>,
                        asserted: set<Fact>, present: set<Fact>, cur: set<Fact>, f: Fact)
    requires Midway(p, g, n, ss, w, ext0, ext, asserted, present, cur) && f in present && f.view < |ss|
    requires ss[f.view].Interned()
    ensures f.row in ss[f.view].rows
  {
    hide AtStratum, Explicit;
    assert StateOf(ss, f).inI;
  }

  /** An aggregate not recomputed yet still has its old support. */
  lemma AccountedWaits(p: Program, g: GroundProgram, n: nat, i: nat, asserted: set<Fact>, ext0: set<Fact>, ext: set<Fact>, cur: set<Fact>)
    requires GoodProgram(p) && i < |p.aggs| && p.aggs[i].head < |p.views| && p.views[p.aggs[i].head].stratum == n
    requires Received(p, asserted) && Accounted(p, g, n, i, asserted, ext0, ext, cur)
    ensures forall f :: f in g.facts && f.view == p.aggs[i].head ==> (f in ext <==> f in ext0)
  {
    hide GoodProgram, Desired;
    OneAggregate(p, i);
    forall f | f in g.facts && f.view == p.aggs[i].head ensures f in ext <==> f in ext0 {
      assert SupportedBy(p, n, i, ext0, cur, f, i) <==> f in ext0;
    }
  }

  /** The batch stands before stratum `n` with its support accounted for. */
  ghost predicate Poised(p: Program, g: GroundProgram, n: nat, ss: Stores, w: Weight, ext0: set<Fact>, ext: set<Fact>, asserted: set<Fact>) {
    && AtStratum(p, g, n, ss, w, ext0, ext) && Explicit(g, ss) == asserted
    && Received(p, asserted)
    && Accounted(p, g, n, 0, asserted, ext0, ext, Snap(g, ss, w, ext).Current())
  }

  lemma SameExplicitSet(g: GroundProgram, ss: Stores, ts: Stores)
    requires SameExplicit(ss, ts)
    ensures Explicit(g, ts) == Explicit(g, ss)
  {
    forall f | f in g.facts ensures StateOf(ts, f).isExplicit == StateOf(ss, f).isExplicit {
      if f.view < |ss| {
        assert forall r :: ts[f.view].Get(r).isExplicit == ss[f.view].Get(r).isExplicit;
      }
    }
  }

  lemma PoisedAfter(p: Program, g: GroundProgram, n: nat, ss: Stores, w: Weight, ts: Stores, w': Weight,
                      ext0: set<Fact>, ext: set<Fact>, asserted: set<Fact>)
    requires GoodProgram(p) && g == GroundOf(p) && Received(p, asserted) && Explicit(g, ss) == asserted
    requires Accounted(p, g, n, |p.aggs|, asserted, ext0, ext, Snap(g, ss, w, ext).Current())
    requires AtStratum(p, g, n + 1, ts, w', ext0, ext) && SameExplicit(ss, ts)
    requires Below(g, Snap(g, ts, w', ext).Current(), n) == Below(g, Snap(g, ss, w, ext).Current(), n)
    ensures Poised(p, g, n + 1, ts, w', ext0, ext, asserted)
  {
    hide GoodProgram, GroundOf, AtStratum, SameExplicit, Accounted, Snap, State.Current, Explicit;
    SameExplicitSet(g, ss, ts);
    AccountedAfter(p, g, n, asserted, ext0, ext, Snap(g, ss, w, ext).Current(), Snap(g, ts, w', ext).Current());
  }

  // ------------------------------------------------------------------
  // Batch start.

  lemma SettledSupport(p: Program, g: GroundProgram, fired: bool, ss: Stores, w: Weight, ext: set<Fact>)
    requires Settled(p, g, fired, ss, w, ext)
    ensures ext == Support(p, Explicit(g, ss), Snap(g, ss, w, ext).present)
    ensures !fired ==> ext == {} && Snap(g, ss, w, ext).present == {}
  {
    hide StoresFit, AllIdle, Counted, IsModel, Support, Explicit;
    SnapShape(g, ss, w, ext);
  }

  lemma StartsCurrent(p: Program, g: GroundProgram, ss: Stores, w: Weight, ext: set<Fact>)
    requires Settled(p, g, true, ss, w, ext)
    ensures Snap(g, ss, w, ext).Current() == Snap(g, ss, w, ext).present
  {
    hide Counted, Exact, Support, Explicit, Snap;
    SettledFacts(p, g, ss, w, ext);
  }

  lemma ExplicitIsFacts(g: GroundProgram, ss: Stores)
    ensures Explicit(g, ss) <= g.facts
  {
  }

  /** The batch has been ingested: stratum 0 may run. */
  lemma IngestedIsPoised(p: Program, g: GroundProgram, ss: Stores, w: Weight, ext: set<Fact>,
                         asserted0: set<Fact>, asserted: set<Fact>, x: set<Fact>)
    requires GoodProgram(p) && g == GroundOf(p) && asserted0 <= g.facts
    requires IngestingOn(p, g, ss, w, Support(p, asserted0, x), ext, asserted0, asserted, x)
    ensures Poised(p, g, 0, ss, w, Support(p, asserted0, x), ext, asserted)
  {
    hide GoodProgram, GroundOf, AtStratum, Explicit, Snap, State.Current, Support, Accounted;
    ExplicitIsFacts(g, ss);
    IngestedIsAccounted(p, g, asserted0, x, asserted, ext);
    IngestedReceived(p, asserted0, Support(p, asserted0, x), asserted, ext);
  }

  lemma IngestedReceived(p: Program, asserted0: set<Fact>, ext0: set<Fact>, asserted: set<Fact>, ext: set<Fact>)
    requires Ingesting(p, asserted0, ext0, asserted, ext)
    ensures Received(p, asserted)
  {
  }

  /** All strata have run: commit may not abort, and the support is that of the new state. */
  lemma PoisedIsDone(p: Program, g: GroundProgram, ss: Stores, w: Weight, ext0: set<Fact>, ext: set<Fact>, asserted: set<Fact>)
    requires GoodProgram(p) && g == GroundOf(p) && Typed(p, g) && Poised(p, g, p.numStrata, ss, w, ext0, ext, asserted)
    requires AllBelow(g, p.numStrata) && forall d :: d in g.derivs ==> d.head in g.facts
    ensures AtStratum(p, g, p.numStrata, ss, w, ext0, ext) && StoresFit(p, ss) && Explicit(g, ss) == asserted && Received(p, asserted)
    ensures ext == Support(p, Explicit(g, ss), Snap(g, ss, w, ext).Current())
    ensures forall v :: 0 <= v < |ss| ==> !Uncommittable(ss[v])
  {
    hide GoodProgram, GroundOf, AtStratum, Explicit, Snap, State.Current, Support, Accounted, AllBelow, Uncommittable, Typed, StoresFit;
    ExplicitIsFacts(g, ss);
    AtStratumFits(p, g, p.numStrata, ss, w, ext0, ext);
    AccountedIsSupport(p, g, asserted, ext0, ext, Snap(g, ss, w, ext).Current());
    forall v | 0 <= v < |ss| ensures !Uncommittable(ss[v]) {
      CommitNeverAborts(p, g, ss, w, ext0, ext, v);
    }
  }

  lemma SettledIsModel(p: Program, g: GroundProgram, ss: Stores, w: Weight, ext: set<Fact>)
    requires Settled(p, g, true, ss, w, ext)
    ensures IsProgramModel(p, g, Explicit(g, ss), Snap(g, ss, w, ext).present)
  {
    hide StoresFit, AllIdle, Counted, IsModel, Support, Explicit;
    SnapShape(g, ss, w, ext);
  }
}
