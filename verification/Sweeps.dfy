/** A sweep over the rules of a stratum as a sequence of single counter folds: what it adds up
    to, and that every fold keeps the invariant of its phase. */
module Sweeps {
  import opened Ground
  import opened Weights
  import opened Model
  import opened Phase
  import opened Overdeletion
  import opened Insertion
  import opened Passes
  import opened Firings
  import opened RowStore
  import opened Rules
  import opened Snapshots
  import opened Reads
  import opened Deltas

  /** The invariant of the phase that is running. */
  ghost predicate Working(g: GroundProgram, n: nat, adding: bool, s0: State, s: State, ext0: set<Fact>) {
    if adding then Inserting(g, n, s0, s) else Deleting(g, n, s0, s, ext0)
  }

  /** Every derivation about to be counted up is active and not counted yet. */
  ghost predicate Room(before: Weight, fired: set<Deriv>, current: set<Fact>) {
    forall d :: d in fired ==> d in before && before[d] < Bit(Active(d, current))
  }

  function Fold(s: State, d: Deriv, adding: bool): (t: State)
    requires d.head in s.nr && d.head in s.rc && d in s.w
    ensures t.Current() == s.Current() && t.present == s.present && t.ext == s.ext
  {
    if adding then AddFold(s, d) else SubFold(s, d)
  }

  lemma FoldKeeps(g: GroundProgram, n: nat, adding: bool, s0: State, s: State, ext0: set<Fact>, d: Deriv)
    requires WellFormed(g) && Working(g, n, adding, s0, s, ext0)
    requires d in g.derivs && d.head in g.facts && Stratum(g, d.head) == n
    requires d in s.w && d.head in s.nr && d.head in s.rc
    requires adding ==> s.w[d] < Bit(Active(d, s.Current()))
    ensures Working(g, n, adding, s0, Fold(s, d, adding), ext0)
  {
    hide Inserting, Deleting, AddFold, SubFold, WellFormed, Active;
    if adding {
      AddFoldKeeps(g, n, s0, s, d);
    } else {
      SubFoldKeeps(g, n, s0, s, ext0, d);
    }
  }

  ghost function Listing(ds: seq<Deriv>): set<Deriv> {
    set d | d in ds
  }

  lemma ListingNone(ds: seq<Deriv>, done: set<Deriv>)
    ensures done + Listing(ds[..0]) == done && ds[..|ds|] == ds
  {
  }

  lemma ListingMore(ds: seq<Deriv>, k: nat, done: set<Deriv>, all: set<Deriv>)
    requires k < |ds| && NoRepeats(ds) && done !! Listing(ds) && Listing(ds) <= all
    ensures done + Listing(ds[..k + 1]) == done + Listing(ds[..k]) + {ds[k]}
    ensures ds[k] !in done + Listing(ds[..k]) && ds[k] in all
  {
    assert ds[k] in Listing(ds);
  }

  lemma ShiftedStep(before: Weight, w: Weight, done: set<Deriv>, d: Deriv, change: int)
    requires Shifted(before, w, done, change) && d in w && d !in done && (change == 1 || change == -1)
    ensures Shifted(before, Tallied(w, d, change > 0), done + {d}, change)
  {
  }

  lemma KeptCurrent(g: GroundProgram, ss: Stores, ts: Stores, w: Weight, w': Weight, ext: set<Fact>)
    requires Kept(ss, ts)
    ensures
      var s := Snap(g, ss, w, ext);
      var t := Snap(g, ts, w', ext);
      t.Current() == s.Current() && t.present == s.present && t.deleted == s.deleted && t.added == s.added
  {
    forall f | f in g.facts ensures SameFlags(StateOf(ss, f), StateOf(ts, f)) {
      if f.view < |ss| {
        assert StoreKept(ss[f.view], ts[f.view]);
      }
    }
  }

  /** More delta facts, more derivations; one fact at a time, each derivation once. */
  lemma DeltaDerivsMore(g: GroundProgram, ri: nat, q: nat, deltas: set<Fact>, f: Fact, table: seq<set<Fact>>)
    requires f !in deltas
    ensures DeltaDerivs(g, ri, q, deltas, table) !! DeltaDerivs(g, ri, q, {f}, table)
    ensures DeltaDerivs(g, ri, q, deltas + {f}, table) == DeltaDerivs(g, ri, q, deltas, table) + DeltaDerivs(g, ri, q, {f}, table)
  {
  }

  lemma FactsAtMore(ss: Stores, v: nat, ids: seq<nat>, k: nat)
    requires v < |ss| && ss[v].Interned() && NoRepeats(ids) && InRange(ids, |ss[v].rows|) && k < |ids|
    ensures ids[k] < |ss[v].rows|
    ensures FactsAt(ss, v, ids[..k + 1]) == FactsAt(ss, v, ids[..k]) + {Fact(v, ss[v].rows[ids[k]])}
    ensures Fact(v, ss[v].rows[ids[k]]) !in FactsAt(ss, v, ids[..k])
  {
    assert ids[k] in ids;
    assert ids[..k + 1] == ids[..k] + [ids[k]];
  }

  lemma NoDeltaDerivs(g: GroundProgram, ri: nat, q: nat, table: seq<set<Fact>>)
    ensures DeltaDerivs(g, ri, q, {}, table) == {}
  {
  }

  // ------------------------------------------------------------------
  // One fold on the stores.

  function Moved(ss: Stores, d: Deriv, adding: bool): Stores
    requires d.head.view < |ss|
  {
    if adding then Up(ss, d.head, StateOf(ss, d.head).Bumped(d.recursive, 1))
    else Down(ss, d.head, StateOf(ss, d.head).Bumped(d.recursive, -1))
  }

  /** The weights after one more count of `d`. */
  function Tallied(w: Weight, d: Deriv, adding: bool): Weight
    requires d in w
  {
    if adding then w[d := w[d] + 1] else w[d := w[d] - 1]
  }

  /** Counting a derivation up in its view's store is one fold of the logical state. */
  lemma CountedUp(p: Program, g: GroundProgram, ss: Stores, w: Weight, ext: set<Fact>, d: Deriv,
                 n: nat, s0: State, ext0: set<Fact>)
    requires StoresFit(p, ss) && g.facts == AllFacts(p) && d in w && d.head in g.facts && d.head.view < |ss|
    requires d.head in Snap(g, ss, w, ext).nr && d.head in Snap(g, ss, w, ext).rc && d in Snap(g, ss, w, ext).w
    requires Working(g, n, true, s0, Fold(Snap(g, ss, w, ext), d, true), ext0)
    ensures StoresFit(p, Moved(ss, d, true)) && Kept(ss, Moved(ss, d, true))
    ensures Working(g, n, true, s0, Snap(g, Moved(ss, d, true), Tallied(w, d, true), ext), ext0)
  {
    hide Working, SubFold, AddFold, Kept, StoresFit, State.Current, Snap, Up, Down, RowState.Bumped, StateOf, AllFacts;
    AddOneEffect(p, g, ss, w, ext, d);
  }

  /** And counting it down, likewise. */
  lemma CountedDown(p: Program, g: GroundProgram, ss: Stores, w: Weight, ext: set<Fact>, d: Deriv,
                 n: nat, s0: State, ext0: set<Fact>)
    requires StoresFit(p, ss) && g.facts == AllFacts(p) && d in w && d.head in g.facts && d.head.view < |ss|
    requires d.head in Snap(g, ss, w, ext).nr && d.head in Snap(g, ss, w, ext).rc && d in Snap(g, ss, w, ext).w
    requires Working(g, n, false, s0, Fold(Snap(g, ss, w, ext), d, false), ext0)
    ensures StoresFit(p, Moved(ss, d, false)) && Kept(ss, Moved(ss, d, false))
    ensures Working(g, n, false, s0, Snap(g, Moved(ss, d, false), Tallied(w, d, false), ext), ext0)
  {
    hide Working, SubFold, AddFold, Kept, StoresFit, State.Current, Snap, Up, Down, RowState.Bumped, StateOf, AllFacts;
    SubOneEffect(p, g, ss, w, ext, d);
  }

  /** The whole effect of one counter fold: the invariant of the phase survives it. */
  lemma FoldEffect(p: Program, g: GroundProgram, ss: Stores, w: Weight, ext: set<Fact>, d: Deriv,
                   n: nat, adding: bool, s0: State, ext0: set<Fact>)
    requires StoresFit(p, ss) && g.facts == AllFacts(p) && d in g.derivs && w.Keys == g.derivs && d.head in g.facts
    requires WellFormed(g) && Stratum(g, d.head) == n && Working(g, n, adding, s0, Snap(g, ss, w, ext), ext0)
    requires adding ==> w[d] < Bit(Active(d, Snap(g, ss, w, ext).Current()))
    ensures d.head.view < |ss|
    ensures StoresFit(p, Moved(ss, d, adding)) && Kept(ss, Moved(ss, d, adding))
    ensures Working(g, n, adding, s0, Snap(g, Moved(ss, d, adding), Tallied(w, d, adding), ext), ext0)
  {
    SnapShape(g, ss, w, ext);
    assert d.head.view < |ss|;
    hide Working, WellFormed, Active, Fold, Kept, StoresFit, State.Current, Snap, Moved, Tallied;
    FoldKeeps(g, n, adding, s0, Snap(g, ss, w, ext), ext0, d);
    if adding {
      CountedUp(p, g, ss, w, ext, d, n, s0, ext0);
    } else {
      CountedDown(p, g, ss, w, ext, d, n, s0, ext0);
    }
  }

  lemma SnapShape(g: GroundProgram, ss: Stores, w: Weight, ext: set<Fact>)
    ensures var s := Snap(g, ss, w, ext); s.nr.Keys == g.facts && s.rc.Keys == g.facts && s.w == w && s.ext == ext
  {
  }

  // ------------------------------------------------------------------
  // A run of folds.

  /** `d` derives this head row in this view of the stratum. */
  ghost predicate Headed(g: GroundProgram, d: Deriv, v: nat, head: Row, recursive: bool, n: nat) {
    d in g.derivs && d.head in g.facts && d.head == Fact(v, head) && d.recursive == recursive && Stratum(g, d.head) == n
  }

  /** One sweep of a phase: where it started, and the derivations it is going to count. */
  datatype Run = Run(
    p: Program, g: GroundProgram, n: nat, adding: bool, s0: State, ext0: set<Fact>, ext: set<Fact>,
    ss0: Stores, w0: Weight, all: set<Deriv>)
  {
    ghost predicate Sound() {
      && WellFormed(g) && g.facts == AllFacts(p)
      && (adding ==> Room(w0, all, Snap(g, ss0, w0, ext).Current()))
    }

    /** The derivations in `done` have been counted, and the invariant of the phase holds. */
    ghost predicate Reached(ss: Stores, w: Weight, done: set<Deriv>) {
      && StoresFit(p, ss) && w.Keys == g.derivs && Kept(ss0, ss)
      && Working(g, n, adding, s0, Snap(g, ss, w, ext), ext0)
      && Shifted(w0, w, done, Sign(adding))
    }
  }

  lemma RunStarts(r: Run)
    requires StoresFit(r.p, r.ss0) && r.w0.Keys == r.g.derivs
    requires Working(r.g, r.n, r.adding, r.s0, Snap(r.g, r.ss0, r.w0, r.ext), r.ext0)
    ensures r.Reached(r.ss0, r.w0, {})
  {
  }

  lemma RunRoom(r: Run, ss: Stores, w: Weight, done: set<Deriv>, d: Deriv)
    requires r.Sound() && r.Reached(ss, w, done) && d in r.all && d in r.g.derivs && d !in done && r.adding
    ensures w[d] < Bit(Active(d, Snap(r.g, ss, w, r.ext).Current()))
  {
    hide WellFormed, Snap, Working, StoresFit, Active, State.Current, Kept;
    KeptCurrent(r.g, r.ss0, ss, r.w0, w, r.ext);
    assert Shifted(r.w0, w, done, 1);
  }

  /** One more fold of the run. */
  lemma RunStep(r: Run, ss: Stores, w: Weight, done: set<Deriv>, d: Deriv, v: nat, head: Row, recursive: bool)
    requires r.Sound() && r.Reached(ss, w, done) && d in r.all && d !in done
    requires Headed(r.g, d, v, head, recursive, r.n)
    ensures v < |ss| && ss[v].Interned() && d in w
    ensures r.Reached(Moved(ss, d, r.adding), Tallied(w, d, r.adding), done + {d})
  {
    if r.adding {
      RunRoom(r, ss, w, done, d);
    }
    FitAt(r.p, ss, v);
    ShiftedStep(r.w0, w, done, d, Sign(r.adding));
    hide WellFormed, Snap, Working, StoresFit, Active, State.Current, Kept, Moved, Tallied, Store.Valid, Store.Interned, Room, Shifted;
    FoldEffect(r.p, r.g, ss, w, r.ext, d, r.n, r.adding, r.s0, r.ext0);
    KeptTransitive(r.ss0, ss, Moved(ss, d, r.adding));
  }

  // ------------------------------------------------------------------
  // From enumerated rows to the run.

  /** The round's rows are distinct and interned. */
  ghost predicate RoundFits(ss: Stores, round: seq<(nat, nat)>) {
    NoRepeats(round) && forall e :: e in round ==> e.0 < |ss| && e.1 < |ss[e.0].rows|
  }

  /** The listed derivations of a rule are headed in its head view. */
  lemma ListedHeaded(p: Program, g: GroundProgram, i: nat, d: Deriv, head: Row)
    requires DerivsShaped(p, g) && i < |p.rules| && Listed(p, g, i, d, head)
    ensures Headed(g, d, p.rules[i].head, head, p.rules[i].recursive, HeadStratum(p, i))
  {
    hide DerivShape, WellFormedDeriv;
    assert OfRule(g, i, d);
    ShapedHead(p, g, i, d);
  }

  lemma ShapedHead(p: Program, g: GroundProgram, i: nat, d: Deriv)
    requires i < |p.rules| && DerivShape(p, g, i, d) && WellFormedDeriv(g, d)
    ensures d.head in g.facts && Stratum(g, d.head) == HeadStratum(p, i)
  {
  }

  lemma DeltaHeaded(p: Program, g: GroundProgram, i: nat, q: nat, f: Fact, table: seq<set<Fact>>, heads: seq<Row>, ds: seq<Deriv>)
    requires DerivsShaped(p, g) && i < |p.rules| && DeltaListed(p, g, i, q, f, table, heads, ds)
    ensures |heads| == |ds| && NoRepeats(ds) && Listing(ds) == DeltaDerivs(g, i, q, {f}, table)
    ensures forall k :: 0 <= k < |ds| ==> Headed(g, ds[k], p.rules[i].head, heads[k], p.rules[i].recursive, HeadStratum(p, i))
  {
    hide DerivsShaped, Listed, Headed, DeltaDerivs;
    forall k | 0 <= k < |ds|
      ensures Headed(g, ds[k], p.rules[i].head, heads[k], p.rules[i].recursive, HeadStratum(p, i))
    {
      ListedHeaded(p, g, i, ds[k], heads[k]);
    }
  }

  /** The delta rows of a position, read from the sweep's starting stores. */
  lemma DeltaIdsFit(p: Program, ss0: Stores, ss: Stores, r: Rule, q: nat, sweep: Sweep)
    requires StoresFit(p, ss0) && Kept(ss0, ss) && (!sweep.seeding ==> RoundFits(ss0, sweep.round))
    requires q < |r.pos2atom| && r.pos2atom[q] < |r.atoms| && r.atoms[r.pos2atom[q]].view < |ss0|
    ensures
      var v := r.atoms[r.pos2atom[q]].view;
      var ids := DeltaIds(ss0, r, q, sweep);
      && NoRepeats(ids) && InRange(ids, |ss0[v].rows|) && ids == DeltaIds(ss, r, q, sweep)
  {
    var v := r.atoms[r.pos2atom[q]].view;
    assert StoreKept(ss0[v], ss[v]);
    if sweep.seeding {
      assert ss0[v].QueuesFit();
    } else {
      OfViewNoRepeats(sweep.round, v);
    }
  }

  /** A row of the starting log is still where it was. */
  lemma RowStays(p: Program, ss0: Stores, ss: Stores, v: nat, id: nat)
    requires StoresFit(p, ss0) && Kept(ss0, ss) && v < |ss0| && id < |ss0[v].rows|
    ensures id < |ss[v].rows| && ss[v].rows[id] == ss0[v].rows[id] && |ss[v].rows[id]| == p.views[v].arity
  {
    assert StoreKept(ss0[v], ss[v]) && ss0[v].Interned();
  }

  /** A skipped position fires nothing; the others fire their delta derivations. */
  lemma PositionIs(p: Program, g: GroundProgram, n: nat, ss: Stores, sweep: Sweep, s: set<Fact>, t: set<Fact>, ri: nat, q: nat)
    requires SweepFires(p, g, n, ss, sweep, s, t) && ri < |p.rules| && HeadStratum(p, ri) == n && ReadsView(p, ri, q)
    ensures
      var r := p.rules[ri];
      FiringAt(g, ri, q, s, t, sweep.adding) ==
        if SamePos(p, r, q) == sweep.seeding then {}
        else DeltaDerivs(g, ri, q, FactsAt(ss, r.atoms[r.pos2atom[q]].view, DeltaIds(ss, r, q, sweep)),
                         Tables(g, ss, KindsAt(p, r, q, sweep)))
  {
    assert PositionFires(p, g, ss, sweep, s, t, ri, q);
    assert forall d :: d in g.derivs && d.rule == ri ==> OfRule(g, ri, d);
    hide FactsAt, DeltaIds, Tables, FiresAt, DeltaReads, KindsAt, SamePos;
  }

  lemma NoDeltas(ss: Stores, v: nat, ids: seq<nat>, g: GroundProgram, ri: nat, q: nat, table: seq<set<Fact>>, done: set<Deriv>)
    ensures done + DeltaDerivs(g, ri, q, FactsAt(ss, v, ids[..0]), table) == done
  {
    assert FactsAt(ss, v, ids[..0]) == {};
    NoDeltaDerivs(g, ri, q, table);
  }

  /** One delta row's derivations are among those of all the position's rows. */
  lemma DeltaDerivsWithin(g: GroundProgram, ri: nat, q: nat, ss: Stores, v: nat, ids: seq<nat>, k: nat,
                          table: seq<set<Fact>>, more: set<Deriv>)
    requires v < |ss| && k < |ids| && ids[k] < |ss[v].rows|
    requires more == DeltaDerivs(g, ri, q, FactsAt(ss, v, ids), table)
    ensures DeltaDerivs(g, ri, q, {Fact(v, ss[v].rows[ids[k]])}, table) <= more
    ensures DeltaDerivs(g, ri, q, FactsAt(ss, v, ids[..k]), table) <= more
  {
    assert ids[k] in ids;
  }

  /** One more delta row: its derivations are new, and with them the position has come one row further. */
  lemma DeltaStep(g: GroundProgram, ri: nat, q: nat, ss: Stores, v: nat, ids: seq<nat>, k: nat,
                  table: seq<set<Fact>>, done: set<Deriv>, more: set<Deriv>)
    requires v < |ss| && ss[v].Interned() && NoRepeats(ids) && InRange(ids, |ss[v].rows|) && k < |ids|
    requires more == DeltaDerivs(g, ri, q, FactsAt(ss, v, ids), table) && done !! more
    ensures ids[k] < |ss[v].rows|
    ensures
      var before := done + DeltaDerivs(g, ri, q, FactsAt(ss, v, ids[..k]), table);
      var next := DeltaDerivs(g, ri, q, {Fact(v, ss[v].rows[ids[k]])}, table);
      && before !! next && next <= more
      && before + next == done + DeltaDerivs(g, ri, q, FactsAt(ss, v, ids[..k + 1]), table)
  {
    hide DeltaDerivs, FactsAt, NoRepeats, InRange, Store.Interned;
    FactsAtMore(ss, v, ids, k);
    DeltaDerivsMore(g, ri, q, FactsAt(ss, v, ids[..k]), Fact(v, ss[v].rows[ids[k]]), table);
    DeltaDerivsWithin(g, ri, q, ss, v, ids, k, table, more);
  }

  lemma FiringNone(g: GroundProgram, ri: nat, s: set<Fact>, t: set<Fact>, gained: bool, done: set<Deriv>)
    ensures done + FiringBelow(g, ri, 0, s, t, gained) == done
  {
  }

  /** One position's firings are among the rule's, and earlier positions have not counted them. */
  lemma FiringWithin(g: GroundProgram, ri: nat, q: nat, n: nat, s: set<Fact>, t: set<Fact>, gained: bool,
                     all: set<Deriv>, done: set<Deriv>)
    requires q < n && FiringBelow(g, ri, n, s, t, gained) <= all && done !! FiringBelow(g, ri, n, s, t, gained)
    ensures FiringAt(g, ri, q, s, t, gained) <= all
    ensures done + FiringBelow(g, ri, q, s, t, gained) !! FiringAt(g, ri, q, s, t, gained)
  {
    FiringMore(g, ri, q, s, t, gained);
    forall d | d in FiringAt(g, ri, q, s, t, gained) ensures d in FiringBelow(g, ri, n, s, t, gained) {
    }
  }

  lemma NoRulesYet(g: GroundProgram, k: nat, s: set<Fact>, t: set<Fact>, gained: bool)
    ensures FiringRules(g, 0, k, s, t, gained) == {}
  {
  }

  /** The rules fired so far and the next one, out of all of them. */
  lemma RulesWithin(p: Program, g: GroundProgram, ri: nat, n: nat, s: set<Fact>, t: set<Fact>, gained: bool)
    requires DerivsShaped(p, g) && ri < |p.rules|
    ensures FiringRules(g, ri + 1, n, s, t, gained) <= FiringRules(g, |p.rules|, n, s, t, gained)
    ensures HeadStratum(p, ri) != n ==>
      FiringRules(g, ri + 1, n, s, t, gained) == FiringRules(g, ri, n, s, t, gained)
    ensures HeadStratum(p, ri) == n ==>
      && FiringRules(g, ri, n, s, t, gained) !! FiringBelow(g, ri, |p.rules[ri].pos2atom|, s, t, gained)
      && FiringRules(g, ri + 1, n, s, t, gained)
           == FiringRules(g, ri, n, s, t, gained) + FiringBelow(g, ri, |p.rules[ri].pos2atom|, s, t, gained)
  {
    hide FiringBelow, Fires, WellFormedDeriv, LiteralShape, Stratum;
    assert forall d :: d in g.derivs && d.rule == ri ==> OfRule(g, ri, d);
    if HeadStratum(p, ri) == n {
      FiringWhole(g, ri, |p.rules[ri].pos2atom|, n, s, t, gained);
    } else {
      FiringSkip(g, ri, n, s, t, gained);
    }
  }
}
