/** Facts that gain or lose support from outside: single updates on the stores, and the netting
    of a batch of asserted and retracted rows. */
module Ingest {
  import opened Ground
  import opened Weights
  import opened Model
  import opened Phase
  import opened Overdeletion
  import opened Firings
  import opened RowStore
  import opened Rules
  import opened Snapshots
  import opened Reads
  import opened Sweeps
  import opened Rounds
  import opened Steps
  import opened Stages
  import opened Supports

  // ------------------------------------------------------------------
  // One fact.

  /** The asserted facts: those whose rows carry the explicit bit. */
  ghost function Explicit(g: GroundProgram, ss: Stores): set<Fact> {
    set f | f in g.facts && StateOf(ss, f).isExplicit
  }

  /** The row state after one more or one less non-recursive count. */
  function Supported(x: RowState, change: int, isExplicit: bool): RowState {
    x.Bumped(false, change).(isExplicit := isExplicit)
  }

  /** An update of one row's counters leaves everything about the batch but its logical state. */
  lemma AtStratumMoved(p: Program, g: GroundProgram, n: nat, ss: Stores, ts: Stores, f: Fact, x: RowState, w: Weight,
                       ext0: set<Fact>, ext: set<Fact>, ext': set<Fact>)
    requires AtStratum(p, g, n, ss, w, ext0, ext) && FactUpdated(ss, ts, f, x) && f in g.facts && StoresFit(p, ts)
    requires x.inI == StateOf(ss, f).inI && x.del == StateOf(ss, f).del && x.add == StateOf(ss, f).add
    requires x.delNow == StateOf(ss, f).delNow && x.addNow == StateOf(ss, f).addNow
    requires Boundary(g, n, Snap(g, ts, w, ext'), ext0)
    ensures AtStratum(p, g, n, ts, w, ext0, ext')
  {
    hide Boundary, StoresFit;
    FrontsUpdated(p, g, ss, ts, f, x);
    FlagsAfter(g, ss, ts, f, x);
    CalmUpdated(ss, ts, f, x);
  }

  lemma FrontsUpdated(p: Program, g: GroundProgram, ss: Stores, ts: Stores, f: Fact, x: RowState)
    requires StoresFit(p, ss) && FactUpdated(ss, ts, f, x)
    ensures OutDel(g, ts) == OutDel(g, ss) && OutAdd(g, ts) == OutAdd(g, ss)
    ensures forall v :: 0 <= v < |ss| ==> ts[v].outDel == ss[v].outDel && ts[v].outAdd == ss[v].outAdd
  {
    assert ss[f.view].QueuesFit();
    forall v | 0 <= v < |ss|
      ensures ts[v].RowsOf(ts[v].outDel) == ss[v].RowsOf(ss[v].outDel)
      ensures ts[v].RowsOf(ts[v].outAdd) == ss[v].RowsOf(ss[v].outAdd)
    {
    }
  }

  lemma CalmUpdated(ss: Stores, ts: Stores, f: Fact, x: RowState)
    requires AllCalm(ss) && FactUpdated(ss, ts, f, x)
    requires x.delNow == StateOf(ss, f).delNow && x.addNow == StateOf(ss, f).addNow
    ensures AllCalm(ts)
  {
    forall v | 0 <= v < |ts| ensures Calm(ts[v]) {
      assert Calm(ss[v]);
    }
  }

  lemma CurrentAfter(g: GroundProgram, ss: Stores, ts: Stores, f: Fact, x: RowState, w: Weight, ext: set<Fact>, ext': set<Fact>)
    requires FactUpdated(ss, ts, f, x) && f in g.facts
    requires x.inI == StateOf(ss, f).inI && x.del == StateOf(ss, f).del && x.add == StateOf(ss, f).add
    ensures Snap(g, ts, w, ext').Current() == Snap(g, ss, w, ext).Current()
    ensures Snap(g, ts, w, ext').present == Snap(g, ss, w, ext).present
  {
    FlagsAfter(g, ss, ts, f, x);
  }

  lemma ExplicitAfter(g: GroundProgram, ss: Stores, ts: Stores, f: Fact, x: RowState)
    requires FactUpdated(ss, ts, f, x) && f in g.facts
    ensures Explicit(g, ts) == if x.isExplicit then Explicit(g, ss) + {f} else Explicit(g, ss) - {f}
  {
    forall e | e in g.facts ensures StateOf(ts, e) == if e == f then x else StateOf(ss, e) {
      StateAfter(ss, ts, f, x, e);
    }
  }

  lemma AddSupportIs(s: State, y: RowState, f: Fact, isExplicit: bool)
    requires f in s.nr && f in s.rc && s.nr[f] == y.nr && s.rc[f] == y.rc
    ensures
      var x := Supported(y, 1, isExplicit);
      Adjusted(s, f, x, false, RowStore.Crosses(y, x), s.w, s.ext + {f}) == AddSupport(s, f)
  {
    assert s.rc[f := s.rc[f]] == s.rc;
  }

  lemma SubSupportIs(s: State, y: RowState, f: Fact, isExplicit: bool)
    requires f in s.nr && f in s.rc && s.nr[f] == y.nr && s.rc[f] == y.rc && (f in s.present <==> y.inI)
    ensures
      var x := Supported(y, -1, isExplicit);
      Adjusted(s, f, x, Exposed(x), false, s.w, s.ext - {f}) == SubSupport(s, f)
  {
    assert s.rc[f := s.rc[f]] == s.rc;
  }

  /** A fact of an unfinished stratum gains support. */
  lemma UpSupports(p: Program, g: GroundProgram, n: nat, ss: Stores, w: Weight, ext0: set<Fact>, ext: set<Fact>, f: Fact, isExplicit: bool)
    requires WellFormed(g) && Typed(p, g) && AtStratum(p, g, n, ss, w, ext0, ext)
    requires f in g.facts && Stratum(g, f) >= n && f.view in g.external && f !in ext && f !in ext0
    ensures f.view < |ss|
    ensures
      var ts := Up(ss, f, Supported(StateOf(ss, f), 1, isExplicit));
      && AtStratum(p, g, n, ts, w, ext0, ext + {f}) && Snap(g, ts, w, ext + {f}).Current() == Snap(g, ss, w, ext).Current()
      && Snap(g, ts, w, ext + {f}).present == Snap(g, ss, w, ext).present
      && Explicit(g, ts) == if isExplicit then Explicit(g, ss) + {f} else Explicit(g, ss) - {f}
  {
    hide WellFormed, Boundary, Snap, StoresFit, FrontiersBelow, Unpublished, AllCalm, Up, Typed, AddSupport, State.Current;
    FactTyped(p, g, f);
    FitSize(p, ss);
    TypedFacts(p, g);
    var y := StateOf(ss, f);
    var x := Supported(y, 1, isExplicit);
    var s := Snap(g, ss, w, ext);
    UpKeeps(p, ss, f, x);
    SnapAfter(g, ss, Up(ss, f, x), f, x, false, RowStore.Crosses(y, x), w, ext, w, ext + {f});
    SnapShape(g, ss, w, ext);
    SnapMember(g, ss, w, ext, f);
    AddSupportIs(s, y, f, isExplicit);
    AddSupportKeeps(g, n, s, ext0, f);
    AtStratumMoved(p, g, n, ss, Up(ss, f, x), f, x, w, ext0, ext, ext + {f});
    ExplicitAfter(g, ss, Up(ss, f, x), f, x);
    CurrentAfter(g, ss, Up(ss, f, x), f, x, w, ext, ext + {f});
  }

  /** A fact of an unfinished stratum loses support. */
  lemma DownSupports(p: Program, g: GroundProgram, n: nat, ss: Stores, w: Weight, ext0: set<Fact>, ext: set<Fact>, f: Fact, isExplicit: bool)
    requires WellFormed(g) && Typed(p, g) && AtStratum(p, g, n, ss, w, ext0, ext)
    requires f in g.facts && Stratum(g, f) >= n && f in ext && f in ext0
    ensures f.view < |ss|
    ensures
      var ts := Down(ss, f, Supported(StateOf(ss, f), -1, isExplicit));
      && AtStratum(p, g, n, ts, w, ext0, ext - {f}) && Snap(g, ts, w, ext - {f}).Current() == Snap(g, ss, w, ext).Current()
      && Snap(g, ts, w, ext - {f}).present == Snap(g, ss, w, ext).present
      && Explicit(g, ts) == if isExplicit then Explicit(g, ss) + {f} else Explicit(g, ss) - {f}
  {
    hide WellFormed, Boundary, Snap, StoresFit, FrontiersBelow, Unpublished, AllCalm, Down, Typed, SubSupport, State.Current;
    FactTyped(p, g, f);
    FitSize(p, ss);
    TypedFacts(p, g);
    var y := StateOf(ss, f);
    var x := Supported(y, -1, isExplicit);
    var s := Snap(g, ss, w, ext);
    DownKeeps(p, ss, f, x);
    SnapAfter(g, ss, Down(ss, f, x), f, x, Exposed(x), false, w, ext, w, ext - {f});
    SnapShape(g, ss, w, ext);
    SnapMember(g, ss, w, ext, f);
    SubSupportIs(s, y, f, isExplicit);
    SubSupportKeeps(g, n, s, ext0, f);
    AtStratumMoved(p, g, n, ss, Down(ss, f, x), f, x, w, ext0, ext, ext - {f});
    ExplicitAfter(g, ss, Down(ss, f, x), f, x);
    CurrentAfter(g, ss, Down(ss, f, x), f, x, w, ext, ext - {f});
  }

  lemma TypedFacts(p: Program, g: GroundProgram)
    requires Typed(p, g)
    ensures g.facts == AllFacts(p)
  {
  }

  /** Interning a row changes nothing. */
  lemma InternChangesNothing(p: Program, g: GroundProgram, n: nat, ss: Stores, w: Weight, ext0: set<Fact>, ext: set<Fact>, f: Fact)
    requires Typed(p, g) && AtStratum(p, g, n, ss, w, ext0, ext) && f in g.facts
    ensures f.view < |ss|
    ensures
      var ts := ss[f.view := WithRow(ss[f.view], f.row)];
      && AtStratum(p, g, n, ts, w, ext0, ext) && Explicit(g, ts) == Explicit(g, ss)
      && Snap(g, ts, w, ext).Current() == Snap(g, ss, w, ext).Current()
  {
    hide Boundary, Snap, StoresFit, FrontiersBelow, Unpublished, AllCalm, Typed, WithRow, Store.Valid;
    FactTyped(p, g, f);
    FitSize(p, ss);
    FitAt(p, ss, f.view);
    var ts := ss[f.view := WithRow(ss[f.view], f.row)];
    var x := StateOf(ss, f);
    InternKeeps(ss[f.view], f.row);
    FitAfter(p, ss, ts, f, x);
    assert ss[f.view].RowsOf(ss[f.view].pendDel) + {} == ss[f.view].RowsOf(ss[f.view].pendDel);
    assert ss[f.view].RowsOf(ss[f.view].pendAdd) + {} == ss[f.view].RowsOf(ss[f.view].pendAdd);
    assert ts[f.view].RowsOf(ts[f.view].pendDel) == ss[f.view].RowsOf(ss[f.view].pendDel);
    assert ts[f.view].RowsOf(ts[f.view].pendAdd) == ss[f.view].RowsOf(ss[f.view].pendAdd);
    SnapAfter(g, ss, ts, f, x, false, false, w, ext, w, ext);
    AdjustedNothing(g, ss, w, ext, f);
    AtStratumMoved(p, g, n, ss, ts, f, x, w, ext0, ext, ext);
    ExplicitAfter(g, ss, ts, f, x);
    assert x.isExplicit ==> f in Explicit(g, ss);
  }

  lemma AdjustedNothing(g: GroundProgram, ss: Stores, w: Weight, ext: set<Fact>, f: Fact)
    requires f in g.facts
    ensures Adjusted(Snap(g, ss, w, ext), f, StateOf(ss, f), false, false, w, ext) == Snap(g, ss, w, ext)
  {
    var s := Snap(g, ss, w, ext);
    assert s.nr[f := s.nr[f]] == s.nr && s.rc[f := s.rc[f]] == s.rc;
    assert s.pendDel + {} == s.pendDel && s.pendAdd + {} == s.pendAdd;
  }
}
