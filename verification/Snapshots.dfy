/** The logical state of a batch read off the per-view stores. */
module Snapshots {
  import opened Ground
  import opened Weights
  import opened Model
  import opened Phase
  import opened RowStore
  import opened Rules

  type Stores = seq<Store>

  /** One valid store per view, of the view's arity. */
  ghost predicate StoresFit(p: Program, ss: Stores) {
    |ss| == |p.views| && forall v :: 0 <= v < |ss| ==> ss[v].Valid() && ss[v].arity == p.views[v].arity
  }

  function StateOf(ss: Stores, f: Fact): RowState {
    if f.view < |ss| then ss[f.view].Get(f.row) else NEW_ROW
  }

  ghost predicate QueuedDel(ss: Stores, f: Fact) {
    f.view < |ss| && f.row in ss[f.view].RowsOf(ss[f.view].pendDel)
  }

  ghost predicate QueuedAdd(ss: Stores, f: Fact) {
    f.view < |ss| && f.row in ss[f.view].RowsOf(ss[f.view].pendAdd)
  }

  ghost function Snap(g: GroundProgram, ss: Stores, w: Weight, ext: set<Fact>): State {
    State(
      (map f | f in g.facts :: StateOf(ss, f).nr),
      (map f | f in g.facts :: StateOf(ss, f).rc),
      (set f | f in g.facts && StateOf(ss, f).inI),
      (set f | f in g.facts && StateOf(ss, f).del),
      (set f | f in g.facts && StateOf(ss, f).add),
      (set f | f in g.facts && QueuedDel(ss, f)),
      (set f | f in g.facts && QueuedAdd(ss, f)),
      w, ext)
  }

  /** The rows readable through a named membership predicate. */
  ghost function Readable(g: GroundProgram, ss: Stores, k: ReadK): set<Fact> {
    set f | f in g.facts && Pass(StateOf(ss, f), k)
  }

  /** Exactly one fact's row state changed, to `x`. */
  ghost predicate FactUpdated(ss: Stores, ts: Stores, f: Fact, x: RowState) {
    && |ts| == |ss| && f.view < |ss|
    && (forall v :: 0 <= v < |ss| && v != f.view ==> ts[v] == ss[v])
    && OneRowUpdated(ss[f.view], ts[f.view], f.row, x)
  }

  lemma StateAfter(ss: Stores, ts: Stores, f: Fact, x: RowState, e: Fact)
    requires FactUpdated(ss, ts, f, x)
    ensures StateOf(ts, e) == if e == f then x else StateOf(ss, e)
  {
  }

  lemma FitAt(p: Program, ss: Stores, v: nat)
    requires StoresFit(p, ss) && v < |p.views|
    ensures |ss| == |p.views| && ss[v].Valid() && ss[v].Interned() && ss[v].arity == p.views[v].arity
  {
  }

  lemma RowsGrow(s: Store, r: Row, x: RowState)
    ensures s.rows <= FoldUp(s, r, x).rows && s.rows <= FoldDown(s, r, x).rows && s.rows <= WithRow(s, r).rows
  {
  }

  lemma FitAfter(p: Program, ss: Stores, ts: Stores, f: Fact, x: RowState)
    requires StoresFit(p, ss) && FactUpdated(ss, ts, f, x)
    ensures StoresFit(p, ts)
  {
  }

  lemma CountersAfter(g: GroundProgram, ss: Stores, ts: Stores, f: Fact, x: RowState)
    requires FactUpdated(ss, ts, f, x) && f in g.facts
    ensures (map e | e in g.facts :: StateOf(ts, e).nr) == (map e | e in g.facts :: StateOf(ss, e).nr)[f := x.nr]
    ensures (map e | e in g.facts :: StateOf(ts, e).rc) == (map e | e in g.facts :: StateOf(ss, e).rc)[f := x.rc]
  {
    forall e | e in g.facts ensures StateOf(ts, e) == if e == f then x else StateOf(ss, e) {
      StateAfter(ss, ts, f, x, e);
    }
  }

  lemma FlagsAfter(g: GroundProgram, ss: Stores, ts: Stores, f: Fact, x: RowState)
    requires FactUpdated(ss, ts, f, x) && f in g.facts
    requires x.inI == StateOf(ss, f).inI && x.del == StateOf(ss, f).del && x.add == StateOf(ss, f).add
    ensures (set e | e in g.facts && StateOf(ts, e).inI) == (set e | e in g.facts && StateOf(ss, e).inI)
    ensures (set e | e in g.facts && StateOf(ts, e).del) == (set e | e in g.facts && StateOf(ss, e).del)
    ensures (set e | e in g.facts && StateOf(ts, e).add) == (set e | e in g.facts && StateOf(ss, e).add)
  {
    forall e | e in g.facts ensures StateOf(ts, e) == if e == f then x else StateOf(ss, e) {
      StateAfter(ss, ts, f, x, e);
    }
  }

  lemma QueuesAfter(g: GroundProgram, ss: Stores, ts: Stores, f: Fact, x: RowState, pushDel: bool, pushAdd: bool)
    requires FactUpdated(ss, ts, f, x) && f in g.facts
    requires ts[f.view].RowsOf(ts[f.view].pendDel) == ss[f.view].RowsOf(ss[f.view].pendDel) + (if pushDel then {f.row} else {})
    requires ts[f.view].RowsOf(ts[f.view].pendAdd) == ss[f.view].RowsOf(ss[f.view].pendAdd) + (if pushAdd then {f.row} else {})
    ensures (set e | e in g.facts && QueuedDel(ts, e)) == (set e | e in g.facts && QueuedDel(ss, e)) + (if pushDel then {f} else {})
    ensures (set e | e in g.facts && QueuedAdd(ts, e)) == (set e | e in g.facts && QueuedAdd(ss, e)) + (if pushAdd then {f} else {})
  {
    forall e | e in g.facts
      ensures QueuedDel(ts, e) <==> QueuedDel(ss, e) || (pushDel && e == f)
      ensures QueuedAdd(ts, e) <==> QueuedAdd(ss, e) || (pushAdd && e == f)
    {
      if e.view == f.view && e.row == f.row {
        assert e == f;
      }
    }
  }

  /** One row's counters become those of `x` and it may be queued. */
  function Adjusted(s: State, f: Fact, x: RowState, pushDel: bool, pushAdd: bool, w: Weight, ext: set<Fact>): (t: State) {
    State(s.nr[f := x.nr], s.rc[f := x.rc], s.present, s.deleted, s.added,
          s.pendDel + (if pushDel then {f} else {}), s.pendAdd + (if pushAdd then {f} else {}), w, ext)
  }

  /** The logical state after one row's counters and queue entries changed. */
  lemma SnapAfter(g: GroundProgram, ss: Stores, ts: Stores, f: Fact, x: RowState, pushDel: bool, pushAdd: bool,
                  w: Weight, ext: set<Fact>, w': Weight, ext': set<Fact>)
    requires FactUpdated(ss, ts, f, x) && f in g.facts
    requires x.inI == StateOf(ss, f).inI && x.del == StateOf(ss, f).del && x.add == StateOf(ss, f).add
    requires ts[f.view].RowsOf(ts[f.view].pendDel) == ss[f.view].RowsOf(ss[f.view].pendDel) + (if pushDel then {f.row} else {})
    requires ts[f.view].RowsOf(ts[f.view].pendAdd) == ss[f.view].RowsOf(ss[f.view].pendAdd) + (if pushAdd then {f.row} else {})
    ensures Snap(g, ts, w', ext') == Adjusted(Snap(g, ss, w, ext), f, x, pushDel, pushAdd, w', ext')
  {
    CountersAfter(g, ss, ts, f, x);
    FlagsAfter(g, ss, ts, f, x);
    QueuesAfter(g, ss, ts, f, x, pushDel, pushAdd);
  }

  function Down(ss: Stores, f: Fact, x: RowState): Stores
    requires f.view < |ss|
  {
    ss[f.view := FoldDown(ss[f.view], f.row, x)]
  }

  function Up(ss: Stores, f: Fact, x: RowState): Stores
    requires f.view < |ss|
  {
    ss[f.view := FoldUp(ss[f.view], f.row, x)]
  }

  lemma DownKeeps(p: Program, ss: Stores, f: Fact, x: RowState)
    requires StoresFit(p, ss) && f in AllFacts(p)
    requires x.touched && x.del == StateOf(ss, f).del && x.add == StateOf(ss, f).add
    ensures StoresFit(p, Down(ss, f, x)) && FactUpdated(ss, Down(ss, f, x), f, x)
    ensures
      var s := ss[f.view];
      var t := Down(ss, f, x)[f.view];
      && t.RowsOf(t.pendDel) == s.RowsOf(s.pendDel) + (if Exposed(x) then {f.row} else {})
      && t.RowsOf(t.pendAdd) == s.RowsOf(s.pendAdd) + {}
  {
    FoldDownKeeps(ss[f.view], f.row, x);
    FitAfter(p, ss, Down(ss, f, x), f, x);
  }

  lemma UpKeeps(p: Program, ss: Stores, f: Fact, x: RowState)
    requires StoresFit(p, ss) && f in AllFacts(p)
    requires x.touched && x.del == StateOf(ss, f).del && x.add == StateOf(ss, f).add
    ensures StoresFit(p, Up(ss, f, x)) && FactUpdated(ss, Up(ss, f, x), f, x)
    ensures
      var s := ss[f.view];
      var t := Up(ss, f, x)[f.view];
      && t.RowsOf(t.pendDel) == s.RowsOf(s.pendDel) + {}
      && t.RowsOf(t.pendAdd) == s.RowsOf(s.pendAdd) + (if RowStore.Crosses(StateOf(ss, f), x) then {f.row} else {})
  {
    FoldUpKeeps(ss[f.view], f.row, x);
    FitAfter(p, ss, Up(ss, f, x), f, x);
  }

  /** A counted-down derivation, seen in the logical state. */
  lemma SnapSubFold(p: Program, g: GroundProgram, ss: Stores, w: Weight, ext: set<Fact>, d: Deriv)
    requires StoresFit(p, ss) && g.facts == AllFacts(p) && d.head in g.facts && d in w
    ensures
      var ts := Down(ss, d.head, StateOf(ss, d.head).Bumped(d.recursive, -1));
      Snap(g, ts, w[d := w[d] - 1], ext) == SubFold(Snap(g, ss, w, ext), d)
  {
    var x := StateOf(ss, d.head).Bumped(d.recursive, -1);
    DownKeeps(p, ss, d.head, x);
    SnapAfter(g, ss, Down(ss, d.head, x), d.head, x, Exposed(x), false, w, ext, w[d := w[d] - 1], ext);
    SubFoldIs(Snap(g, ss, w, ext), StateOf(ss, d.head), d, w, ext);
  }

  lemma SubFoldIs(s: State, y: RowState, d: Deriv, w: Weight, ext: set<Fact>)
    requires d.head in s.nr && d.head in s.rc && s.w == w && s.ext == ext && d in w
    requires s.nr[d.head] == y.nr && s.rc[d.head] == y.rc && (d.head in s.present <==> y.inI)
    ensures
      var x := y.Bumped(d.recursive, -1);
      SubFold(s, d) == Adjusted(s, d.head, x, Exposed(x), false, w[d := w[d] - 1], ext)
  {
    assert s.nr[d.head := s.nr[d.head]] == s.nr && s.rc[d.head := s.rc[d.head]] == s.rc;
  }

  /** A counted-up derivation, seen in the logical state. */
  lemma SnapAddFold(p: Program, g: GroundProgram, ss: Stores, w: Weight, ext: set<Fact>, d: Deriv)
    requires StoresFit(p, ss) && g.facts == AllFacts(p) && d.head in g.facts && d in w
    ensures
      var ts := Up(ss, d.head, StateOf(ss, d.head).Bumped(d.recursive, 1));
      Snap(g, ts, w[d := w[d] + 1], ext) == AddFold(Snap(g, ss, w, ext), d)
  {
    var y := StateOf(ss, d.head);
    var x := y.Bumped(d.recursive, 1);
    UpKeeps(p, ss, d.head, x);
    SnapAfter(g, ss, Up(ss, d.head, x), d.head, x, false, RowStore.Crosses(y, x), w, ext, w[d := w[d] + 1], ext);
    AddFoldIs(Snap(g, ss, w, ext), y, d, w, ext);
  }

  lemma AddFoldIs(s: State, y: RowState, d: Deriv, w: Weight, ext: set<Fact>)
    requires d.head in s.nr && d.head in s.rc && s.w == w && s.ext == ext && d in w
    requires s.nr[d.head] == y.nr && s.rc[d.head] == y.rc
    ensures
      var x := y.Bumped(d.recursive, 1);
      AddFold(s, d) == Adjusted(s, d.head, x, false, RowStore.Crosses(y, x), w[d := w[d] + 1], ext)
  {
    assert s.nr[d.head := s.nr[d.head]] == s.nr && s.rc[d.head := s.rc[d.head]] == s.rc;
  }

  // ------------------------------------------------------------------
  // What counter folds leave alone.

  ghost predicate SameFlags(x: RowState, y: RowState) {
    x.inI == y.inI && x.del == y.del && x.add == y.add && x.delNow == y.delNow && x.addNow == y.addNow
    && x.isExplicit == y.isExplicit
  }

  /** Counters, touched marks and pending queues may differ; logs may have grown. */
  ghost predicate StoreKept(s: Store, t: Store) {
    && s.rows <= t.rows && t.outDel == s.outDel && t.outAdd == s.outAdd
    && t.claimedDel == s.claimedDel && t.claimedAdd == s.claimedAdd
    && forall r :: SameFlags(s.Get(r), t.Get(r))
  }

  ghost predicate Kept(ss: Stores, ts: Stores) {
    |ts| == |ss| && forall v :: 0 <= v < |ss| ==> StoreKept(ss[v], ts[v])
  }

  lemma KeptAfter(ss: Stores, ts: Stores, f: Fact, x: RowState)
    requires FactUpdated(ss, ts, f, x) && SameFlags(StateOf(ss, f), x)
    ensures Kept(ss, ts)
  {
    forall v | 0 <= v < |ss| ensures StoreKept(ss[v], ts[v]) {
    }
  }

  lemma KeptTransitive(ss: Stores, ts: Stores, us: Stores)
    requires Kept(ss, ts) && Kept(ts, us)
    ensures Kept(ss, us)
  {
    forall v | 0 <= v < |ss| ensures StoreKept(ss[v], us[v]) {
      assert StoreKept(ss[v], ts[v]) && StoreKept(ts[v], us[v]);
    }
  }

  /** Membership predicates read flags only. */
  lemma KeptReadable(g: GroundProgram, ss: Stores, ts: Stores, k: ReadK)
    requires Kept(ss, ts)
    ensures Readable(g, ts, k) == Readable(g, ss, k)
  {
    forall f | f in g.facts ensures Pass(StateOf(ts, f), k) == Pass(StateOf(ss, f), k) {
      if f.view < |ss| {
        assert StoreKept(ss[f.view], ts[f.view]);
      }
    }
  }

  /** The whole effect of counting a derivation down. */
  lemma SubOneEffect(p: Program, g: GroundProgram, ss: Stores, w: Weight, ext: set<Fact>, d: Deriv)
    requires StoresFit(p, ss) && g.facts == AllFacts(p) && d.head in g.facts && d in w
    ensures
      var ts := Down(ss, d.head, StateOf(ss, d.head).Bumped(d.recursive, -1));
      && StoresFit(p, ts) && Kept(ss, ts)
      && Snap(g, ts, w[d := w[d] - 1], ext) == SubFold(Snap(g, ss, w, ext), d)
  {
    hide Snap, SubFold, Kept, Store.Valid, Down;
    var x := StateOf(ss, d.head).Bumped(d.recursive, -1);
    DownKeeps(p, ss, d.head, x);
    SnapSubFold(p, g, ss, w, ext, d);
    KeptAfter(ss, Down(ss, d.head, x), d.head, x);
  }

  lemma AddOneEffect(p: Program, g: GroundProgram, ss: Stores, w: Weight, ext: set<Fact>, d: Deriv)
    requires StoresFit(p, ss) && g.facts == AllFacts(p) && d.head in g.facts && d in w
    ensures
      var ts := Up(ss, d.head, StateOf(ss, d.head).Bumped(d.recursive, 1));
      && StoresFit(p, ts) && Kept(ss, ts)
      && Snap(g, ts, w[d := w[d] + 1], ext) == AddFold(Snap(g, ss, w, ext), d)
  {
    hide Snap, AddFold, Kept, Store.Valid, Up;
    var x := StateOf(ss, d.head).Bumped(d.recursive, 1);
    UpKeeps(p, ss, d.head, x);
    SnapAddFold(p, g, ss, w, ext, d);
    KeptAfter(ss, Up(ss, d.head, x), d.head, x);
  }
}
