/** Between batches: what commit does to a view, the settled state it leaves, and the start of
    the next batch from it. */
module Settling {
  import opened Wrappers
  import opened Ground
  import opened Weights
  import opened Model
  import opened Phase
  import opened Overdeletion
  import opened Firings
  import opened RowStore
  import opened Rules
  import opened Grounding
  import opened Snapshots
  import opened Reads
  import opened Deltas
  import opened Rounds
  import opened Steps
  import opened Sweeps
  import opened Stages
  import opened Supports
  import opened Ingest
  import A = Aggregates

  // ------------------------------------------------------------------
  // COMMIT.

  function Committed(x: RowState): RowState {
    x.(inI := x.nr + x.rc > 0, del := false, add := false, delNow := false, addNow := false, touched := false)
  }

  /** The view after commit: every row in its final state, every queue empty. */
  ghost predicate CommittedStore(s: Store, t: Store) {
    && t.arity == s.arity && t.rows == s.rows && t.ids == s.ids && |t.st| == |s.st|
    && t.touched == [] && t.pendDel == [] && t.pendAdd == [] && t.claimedDel == [] && t.claimedAdd == []
    && t.outDel == [] && t.outAdd == []
    && forall id: nat :: id < |s.st| ==> t.st[id] == Committed(s.st[id])
  }

  predicate Negative(s: Store, id: nat) {
    id < |s.st| && (s.st[id].nr < 0 || s.st[id].rc < 0)
  }

  /** What makes commit abort: a queue that was not drained, or a touched row with a negative counter. */
  ghost predicate Uncommittable(s: Store) {
    s.pendDel != [] || s.pendAdd != [] || exists id :: id in s.touched && Negative(s, id)
  }

  /** Commit the touched rows, then clear the batch's bookkeeping. */
  method CommitView(vm: ViewModel) returns (r: Result<bool>)
    requires vm.Value().Valid()
    modifies vm
    ensures r.Failure? <==> Uncommittable(old(vm.Value()))
    ensures r.Success? ==> CommittedStore(old(vm.Value()), vm.Value())
  {
    if vm.pendDel != [] || vm.pendAdd != [] {
      return Failure("frontier queue not drained at commit");
    }
    ghost var s := vm.Value();
    for k := 0 to |vm.touched|
      invariant vm.Value() == s.(st := vm.st) && |vm.st| == |s.st|
      invariant forall id: nat :: id < |s.st| ==>
        vm.st[id] == if id in s.touched[..k] then Committed(s.st[id]) else s.st[id]
      invariant forall id :: id in s.touched[..k] ==> !Negative(s, id)
    {
      var id := vm.touched[k];
      assert id in s.touched;
      assert s.touched[..k + 1] == s.touched[..k] + [id];
      if vm.st[id].nr < 0 || vm.st[id].rc < 0 {
        assert Negative(s, id);
        return Failure("negative counter at commit");
      }
      vm.st := vm.st[id := Committed(vm.st[id])];
    }
    assert s.touched[..|s.touched|] == s.touched;
    CleanIsCommitted(s);
    vm.touched, vm.claimedDel, vm.claimedAdd, vm.outDel, vm.outAdd := [], [], [], [], [];
    r := Success(true);
  }

  /** A row the batch never touched is in its final state already. */
  lemma CleanIsCommitted(s: Store)
    requires s.Valid()
    ensures forall id: nat :: id < |s.st| && id !in s.touched ==> Committed(s.st[id]) == s.st[id]
  {
  }

  /** A view between batches. */
  ghost predicate Idle(s: Store) {
    && s.touched == [] && s.pendDel == [] && s.pendAdd == [] && s.claimedDel == [] && s.claimedAdd == []
    && s.outDel == [] && s.outAdd == []
  }

  ghost predicate AllIdle(ss: Stores) {
    forall v :: 0 <= v < |ss| ==> Idle(ss[v])
  }

  lemma CommittedKeeps(s: Store, t: Store)
    requires s.Valid() && CommittedStore(s, t)
    ensures t.Valid() && Idle(t) && forall r :: t.Get(r) == Committed(s.Get(r))
  {
  }

  ghost predicate CommittedAll(ss: Stores, ts: Stores) {
    |ts| == |ss| && forall v :: 0 <= v < |ss| ==> CommittedStore(ss[v], ts[v])
  }

  lemma CommittedFit(p: Program, ss: Stores, ts: Stores)
    requires StoresFit(p, ss) && CommittedAll(ss, ts)
    ensures StoresFit(p, ts) && AllIdle(ts)
    ensures forall f :: StateOf(ts, f) == Committed(StateOf(ss, f))
  {
    hide Store.Valid, CommittedStore, Idle;
    forall v | 0 <= v < |ts|
      ensures ts[v].Valid() && ts[v].arity == p.views[v].arity && Idle(ts[v])
      ensures forall r :: ts[v].Get(r) == Committed(ss[v].Get(r))
    {
      assert ss[v].Valid() && ss[v].arity == p.views[v].arity;
      CommittedKeeps(ss[v], ts[v]);
      SameArity(ss[v], ts[v]);
    }
  }

  lemma SameArity(s: Store, t: Store)
    requires CommittedStore(s, t)
    ensures t.arity == s.arity
  {
  }

  /** An idle view's rows are clean. */
  lemma IdleIsClean(p: Program, ss: Stores, f: Fact)
    requires StoresFit(p, ss) && AllIdle(ss)
    ensures StateOf(ss, f).Clean() && !QueuedDel(ss, f) && !QueuedAdd(ss, f)
  {
    if f.view < |ss| {
      FitAt(p, ss, f.view);
      assert Idle(ss[f.view]);
    }
  }

  // ------------------------------------------------------------------
  // The batch has run all strata.

  lemma StrataBelow(p: Program, g: GroundProgram)
    requires GoodProgram(p) && g == GroundOf(p)
    ensures AllBelow(g, p.numStrata) && forall d :: d in g.derivs ==> d.head in g.facts
  {
    forall d | d in g.derivs ensures d.head in g.facts {
      DerivOfRule(p, d);
    }
  }

  lemma DoneCounters(g: GroundProgram, n: nat, s: State, f: Fact)
    requires Counted(g, s) && DoneBelow(g, n, s) && AllBelow(g, n) && f in g.facts
    requires forall d :: d in g.derivs ==> d.head in g.facts
    ensures f !in s.pendDel && f !in s.pendAdd && s.nr[f] >= 0 && s.rc[f] >= 0
    ensures f in s.Current() <==> Total(s, f) > 0
  {
    assert FactDone(g, s, f);
    TotalAtLeast(g, s, f);
  }

  /** Every row in a view's log is a fact of the ground program. */
  lemma RowIsFact(p: Program, g: GroundProgram, ss: Stores, v: nat, id: nat)
    requires Typed(p, g) && StoresFit(p, ss) && v < |ss| && id < |ss[v].rows|
    ensures Fact(v, ss[v].rows[id]) in g.facts && StateOf(ss, Fact(v, ss[v].rows[id])) == ss[v].st[id]
  {
    FitAt(p, ss, v);
  }

  /** Nothing makes commit abort. */
  lemma CommitNeverAborts(p: Program, g: GroundProgram, ss: Stores, w: Weight, ext0: set<Fact>, ext: set<Fact>, v: nat)
    requires Typed(p, g) && AtStratum(p, g, p.numStrata, ss, w, ext0, ext) && v < |ss|
    requires AllBelow(g, p.numStrata) && forall d :: d in g.derivs ==> d.head in g.facts
    ensures !Uncommittable(ss[v])
  {
    var s := Snap(g, ss, w, ext);
    var st := ss[v];
    assert Counted(g, s) && DoneBelow(g, p.numStrata, s);
    hide AtStratum, Typed, Snap, Counted, DoneBelow, AllBelow;
    AtStratumFits(p, g, p.numStrata, ss, w, ext0, ext);
    FitAt(p, ss, v);
    forall id: nat | id < |st.rows|
      ensures id !in st.pendDel && id !in st.pendAdd && st.st[id].nr >= 0 && st.st[id].rc >= 0
    {
      var f := Fact(v, st.rows[id]);
      RowIsFact(p, g, ss, v, id);
      SnapMember(g, ss, w, ext, f);
      DoneCounters(g, p.numStrata, s, f);
      assert id in st.pendDel ==> QueuedDel(ss, f);
      assert id in st.pendAdd ==> QueuedAdd(ss, f);
    }
    QueuesEmpty(st);
  }

  lemma QueuesEmpty(s: Store)
    requires s.Valid()
    requires forall id: nat :: id < |s.rows| ==> id !in s.pendDel && id !in s.pendAdd
    ensures s.pendDel == [] && s.pendAdd == []
  {
    FirstIsMember(s.pendDel);
    FirstIsMember(s.pendAdd);
  }

  lemma FirstIsMember(q: seq<nat>)
    ensures q == [] || q[0] in q
  {
  }

  lemma AtStratumFits(p: Program, g: GroundProgram, n: nat, ss: Stores, w: Weight, ext0: set<Fact>, ext: set<Fact>)
    requires AtStratum(p, g, n, ss, w, ext0, ext)
    ensures StoresFit(p, ss) && AllCalm(ss) && w.Keys == g.derivs && |ss| == |p.views|
    ensures Boundary(g, n, Snap(g, ss, w, ext), ext0)
  {
    hide Boundary, StoresFit, AllCalm, FrontiersBelow;
  }

  // ------------------------------------------------------------------
  // Settled states.

  /** Weights and rows between batches: the least model, counted exactly; or nothing at all
      before the first batch. */
  ghost predicate Exact(g: GroundProgram, fired: bool, s: State) {
    if fired then
      && IsModel(g, s.ext, s.present)
      && forall d :: d in g.derivs ==> d in s.w && s.w[d] == Bit(Active(d, s.present))
    else
      s.ext == {} && s.present == {} && forall d :: d in g.derivs ==> d in s.w && s.w[d] == 0
  }

  ghost predicate Settled(p: Program, g: GroundProgram, fired: bool, ss: Stores, w: Weight, ext: set<Fact>) {
    && StoresFit(p, ss) && AllIdle(ss) && w.Keys == g.derivs
    && Counted(g, Snap(g, ss, w, ext))
    && ext == Support(p, Explicit(g, ss), Snap(g, ss, w, ext).present)
    && Exact(g, fired, Snap(g, ss, w, ext))
  }

  lemma DoneIsModel(g: GroundProgram, n: nat, s: State)
    requires Shaped(g, s) && DoneBelow(g, n, s) && AllBelow(g, n) && forall d :: d in g.derivs ==> d.head in g.facts
    ensures IsModel(g, s.ext, s.Current())
    ensures forall d :: d in g.derivs ==> s.w[d] == Bit(Active(d, s.Current()))
  {
    forall m: nat ensures At(g, s.Current(), m) == Least(g, m, Below(g, s.Current(), m), s.ext) {
      if n <= m {
        LeastAbove(g, n, m, s.Current(), s.ext);
      }
    }
  }

  /** The logical state after commit. */
  ghost function Rested(s: State): State {
    s.(present := s.Current(), deleted := {}, added := {}, pendDel := {}, pendAdd := {})
  }

  lemma SnapCommitted(p: Program, g: GroundProgram, n: nat, ss: Stores, ts: Stores, w: Weight, ext: set<Fact>)
    requires StoresFit(p, ss) && CommittedAll(ss, ts)
    requires Counted(g, Snap(g, ss, w, ext)) && DoneBelow(g, n, Snap(g, ss, w, ext))
    requires AllBelow(g, n) && forall d :: d in g.derivs ==> d.head in g.facts
    ensures Snap(g, ts, w, ext) == Rested(Snap(g, ss, w, ext))
    ensures Explicit(g, ts) == Explicit(g, ss)
  {
    hide CommittedAll, StoresFit, AllIdle, Counted, DoneBelow, AllBelow, StateOf, QueuedDel, QueuedAdd;
    CommittedFit(p, ss, ts);
    var s := Snap(g, ss, w, ext);
    forall f | f in g.facts
      ensures StateOf(ts, f) == Committed(StateOf(ss, f)) && !QueuedDel(ts, f) && !QueuedAdd(ts, f)
      ensures StateOf(ts, f).inI <==> f in s.Current()
    {
      IdleIsClean(p, ts, f);
      SnapMember(g, ss, w, ext, f);
      DoneCounters(g, n, s, f);
    }
  }

  lemma RestedCounted(g: GroundProgram, s: State)
    requires Counted(g, s)
    ensures Counted(g, Rested(s)) && Rested(s).Current() == s.Current()
  {
    forall f | f in g.facts ensures CountedAt(g, Rested(s), f) {
      assert CountedAt(g, s, f);
    }
  }

  /** After commit the state is settled. */
  lemma CommitSettles(p: Program, g: GroundProgram, ss: Stores, ts: Stores, w: Weight, ext0: set<Fact>, ext: set<Fact>)
    requires AtStratum(p, g, p.numStrata, ss, w, ext0, ext) && CommittedAll(ss, ts)
    requires AllBelow(g, p.numStrata) && forall d :: d in g.derivs ==> d.head in g.facts
    requires ext == Support(p, Explicit(g, ss), Snap(g, ss, w, ext).Current())
    ensures Settled(p, g, true, ts, w, ext)
    ensures Snap(g, ts, w, ext).present == Snap(g, ss, w, ext).Current() && Explicit(g, ts) == Explicit(g, ss)
  {
    var s := Snap(g, ss, w, ext);
    assert Counted(g, s) && DoneBelow(g, p.numStrata, s);
    hide AtStratum, Snap, Counted, DoneBelow, AllBelow, StoresFit, AllIdle, CommittedAll, IsModel, Support, Explicit, State.Current;
    AtStratumFits(p, g, p.numStrata, ss, w, ext0, ext);
    CommittedFit(p, ss, ts);
    SnapCommitted(p, g, p.numStrata, ss, ts, w, ext);
    RestedCounted(g, s);
    CountedShaped(g, s);
    DoneIsModel(g, p.numStrata, s);
    SnapShape(g, ss, w, ext);
  }

  lemma CountedShaped(g: GroundProgram, s: State)
    requires Counted(g, s)
    ensures Shaped(g, s)
  {
  }

  // ------------------------------------------------------------------
  // The next batch.

  lemma SettledBoundary(g: GroundProgram, s: State)
    requires WellFormed(g) && Counted(g, s) && Exact(g, true, s)
    requires s.deleted == {} && s.added == {} && s.pendDel == {} && s.pendAdd == {}
    requires forall f :: f in g.facts ==> (f in s.present <==> Total(s, f) > 0)
    ensures Boundary(g, 0, s, s.ext)
  {
    forall f | f in g.facts ensures FactWaiting(s, f, s.ext) {
    }
  }

  lemma SettledFacts(p: Program, g: GroundProgram, ss: Stores, w: Weight, ext: set<Fact>)
    requires StoresFit(p, ss) && AllIdle(ss)
    ensures
      var s := Snap(g, ss, w, ext);
      && s.deleted == {} && s.added == {} && s.pendDel == {} && s.pendAdd == {}
      && s.nr.Keys == g.facts && s.rc.Keys == g.facts
      && forall f :: f in g.facts ==> (f in s.present <==> Total(s, f) > 0)
  {
    var s := Snap(g, ss, w, ext);
    hide StoresFit, AllIdle, StateOf, QueuedDel, QueuedAdd;
    forall f | f in g.facts ensures StateOf(ss, f).Clean() && !QueuedDel(ss, f) && !QueuedAdd(ss, f) {
      IdleIsClean(p, ss, f);
    }
  }

  lemma IdleIsCalm(p: Program, ss: Stores)
    requires StoresFit(p, ss) && AllIdle(ss)
    ensures AllCalm(ss) && Unpublished(p, 0, ss)
  {
    hide StoresFit, Idle;
    FitSize(p, ss);
    forall v | 0 <= v < |ss| ensures Calm(ss[v]) && ss[v].outDel == [] && ss[v].outAdd == [] {
      assert Idle(ss[v]);
      IdleRows(p, ss, v);
    }
  }

  lemma IdleRows(p: Program, ss: Stores, v: nat)
    requires StoresFit(p, ss) && v < |ss| && Idle(ss[v])
    ensures Calm(ss[v]) && ss[v].outDel == [] && ss[v].outAdd == []
  {
    FitAt(p, ss, v);
  }

  /** A settled state is ready for a batch. */
  lemma SettledStarts(p: Program, g: GroundProgram, ss: Stores, w: Weight, ext: set<Fact>)
    requires WellFormed(g) && Settled(p, g, true, ss, w, ext)
    ensures AtStratum(p, g, 0, ss, w, ext, ext)
  {
    hide WellFormed, StoresFit, AllIdle, Snap, Counted, Exact, AllCalm, Unpublished, Boundary;
    SettledFacts(p, g, ss, w, ext);
    SnapShape(g, ss, w, ext);
    IdleIsCalm(p, ss);
    SettledBoundary(g, Snap(g, ss, w, ext));
  }

  // ------------------------------------------------------------------
  // Init rules.

  /** Before the first batch: the init derivations in `done` have been counted and nothing else. */
  ghost predicate Initial(g: GroundProgram, s: State, done: set<Deriv>) {
    && Counted(g, s) && s.ext == {} && s.present == {} && s.deleted == {} && s.added == {} && s.pendDel == {}
    && (forall d :: d in g.derivs ==> s.w[d] == Bit(d in done))
    && (forall f :: f in g.facts ==> (f in s.pendAdd <==> Total(s, f) > 0))
  }

  lemma InitialFold(g: GroundProgram, s: State, done: set<Deriv>, d: Deriv)
    requires Initial(g, s, done) && d in g.derivs && d.head in g.facts && d !in done
    ensures d.head in s.nr && d.head in s.rc && d in s.w && Initial(g, AddFold(s, d), done + {d})
  {
    CountedShaped(g, s);
    TotalAtLeast(g, s, d.head);
    AddFoldCounted(g, s, d);
    hide Counted;
    InitialQueue(g, s, d);
  }

  lemma InitialQueue(g: GroundProgram, s: State, d: Deriv)
    requires s.nr.Keys == g.facts && s.rc.Keys == g.facts && d in s.w && d.head in g.facts && Total(s, d.head) >= 0
    requires forall f :: f in g.facts ==> (f in s.pendAdd <==> Total(s, f) > 0)
    ensures
      var t := AddFold(s, d);
      t.nr.Keys == g.facts && t.rc.Keys == g.facts && forall f :: f in g.facts ==> (f in t.pendAdd <==> Total(t, f) > 0)
  {
    forall f | f in g.facts ensures Total(AddFold(s, d), f) == Total(s, f) + Bit(f == d.head) {
    }
  }

  /** The derivations of init rules: those without a body. */
  ghost function InitDerivs(g: GroundProgram, n: nat): set<Deriv> {
    set d | d in g.derivs && d.rule < n && d.body == []
  }

  lemma InitialStarts(p: Program, g: GroundProgram, ss: Stores, w: Weight)
    requires Settled(p, g, false, ss, w, {})
    ensures Initial(g, Snap(g, ss, w, {}), {})
  {
    hide StoresFit, AllIdle, Snap, Counted;
    SettledFacts(p, g, ss, w, {});
    SnapShape(g, ss, w, {});
  }

  /** All init rules have fired: the first batch may start, from nothing. */
  lemma InitialBoundary(g: GroundProgram, s: State, n: nat)
    requires WellFormed(g) && Initial(g, s, InitDerivs(g, n)) && forall d :: d in g.derivs ==> d.rule < n
    ensures Boundary(g, 0, s, {})
  {
    forall f | f in g.facts ensures FactWaiting(s, f, {}) {
    }
    forall d | d in g.derivs ensures s.w[d] == Bit(Active(d, s.present)) {
      if Active(d, {}) {
        OnlyInitRulesStart(g, d);
      }
    }
  }

  /** The init derivations in `done` have been counted on the stores. */
  ghost predicate InitReached(p: Program, g: GroundProgram, ss0: Stores, ss: Stores, w: Weight, done: set<Deriv>) {
    && StoresFit(p, ss) && w.Keys == g.derivs && Kept(ss0, ss)
    && Initial(g, Snap(g, ss, w, {}), done)
  }

  lemma InitStep(p: Program, g: GroundProgram, ss0: Stores, ss: Stores, w: Weight, done: set<Deriv>, d: Deriv, v: nat, head: Row, recursive: bool)
    requires g.facts == AllFacts(p) && InitReached(p, g, ss0, ss, w, done) && d !in done
    requires d in g.derivs && d.head in g.facts && d.head == Fact(v, head) && d.recursive == recursive
    ensures v < |ss| && ss[v].Interned() && d in w
    ensures InitReached(p, g, ss0, Moved(ss, d, true), Tallied(w, d, true), done + {d})
  {
    hide Snap, Kept, StoresFit, Initial, AddFold, Store.Valid, Store.Interned, Moved, Tallied, AllFacts;
    HeadIn(p, g, d);
    SnapShape(g, ss, w, {});
    FitAt(p, ss, v);
    InitialFold(g, Snap(g, ss, w, {}), done, d);
    InitCounted(p, g, ss, w, d, done + {d});
    KeptTransitive(ss0, ss, Moved(ss, d, true));
    TallyKeys(w, d);
  }

  lemma HeadIn(p: Program, g: GroundProgram, d: Deriv)
    requires g.facts == AllFacts(p) && d.head in g.facts
    ensures d.head.view < |p.views|
  {
  }

  lemma TallyKeys(w: Weight, d: Deriv)
    requires d in w
    ensures Tallied(w, d, true).Keys == w.Keys
  {
  }

  /** Counting an init derivation in its view's store. */
  lemma InitCounted(p: Program, g: GroundProgram, ss: Stores, w: Weight, d: Deriv, done: set<Deriv>)
    requires StoresFit(p, ss) && g.facts == AllFacts(p) && d in w && d.head in g.facts && d.head.view < |ss|
    requires d.head in Snap(g, ss, w, {}).nr && d.head in Snap(g, ss, w, {}).rc && d in Snap(g, ss, w, {}).w
    requires Initial(g, AddFold(Snap(g, ss, w, {}), d), done)
    ensures StoresFit(p, Moved(ss, d, true)) && Kept(ss, Moved(ss, d, true))
    ensures Initial(g, Snap(g, Moved(ss, d, true), Tallied(w, d, true), {}), done)
  {
    hide Initial, AddFold, Kept, StoresFit, Snap, Up, RowState.Bumped, StateOf, AllFacts;
    AddOneEffect(p, g, ss, w, {}, d);
  }

  lemma InitDone(p: Program, g: GroundProgram, ss0: Stores, w0: Weight, ss: Stores, w: Weight)
    requires WellFormed(g) && Settled(p, g, false, ss0, w0, {}) && (forall d :: d in g.derivs ==> d.rule < |p.rules|)
    requires InitReached(p, g, ss0, ss, w, InitDerivs(g, |p.rules|))
    ensures AtStratum(p, g, 0, ss, w, {}, {}) && SameExplicit(ss0, ss) && Snap(g, ss, w, {}).Current() == {}
  {
    hide WellFormed, StoresFit, AllIdle, Snap, Counted, Exact, AllCalm, Unpublished, Boundary, Kept, Initial, SameFronts, SameExplicit, InitDerivs;
    IdleIsCalm(p, ss0);
    KeptCalm(ss0, ss);
    KeptFronts(ss0, ss);
    FrontsExplicit(ss0, ss);
    UnpublishedStays(p, 0, ss0, ss);
    InitialBoundary(g, Snap(g, ss, w, {}), |p.rules|);
    InitialCurrent(g, Snap(g, ss, w, {}), InitDerivs(g, |p.rules|));
  }

  lemma InitialCurrent(g: GroundProgram, s: State, done: set<Deriv>)
    requires Initial(g, s, done)
    ensures s.Current() == {}
  {
  }

  /** A rule without positive atoms has no atoms: its instances are its init derivations. */
  ghost function InitOf(g: GroundProgram, ri: nat): set<Deriv> {
    set d | d in g.derivs && d.rule == ri && d.body == []
  }

  lemma InitMore(g: GroundProgram, ri: nat)
    ensures InitDerivs(g, ri + 1) == InitDerivs(g, ri) + InitOf(g, ri) && InitDerivs(g, ri) !! InitOf(g, ri)
    ensures InitDerivs(g, 0) == {}
  {
  }

  lemma InitSkips(p: Program, g: GroundProgram, ri: nat)
    requires DerivsShaped(p, g) && ri < |p.rules| && p.rules[ri].pos2atom != []
    ensures InitOf(g, ri) == {}
  {
    forall d | d in g.derivs && d.rule == ri ensures d.body != [] {
      assert OfRule(g, ri, d);
      assert DerivShape(p, g, ri, d);
    }
  }

  /** The listed derivations of an init rule. */
  lemma InitListed(p: Program, g: GroundProgram, ri: nat, s: set<Fact>, heads: seq<Row>, ds: seq<Deriv>)
    requires DerivsShaped(p, g) && ri < |p.rules| && p.rules[ri].pos2atom == [] && ActiveListed(p, g, ri, s, heads, ds)
    ensures |heads| == |ds| && NoRepeats(ds) && Listing(ds) == InitOf(g, ri)
    ensures forall k :: 0 <= k < |ds| ==> Headed(g, ds[k], p.rules[ri].head, heads[k], p.rules[ri].recursive, HeadStratum(p, ri))
  {
    forall k | 0 <= k < |ds|
      ensures Headed(g, ds[k], p.rules[ri].head, heads[k], p.rules[ri].recursive, HeadStratum(p, ri))
    {
      ListedHeaded(p, g, ri, ds[k], heads[k]);
    }
    forall d | OfRule(g, ri, d) ensures d.body == [] && ActiveDeriv(g, ri, s, d) {
      assert DerivShape(p, g, ri, d);
    }
    forall d | d in ds ensures d in InitOf(g, ri) {
      assert ActiveDeriv(g, ri, s, d) && OfRule(g, ri, d);
    }
    forall d | d in InitOf(g, ri) ensures d in ds {
      assert OfRule(g, ri, d);
    }
  }

  lemma InitStarts(p: Program, g: GroundProgram, ss: Stores, w: Weight)
    requires Settled(p, g, false, ss, w, {})
    ensures InitReached(p, g, ss, ss, w, InitDerivs(g, 0))
  {
    hide StoresFit, Settled, Initial, Kept;
    SettledFits(p, g, false, ss, w, {});
    InitialStarts(p, g, ss, w);
    InitMore(g, 0);
    KeptSelf(ss);
  }

  lemma SettledFits(p: Program, g: GroundProgram, fired: bool, ss: Stores, w: Weight, ext: set<Fact>)
    requires Settled(p, g, fired, ss, w, ext)
    ensures StoresFit(p, ss) && AllIdle(ss) && w.Keys == g.derivs && |ss| == |p.views|
  {
    hide AllIdle, Exact, Counted, Support;
  }

  lemma KeptSelf(ss: Stores)
    ensures Kept(ss, ss)
  {
  }

  lemma NoTables(g: GroundProgram, ss: Stores)
    ensures Uniform(Tables(g, ss, []), {})
  {
  }

  // ------------------------------------------------------------------
  // Before the first batch.

  ghost function NoCounts(g: GroundProgram): (w: Weight)
    ensures w.Keys == g.derivs
  {
    map d | d in g.derivs :: 0
  }

  lemma {:induction false} NoCountsSum(g: GroundProgram, ds: set<Deriv>)
    requires ds <= g.derivs
    ensures Sum(ds, NoCounts(g)) == 0
    decreases ds
  {
    if ds != {} {
      var d :| d in ds;
      SumSplit(ds, NoCounts(g), d);
      NoCountsSum(g, ds - {d});
    }
  }

  function EmptyStores(p: Program): (ss: Stores) {
    seq(|p.views|, v requires 0 <= v < |p.views| => EmptyStore(p.views[v].arity))
  }

  lemma EmptyIsNew(p: Program, f: Fact)
    ensures StateOf(EmptyStores(p), f) == NEW_ROW
    ensures !QueuedDel(EmptyStores(p), f) && !QueuedAdd(EmptyStores(p), f)
  {
  }

  lemma NoSupport(p: Program)
    ensures Support(p, {}, {}) == {}
  {
    forall i: nat | i < |p.aggs| ensures Desired(p.aggs[i], {}) == {} {
      assert RowsIn({}, p.aggs[i].input) == {};
      assert forall key :: A.Group(p.aggs[i], {}, key) == {};
    }
  }

  /** A new engine is settled: nothing is in, nothing is counted. */
  lemma EmptySettled(p: Program, g: GroundProgram)
    requires g.facts == AllFacts(p)
    ensures Settled(p, g, false, EmptyStores(p), NoCounts(g), {}) && Explicit(g, EmptyStores(p)) == {}
  {
    hide StoresFit, AllIdle, Counted, Support, EmptyStores, AllFacts;
    EmptySnap(p, g);
    SnapShape(g, EmptyStores(p), NoCounts(g), {});
    EmptyCounted(p, g);
    NoSupport(p);
    EmptyFit(p);
  }

  lemma EmptySnap(p: Program, g: GroundProgram)
    ensures
      var s := Snap(g, EmptyStores(p), NoCounts(g), {});
      && s.present == {} && s.deleted == {} && s.added == {} && s.pendDel == {} && s.pendAdd == {}
      && forall f :: f in g.facts ==> s.nr[f] == 0 && s.rc[f] == 0
    ensures Explicit(g, EmptyStores(p)) == {}
  {
    forall f ensures StateOf(EmptyStores(p), f) == NEW_ROW && !QueuedDel(EmptyStores(p), f) && !QueuedAdd(EmptyStores(p), f) {
      EmptyIsNew(p, f);
    }
    hide StateOf, QueuedDel, QueuedAdd, EmptyStores;
  }

  lemma EmptyCounted(p: Program, g: GroundProgram)
    ensures Counted(g, Snap(g, EmptyStores(p), NoCounts(g), {}))
  {
    var s := Snap(g, EmptyStores(p), NoCounts(g), {});
    EmptySnap(p, g);
    SnapShape(g, EmptyStores(p), NoCounts(g), {});
    hide Snap;
    forall f | f in g.facts ensures CountedAt(g, s, f) {
      NoCountsSum(g, Deriving(g, f, false));
      NoCountsSum(g, Deriving(g, f, true));
    }
  }

  lemma EmptyFit(p: Program)
    ensures StoresFit(p, EmptyStores(p)) && AllIdle(EmptyStores(p))
  {
  }
}
