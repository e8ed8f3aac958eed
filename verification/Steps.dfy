/** The steps of one stratum on the stores: the invariant of each loop, and how a sweep takes
    the engine from one loop state to the next. */
module Steps {
  import opened Ground
  import opened Weights
  import opened Model
  import opened Phase
  import opened Overdeletion
  import opened Insertion
  import opened Passes
  import opened Firings
  import opened RowStore
  import opened Rules
  import opened Grounding
  import opened Snapshots
  import opened Reads
  import opened Sweeps
  import opened Rounds

  /** What stays the same while a stratum runs: the program, the state that reached the stratum
      and the external support before and during the batch. */
  datatype Frame = Frame(p: Program, g: GroundProgram, n: nat, s0: State, ext0: set<Fact>, ext: set<Fact>)
  {
    ghost predicate Good() {
      && WellFormed(g) && Typed(p, g) && DerivsShaped(p, g)
      && (forall i, q :: 0 <= i < |p.rules| && 0 <= q < |p.rules[i].pos2atom| ==> ReadsView(p, i, q))
      && (forall d :: d in g.derivs ==> d.rule < |p.rules|)
      && Boundary(g, n, s0, ext0)
    }

    ghost function At(ss: Stores, w: Weight): State {
      Snap(g, ss, w, ext)
    }

    ghost predicate Ready(ss: Stores, w: Weight) {
      StoresFit(p, ss) && AllCalm(ss) && w.Keys == g.derivs
    }

    /** The delete loop: the weights are short of the + seeds only. */
    ghost predicate DeleteLoop(ss: Stores, w: Weight) {
      && Ready(ss, w) && Deleting(g, n, s0, At(ss, w), ext0)
      && WeighsShort(g, n, At(ss, w), s0.Current(), At(ss, w).Current())
    }

    /** The insert loop: the weights are exact; `s1` is the state after OVERDELETE. */
    ghost predicate InsertLoop(s1: State, ss: Stores, w: Weight) {
      && Ready(ss, w) && Inserting(g, n, s1, At(ss, w))
      && Weighs(g, n, At(ss, w), At(ss, w).Current())
    }

    /** The run of a sweep of this stratum from the present stores. */
    ghost function Sweeping(adding: bool, from: State, ss: Stores, w: Weight, s: set<Fact>, t: set<Fact>): Run {
      Run(p, g, n, adding, from, ext0, ext, ss, w, FiringRules(g, |p.rules|, n, s, t, adding))
    }
  }

  lemma FrameTyped(fr: Frame)
    requires fr.Good()
    ensures fr.g.facts == AllFacts(fr.p) && WellFormed(fr.g) && Typed(fr.p, fr.g) && DerivsShaped(fr.p, fr.g)
    ensures forall i, q :: 0 <= i < |fr.p.rules| && 0 <= q < |fr.p.rules[i].pos2atom| ==> ReadsView(fr.p, i, q)
    ensures forall d :: d in fr.g.derivs ==> d.rule < |fr.p.rules|
    ensures Boundary(fr.g, fr.n, fr.s0, fr.ext0)
  {
    hide WellFormed, DerivsShaped, ReadsView, Boundary;
  }

  /** In the delete loop nothing of the stratum is in A, and what is queued is present. */
  lemma DeleteClaimable(fr: Frame, s: State)
    requires Boundary(fr.g, fr.n, fr.s0, fr.ext0) && Deleting(fr.g, fr.n, fr.s0, s, fr.ext0)
    ensures Claimable(fr.g, fr.n, s, false) && Shaped(fr.g, s)
  {
    forall f | f in fr.g.facts && Stratum(fr.g, f) == fr.n
      ensures f !in s.added && (f in s.pendDel ==> f in s.present)
    {
      assert FactWaiting(fr.s0, f, fr.ext0) && FactDeleting(fr.g, fr.s0, s, f, fr.ext0);
    }
  }

  lemma InsertClaimable(fr: Frame, s1: State, s: State)
    requires Inserting(fr.g, fr.n, s1, s)
    ensures Claimable(fr.g, fr.n, s, true) && Shaped(fr.g, s)
  {
    forall f | f in fr.g.facts && Stratum(fr.g, f) == fr.n
      ensures f in s.added || f in s.pendAdd ==> !s.Survives(f)
    {
      assert FactInserting(fr.g, s, f, Target(fr.g, fr.n, s1));
    }
  }

  /** A row queued for deletion has no non-recursive support left: claiming it cannot abort. */
  lemma DeleteNeverAborts(fr: Frame, ss: Stores, w: Weight, v: nat)
    requires Typed(fr.p, fr.g) && StoresFit(fr.p, ss)
    requires Deleting(fr.g, fr.n, fr.s0, fr.At(ss, w), fr.ext0)
    requires v < |ss| && fr.p.views[v].stratum == fr.n
    ensures !Unclaimable(ss[v])
  {
    FitAt(fr.p, ss, v);
    hide StoresFit, Deleting;
    forall id: nat | id in ss[v].pendDel && id < |ss[v].st| ensures ss[v].st[id].nr <= 0 {
      var f := Fact(v, ss[v].rows[id]);
      assert f in fr.g.facts && Stratum(fr.g, f) == fr.n;
      assert QueuedDel(ss, f);
      SnapMember(fr.g, ss, w, fr.ext, f);
      QueuedNonPositive(fr, fr.At(ss, w), f);
      assert ss[v].Get(ss[v].rows[id]) == ss[v].st[id];
    }
  }

  lemma QueuedNonPositive(fr: Frame, s: State, f: Fact)
    requires Deleting(fr.g, fr.n, fr.s0, s, fr.ext0)
    requires f in fr.g.facts && Stratum(fr.g, f) == fr.n && f in s.pendDel
    ensures f in s.nr && s.nr[f] <= 0
  {
    assert FactDeleting(fr.g, fr.s0, s, f, fr.ext0);
  }

  // ------------------------------------------------------------------
  // A sweep is sound, and counts exactly what fires.

  /** A sweep of the stratum that may start from these stores. */
  ghost predicate Launched(fr: Frame, run: Run, ss: Stores, w: Weight, sweep: Sweep, s: set<Fact>, t: set<Fact>) {
    && run.Sound() && run.Reached(ss, w, {}) && run.ss0 == ss && run.adding == sweep.adding
    && run.p == fr.p && run.g == fr.g && run.n == fr.n && run.ext == fr.ext
    && StoresFit(fr.p, ss) && (!sweep.seeding ==> RoundFits(ss, sweep.round))
    && SweepFires(fr.p, fr.g, fr.n, ss, sweep, s, t)
    && run.all == FiringRules(fr.g, |fr.p.rules|, fr.n, s, t, sweep.adding)
  }

  lemma Launch(fr: Frame, adding: bool, from: State, ss: Stores, w: Weight, sweep: Sweep, s: set<Fact>, t: set<Fact>)
    requires fr.Good() && StoresFit(fr.p, ss) && w.Keys == fr.g.derivs && Working(fr.g, fr.n, adding, from, fr.At(ss, w), fr.ext0)
    requires sweep.adding == adding && (!sweep.seeding ==> RoundFits(ss, sweep.round))
    requires SweepFires(fr.p, fr.g, fr.n, ss, sweep, s, t)
    requires adding ==> Room(w, FiringRules(fr.g, |fr.p.rules|, fr.n, s, t, true), fr.At(ss, w).Current())
    ensures Launched(fr, fr.Sweeping(adding, from, ss, w, s, t), ss, w, sweep, s, t)
  {
    hide Working, StoresFit, WellFormed, SweepFires, Room, FiringRules, Snap, State.Current, Frame.Good, Typed, RoundFits;
    FrameTyped(fr);
    RunStarts(fr.Sweeping(adding, from, ss, w, s, t));
  }

  /** What a finished sweep has done. */
  lemma Landed(fr: Frame, adding: bool, from: State, ss: Stores, w: Weight, s: set<Fact>, t: set<Fact>, us: Stores, w': Weight)
    requires fr.Good() && w.Keys == fr.g.derivs
    requires fr.Sweeping(adding, from, ss, w, s, t).Reached(us, w', FiringRules(fr.g, |fr.p.rules|, fr.n, s, t, adding))
    ensures StoresFit(fr.p, us) && w'.Keys == fr.g.derivs && Kept(ss, us)
    ensures Working(fr.g, fr.n, adding, from, fr.At(us, w'), fr.ext0)
    ensures Fired(fr.g, fr.n, w, w', s, t, adding)
    ensures fr.At(us, w').Current() == fr.At(ss, w).Current() && fr.At(us, w').deleted == fr.At(ss, w).deleted
    ensures fr.At(us, w').present == fr.At(ss, w).present
  {
    hide Working, StoresFit, WellFormed, FiringRules, Snap, State.Current, Kept, Shifted, Fired, Frame.Good, Typed;
    FrameTyped(fr);
    KeptCurrent(fr.g, ss, us, w, w', fr.ext);
    ShiftedIsFired(fr.g, |fr.p.rules|, fr.n, w, w', s, t, adding);
  }

  lemma KeptCalm(ss: Stores, ts: Stores)
    requires Kept(ss, ts) && AllCalm(ss)
    ensures AllCalm(ts)
  {
    forall v | 0 <= v < |ts| ensures Calm(ts[v]) {
      assert StoreKept(ss[v], ts[v]) && Calm(ss[v]);
    }
  }

  // ------------------------------------------------------------------
  // OVERDELETE.

  ghost predicate SeedState(fr: Frame, ss: Stores, w: Weight) {
    fr.Ready(ss, w) && fr.At(ss, w) == fr.s0 && SeedsReady(fr.g, fr.n, ss, fr.s0)
  }

  ghost function DeleteSeedRun(fr: Frame, ss: Stores, w: Weight): Run {
    fr.Sweeping(false, fr.s0, ss, w, fr.s0.present, fr.s0.Current())
  }

  /** The - seeds may fire. */
  lemma DeleteSeeds(fr: Frame, ss: Stores, w: Weight)
    requires fr.Good() && SeedState(fr, ss, w)
    ensures Launched(fr, DeleteSeedRun(fr, ss, w), ss, w, Sweep(true, false, []), fr.s0.present, fr.s0.Current())
  {
    hide Deleting, StoresFit, WellFormed, SweepFires, FiringRules, Snap, State.Current, Frame.Good, Typed, DerivsShaped, SeedsReady, ReadsView, Launched, Boundary;
    FrameTyped(fr);
    DeletingStarts(fr.g, fr.n, fr.s0, fr.ext0);
    FitSize(fr.p, ss);
    SeedsFire(fr.p, fr.g, fr.n, ss, Sweep(true, false, []), fr.s0);
    Launch(fr, false, fr.s0, ss, w, Sweep(true, false, []), fr.s0.present, fr.s0.Current());
  }

  lemma FitSize(p: Program, ss: Stores)
    requires StoresFit(p, ss)
    ensures |ss| == |p.views|
  {
  }

  /** The - seeds have fired: the delete loop starts. */
  lemma DeleteSeeded(fr: Frame, ss: Stores, w: Weight, us: Stores, w': Weight)
    requires fr.Good() && SeedState(fr, ss, w)
    requires DeleteSeedRun(fr, ss, w).Reached(us, w', DeleteSeedRun(fr, ss, w).all)
    ensures fr.DeleteLoop(us, w') && Kept(ss, us)
  {
    hide Deleting, StoresFit, WellFormed, FiringRules, Snap, State.Current, Frame.Good, SeedsReady, Boundary, Kept, AllCalm, Fired, WeighsShort, Run.Reached;
    FrameTyped(fr);
    Landed(fr, false, fr.s0, ss, w, fr.s0.present, fr.s0.Current(), us, w');
    KeptCalm(ss, us);
    SnapShape(fr.g, ss, w, fr.ext);
    SnapShape(fr.g, us, w', fr.ext);
    DeletingShaped(fr.g, fr.n, fr.s0, fr.At(us, w'), fr.ext0);
    MinusSeedsWeigh(fr.g, fr.n, fr.s0, fr.At(us, w'), fr.ext0);
  }

  lemma DeletingShaped(g: GroundProgram, n: nat, s: State, s': State, ext0: set<Fact>)
    requires Deleting(g, n, s, s', ext0)
    ensures Shaped(g, s) && Shaped(g, s') && s'.present == s.present && s'.ext == s.ext && s'.added == s.added && s'.pendAdd == s.pendAdd
  {
  }

  /** The stores after a claim step of the delete loop, with its round. */
  ghost predicate DeleteClaimed(fr: Frame, ss: Stores, w: Weight, ts: Stores, round: seq<(nat, nat)>) {
    && fr.DeleteLoop(ss, w) && ClaimedAll(fr.p, fr.n, ss, ts, false) && RoundIs(ts, round, false)
  }

  ghost function DeleteRoundRun(fr: Frame, ss: Stores, w: Weight, ts: Stores): Run {
    fr.Sweeping(false, fr.s0, ts, w, fr.At(ss, w).Current(), fr.At(ts, w).Current())
  }

  lemma RoundIsGood(p: Program, ss: Stores, round: seq<(nat, nat)>, adding: bool)
    requires StoresFit(p, ss) && RoundIs(ss, round, adding)
    ensures RoundFits(ss, round)
  {
    hide StoresFit;
    RoundIsFits(p, ss, round, adding);
  }

  /** The claimed rows may fire. */
  lemma DeleteRound(fr: Frame, ss: Stores, w: Weight, ts: Stores, round: seq<(nat, nat)>)
    requires fr.Good() && DeleteClaimed(fr, ss, w, ts, round)
    ensures Launched(fr, DeleteRoundRun(fr, ss, w, ts), ts, w, Sweep(false, false, round), fr.At(ss, w).Current(), fr.At(ts, w).Current())
  {
    hide Deleting, StoresFit, WellFormed, SweepFires, FiringRules, Snap, State.Current, Frame.Good, Typed, DerivsShaped, ReadsView,
      Launched, Boundary, ClaimedAll, RoundIs, AllCalm, WeighsShort, RoundReady, Claimable, ClaimDeletes;
    FrameTyped(fr);
    var sweep := Sweep(false, false, round);
    DeleteClaimable(fr, fr.At(ss, w));
    ClaimedFit(fr.p, fr.n, ss, ts, false);
    SnapClaims(fr.p, fr.g, fr.n, ss, ts, false, w, fr.ext);
    ClaimDeletesKeeps(fr.g, fr.n, fr.s0, fr.At(ss, w), fr.ext0);
    ClaimsReady(fr.p, fr.g, fr.n, ss, ts, round, false, w, fr.ext);
    FitSize(fr.p, ts);
    RoundFires(fr.p, fr.g, fr.n, ts, sweep, fr.At(ss, w).Current(), fr.At(ts, w).Current(), Fresh(fr.g, fr.n, fr.At(ss, w), false));
    RoundIsGood(fr.p, ts, round, false);
    Launch(fr, false, fr.s0, ts, w, sweep, fr.At(ss, w).Current(), fr.At(ts, w).Current());
  }

  /** The claimed rows have fired and left the frontier: the delete loop goes on, with fewer rows. */
  lemma DeleteRounded(fr: Frame, ss: Stores, w: Weight, ts: Stores, round: seq<(nat, nat)>, us: Stores, w': Weight, vs: Stores)
    requires fr.Good() && DeleteClaimed(fr, ss, w, ts, round)
    requires DeleteRoundRun(fr, ss, w, ts).Reached(us, w', DeleteRoundRun(fr, ss, w, ts).all)
    requires RetiredUpTo(us, vs, round, false)
    ensures fr.DeleteLoop(vs, w')
    ensures fr.At(vs, w').Current() == fr.At(ts, w).Current()
  {
    hide Deleting, StoresFit, WellFormed, FiringRules, Snap, State.Current, Frame.Good, SeedsReady, Boundary, Kept, AllCalm, Fired,
      WeighsShort, Run.Reached, ClaimedAll, RoundIs, RetiredUpTo, ClaimDeletes, Fresh, Shrinks, RoundOf, Typed, StoreRetired;
    FrameTyped(fr);
    ClaimedFit(fr.p, fr.n, ss, ts, false);
    Landed(fr, false, fr.s0, ts, w, fr.At(ss, w).Current(), fr.At(ts, w).Current(), us, w');
    KeptRound(fr.p, ts, us, round, false);
    AllRetired(fr.p, fr.g, us, vs, round, false, w', fr.ext);
    SnapClaims(fr.p, fr.g, fr.n, ss, ts, false, w, fr.ext);
    ClaimDeletesKeeps(fr.g, fr.n, fr.s0, fr.At(ss, w), fr.ext0);
    DeleteClaimable(fr, fr.At(ss, w));
    FreshMoves(fr.g, fr.n, fr.At(ss, w), false);
    RoundShrinks(fr.g, fr.n, fr.At(ss, w).Current(), fr.At(ts, w).Current(), Fresh(fr.g, fr.n, fr.At(ss, w), false));
    SnapShape(fr.g, ss, w, fr.ext);
    SnapShape(fr.g, ts, w, fr.ext);
    SnapShape(fr.g, us, w', fr.ext);
    DeletingShaped(fr.g, fr.n, fr.s0, fr.At(ss, w), fr.ext0);
    DeletingShaped(fr.g, fr.n, fr.s0, fr.At(ts, w), fr.ext0);
    DeletingShaped(fr.g, fr.n, fr.s0, fr.At(us, w'), fr.ext0);
    DeleteRoundWeighs(fr.g, fr.n, fr.At(ss, w), fr.At(ts, w), fr.At(us, w'), fr.s0.Current());
  }

  lemma RoundShrinks(g: GroundProgram, n: nat, s: set<Fact>, t: set<Fact>, claimed: set<Fact>)
    requires RoundOf(g, n, s, t, claimed, false)
    ensures Shrinks(g, n, s, t)
  {
  }

  /** A round that claims something removes something. */
  lemma RoundRemoves(fr: Frame, ss: Stores, w: Weight, ts: Stores, round: seq<(nat, nat)>)
    requires fr.Good() && DeleteClaimed(fr, ss, w, ts, round) && round != []
    ensures fr.At(ts, w).Current() < fr.At(ss, w).Current()
  {
    FrameTyped(fr);
    hide Deleting, StoresFit, WellFormed, Snap, State.Current, Frame.Good, Boundary, AllCalm, WeighsShort, ClaimedAll, RoundIs,
      ClaimDeletes, Fresh, RoundOf, Typed, RoundReady;
    var f := RoundHasFresh(fr, ss, w, ts, round, false);
    SnapClaims(fr.p, fr.g, fr.n, ss, ts, false, w, fr.ext);
    DeleteClaimable(fr, fr.At(ss, w));
    FreshMoves(fr.g, fr.n, fr.At(ss, w), false);
    FreshRemoves(fr.g, fr.n, fr.At(ss, w).Current(), fr.At(ts, w).Current(), Fresh(fr.g, fr.n, fr.At(ss, w), false), f);
  }

  lemma FreshRemoves(g: GroundProgram, n: nat, s: set<Fact>, t: set<Fact>, claimed: set<Fact>, f: Fact)
    requires RoundOf(g, n, s, t, claimed, false) && f in claimed
    ensures t < s
  {
    assert f in s && f !in t;
  }

  /** A listed row is a newly claimed fact of the stratum. */
  lemma RoundHasFresh(fr: Frame, ss: Stores, w: Weight, ts: Stores, round: seq<(nat, nat)>, adding: bool) returns (f: Fact)
    requires Typed(fr.p, fr.g) && StoresFit(fr.p, ss) && AllCalm(ss) && ClaimedAll(fr.p, fr.n, ss, ts, adding)
    requires RoundIs(ts, round, adding) && round != []
    ensures f in Fresh(fr.g, fr.n, fr.At(ss, w), adding)
  {
    var v, id := round[0].0, round[0].1;
    ClaimedFit(fr.p, fr.n, ss, ts, adding);
    assert (v, id) in round;
    FitAt(fr.p, ts, v);
    f := Fact(v, ts[v].rows[id]);
    assert ts[v].Get(f.row) == ts[v].st[id];
    hide StoresFit, ClaimedAll, RoundIs, AllCalm, StateOf, QueuedAdd, QueuedDel, Store.Valid;
    assert f in fr.g.facts;
    FreshFact(fr, ss, w, ts, adding, f);
  }

  lemma FreshFact(fr: Frame, ss: Stores, w: Weight, ts: Stores, adding: bool, f: Fact)
    requires Typed(fr.p, fr.g) && AllCalm(ss) && ClaimedAll(fr.p, fr.n, ss, ts, adding)
    requires f in fr.g.facts && OnFrontier(StateOf(ts, f), adding)
    ensures f in Fresh(fr.g, fr.n, fr.At(ss, w), adding)
  {
    hide ClaimedAll, AllCalm, StateOf, QueuedAdd, QueuedDel, Typed, Snap;
    FactClaimed(fr.p, fr.g, fr.n, ss, ts, adding, f);
    CalmState(ss, f);
    SnapMember(fr.g, ss, w, fr.ext, f);
  }

  /** The delete loop has drained. */
  lemma DeleteDrained(fr: Frame, ss: Stores, w: Weight, ts: Stores)
    requires fr.Good() && DeleteClaimed(fr, ss, w, ts, [])
    ensures fr.DeleteLoop(ts, w) && At(fr.g, fr.At(ts, w).pendDel, fr.n) == {}
  {
    hide Deleting, StoresFit, WellFormed, Snap, State.Current, Frame.Good, Boundary, AllCalm, WeighsShort, ClaimedAll, RoundIs,
      Fresh, Typed, Claimable;
    FrameTyped(fr);
    ClaimedFit(fr.p, fr.n, ss, ts, false);
    CalmAgain(fr.p, ts, false);
    SnapClaims(fr.p, fr.g, fr.n, ss, ts, false, w, fr.ext);
    ClaimDeletesKeeps(fr.g, fr.n, fr.s0, fr.At(ss, w), fr.ext0);
    DeleteClaimable(fr, fr.At(ss, w));
    NothingFresh(fr, ss, w, ts, false);
    FreshMoves(fr.g, fr.n, fr.At(ss, w), false);
    DrainedWeighs(fr.g, fr.n, fr.At(ss, w), fr.At(ts, w), fr.s0.Current());
  }

  lemma DrainedWeighs(g: GroundProgram, n: nat, s: State, c: State, mid: set<Fact>)
    requires Shaped(g, s) && Shaped(g, c) && WeighsShort(g, n, s, mid, s.Current())
    requires c == ClaimDeletes(g, n, s) && RoundOf(g, n, s.Current(), c.Current(), {}, false)
    ensures WeighsShort(g, n, c, mid, c.Current()) && At(g, c.pendDel, n) == {}
  {
  }

  /** An empty round has claimed nothing. */
  lemma NothingFresh(fr: Frame, ss: Stores, w: Weight, ts: Stores, adding: bool)
    requires Typed(fr.p, fr.g) && StoresFit(fr.p, ts) && AllCalm(ts) && ClaimedAll(fr.p, fr.n, ss, ts, adding)
    ensures Fresh(fr.g, fr.n, fr.At(ss, w), adding) == {}
  {
    hide StoresFit, AllCalm, ClaimedAll, StateOf, QueuedAdd, QueuedDel, Typed, Snap;
    forall f | f in fr.g.facts && Stratum(fr.g, f) == fr.n ensures f !in Fresh(fr.g, fr.n, fr.At(ss, w), adding) {
      FactClaimed(fr.p, fr.g, fr.n, ss, ts, adding, f);
      CalmState(ts, f);
      SnapMember(fr.g, ss, w, fr.ext, f);
    }
    FreshFacts(fr, ss, w, adding);
  }

  lemma FreshFacts(fr: Frame, ss: Stores, w: Weight, adding: bool)
    ensures forall f :: f in Fresh(fr.g, fr.n, fr.At(ss, w), adding) ==> f in fr.g.facts && Stratum(fr.g, f) == fr.n
  {
  }

  lemma CalmAgain(p: Program, ts: Stores, adding: bool)
    requires StoresFit(p, ts) && RoundIs(ts, [], adding)
    ensures AllCalm(ts)
  {
    forall v | 0 <= v < |ts| ensures Calm(ts[v]) {
      FitAt(p, ts, v);
      assert forall id: nat :: (v, id) !in [];
    }
  }

  // ------------------------------------------------------------------
  // Frontiers of finished strata stay as published.

  ghost predicate SameExplicit(ss: Stores, ts: Stores) {
    |ts| == |ss| && forall v :: 0 <= v < |ss| ==> forall r :: ts[v].Get(r).isExplicit == ss[v].Get(r).isExplicit
  }

  lemma SameExplicitMore(ss: Stores, ts: Stores, us: Stores)
    requires SameExplicit(ss, ts) && SameExplicit(ts, us)
    ensures SameExplicit(ss, us)
  {
    forall v | 0 <= v < |ss| ensures forall r :: us[v].Get(r).isExplicit == ss[v].Get(r).isExplicit {
      assert forall r :: ts[v].Get(r).isExplicit == ss[v].Get(r).isExplicit;
    }
  }

  ghost predicate SameFronts(ss: Stores, ts: Stores) {
    && SameExplicit(ss, ts)
    && forall v :: 0 <= v < |ss| ==> ss[v].rows <= ts[v].rows && ts[v].outDel == ss[v].outDel && ts[v].outAdd == ss[v].outAdd
  }

  lemma SameFrontsMore(ss: Stores, ts: Stores, us: Stores)
    requires SameFronts(ss, ts) && SameFronts(ts, us)
    ensures SameFronts(ss, us)
  {
    hide SameExplicit;
    SameExplicitMore(ss, ts, us);
    SameSizes(ss, ts);
    forall v | 0 <= v < |ss|
      ensures ss[v].rows <= us[v].rows && us[v].outDel == ss[v].outDel && us[v].outAdd == ss[v].outAdd
    {
      assert ss[v].rows <= ts[v].rows && ts[v].rows <= us[v].rows;
    }
  }

  lemma SameSizes(ss: Stores, ts: Stores)
    requires SameExplicit(ss, ts)
    ensures |ts| == |ss|
  {
  }

  lemma KeptFronts(ss: Stores, ts: Stores)
    requires Kept(ss, ts)
    ensures SameFronts(ss, ts)
  {
    forall v | 0 <= v < |ss|
      ensures ss[v].rows <= ts[v].rows && ts[v].outDel == ss[v].outDel && ts[v].outAdd == ss[v].outAdd
      ensures forall r :: ts[v].Get(r).isExplicit == ss[v].Get(r).isExplicit
    {
      assert StoreKept(ss[v], ts[v]);
    }
  }

  lemma ClaimedFronts(p: Program, n: nat, ss: Stores, ts: Stores, adding: bool)
    requires ClaimedAll(p, n, ss, ts, adding)
    ensures SameFronts(ss, ts)
  {
    forall v | 0 <= v < |ss|
      ensures ss[v].rows <= ts[v].rows && ts[v].outDel == ss[v].outDel && ts[v].outAdd == ss[v].outAdd
      ensures forall r :: ts[v].Get(r).isExplicit == ss[v].Get(r).isExplicit
    {
      assert p.views[v].stratum == n ==> ClaimsOf(ss[v], ts[v], adding);
    }
  }

  lemma RetiredFronts(ss: Stores, ts: Stores, round: seq<(nat, nat)>, adding: bool)
    requires RetiredUpTo(ss, ts, round, adding)
    ensures SameFronts(ss, ts)
  {
    forall v: nat | v < |ss|
      ensures ss[v].rows <= ts[v].rows && ts[v].outDel == ss[v].outDel && ts[v].outAdd == ss[v].outAdd
      ensures forall r :: ts[v].Get(r).isExplicit == ss[v].Get(r).isExplicit
    {
      var s, t := ss[v], ts[v];
      assert t == s.(st := t.st);
      forall r ensures t.Get(r).isExplicit == s.Get(r).isExplicit {
        if r in s.ids && s.ids[r] < |s.st| {
          var id := s.ids[r];
          assert t.st[id] == if (v, id) in round then Retired(s.st[id], adding) else s.st[id];
        }
      }
    }
  }

  lemma SameOuts(p: Program, g: GroundProgram, ss: Stores, ts: Stores)
    requires StoresFit(p, ss) && SameFronts(ss, ts)
    ensures OutDel(g, ts) == OutDel(g, ss) && OutAdd(g, ts) == OutAdd(g, ss)
  {
    forall v | 0 <= v < |ss|
      ensures ts[v].RowsOf(ts[v].outDel) == ss[v].RowsOf(ss[v].outDel)
      ensures ts[v].RowsOf(ts[v].outAdd) == ss[v].RowsOf(ss[v].outAdd)
    {
      assert ss[v].QueuesFit();
    }
  }

  lemma DeleteLoopFits(fr: Frame, ss: Stores, w: Weight)
    requires fr.DeleteLoop(ss, w)
    ensures StoresFit(fr.p, ss) && AllCalm(ss)
  {
    hide StoresFit, AllCalm, Deleting, WeighsShort;
  }

  lemma NoAborts(fr: Frame, ss: Stores, w: Weight)
    requires fr.Good() && fr.DeleteLoop(ss, w)
    ensures |ss| == |fr.p.views| && forall v :: 0 <= v < |ss| && fr.p.views[v].stratum == fr.n ==> !Unclaimable(ss[v])
  {
    hide StoresFit, AllCalm, Deleting, WeighsShort, Frame.Good, Typed, Unclaimable;
    FrameTyped(fr);
    FitSize(fr.p, ss);
    forall v | 0 <= v < |ss| && fr.p.views[v].stratum == fr.n ensures !Unclaimable(ss[v]) {
      DeleteNeverAborts(fr, ss, w, v);
    }
  }

  /** The round's rows are still on the frontier when its sweep has finished. */
  lemma RoundKept(fr: Frame, adding: bool, from: State, ss: Stores, ts: Stores, w: Weight, round: seq<(nat, nat)>,
                  s: set<Fact>, t: set<Fact>, us: Stores, w': Weight)
    requires StoresFit(fr.p, ss) && ClaimedAll(fr.p, fr.n, ss, ts, adding) && RoundIs(ts, round, adding)
    requires fr.Sweeping(adding, from, ts, w, s, t).Reached(us, w', fr.Sweeping(adding, from, ts, w, s, t).all)
    ensures StoresFit(fr.p, us) && RoundIs(us, round, adding) && Kept(ts, us)
  {
    hide StoresFit, ClaimedAll, RoundIs, Kept, Working, Shifted, FiringRules;
    ClaimedFit(fr.p, fr.n, ss, ts, adding);
    KeptRound(fr.p, ts, us, round, adding);
  }

  lemma RoundFronts(first: Stores, ts: Stores, us: Stores, vs: Stores, round: seq<(nat, nat)>, adding: bool)
    requires SameFronts(first, ts) && Kept(ts, us) && RetiredUpTo(us, vs, round, adding)
    ensures SameFronts(first, vs)
  {
    hide SameFronts, Kept, RetiredUpTo;
    KeptFronts(ts, us);
    RetiredFronts(us, vs, round, adding);
    SameFrontsMore(first, ts, us);
    SameFrontsMore(first, us, vs);
  }

  // ------------------------------------------------------------------
  // A well-formed program gives good frames.

  lemma GroundTyped(p: Program, g: GroundProgram)
    requires GoodProgram(p) && g == GroundOf(p)
    ensures Typed(p, g)
  {
  }

  lemma RulesRead(p: Program)
    requires GoodProgram(p)
    ensures forall i, q :: 0 <= i < |p.rules| && 0 <= q < |p.rules[i].pos2atom| ==> ReadsView(p, i, q)
  {
    forall i, q | 0 <= i < |p.rules| && 0 <= q < |p.rules[i].pos2atom| ensures ReadsView(p, i, q) {
      assert GoodRule(p, p.rules[i]);
    }
  }

  lemma GroundFrame(fr: Frame)
    requires GoodProgram(fr.p) && fr.g == GroundOf(fr.p) && WellFormed(fr.g) && Boundary(fr.g, fr.n, fr.s0, fr.ext0)
    ensures fr.Good()
  {
    hide GoodProgram, GroundOf, WellFormed, Boundary, Typed, DerivsShaped, ReadsView, WellFormedDeriv;
    GroundTyped(fr.p, fr.g);
    GroundShaped(fr.p, fr.g);
    RulesRead(fr.p);
    forall d | d in fr.g.derivs ensures d.rule < |fr.p.rules| {
      DerivOfRule(fr.p, d);
    }
  }
}
