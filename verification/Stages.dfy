/** The second half of a stratum on the stores: REDERIVE, the insert loop, and the frontiers
    published for the strata above. */
module Stages {
  import opened Ground
  import opened Weights
  import opened Model
  import opened Phase
  import opened Overdeletion
  import opened Insertion
  import opened Passes
  import opened Firings
  import opened RowStore
  import opened Rules
  import opened Snapshots
  import opened Reads
  import opened Sweeps
  import opened Rounds
  import opened Steps

  // ------------------------------------------------------------------
  // REDERIVE.

  /** The view after its deleted rows with a positive recursive counter were queued for insertion. */
  ghost predicate Requeued(s: Store, t: Store) {
    && t == s.(pendAdd := t.pendAdd) && InRange(t.pendAdd, |s.rows|)
    && forall id: nat :: id in t.pendAdd <==>
         id in s.pendAdd || (id in s.claimedDel && id < |s.st| && s.st[id].rc > 0)
  }

  ghost predicate RequeuedAll(p: Program, n: nat, ss: Stores, ts: Stores) {
    && |ts| == |ss| == |p.views|
    && forall v :: 0 <= v < |ss| ==> if p.views[v].stratum == n then Requeued(ss[v], ts[v]) else ts[v] == ss[v]
  }

  method RequeueView(vm: ViewModel)
    requires vm.Value().Valid()
    modifies vm`pendAdd
    ensures Requeued(old(vm.Value()), vm.Value())
  {
    ghost var s := vm.Value();
    for k := 0 to |vm.claimedDel|
      invariant vm.Value() == s.(pendAdd := vm.pendAdd) && InRange(vm.pendAdd, |s.rows|)
      invariant forall id: nat :: id in vm.pendAdd <==>
        id in s.pendAdd || (id in s.claimedDel[..k] && id < |s.st| && s.st[id].rc > 0)
    {
      var id := vm.claimedDel[k];
      assert id in s.claimedDel;
      assert s.claimedDel[..k + 1] == s.claimedDel[..k] + [id];
      if vm.st[id].rc > 0 {
        vm.PushAdd(id);
      }
    }
    assert s.claimedDel[..|s.claimedDel|] == s.claimedDel;
  }

  lemma RequeuedKeeps(s: Store, t: Store)
    requires s.Valid() && Requeued(s, t)
    ensures t.Valid() && t.arity == s.arity && (forall r :: t.Get(r) == s.Get(r))
    ensures t.RowsOf(t.pendDel) == s.RowsOf(s.pendDel)
    ensures forall r :: r in t.RowsOf(t.pendAdd) <==> r in s.RowsOf(s.pendAdd) || (s.Get(r).del && s.Get(r).rc > 0)
  {
    forall r ensures r in t.RowsOf(t.pendAdd) <==> r in s.RowsOf(s.pendAdd) || (s.Get(r).del && s.Get(r).rc > 0) {
      if s.Get(r).del && s.Get(r).rc > 0 {
        assert s.ids[r] in t.pendAdd;
      }
    }
  }

  lemma FactRequeued(p: Program, g: GroundProgram, n: nat, ss: Stores, ts: Stores, f: Fact)
    requires Typed(p, g) && StoresFit(p, ss) && RequeuedAll(p, n, ss, ts) && f in g.facts
    ensures StateOf(ts, f) == StateOf(ss, f) && (QueuedDel(ts, f) <==> QueuedDel(ss, f))
    ensures QueuedAdd(ts, f) <==>
      QueuedAdd(ss, f) || (Stratum(g, f) == n && StateOf(ss, f).del && StateOf(ss, f).rc > 0)
  {
    FactTyped(p, g, f);
    FitAt(p, ss, f.view);
    hide Store.Valid, Typed, StoresFit;
    if Stratum(g, f) == n {
      RequeuedKeeps(ss[f.view], ts[f.view]);
    }
  }

  lemma RequeuedFit(p: Program, n: nat, ss: Stores, ts: Stores)
    requires StoresFit(p, ss) && RequeuedAll(p, n, ss, ts)
    ensures StoresFit(p, ts) && SameFronts(ss, ts) && (AllCalm(ss) ==> AllCalm(ts))
  {
    hide Store.Valid;
    forall v | 0 <= v < |ts|
      ensures ts[v].Valid() && ts[v].arity == p.views[v].arity && (forall r :: ts[v].Get(r) == ss[v].Get(r))
    {
      assert ss[v].Valid() && ss[v].arity == p.views[v].arity;
      if p.views[v].stratum == n {
        RequeuedKeeps(ss[v], ts[v]);
      }
    }
    assert AllCalm(ss) ==> forall v :: 0 <= v < |ts| ==> Calm(ss[v]) && Calm(ts[v]);
  }

  lemma SnapRequeued(p: Program, g: GroundProgram, n: nat, ss: Stores, ts: Stores, w: Weight, ext: set<Fact>)
    requires Typed(p, g) && StoresFit(p, ss) && RequeuedAll(p, n, ss, ts)
    ensures
      var s := Snap(g, ss, w, ext);
      s.deleted <= s.rc.Keys && Snap(g, ts, w, ext) == Rederived(g, n, s)
  {
    hide Typed, RequeuedAll, QueuedDel, QueuedAdd, StateOf, StoresFit;
    forall f | f in g.facts
      ensures StateOf(ts, f) == StateOf(ss, f) && (QueuedDel(ts, f) <==> QueuedDel(ss, f))
      ensures QueuedAdd(ts, f) <==>
        QueuedAdd(ss, f) || (Stratum(g, f) == n && StateOf(ss, f).del && StateOf(ss, f).rc > 0)
    {
      FactRequeued(p, g, n, ss, ts, f);
    }
  }

  // ------------------------------------------------------------------
  // The + seeds.

  /** `ss` is ready for the + seeds; `s1` is the state after OVERDELETE. */
  ghost predicate InsertStart(fr: Frame, s1: State, ss: Stores, w: Weight) {
    && fr.Ready(ss, w) && Inserting(fr.g, fr.n, s1, fr.At(ss, w))
    && WeighsShort(fr.g, fr.n, fr.At(ss, w), fr.s0.Current(), fr.At(ss, w).Current())
    && SeedsReady(fr.g, fr.n, ss, fr.s0)
  }

  lemma SeedsStayReady(fr: Frame, first: Stores, ss: Stores, w: Weight, s1: State)
    requires Deleting(fr.g, fr.n, fr.s0, s1, fr.ext0) && Inserting(fr.g, fr.n, s1, fr.At(ss, w))
    requires StoresFit(fr.p, first) && SameFronts(first, ss) && SeedsReady(fr.g, fr.n, first, fr.s0)
    ensures SeedsReady(fr.g, fr.n, ss, fr.s0)
  {
    SameOuts(fr.p, fr.g, first, ss);
    CurrentReadable(fr.g, ss, w, fr.ext);
    hide Readable, OutDel, OutAdd, StoresFit, SameFronts, FrontiersBelow, DoneBelow, Snap;
    StepSameBelow(fr.g, fr.n, fr.s0, s1, fr.At(ss, w), fr.ext0);
  }

  /** OVERDELETE has drained and REDERIVE has run: the + seeds may fire. */
  lemma RederiveDone(fr: Frame, first: Stores, ss: Stores, w: Weight, ts: Stores)
    requires fr.Good() && fr.DeleteLoop(ss, w) && At(fr.g, fr.At(ss, w).pendDel, fr.n) == {}
    requires StoresFit(fr.p, first) && SameFronts(first, ss) && SeedsReady(fr.g, fr.n, first, fr.s0)
    requires RequeuedAll(fr.p, fr.n, ss, ts)
    ensures InsertStart(fr, fr.At(ss, w), ts, w)
  {
    hide Deleting, StoresFit, WellFormed, Snap, State.Current, Frame.Good, Boundary, AllCalm, WeighsShort, Typed, SeedsReady,
      RequeuedAll, SameFronts, Inserting, Rederived;
    FrameTyped(fr);
    RequeuedFit(fr.p, fr.n, ss, ts);
    SameFrontsMore(first, ss, ts);
    SnapRequeued(fr.p, fr.g, fr.n, ss, ts, w, fr.ext);
    InsertingStarts(fr.g, fr.n, fr.s0, fr.At(ss, w), fr.ext0);
    SeedsStayReady(fr, first, ts, w, fr.At(ss, w));
    DeletingShaped(fr.g, fr.n, fr.s0, fr.At(ss, w), fr.ext0);
    InsertingShaped(fr.g, fr.n, fr.At(ss, w), fr.At(ts, w));
    RederivedWeighs(fr.g, fr.n, fr.At(ss, w), fr.s0.Current());
  }

  lemma InsertingShaped(g: GroundProgram, n: nat, s: State, s': State)
    requires Inserting(g, n, s, s')
    ensures Shaped(g, s) && Shaped(g, s') && s'.present == s.present && s'.ext == s.ext && s'.deleted == s.deleted
    ensures s'.Current() <= g.facts
  {
  }

  lemma RederivedWeighs(g: GroundProgram, n: nat, s: State, mid: set<Fact>)
    requires Shaped(g, s) && s.deleted <= s.rc.Keys && Shaped(g, Rederived(g, n, s)) && WeighsShort(g, n, s, mid, s.Current())
    ensures WeighsShort(g, n, Rederived(g, n, s), mid, Rederived(g, n, s).Current())
  {
    var t := Rederived(g, n, s);
    assert t.Current() == s.Current() && t.w == s.w && t.present == s.present;
  }

  ghost function InsertSeedRun(fr: Frame, s1: State, ss: Stores, w: Weight): Run {
    fr.Sweeping(true, s1, ss, w, fr.s0.present, fr.s0.Current())
  }

  /** A derivation the + seeds count is active and was counted short by exactly one. */
  lemma SeedRoom(fr: Frame, s: State, w: Weight)
    requires Shaped(fr.g, s) && s.w == w && s.present == fr.s0.present
    requires WeighsShort(fr.g, fr.n, s, fr.s0.Current(), s.Current())
    ensures Room(w, FiringRules(fr.g, |fr.p.rules|, fr.n, fr.s0.present, fr.s0.Current(), true), s.Current())
  {
  }

  lemma InsertSeeds(fr: Frame, s1: State, ss: Stores, w: Weight)
    requires fr.Good() && InsertStart(fr, s1, ss, w) && Deleting(fr.g, fr.n, fr.s0, s1, fr.ext0)
    ensures Launched(fr, InsertSeedRun(fr, s1, ss, w), ss, w, Sweep(true, true, []), fr.s0.present, fr.s0.Current())
  {
    hide Inserting, Deleting, StoresFit, WellFormed, SweepFires, FiringRules, Snap, State.Current, Frame.Good, Typed, DerivsShaped,
      SeedsReady, ReadsView, Launched, Boundary, AllCalm, WeighsShort, Room;
    FrameTyped(fr);
    SnapShape(fr.g, ss, w, fr.ext);
    DeletingShaped(fr.g, fr.n, fr.s0, s1, fr.ext0);
    InsertingShaped(fr.g, fr.n, s1, fr.At(ss, w));
    SeedRoom(fr, fr.At(ss, w), w);
    FitSize(fr.p, ss);
    SeedsFire(fr.p, fr.g, fr.n, ss, Sweep(true, true, []), fr.s0);
    Launch(fr, true, s1, ss, w, Sweep(true, true, []), fr.s0.present, fr.s0.Current());
  }

  /** The + seeds have fired: the weights are exact and the insert loop starts. */
  lemma InsertSeeded(fr: Frame, s1: State, ss: Stores, w: Weight, us: Stores, w': Weight)
    requires fr.Good() && InsertStart(fr, s1, ss, w) && Deleting(fr.g, fr.n, fr.s0, s1, fr.ext0)
    requires InsertSeedRun(fr, s1, ss, w).Reached(us, w', InsertSeedRun(fr, s1, ss, w).all)
    ensures fr.InsertLoop(s1, us, w') && Kept(ss, us)
  {
    hide Inserting, Deleting, StoresFit, WellFormed, FiringRules, Snap, State.Current, Frame.Good, SeedsReady, Boundary, Kept, AllCalm,
      Fired, WeighsShort, Weighs, Run.Reached;
    FrameTyped(fr);
    Landed(fr, true, s1, ss, w, fr.s0.present, fr.s0.Current(), us, w');
    KeptCalm(ss, us);
    SnapShape(fr.g, ss, w, fr.ext);
    SnapShape(fr.g, us, w', fr.ext);
    DeletingShaped(fr.g, fr.n, fr.s0, s1, fr.ext0);
    InsertingShaped(fr.g, fr.n, s1, fr.At(ss, w));
    InsertingShaped(fr.g, fr.n, s1, fr.At(us, w'));
    PlusSeedsWeigh(fr.g, fr.n, fr.At(ss, w), fr.At(us, w'), fr.s0.Current());
  }

  // ------------------------------------------------------------------
  // Claim rounds of INSERT.

  ghost predicate InsertClaimed(fr: Frame, s1: State, ss: Stores, w: Weight, ts: Stores, round: seq<(nat, nat)>) {
    && fr.InsertLoop(s1, ss, w) && ClaimedAll(fr.p, fr.n, ss, ts, true) && RoundIs(ts, round, true)
  }

  ghost function InsertRoundRun(fr: Frame, s1: State, ss: Stores, w: Weight, ts: Stores): Run {
    fr.Sweeping(true, s1, ts, w, fr.At(ss, w).Current(), fr.At(ts, w).Current())
  }

  lemma RoundGrowsState(g: GroundProgram, n: nat, s: set<Fact>, t: set<Fact>, claimed: set<Fact>)
    requires RoundOf(g, n, s, t, claimed, true)
    ensures Shrinks(g, n, t, s)
  {
  }

  lemma RoundRoom(fr: Frame, s: State, c: State, rules: nat)
    requires WellFormed(fr.g) && Shaped(fr.g, s) && Weighs(fr.g, fr.n, s, s.Current())
    requires Shrinks(fr.g, fr.n, c.Current(), s.Current())
    ensures Room(s.w, FiringRules(fr.g, rules, fr.n, s.Current(), c.Current(), true), c.Current())
  {
    forall d | d in FiringRules(fr.g, rules, fr.n, s.Current(), c.Current(), true)
      ensures d in s.w && s.w[d] < Bit(Active(d, c.Current()))
    {
      InsertFiringActivates(fr.g, fr.n, d, s.Current(), c.Current());
    }
  }

  lemma InsertRound(fr: Frame, s1: State, ss: Stores, w: Weight, ts: Stores, round: seq<(nat, nat)>)
    requires fr.Good() && InsertClaimed(fr, s1, ss, w, ts, round)
    ensures Launched(fr, InsertRoundRun(fr, s1, ss, w, ts), ts, w, Sweep(false, true, round), fr.At(ss, w).Current(), fr.At(ts, w).Current())
  {
    hide Inserting, StoresFit, WellFormed, SweepFires, FiringRules, Snap, State.Current, Frame.Good, Typed, DerivsShaped, ReadsView,
      Launched, Boundary, ClaimedAll, RoundIs, AllCalm, Weighs, RoundReady, Claimable, ClaimAdds, Room, Fresh, RoundOf, Shrinks;
    FrameTyped(fr);
    var sweep := Sweep(false, true, round);
    InsertClaimable(fr, s1, fr.At(ss, w));
    ClaimedFit(fr.p, fr.n, ss, ts, true);
    SnapClaims(fr.p, fr.g, fr.n, ss, ts, true, w, fr.ext);
    ClaimAddsKeeps(fr.g, fr.n, s1, fr.At(ss, w));
    ClaimsReady(fr.p, fr.g, fr.n, ss, ts, round, true, w, fr.ext);
    FitSize(fr.p, ts);
    FreshMoves(fr.g, fr.n, fr.At(ss, w), true);
    RoundGrowsState(fr.g, fr.n, fr.At(ss, w).Current(), fr.At(ts, w).Current(), Fresh(fr.g, fr.n, fr.At(ss, w), true));
    RoundRoom(fr, fr.At(ss, w), fr.At(ts, w), |fr.p.rules|);
    SnapShape(fr.g, ss, w, fr.ext);
    RoundFires(fr.p, fr.g, fr.n, ts, sweep, fr.At(ss, w).Current(), fr.At(ts, w).Current(), Fresh(fr.g, fr.n, fr.At(ss, w), true));
    RoundIsGood(fr.p, ts, round, true);
    Launch(fr, true, s1, ts, w, sweep, fr.At(ss, w).Current(), fr.At(ts, w).Current());
  }

  lemma InsertRounded(fr: Frame, s1: State, ss: Stores, w: Weight, ts: Stores, round: seq<(nat, nat)>, us: Stores, w': Weight, vs: Stores)
    requires fr.Good() && InsertClaimed(fr, s1, ss, w, ts, round)
    requires InsertRoundRun(fr, s1, ss, w, ts).Reached(us, w', InsertRoundRun(fr, s1, ss, w, ts).all)
    requires RetiredUpTo(us, vs, round, true)
    ensures fr.InsertLoop(s1, vs, w')
    ensures fr.At(vs, w').Current() == fr.At(ts, w).Current()
  {
    hide Inserting, StoresFit, WellFormed, FiringRules, Snap, State.Current, Frame.Good, Boundary, Kept, AllCalm, Fired,
      Weighs, Run.Reached, ClaimedAll, RoundIs, RetiredUpTo, ClaimAdds, Fresh, Shrinks, RoundOf, Typed, StoreRetired, Claimable;
    FrameTyped(fr);
    ClaimedFit(fr.p, fr.n, ss, ts, true);
    Landed(fr, true, s1, ts, w, fr.At(ss, w).Current(), fr.At(ts, w).Current(), us, w');
    KeptRound(fr.p, ts, us, round, true);
    AllRetired(fr.p, fr.g, us, vs, round, true, w', fr.ext);
    SnapClaims(fr.p, fr.g, fr.n, ss, ts, true, w, fr.ext);
    ClaimAddsKeeps(fr.g, fr.n, s1, fr.At(ss, w));
    InsertClaimable(fr, s1, fr.At(ss, w));
    FreshMoves(fr.g, fr.n, fr.At(ss, w), true);
    RoundGrowsState(fr.g, fr.n, fr.At(ss, w).Current(), fr.At(ts, w).Current(), Fresh(fr.g, fr.n, fr.At(ss, w), true));
    SnapShape(fr.g, ss, w, fr.ext);
    SnapShape(fr.g, ts, w, fr.ext);
    SnapShape(fr.g, us, w', fr.ext);
    InsertingShaped(fr.g, fr.n, s1, fr.At(ss, w));
    InsertingShaped(fr.g, fr.n, s1, fr.At(ts, w));
    InsertingShaped(fr.g, fr.n, s1, fr.At(us, w'));
    InsertRoundWeighs(fr.g, fr.n, fr.At(ss, w), fr.At(ts, w), fr.At(us, w'));
  }

  /** A round that claims something adds something: there is room for finitely many rounds. */
  lemma RoundAdds(fr: Frame, s1: State, ss: Stores, w: Weight, ts: Stores, round: seq<(nat, nat)>)
    requires fr.Good() && InsertClaimed(fr, s1, ss, w, ts, round) && round != []
    ensures fr.g.facts - fr.At(ts, w).Current() < fr.g.facts - fr.At(ss, w).Current()
  {
    FrameTyped(fr);
    hide Inserting, StoresFit, WellFormed, Snap, State.Current, Frame.Good, Boundary, AllCalm, Weighs, ClaimedAll, RoundIs,
      ClaimAdds, RoundOf, Typed, Claimable;
    var f := RoundHasFresh(fr, ss, w, ts, round, true);
    FreshFacts(fr, ss, w, true);
    hide Fresh;
    SnapClaims(fr.p, fr.g, fr.n, ss, ts, true, w, fr.ext);
    InsertClaimable(fr, s1, fr.At(ss, w));
    FreshMoves(fr.g, fr.n, fr.At(ss, w), true);
    FreshAdds(fr.g, fr.n, fr.At(ss, w).Current(), fr.At(ts, w).Current(), Fresh(fr.g, fr.n, fr.At(ss, w), true), f);
  }

  lemma FreshAdds(g: GroundProgram, n: nat, s: set<Fact>, t: set<Fact>, claimed: set<Fact>, f: Fact)
    requires RoundOf(g, n, s, t, claimed, true) && f in claimed && f in g.facts
    ensures g.facts - t < g.facts - s
  {
    assert f in g.facts - s && f !in g.facts - t;
  }

  /** The insert loop has drained. */
  lemma InsertDrained(fr: Frame, s1: State, ss: Stores, w: Weight, ts: Stores)
    requires fr.Good() && InsertClaimed(fr, s1, ss, w, ts, [])
    ensures fr.InsertLoop(s1, ts, w) && At(fr.g, fr.At(ts, w).pendAdd, fr.n) == {}
  {
    hide Inserting, StoresFit, WellFormed, Snap, State.Current, Frame.Good, Boundary, AllCalm, Weighs, ClaimedAll, RoundIs,
      Fresh, Typed, Claimable, RoundOf;
    FrameTyped(fr);
    ClaimedFit(fr.p, fr.n, ss, ts, true);
    CalmAgain(fr.p, ts, true);
    SnapClaims(fr.p, fr.g, fr.n, ss, ts, true, w, fr.ext);
    ClaimAddsKeeps(fr.g, fr.n, s1, fr.At(ss, w));
    InsertClaimable(fr, s1, fr.At(ss, w));
    NothingFresh(fr, ss, w, ts, true);
    FreshMoves(fr.g, fr.n, fr.At(ss, w), true);
    InsertingShaped(fr.g, fr.n, s1, fr.At(ts, w));
    DrainedExactly(fr.g, fr.n, fr.At(ss, w), fr.At(ts, w));
  }

  lemma DrainedExactly(g: GroundProgram, n: nat, s: State, c: State)
    requires Shaped(g, s) && Shaped(g, c) && Weighs(g, n, s, s.Current())
    requires c == ClaimAdds(g, n, s) && RoundOf(g, n, s.Current(), c.Current(), {}, true)
    ensures Weighs(g, n, c, c.Current()) && At(g, c.pendAdd, n) == {}
  {
  }

  // ------------------------------------------------------------------
  // BUILDFRONTIERS.

  /** The view after its net removals and net additions were published. */
  ghost predicate Published(s: Store, t: Store) {
    && t == s.(outDel := t.outDel, outAdd := t.outAdd)
    && NoRepeats(t.outDel) && NoRepeats(t.outAdd)
    && (forall id: nat :: id in t.outDel <==> id in s.claimedDel && id < |s.st| && !s.st[id].add)
    && (forall id: nat :: id in t.outAdd <==> id in s.claimedAdd && id < |s.st| && !s.st[id].del)
  }

  ghost predicate PublishedAll(p: Program, n: nat, ss: Stores, ts: Stores) {
    && |ts| == |ss| == |p.views|
    && forall v :: 0 <= v < |ss| ==> if p.views[v].stratum == n then Published(ss[v], ts[v]) else ts[v] == ss[v]
  }

  /** Append the claimed rows that the other claim did not undo. */
  method NetIds(vm: ViewModel, claimed: seq<nat>, adding: bool) returns (ids: seq<nat>)
    requires NoRepeats(claimed) && InRange(claimed, |vm.st|)
    ensures NoRepeats(ids)
    ensures forall id: nat :: id in ids <==> id in claimed && id < |vm.st| && !Flagged(vm.st[id], !adding)
  {
    ids := [];
    for k := 0 to |claimed|
      invariant NoRepeats(ids)
      invariant forall id: nat :: id in ids <==> id in claimed[..k] && id < |vm.st| && !Flagged(vm.st[id], !adding)
    {
      var id := claimed[k];
      assert id in claimed;
      assert claimed[..k + 1] == claimed[..k] + [id];
      if !Flagged(vm.st[id], !adding) {
        ids := ids + [id];
      }
    }
    assert claimed[..|claimed|] == claimed;
  }

  method PublishView(vm: ViewModel)
    requires vm.Value().Valid() && vm.outDel == [] && vm.outAdd == []
    modifies vm`outDel, vm`outAdd
    ensures Published(old(vm.Value()), vm.Value())
  {
    assert vm.Value().QueuesFit() && |vm.st| == |vm.rows|;
    hide Store.Valid;
    var removals := NetIds(vm, vm.claimedDel, false);
    var additions := NetIds(vm, vm.claimedAdd, true);
    vm.outDel := vm.outDel + removals;
    vm.outAdd := vm.outAdd + additions;
  }

  lemma PublishedKeeps(s: Store, t: Store)
    requires s.Valid() && Published(s, t)
    ensures t.Valid() && t.arity == s.arity && (forall r :: t.Get(r) == s.Get(r))
    ensures t.RowsOf(t.pendDel) == s.RowsOf(s.pendDel) && t.RowsOf(t.pendAdd) == s.RowsOf(s.pendAdd)
    ensures forall r :: r in t.RowsOf(t.outDel) <==> s.Get(r).del && !s.Get(r).add
    ensures forall r :: r in t.RowsOf(t.outAdd) <==> s.Get(r).add && !s.Get(r).del
  {
    forall r ensures r in t.RowsOf(t.outDel) <==> s.Get(r).del && !s.Get(r).add {
      if s.Get(r).del && !s.Get(r).add {
        assert s.ids[r] in t.outDel;
      }
    }
    forall r ensures r in t.RowsOf(t.outAdd) <==> s.Get(r).add && !s.Get(r).del {
      if s.Get(r).add && !s.Get(r).del {
        assert s.ids[r] in t.outAdd;
      }
    }
  }

  lemma PublishedFit(p: Program, n: nat, ss: Stores, ts: Stores)
    requires StoresFit(p, ss) && PublishedAll(p, n, ss, ts)
    ensures StoresFit(p, ts) && (AllCalm(ss) ==> AllCalm(ts)) && SameExplicit(ss, ts)
  {
    hide Store.Valid;
    forall v | 0 <= v < |ts|
      ensures ts[v].Valid() && ts[v].arity == p.views[v].arity && (forall r :: ts[v].Get(r) == ss[v].Get(r))
    {
      assert ss[v].Valid() && ss[v].arity == p.views[v].arity;
      if p.views[v].stratum == n {
        PublishedKeeps(ss[v], ts[v]);
      }
    }
    assert AllCalm(ss) ==> forall v :: 0 <= v < |ts| ==> Calm(ss[v]) && Calm(ts[v]);
  }

  lemma FactPublished(p: Program, g: GroundProgram, n: nat, ss: Stores, ts: Stores, f: Fact)
    requires Typed(p, g) && StoresFit(p, ss) && PublishedAll(p, n, ss, ts) && f in g.facts
    ensures StateOf(ts, f) == StateOf(ss, f)
    ensures (QueuedDel(ts, f) <==> QueuedDel(ss, f)) && (QueuedAdd(ts, f) <==> QueuedAdd(ss, f))
    ensures f in OutDel(g, ts) <==>
      if Stratum(g, f) == n then StateOf(ss, f).del && !StateOf(ss, f).add else f in OutDel(g, ss)
    ensures f in OutAdd(g, ts) <==>
      if Stratum(g, f) == n then StateOf(ss, f).add && !StateOf(ss, f).del else f in OutAdd(g, ss)
  {
    FactTyped(p, g, f);
    FitAt(p, ss, f.view);
    hide Store.Valid, Typed, StoresFit;
    if Stratum(g, f) == n {
      PublishedKeeps(ss[f.view], ts[f.view]);
    }
  }

  lemma SnapPublished(p: Program, g: GroundProgram, n: nat, ss: Stores, ts: Stores, w: Weight, ext: set<Fact>)
    requires Typed(p, g) && StoresFit(p, ss) && PublishedAll(p, n, ss, ts)
    ensures Snap(g, ts, w, ext) == Snap(g, ss, w, ext)
  {
    hide Typed, PublishedAll, QueuedDel, QueuedAdd, StateOf, StoresFit, OutDel, OutAdd;
    forall f | f in g.facts
      ensures StateOf(ts, f) == StateOf(ss, f)
      ensures (QueuedDel(ts, f) <==> QueuedDel(ss, f)) && (QueuedAdd(ts, f) <==> QueuedAdd(ss, f))
    {
      FactPublished(p, g, n, ss, ts, f);
    }
  }

  // ------------------------------------------------------------------
  // From one stratum to the next.

  /** No view of stratum `n` or above has published a frontier. */
  ghost predicate Unpublished(p: Program, n: nat, ss: Stores) {
    |ss| == |p.views| && forall v :: 0 <= v < |ss| && p.views[v].stratum >= n ==> ss[v].outDel == [] && ss[v].outAdd == []
  }

  /** The batch has reached stratum `n`. */
  ghost predicate AtStratum(p: Program, g: GroundProgram, n: nat, ss: Stores, w: Weight, ext0: set<Fact>, ext: set<Fact>) {
    && StoresFit(p, ss) && AllCalm(ss) && w.Keys == g.derivs
    && Boundary(g, n, Snap(g, ss, w, ext), ext0)
    && FrontiersBelow(g, n, Snap(g, ss, w, ext), OutDel(g, ss), OutAdd(g, ss))
    && Unpublished(p, n, ss)
  }

  lemma StratumStarts(p: Program, g: GroundProgram, n: nat, ss: Stores, w: Weight, ext0: set<Fact>, ext: set<Fact>)
    requires AtStratum(p, g, n, ss, w, ext0, ext)
    ensures SeedState(Frame(p, g, n, Snap(g, ss, w, ext), ext0, ext), ss, w)
  {
    CurrentReadable(g, ss, w, ext);
    hide Snap, Readable, OutDel, OutAdd, StoresFit, AllCalm, FrontiersBelow, DoneBelow;
    assert forall f :: f in At(g, g.facts, n) ==> FactWaiting(Snap(g, ss, w, ext), f, ext0);
  }

  /** The stratum has run and published its frontiers. */
  lemma StratumDone(fr: Frame, s1: State, first: Stores, ss: Stores, w: Weight, ts: Stores)
    requires fr.Good() && StoresFit(fr.p, first) && SameFronts(first, ss) && Unpublished(fr.p, fr.n, first)
    requires FrontiersBelow(fr.g, fr.n, fr.s0, OutDel(fr.g, first), OutAdd(fr.g, first))
    requires Deleting(fr.g, fr.n, fr.s0, s1, fr.ext0) && At(fr.g, s1.pendDel, fr.n) == {}
    requires fr.InsertLoop(s1, ss, w) && At(fr.g, fr.At(ss, w).pendAdd, fr.n) == {}
    requires PublishedAll(fr.p, fr.n, ss, ts)
    ensures AtStratum(fr.p, fr.g, fr.n + 1, ts, w, fr.ext0, fr.ext)
    ensures SameExplicit(first, ts)
    ensures Below(fr.g, fr.At(ts, w).Current(), fr.n) == Below(fr.g, fr.s0.Current(), fr.n)
  {
    hide Inserting, Deleting, StoresFit, WellFormed, Snap, State.Current, Frame.Good, AllCalm, Weighs, Typed, PublishedAll, Boundary,
      FrontiersBelow, SameFronts, SameExplicit, Unpublished, OutDel, OutAdd;
    FrameTyped(fr);
    StepSameBelow(fr.g, fr.n, fr.s0, s1, fr.At(ss, w), fr.ext0);
    FrontsExplicit(first, ss);
    PublishedFit(fr.p, fr.n, ss, ts);
    SameExplicitMore(first, ss, ts);
    PublishedFit(fr.p, fr.n, ss, ts);
    SnapPublished(fr.p, fr.g, fr.n, ss, ts, w, fr.ext);
    StratumStep(fr.g, fr.n, fr.s0, s1, fr.At(ss, w), fr.ext0);
    FrontiersGrow(fr, s1, first, ss, w, ts);
    PublishedMore(fr.p, fr.n, first, ss, ts);
  }

  lemma PublishedMore(p: Program, n: nat, first: Stores, ss: Stores, ts: Stores)
    requires Unpublished(p, n, first) && SameFronts(first, ss) && PublishedAll(p, n, ss, ts)
    ensures Unpublished(p, n + 1, ts)
  {
  }

  lemma FrontiersGrow(fr: Frame, s1: State, first: Stores, ss: Stores, w: Weight, ts: Stores)
    requires Typed(fr.p, fr.g) && StoresFit(fr.p, first) && SameFronts(first, ss)
    requires FrontiersBelow(fr.g, fr.n, fr.s0, OutDel(fr.g, first), OutAdd(fr.g, first))
    requires Deleting(fr.g, fr.n, fr.s0, s1, fr.ext0) && Inserting(fr.g, fr.n, s1, fr.At(ss, w))
    requires StoresFit(fr.p, ss) && PublishedAll(fr.p, fr.n, ss, ts)
    ensures FrontiersBelow(fr.g, fr.n + 1, fr.At(ss, w), OutDel(fr.g, ts), OutAdd(fr.g, ts))
  {
    hide Inserting, Deleting, StoresFit, Snap, Typed, PublishedAll, SameFronts, OutDel, OutAdd, StateOf, QueuedAdd, QueuedDel;
    SameOuts(fr.p, fr.g, first, ss);
    StagesElsewhere(fr.g, fr.n, fr.s0, s1, fr.At(ss, w), fr.ext0);
    forall f | f in fr.g.facts && Stratum(fr.g, f) < fr.n + 1
      ensures f in OutDel(fr.g, ts) <==> f in fr.At(ss, w).deleted && f !in fr.At(ss, w).added
      ensures f in OutAdd(fr.g, ts) <==> f in fr.At(ss, w).added && f !in fr.At(ss, w).deleted
    {
      FactPublished(fr.p, fr.g, fr.n, ss, ts, f);
      SnapMember(fr.g, ss, w, fr.ext, f);
    }
  }

  lemma StagesElsewhere(g: GroundProgram, n: nat, s0: State, s1: State, s2: State, ext0: set<Fact>)
    requires Deleting(g, n, s0, s1, ext0) && Inserting(g, n, s1, s2)
    ensures forall f :: f in g.facts && Stratum(g, f) != n ==>
      (f in s2.deleted <==> f in s0.deleted) && (f in s2.added <==> f in s0.added)
  {
  }

  lemma InsertLoopFits(fr: Frame, s1: State, ss: Stores, w: Weight)
    requires fr.InsertLoop(s1, ss, w)
    ensures StoresFit(fr.p, ss) && AllCalm(ss)
  {
    hide StoresFit, AllCalm, Inserting, Weighs;
  }

  lemma DeleteLoopKept(fr: Frame, ss: Stores, w: Weight)
    requires fr.DeleteLoop(ss, w)
    ensures Deleting(fr.g, fr.n, fr.s0, fr.At(ss, w), fr.ext0)
  {
    hide StoresFit, AllCalm, Deleting, WeighsShort;
  }

  lemma SeedStateReady(fr: Frame, ss: Stores, w: Weight)
    requires SeedState(fr, ss, w)
    ensures SeedsReady(fr.g, fr.n, ss, fr.s0) && StoresFit(fr.p, ss)
  {
    hide StoresFit, AllCalm, SeedsReady;
  }

  lemma UnpublishedStays(p: Program, n: nat, ss: Stores, ts: Stores)
    requires Unpublished(p, n, ss) && SameFronts(ss, ts)
    ensures Unpublished(p, n, ts)
  {
  }

  lemma FrontsExplicit(ss: Stores, ts: Stores)
    requires SameFronts(ss, ts)
    ensures SameExplicit(ss, ts)
  {
  }
}
