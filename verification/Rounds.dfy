/** Claim rounds on the stores: everything queued in a stratum is claimed at once, the claimed
    rows form the round's frontier, and the frontier is retired when the round has fired. */
module Rounds {
  import opened Wrappers
  import opened Ground
  import opened Weights
  import opened Model
  import opened Phase
  import opened Overdeletion
  import opened Insertion
  import opened Firings
  import opened RowStore
  import opened Rules
  import opened Snapshots
  import opened Reads

  function Queue(s: Store, adding: bool): seq<nat> {
    if adding then s.pendAdd else s.pendDel
  }

  predicate Flagged(x: RowState, adding: bool) {
    if adding then x.add else x.del
  }

  predicate OnFrontier(x: RowState, adding: bool) {
    if adding then x.addNow else x.delNow
  }

  function Claim(x: RowState, adding: bool): RowState {
    if Flagged(x, adding) then x
    else if adding then x.(add := true, addNow := true, touched := true)
    else x.(del := true, delNow := true, touched := true)
  }

  /** `t` is the view after everything queued has been claimed. */
  ghost predicate ClaimsOf(s: Store, t: Store, adding: bool) {
    && t.Valid() && t.arity == s.arity && t.rows == s.rows && t.ids == s.ids
    && t.outDel == s.outDel && t.outAdd == s.outAdd
    && Queue(t, adding) == [] && Queue(t, !adding) == Queue(s, !adding)
    && forall r :: t.Get(r) == if r in s.RowsOf(Queue(s, adding)) then Claim(s.Get(r), adding) else s.Get(r)
  }

  /** No row is on a frontier. */
  ghost predicate Calm(s: Store) {
    forall r :: !s.Get(r).delNow && !s.Get(r).addNow
  }

  ghost predicate AllCalm(ss: Stores) {
    forall v :: 0 <= v < |ss| ==> Calm(ss[v])
  }

  /** One claim step over a prefix of the queue. */
  ghost predicate ClaimedUpTo(s: Store, t: Store, k: nat, adding: bool)
    requires k <= |Queue(s, adding)|
  {
    && t.Valid() && t.arity == s.arity && t.rows == s.rows && t.ids == s.ids
    && t.outDel == s.outDel && t.outAdd == s.outAdd && t.pendDel == s.pendDel && t.pendAdd == s.pendAdd
    && |t.st| == |s.st|
    && forall id :: 0 <= id < |s.st| ==>
         t.st[id] == if id in Queue(s, adding)[..k] then Claim(s.st[id], adding) else s.st[id]
  }

  lemma ClaimsDone(s: Store, t: Store, t': Store, adding: bool)
    requires s.Valid() && ClaimedUpTo(s, t, |Queue(s, adding)|, adding)
    requires t' == if adding then t.(pendAdd := []) else t.(pendDel := [])
    ensures ClaimsOf(s, t', adding)
  {
    var q := Queue(s, adding);
    assert q[..|q|] == q;
    forall r ensures t'.Get(r) == if r in s.RowsOf(q) then Claim(s.Get(r), adding) else s.Get(r) {
      if r in s.RowsOf(q) {
        var id: nat :| id in q && id < |s.rows| && s.rows[id] == r;
      }
    }
  }

  lemma QueuedFits(s: Store, k: nat, adding: bool)
    requires s.Valid() && k < |Queue(s, adding)|
    ensures Queue(s, adding)[k] < |s.st| == |s.rows|
  {
    assert Queue(s, adding)[k] in Queue(s, adding);
  }

  lemma ClaimDelMore(s: Store, t: Store, k: nat)
    requires s.Valid() && k < |s.pendDel| && ClaimedUpTo(s, t, k, false)
    ensures s.pendDel[k] < |t.st| && ClaimedUpTo(s, ClaimedDel(t, s.pendDel[k]), k + 1, false)
  {
    hide Store.Valid, ClaimedDel;
    QueuedFits(s, k, false);
    ClaimedDelKeeps(t, s.pendDel[k]);
    ClaimedDelRest(t, s.pendDel[k]);
    assert s.pendDel[..k + 1] == s.pendDel[..k] + [s.pendDel[k]];
  }

  lemma ClaimedDelRest(t: Store, id: nat)
    requires id < |t.st|
    ensures
      var u := ClaimedDel(t, id);
      && u.arity == t.arity && u.rows == t.rows && u.ids == t.ids && u.outDel == t.outDel && u.outAdd == t.outAdd
      && u.pendDel == t.pendDel && u.pendAdd == t.pendAdd
  {
  }

  lemma ClaimAddMore(s: Store, t: Store, k: nat)
    requires s.Valid() && k < |s.pendAdd| && ClaimedUpTo(s, t, k, true)
    ensures s.pendAdd[k] < |t.st| && ClaimedUpTo(s, ClaimedAdd(t, s.pendAdd[k]), k + 1, true)
  {
    hide Store.Valid, ClaimedAdd;
    QueuedFits(s, k, true);
    ClaimedAddKeeps(t, s.pendAdd[k]);
    ClaimedAddRest(t, s.pendAdd[k]);
    assert s.pendAdd[..k + 1] == s.pendAdd[..k] + [s.pendAdd[k]];
  }

  lemma ClaimedAddRest(t: Store, id: nat)
    requires id < |t.st|
    ensures
      var u := ClaimedAdd(t, id);
      && u.arity == t.arity && u.rows == t.rows && u.ids == t.ids && u.outDel == t.outDel && u.outAdd == t.outAdd
      && u.pendDel == t.pendDel && u.pendAdd == t.pendAdd
  {
  }

  // ------------------------------------------------------------------
  // A round of a stratum.

  /** The ground program's facts and strata are the program's. */
  ghost predicate Typed(p: Program, g: GroundProgram) {
    && g.facts == AllFacts(p) && |g.strata| == |p.views|
    && forall v :: 0 <= v < |p.views| ==> g.strata[v] == p.views[v].stratum
  }

  lemma FactTyped(p: Program, g: GroundProgram, f: Fact)
    requires Typed(p, g) && f in g.facts
    ensures f.view < |p.views| && |f.row| == p.views[f.view].arity && Stratum(g, f) == p.views[f.view].stratum
  {
  }

  ghost predicate ClaimedAll(p: Program, n: nat, ss: Stores, ts: Stores, adding: bool) {
    && |ts| == |ss| == |p.views|
    && forall v :: 0 <= v < |ss| ==> if p.views[v].stratum == n then ClaimsOf(ss[v], ts[v], adding) else ts[v] == ss[v]
  }

  /** The round lists exactly the rows on the frontier. */
  ghost predicate RoundIs(ss: Stores, round: seq<(nat, nat)>, adding: bool) {
    && NoRepeats(round)
    && (forall v: nat, id: nat :: (v, id) in round <==> v < |ss| && id < |ss[v].st| && OnFrontier(ss[v].st[id], adding))
    && (forall v: nat, id: nat :: v < |ss| && id < |ss[v].st| ==> !OnFrontier(ss[v].st[id], !adding))
  }

  ghost predicate Queued(ss: Stores, f: Fact, adding: bool) {
    if adding then QueuedAdd(ss, f) else QueuedDel(ss, f)
  }

  /** What a claim round does to one fact. */
  lemma FactClaimed(p: Program, g: GroundProgram, n: nat, ss: Stores, ts: Stores, adding: bool, f: Fact)
    requires Typed(p, g) && ClaimedAll(p, n, ss, ts, adding) && f in g.facts
    ensures StateOf(ts, f) ==
      if Stratum(g, f) == n && Queued(ss, f, adding) then Claim(StateOf(ss, f), adding) else StateOf(ss, f)
    ensures Queued(ts, f, adding) <==> Stratum(g, f) != n && Queued(ss, f, adding)
    ensures Queued(ts, f, !adding) <==> Queued(ss, f, !adding)
  {
    FactTyped(p, g, f);
    hide Store.Valid, Typed;
    var s, t := ss[f.view], ts[f.view];
    if Stratum(g, f) == n {
      assert ClaimsOf(s, t, adding);
      assert t.RowsOf([]) == {};
      assert t.RowsOf(Queue(t, !adding)) == s.RowsOf(Queue(s, !adding));
    }
  }

  function Claims(g: GroundProgram, n: nat, s: State, adding: bool): State {
    if adding then ClaimAdds(g, n, s) else ClaimDeletes(g, n, s)
  }

  lemma ClaimedFit(p: Program, n: nat, ss: Stores, ts: Stores, adding: bool)
    requires StoresFit(p, ss) && ClaimedAll(p, n, ss, ts, adding)
    ensures StoresFit(p, ts)
  {
    hide Store.Valid;
    forall v | 0 <= v < |ts| ensures ts[v].Valid() && ts[v].arity == p.views[v].arity {
      assert ss[v].Valid() && ss[v].arity == p.views[v].arity;
    }
  }

  /** Claiming everything queued, seen in the logical state. */
  lemma SnapClaims(p: Program, g: GroundProgram, n: nat, ss: Stores, ts: Stores, adding: bool, w: Weight, ext: set<Fact>)
    requires Typed(p, g) && ClaimedAll(p, n, ss, ts, adding)
    ensures Snap(g, ts, w, ext) == Claims(g, n, Snap(g, ss, w, ext), adding)
  {
    hide Typed, ClaimedAll, QueuedDel, QueuedAdd, StateOf;
    forall f | f in g.facts
      ensures StateOf(ts, f) ==
        if Stratum(g, f) == n && Queued(ss, f, adding) then Claim(StateOf(ss, f), adding) else StateOf(ss, f)
      ensures Queued(ts, f, adding) <==> Stratum(g, f) != n && Queued(ss, f, adding)
      ensures Queued(ts, f, !adding) <==> Queued(ss, f, !adding)
    {
      FactClaimed(p, g, n, ss, ts, adding, f);
    }
  }

  /** A row state on no frontier. */
  lemma CalmState(ss: Stores, f: Fact)
    requires AllCalm(ss)
    ensures !StateOf(ss, f).delNow && !StateOf(ss, f).addNow
  {
    if f.view < |ss| {
      assert Calm(ss[f.view]);
    }
  }

  /** The round's rows of a view are those on the frontier. */
  lemma RoundRows(p: Program, ss: Stores, round: seq<(nat, nat)>, adding: bool, f: Fact)
    requires StoresFit(p, ss) && RoundIs(ss, round, adding)
    ensures f in FactsAt(ss, f.view, OfView(round, f.view)) <==> OnFrontier(StateOf(ss, f), adding)
  {
    if f.view < |ss| {
      FitAt(p, ss, f.view);
      hide StoresFit, Store.Valid;
      var s := ss[f.view];
      if OnFrontier(StateOf(ss, f), adding) {
        assert (f.view, s.ids[f.row]) in round;
      }
      if f in FactsAt(ss, f.view, OfView(round, f.view)) {
        var id: nat :| id in OfView(round, f.view) && id < |s.rows| && Fact(f.view, s.rows[id]) == f;
        assert (f.view, id) in round;
      }
    }
  }

  lemma RoundIsFits(p: Program, ss: Stores, round: seq<(nat, nat)>, adding: bool)
    requires StoresFit(p, ss) && RoundIs(ss, round, adding)
    ensures forall e :: e in round ==> e.0 < |ss| && e.1 < |ss[e.0].rows|
  {
    forall e | e in round ensures e.0 < |ss| && e.1 < |ss[e.0].rows| {
      assert (e.0, e.1) in round;
      assert ss[e.0].Valid();
    }
  }

  /** Claimed rows were not in the set they are added to, or were in the set they leave. */
  ghost predicate Claimable(g: GroundProgram, n: nat, s: State, adding: bool) {
    forall f :: f in g.facts && Stratum(g, f) == n ==>
      if adding then f in s.added || f in s.pendAdd ==> !s.Survives(f)
      else f !in s.added && (f in s.pendDel ==> f in s.present)
  }

  /** The rows a round claims. */
  ghost function Fresh(g: GroundProgram, n: nat, s: State, adding: bool): set<Fact> {
    if adding then At(g, s.pendAdd, n) - s.added else At(g, s.pendDel, n) - s.deleted
  }

  lemma FreshMoves(g: GroundProgram, n: nat, s: State, adding: bool)
    requires Shaped(g, s) && Claimable(g, n, s, adding)
    ensures RoundOf(g, n, s.Current(), Claims(g, n, s, adding).Current(), Fresh(g, n, s, adding), adding)
  {
    var c := Claims(g, n, s, adding);
    if adding {
      assert c.Current() == s.Current() + Fresh(g, n, s, true);
    } else {
      assert c.Current() == s.Current() - Fresh(g, n, s, false);
    }
  }

  lemma SnapMember(g: GroundProgram, ss: Stores, w: Weight, ext: set<Fact>, f: Fact)
    requires f in g.facts
    ensures
      var s := Snap(g, ss, w, ext);
      var x := StateOf(ss, f);
      && (f in s.present <==> x.inI) && (f in s.deleted <==> x.del) && (f in s.added <==> x.add)
      && (f in s.pendDel <==> QueuedDel(ss, f)) && (f in s.pendAdd <==> QueuedAdd(ss, f))
      && (f in s.Current() <==> Pass(x, InNew))
      && s.nr[f] == x.nr && s.rc[f] == x.rc
  {
  }

  /** One fact in a claim round, read before and after. */
  lemma RoundFact(p: Program, g: GroundProgram, n: nat, ss: Stores, ts: Stores, round: seq<(nat, nat)>, adding: bool,
                  w: Weight, ext: set<Fact>, f: Fact)
    requires Typed(p, g) && StoresFit(p, ts) && AllCalm(ss) && ClaimedAll(p, n, ss, ts, adding) && RoundIs(ts, round, adding)
    requires Claimable(g, n, Snap(g, ss, w, ext), adding) && f in g.facts && Stratum(g, f) == n
    ensures
      var s := Snap(g, ss, w, ext);
      && SameAt(f, Readable(g, ts, Before(adding)), Claims(g, n, s, adding).Current())
      && SameAt(f, Readable(g, ts, After(adding)), s.Current())
      && (f in Fresh(g, n, s, adding) <==> f in FactsAt(ts, f.view, OfView(round, f.view)))
  {
    hide Typed, ClaimedAll, StoresFit, RoundIs, AllCalm, FactsAt, StateOf, QueuedDel, QueuedAdd, Snap, Readable, Claims, State.Current;
    FactClaimed(p, g, n, ss, ts, adding, f);
    CalmState(ss, f);
    RoundRows(p, ts, round, adding, f);
    SnapMember(g, ss, w, ext, f);
    SnapMember(g, ts, w, ext, f);
    SnapClaims(p, g, n, ss, ts, adding, w, ext);
    ReadableMember(g, ts, Before(adding), f);
    ReadableMember(g, ts, After(adding), f);
  }

  lemma ReadableMember(g: GroundProgram, ss: Stores, k: ReadK, f: Fact)
    requires f in g.facts
    ensures f in Readable(g, ss, k) <==> Pass(StateOf(ss, f), k)
  {
  }

  /** The stores after a claim step are ready for the round's sweep. */
  lemma ClaimsReady(p: Program, g: GroundProgram, n: nat, ss: Stores, ts: Stores, round: seq<(nat, nat)>, adding: bool,
                    w: Weight, ext: set<Fact>)
    requires Typed(p, g) && StoresFit(p, ts) && AllCalm(ss) && ClaimedAll(p, n, ss, ts, adding) && RoundIs(ts, round, adding)
    requires Shaped(g, Snap(g, ss, w, ext)) && Claimable(g, n, Snap(g, ss, w, ext), adding)
    ensures
      var s := Snap(g, ss, w, ext);
      RoundReady(g, n, ts, Sweep(false, adding, round), s.Current(), Claims(g, n, s, adding).Current(), Fresh(g, n, s, adding))
  {
    hide Typed, ClaimedAll, StoresFit, RoundIs, AllCalm, FactsAt, Snap, Readable, Claimable, RoundOf, Fresh, Claims, State.Current;
    var s := Snap(g, ss, w, ext);
    FreshMoves(g, n, s, adding);
    SnapClaims(p, g, n, ss, ts, adding, w, ext);
    forall f | f in g.facts ensures SameAt(f, Readable(g, ts, InNew), Claims(g, n, s, adding).Current()) {
      CurrentReadable(g, ts, w, ext);
    }
    forall f | f in g.facts && Stratum(g, f) == n
      ensures SameAt(f, Readable(g, ts, Before(adding)), Claims(g, n, s, adding).Current())
      ensures SameAt(f, Readable(g, ts, After(adding)), s.Current())
      ensures f in Fresh(g, n, s, adding) <==> f in FactsAt(ts, f.view, OfView(round, f.view))
    {
      RoundFact(p, g, n, ss, ts, round, adding, w, ext, f);
    }
  }

  lemma CurrentReadable(g: GroundProgram, ss: Stores, w: Weight, ext: set<Fact>)
    ensures Readable(g, ss, InNew) == Snap(g, ss, w, ext).Current()
    ensures Readable(g, ss, InI) == Snap(g, ss, w, ext).present
  {
  }

  // ------------------------------------------------------------------
  // Claiming and retiring, view by view.

  /** The rows claimed first in this step. */
  ghost predicate NewlyClaimed(s: Store, ids: seq<nat>, k: nat, adding: bool)
    requires k <= |Queue(s, adding)|
  {
    NoRepeats(ids) && forall id :: id in ids <==> id in Queue(s, adding)[..k] && id < |s.st| && !Flagged(s.st[id], adding)
  }

  /** Some queued row cannot be claimed for D: it still has non-recursive support. */
  ghost predicate Unclaimable(s: Store) {
    exists id :: id in s.pendDel && id < |s.st| && !s.st[id].del && s.st[id].nr > 0
  }

  lemma NewlyMore(s: Store, t: Store, k: nat, ids: seq<nat>, adding: bool)
    requires s.Valid() && k < |Queue(s, adding)| && ClaimedUpTo(s, t, k, adding) && NewlyClaimed(s, ids, k, adding)
    ensures
      var id := Queue(s, adding)[k];
      id < |t.st| && NewlyClaimed(s, if Flagged(t.st[id], adding) then ids else ids + [id], k + 1, adding)
  {
    hide Store.Valid;
    QueuedFits(s, k, adding);
    var q := Queue(s, adding);
    assert q[..k + 1] == q[..k] + [q[k]];
  }

  lemma UnclaimableAt(s: Store, t: Store, k: nat)
    requires s.Valid() && k < |s.pendDel| && ClaimedUpTo(s, t, k, false)
    requires s.pendDel[k] < |t.st| && !t.st[s.pendDel[k]].del && t.st[s.pendDel[k]].nr > 0
    ensures Unclaimable(s)
  {
    QueuedFits(s, k, false);
    assert s.pendDel[k] in s.pendDel;
  }

  lemma NothingClaimed(s: Store, adding: bool)
    requires s.Valid()
    ensures ClaimedUpTo(s, s, 0, adding) && NewlyClaimed(s, [], 0, adding)
  {
  }

  /** Claim everything queued for deletion; aborts on a row with non-recursive support. */
  method ClaimPendDel(vm: ViewModel) returns (r: Result<seq<nat>>)
    requires vm.Value().Valid()
    modifies vm
    ensures r.Failure? ==> Unclaimable(old(vm.Value()))
    ensures r.Success? ==> ClaimsOf(old(vm.Value()), vm.Value(), false)
    ensures r.Success? ==> NewlyClaimed(old(vm.Value()), r.value, |old(vm.Value()).pendDel|, false)
  {
    hide Store.Valid, ClaimedDel, ClaimedUpTo, NewlyClaimed, Unclaimable;
    ghost var s := vm.Value();
    NothingClaimed(s, false);
    var q := vm.pendDel;
    var ids: seq<nat> := [];
    for k := 0 to |q|
      invariant ClaimedUpTo(s, vm.Value(), k, false) && NewlyClaimed(s, ids, k, false)
    {
      ghost var t := vm.Value();
      NewlyMore(s, t, k, ids, false);
      ClaimDelMore(s, t, k);
      var claimed := vm.TryClaimDel(q[k]);
      if claimed.Failure? {
        UnclaimableAt(s, t, k);
        return Failure(claimed.error);
      }
      if claimed.value {
        ids := ids + [q[k]];
      }
    }
    ghost var t := vm.Value();
    vm.pendDel := [];
    ClaimsDone(s, t, vm.Value(), false);
    return Success(ids);
  }

  /** Claim everything queued for insertion. */
  method ClaimPendAdd(vm: ViewModel) returns (ids: seq<nat>)
    requires vm.Value().Valid()
    modifies vm
    ensures ClaimsOf(old(vm.Value()), vm.Value(), true)
    ensures NewlyClaimed(old(vm.Value()), ids, |old(vm.Value()).pendAdd|, true)
  {
    hide Store.Valid, ClaimedAdd, ClaimedUpTo, NewlyClaimed;
    ghost var s := vm.Value();
    NothingClaimed(s, true);
    var q := vm.pendAdd;
    ids := [];
    for k := 0 to |q|
      invariant ClaimedUpTo(s, vm.Value(), k, true) && NewlyClaimed(s, ids, k, true)
    {
      ghost var t := vm.Value();
      NewlyMore(s, t, k, ids, true);
      ClaimAddMore(s, t, k);
      var claimed := vm.TryClaimAdd(q[k]);
      if claimed {
        ids := ids + [q[k]];
      }
    }
    ghost var t := vm.Value();
    vm.pendAdd := [];
    ClaimsDone(s, t, vm.Value(), true);
  }

  /** The claim step has handled the views below `v`; the round lists what it claimed there. */
  ghost predicate ClaimedBelow(p: Program, n: nat, ss: Stores, ts: Stores, v: nat, adding: bool) {
    && |ts| == |ss| == |p.views|
    && forall u :: 0 <= u < |ss| ==>
         if u < v && p.views[u].stratum == n then ClaimsOf(ss[u], ts[u], adding) else ts[u] == ss[u]
  }

  ghost predicate RoundBelow(ts: Stores, round: seq<(nat, nat)>, v: nat, adding: bool) {
    && NoRepeats(round)
    && forall u: nat, id: nat :: (u, id) in round <==> u < v && u < |ts| && id < |ts[u].st| && OnFrontier(ts[u].st[id], adding)
  }

  function Paired(v: nat, ids: seq<nat>): (r: seq<(nat, nat)>) {
    seq(|ids|, k requires 0 <= k < |ids| => (v, ids[k]))
  }

  /** A claimed row is on the frontier, and only claimed rows are. */
  lemma ClaimedOnFrontier(s: Store, t: Store, ids: seq<nat>, adding: bool)
    requires s.Valid() && Calm(s) && ClaimsOf(s, t, adding) && NewlyClaimed(s, ids, |Queue(s, adding)|, adding)
    ensures |t.st| == |s.st|
    ensures forall id :: 0 <= id < |t.st| ==> (id in ids <==> OnFrontier(t.st[id], adding))
    ensures forall id :: 0 <= id < |t.st| ==> !OnFrontier(t.st[id], !adding)
    ensures forall id :: id in ids ==> id < |t.st|
  {
    var q := Queue(s, adding);
    assert q[..|q|] == q;
    forall id: nat | id < |t.st|
      ensures (id in ids <==> OnFrontier(t.st[id], adding)) && !OnFrontier(t.st[id], !adding)
    {
      assert t.Get(s.rows[id]) == t.st[id] && s.Get(s.rows[id]) == s.st[id];
      assert id in q <==> s.rows[id] in s.RowsOf(q);
    }
  }

  lemma RoundGrows(p: Program, n: nat, ss: Stores, ts: Stores, round: seq<(nat, nat)>, v: nat, adding: bool, t: Store, ids: seq<nat>)
    requires StoresFit(p, ss) && AllCalm(ss) && v < |ss|
    requires ClaimedBelow(p, n, ss, ts, v, adding) && RoundBelow(ts, round, v, adding)
    requires p.views[v].stratum == n && ClaimsOf(ss[v], t, adding)
    requires NewlyClaimed(ss[v], ids, |Queue(ss[v], adding)|, adding)
    ensures ClaimedBelow(p, n, ss, ts[v := t], v + 1, adding)
    ensures RoundBelow(ts[v := t], round + Paired(v, ids), v + 1, adding)
  {
    FitAt(p, ss, v);
    hide StoresFit, Store.Valid, ClaimsOf, Calm;
    ClaimedOnFrontier(ss[v], t, ids, adding);
    hide NewlyClaimed;
    NewIsDistinct(ss[v], ids, |Queue(ss[v], adding)|, adding);
    RoundAppended(ts, round, v, adding, t, ids);
  }

  lemma NewIsDistinct(s: Store, ids: seq<nat>, k: nat, adding: bool)
    requires k <= |Queue(s, adding)| && NewlyClaimed(s, ids, k, adding)
    ensures NoRepeats(ids)
  {
  }

  lemma RoundAppended(ts: Stores, round: seq<(nat, nat)>, v: nat, adding: bool, t: Store, ids: seq<nat>)
    requires v < |ts| && RoundBelow(ts, round, v, adding) && NoRepeats(ids)
    requires forall id :: id in ids <==> 0 <= id < |t.st| && OnFrontier(t.st[id], adding)
    ensures RoundBelow(ts[v := t], round + Paired(v, ids), v + 1, adding)
  {
    var more := round + Paired(v, ids);
    forall i, j | 0 <= i < j < |more| ensures more[i] != more[j] {
      if i < |round| <= j {
        assert more[i] in round && more[i] == (more[i].0, more[i].1);
      }
    }
    forall u: nat, id: nat
      ensures (u, id) in more <==>
        u < v + 1 && u < |ts| && id < |ts[v := t][u].st| && OnFrontier(ts[v := t][u].st[id], adding)
    {
      if u == v && id in ids {
        var k :| 0 <= k < |ids| && ids[k] == id;
        assert Paired(v, ids)[k] == (u, id);
      }
    }
  }

  lemma RoundSkips(p: Program, n: nat, ss: Stores, ts: Stores, round: seq<(nat, nat)>, v: nat, adding: bool)
    requires StoresFit(p, ss) && AllCalm(ss) && v < |ss|
    requires ClaimedBelow(p, n, ss, ts, v, adding) && RoundBelow(ts, round, v, adding)
    requires p.views[v].stratum != n
    ensures ClaimedBelow(p, n, ss, ts, v + 1, adding) && RoundBelow(ts, round, v + 1, adding)
  {
    FitAt(p, ss, v);
    hide StoresFit, ClaimsOf;
    forall id | 0 <= id < |ss[v].st| ensures !OnFrontier(ss[v].st[id], adding) {
      assert ss[v].Get(ss[v].rows[id]) == ss[v].st[id];
      assert Calm(ss[v]);
    }
  }

  lemma RoundComplete(p: Program, n: nat, ss: Stores, ts: Stores, round: seq<(nat, nat)>, adding: bool)
    requires StoresFit(p, ss) && AllCalm(ss)
    requires ClaimedBelow(p, n, ss, ts, |ss|, adding) && RoundBelow(ts, round, |ss|, adding)
    ensures ClaimedAll(p, n, ss, ts, adding) && RoundIs(ts, round, adding)
  {
    forall v: nat, id: nat | v < |ts| && id < |ts[v].st| ensures !OnFrontier(ts[v].st[id], !adding) {
      StillCalm(p, n, ss, ts, v, id, adding);
    }
  }

  lemma StillCalm(p: Program, n: nat, ss: Stores, ts: Stores, v: nat, id: nat, adding: bool)
    requires StoresFit(p, ss) && AllCalm(ss) && ClaimedBelow(p, n, ss, ts, |ss|, adding)
    requires v < |ts| && id < |ts[v].st|
    ensures !OnFrontier(ts[v].st[id], !adding)
  {
    FitAt(p, ss, v);
    hide StoresFit;
    assert Calm(ss[v]);
    assert ts[v].Get(ss[v].rows[id]) == ts[v].st[id];
  }

  // ------------------------------------------------------------------
  // Retiring the frontier.

  function Retired(x: RowState, adding: bool): RowState {
    if adding then x.(addNow := false) else x.(delNow := false)
  }

  /** The round's rows so far have left the frontier. */
  ghost predicate RetiredUpTo(ss: Stores, ts: Stores, done: seq<(nat, nat)>, adding: bool) {
    && |ts| == |ss|
    && forall v: nat :: v < |ss| ==>
         && ts[v] == ss[v].(st := ts[v].st) && |ts[v].st| == |ss[v].st|
         && forall id: nat :: id < |ss[v].st| ==>
              ts[v].st[id] == if (v, id) in done then Retired(ss[v].st[id], adding) else ss[v].st[id]
  }

  lemma RetireMore(ss: Stores, ts: Stores, round: seq<(nat, nat)>, k: nat, adding: bool)
    requires k < |round| && RetiredUpTo(ss, ts, round[..k], adding)
    requires round[k].0 < |ss| && round[k].1 < |ss[round[k].0].st|
    ensures
      var v, id := round[k].0, round[k].1;
      && v < |ts| && id < |ts[v].st|
      && RetiredUpTo(ss, ts[v := WithState(ts[v], id, Retired(ts[v].st[id], adding))], round[..k + 1], adding)
  {
    var v, id := round[k].0, round[k].1;
    assert round[..k + 1] == round[..k] + [(v, id)];
  }

  ghost predicate StoreRetired(s: Store, t: Store) {
    && t == s.(st := t.st) && |t.st| == |s.st|
    && forall id: nat :: id < |s.st| ==> t.st[id] == s.st[id].(delNow := false, addNow := false)
  }

  lemma StoreRetiredKeeps(s: Store, t: Store)
    requires s.Valid() && StoreRetired(s, t)
    ensures t.Valid() && Calm(t)
    ensures forall r :: t.Get(r) == s.Get(r).(delNow := false, addNow := false)
    ensures forall q :: t.RowsOf(q) == s.RowsOf(q)
  {
  }

  /** All of the round retired: the stores are calm and the logical state is unchanged. */
  lemma AllRetired(p: Program, g: GroundProgram, ss: Stores, ts: Stores, round: seq<(nat, nat)>, adding: bool,
                   w: Weight, ext: set<Fact>)
    requires StoresFit(p, ss) && RoundIs(ss, round, adding) && RetiredUpTo(ss, ts, round, adding)
    ensures StoresFit(p, ts) && AllCalm(ts) && Snap(g, ts, w, ext) == Snap(g, ss, w, ext)
    ensures forall v :: 0 <= v < |ts| ==> StoreRetired(ss[v], ts[v])
  {
    forall v: nat | v < |ss|
      ensures StoreRetired(ss[v], ts[v]) && ts[v].Valid() && ts[v].arity == p.views[v].arity && Calm(ts[v])
      ensures forall r :: ts[v].Get(r) == ss[v].Get(r).(delNow := false, addNow := false)
      ensures forall q :: ts[v].RowsOf(q) == ss[v].RowsOf(q)
    {
      RetiredStore(ss, ts, round, adding, v);
      FitAt(p, ss, v);
      hide Store.Valid, StoreRetired, StoresFit, RoundIs, RetiredUpTo;
      StoreRetiredKeeps(ss[v], ts[v]);
    }
    RetiredSnap(g, ss, ts, w, ext);
  }

  lemma RetiredStore(ss: Stores, ts: Stores, round: seq<(nat, nat)>, adding: bool, v: nat)
    requires RoundIs(ss, round, adding) && RetiredUpTo(ss, ts, round, adding) && v < |ss|
    ensures StoreRetired(ss[v], ts[v]) && ts[v].arity == ss[v].arity
  {
  }

  lemma RetiredSnap(g: GroundProgram, ss: Stores, ts: Stores, w: Weight, ext: set<Fact>)
    requires |ts| == |ss|
    requires forall v :: 0 <= v < |ss| ==> StoreRetired(ss[v], ts[v])
    requires forall v :: 0 <= v < |ss| ==> forall r :: ts[v].Get(r) == ss[v].Get(r).(delNow := false, addNow := false)
    requires forall v :: 0 <= v < |ss| ==> forall q :: ts[v].RowsOf(q) == ss[v].RowsOf(q)
    ensures Snap(g, ts, w, ext) == Snap(g, ss, w, ext)
  {
    forall f | f in g.facts
      ensures StateOf(ts, f) == StateOf(ss, f).(delNow := false, addNow := false)
      ensures QueuedDel(ts, f) == QueuedDel(ss, f) && QueuedAdd(ts, f) == QueuedAdd(ss, f)
    {
      if f.view < |ss| {
        assert StoreRetired(ss[f.view], ts[f.view]);
      }
    }
  }

  /** Folding during the round leaves its rows on the frontier and puts no row there. */
  lemma KeptRound(p: Program, ss: Stores, ts: Stores, round: seq<(nat, nat)>, adding: bool)
    requires StoresFit(p, ss) && StoresFit(p, ts) && Kept(ss, ts) && RoundIs(ss, round, adding)
    ensures RoundIs(ts, round, adding)
  {
    forall v: nat, id: nat
      ensures (v, id) in round <==> v < |ts| && id < |ts[v].st| && OnFrontier(ts[v].st[id], adding)
      ensures v < |ts| && id < |ts[v].st| ==> !OnFrontier(ts[v].st[id], !adding)
    {
      if v < |ts| && id < |ts[v].st| {
        KeptRow(p, ss, ts, v, id);
      }
    }
  }

  lemma KeptRow(p: Program, ss: Stores, ts: Stores, v: nat, id: nat)
    requires StoresFit(p, ss) && StoresFit(p, ts) && Kept(ss, ts) && v < |ts| && id < |ts[v].st|
    ensures |ss[v].st| <= |ts[v].st|
    ensures SameFlags(if id < |ss[v].st| then ss[v].st[id] else NEW_ROW, ts[v].st[id])
  {
    FitAt(p, ss, v);
    FitAt(p, ts, v);
    hide StoresFit;
    var s, t := ss[v], ts[v];
    assert StoreKept(s, t);
    var r := t.rows[id];
    assert t.Get(r) == t.st[id] && SameFlags(s.Get(r), t.Get(r));
    if id < |s.rows| {
      assert s.rows[id] == r;
    } else {
      assert forall x :: x in s.ids ==> s.ids[x] < |s.rows| && t.ids[x] == s.ids[x];
    }
  }

  lemma NoViewsYet(p: Program, n: nat, ss: Stores, adding: bool)
    requires |ss| == |p.views|
    ensures ClaimedBelow(p, n, ss, ss, 0, adding) && RoundBelow(ss, [], 0, adding)
  {
  }

  lemma ViewUntouched(p: Program, n: nat, ss: Stores, ts: Stores, v: nat, adding: bool)
    requires ClaimedBelow(p, n, ss, ts, v, adding)
    ensures |ts| == |ss| == |p.views| && (v < |ss| ==> ts[v] == ss[v])
  {
  }

  lemma NoneRetired(ss: Stores, adding: bool)
    ensures RetiredUpTo(ss, ss, [], adding)
    ensures forall round: seq<(nat, nat)> :: round[..0] == []
  {
  }

  lemma RoundMember(p: Program, ss: Stores, round: seq<(nat, nat)>, adding: bool, k: nat)
    requires RoundIs(ss, round, adding) && k < |round|
    ensures round[k].0 < |ss| && round[k].1 < |ss[round[k].0].st|
  {
    assert (round[k].0, round[k].1) in round;
  }
}
