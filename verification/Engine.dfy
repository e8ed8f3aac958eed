/** The incremental engine: one batch maintained by signed counter folds, claim rounds and
    net frontiers. */
module Engine {
  import opened Wrappers
  import opened Ground
  import opened Weights
  import opened Model
  import opened Phase
  import opened Overdeletion
  import opened Insertion
  import opened Passes
  import opened Firings
  import opened RowStore
  import opened Rules
  import opened Grounding
  import opened Snapshots
  import opened Binding
  import opened Sources
  import opened Enumerate
  import opened Meaning
  import opened Deltas
  import opened Reads
  import opened Sweeps
  import opened Rounds
  import opened Steps
  import opened Stages
  import opened Supports
  import opened Ingest
  import opened Netting
  import opened Settling
  import opened Batches
  import opened Fixpoint
  import opened Scratch
  import opened Counting
  import A = Aggregates

  /** One empty view per view of the program. */
  method NewModels(p: Program) returns (ms: seq<ViewModel>, ixs: seq<IndexTable>)
    ensures |ms| == |ixs| == |p.views|
    ensures forall v :: 0 <= v < |ms| ==> fresh(ms[v]) && fresh(ixs[v]) && ms[v].index == ixs[v]
    ensures forall v :: 0 <= v < |ms| ==> ms[v].Value() == EmptyStore(p.views[v].arity) && ixs[v].Valid([])
    ensures forall u, v :: 0 <= u < v < |ms| ==> ms[u] != ms[v] && ixs[u] != ixs[v]
  {
    ms, ixs := [], [];
    for k := 0 to |p.views|
      invariant |ms| == |ixs| == k
      invariant forall v :: 0 <= v < k ==> fresh(ms[v]) && fresh(ixs[v]) && ms[v].index == ixs[v]
      invariant forall v :: 0 <= v < k ==> ms[v].Value() == EmptyStore(p.views[v].arity) && ixs[v].Valid([])
      invariant forall u, v :: 0 <= u < v < k ==> ms[u] != ms[v] && ixs[u] != ixs[v]
    {
      var vm := new ViewModel(p.views[k].arity);
      ms, ixs := ms + [vm], ixs + [vm.index];
    }
  }

  class Oracle {
    const prog: Program
    const models: seq<ViewModel>
    const indexes: seq<IndexTable>
    ghost const g: GroundProgram
    var initFired: bool
    ghost var stores: Stores
    ghost var w: Weight
    ghost var ext: set<Fact>

    /** The program is well-formed and `g` is its ground program. */
    ghost predicate Grounded() {
      GoodProgram(prog) && g == GroundOf(prog) && WellFormed(g)
    }

    /** The views' objects are distinct and belong together. */
    ghost predicate Linked() {
      && g.facts == AllFacts(prog)
      && |models| == |indexes| == |prog.views|
      && (forall u, v :: 0 <= u < v < |models| ==> models[u] != models[v])
      && (forall u, v :: 0 <= u < v < |indexes| ==> indexes[u] != indexes[v])
      && (forall v :: 0 <= v < |models| ==> models[v].index == indexes[v])
    }

    /** `stores` mirrors the views' contents. */
    ghost predicate Mirrored()
      reads this`stores, models
    {
      |stores| == |models| && forall v :: 0 <= v < |models| ==> models[v].Value() == stores[v]
    }

    /** Every index lists a prefix of its view's log. */
    ghost predicate Indexed()
      reads this`stores, indexes
    {
      |stores| == |indexes| && forall v :: 0 <= v < |indexes| ==> indexes[v].Valid(stores[v].rows)
    }

    ghost predicate Valid()
      reads this, models, indexes
    {
      Linked() && Mirrored() && Indexed() && StoresFit(prog, stores) && w.Keys == g.derivs
    }

    /** A new engine: empty views, nothing asserted. */
    constructor (p: Program, ghost ground: GroundProgram)
      requires GoodProgram(p) && ground == GroundOf(p)
      ensures prog == p && g == ground && Grounded() && Settling() && !initFired && Asserted() == {} && Present() == {}
      ensures forall v :: 0 <= v < |models| ==> fresh(models[v])
      ensures forall v :: 0 <= v < |indexes| ==> fresh(indexes[v])
    {
      hide GoodProgram, GroundOf, WellFormed, Settled, Explicit, IndexTable.Valid;
      var ms, ixs := NewModels(p);
      prog, models, indexes, initFired := p, ms, ixs, false;
      g, stores, w, ext := ground, EmptyStores(p), NoCounts(ground), {};
      new;
      GroundWellFormed(p);
      FactsOf(p, ground);
      EmptySettled(p, ground);
    }

    static lemma FactsOf(p: Program, ground: GroundProgram)
      requires GoodProgram(p) && ground == GroundOf(p)
      ensures ground.facts == AllFacts(p)
    {
    }

    // ----------------------------------------------------------------
    // One counter fold.

    /** Count a derivation of a row down in its view's store. */
    method SubRow(v: nat, row: Row, recursive: bool)
      requires Linked() && Mirrored() && Indexed() && v < |models| && stores[v].Interned()
      modifies models, this`stores
      ensures Mirrored() && Indexed()
      ensures stores == Down(old(stores), Fact(v, row), StateOf(old(stores), Fact(v, row)).Bumped(recursive, -1))
    {
      hide FoldDown, Store.Interned, IndexTable.Valid;
      RowsGrow(stores[v], row, stores[v].Get(row).Bumped(recursive, -1));
      ghost var rows0 := stores[v].rows;
      models[v].SubDerivation(row, recursive);
      stores := stores[v := models[v].Value()];
      IndexesGrow(indexes[v], rows0, models[v].rows);
    }

    /** Count a derivation of a row up in its view's store. */
    method AddRow(v: nat, row: Row, recursive: bool)
      requires Linked() && Mirrored() && Indexed() && v < |models| && stores[v].Interned()
      modifies models, this`stores
      ensures Mirrored() && Indexed()
      ensures stores == Up(old(stores), Fact(v, row), StateOf(old(stores), Fact(v, row)).Bumped(recursive, 1))
    {
      hide FoldUp, Store.Interned, IndexTable.Valid;
      RowsGrow(stores[v], row, stores[v].Get(row).Bumped(recursive, 1));
      ghost var rows0 := stores[v].rows;
      models[v].AddDerivation(row, recursive);
      stores := stores[v := models[v].Value()];
      IndexesGrow(indexes[v], rows0, models[v].rows);
    }

    /** Count a derivation of a row with the sign of the running phase. */
    method FoldRow(v: nat, row: Row, recursive: bool, adding: bool, ghost d: Deriv)
      requires Linked() && Mirrored() && Indexed() && v < |models| && stores[v].Interned()
      requires d.head == Fact(v, row) && d.recursive == recursive
      modifies models, this`stores
      ensures Mirrored() && Indexed() && stores == Moved(old(stores), d, adding)
    {
      hide Down, Up, Store.Interned, Store.Get, Mirrored, Indexed, StateOf, RowState.Bumped;
      if adding {
        AddRow(v, row, recursive);
      } else {
        SubRow(v, row, recursive);
      }
    }

    /** The engine is in the middle of a sweep that has counted the derivations in `done`. */
    ghost predicate Running(run: Run, done: set<Deriv>)
      reads this, models, indexes
    {
      && Linked() && Mirrored() && Indexed()
      && run.p == prog && run.g == g && run.ext == ext
      && run.Reached(stores, w, done)
    }

    /** Count every listed derivation once. */
    method FoldHeads(v: nat, heads: seq<Row>, recursive: bool, adding: bool, ghost run: Run, ghost done: set<Deriv>, ghost ds: seq<Deriv>)
      requires run.Sound() && Running(run, done) && adding == run.adding && v < |models|
      requires |heads| == |ds| && NoRepeats(ds) && Listing(ds) <= run.all && done !! Listing(ds)
      requires forall k :: 0 <= k < |ds| ==> Headed(g, ds[k], v, heads[k], recursive, run.n)
      modifies models, this`w, this`stores
      ensures Running(run, done + Listing(ds))
    {
      hide Store.Interned, Mirrored, Indexed, Moved, Tallied, Run.Sound, Run.Reached, Listing, NoRepeats;
      ghost var ss, ww := stores, w;
      ListingNone(ds, done);
      for k := 0 to |heads|
        invariant Linked() && Mirrored() && Indexed() && stores == ss && w == ww && ext == old(ext)
        invariant run.Reached(ss, ww, done + Listing(ds[..k]))
      {
        ListingMore(ds, k, done, run.all);
        RunStep(run, ss, ww, done + Listing(ds[..k]), ds[k], v, heads[k], recursive);
        FoldRow(v, heads[k], recursive, adding, ds[k]);
        ss, ww := Moved(ss, ds[k], adding), Tallied(ww, ds[k], adding);
        w := ww;
      }
    }

    // ----------------------------------------------------------------
    // Enumerating a rule over the incremental state.

    function Rows(kinds: seq<ReadK>): Source {
      Source(true, kinds, models, [], indexes)
    }

    /** What the positions of a rule read under the given membership predicates. */
    ghost function RowSets(r: Rule, kinds: seq<ReadK>): (rd: seq<set<Row>>)
      requires |kinds| == |r.pos2atom|
      requires forall q :: 0 <= q < |r.pos2atom| ==> r.pos2atom[q] < |r.atoms| && r.atoms[r.pos2atom[q]].view < |models|
      reads models
      ensures |rd| == |kinds|
    {
      seq(|kinds|, q requires 0 <= q < |kinds| reads models => Rows(kinds).Rows(r.atoms[r.pos2atom[q]].view, q))
    }

    lemma SourceReady(kinds: seq<ReadK>)
      requires Valid()
      ensures Rows(kinds).Valid()
    {
      forall v | 0 <= v < |models| ensures models[v].Value().Interned() {
        FitAt(prog, stores, v);
      }
    }

    lemma SourceLeaves(kinds: seq<ReadK>)
      requires Linked() && Mirrored() && Rows(kinds).Valid()
      ensures Indexed()
    {
    }

    lemma RowsMirror(v: nat, q: nat, kinds: seq<ReadK>, row: Row)
      requires Valid() && v < |models| && q < |kinds|
      ensures row in Rows(kinds).Rows(v, q) <==> Fact(v, row) in Readable(g, stores, kinds[q])
      ensures row in Rows(kinds).Rows(v, q) ==> |row| == prog.views[v].arity
    {
      FitAt(prog, stores, v);
    }

    lemma RowSetsRead(r: Rule, kinds: seq<ReadK>)
      requires Valid() && GoodRule(prog, r) && |kinds| == |r.pos2atom|
      ensures TableReads(r, RowSets(r, kinds), Tables(g, stores, kinds))
      ensures forall q, row :: 0 <= q < |kinds| && row in RowSets(r, kinds)[q] ==> |row| == Arity(prog, r, r.pos2atom[q])
    {
      hide Mirrored, Indexed, StoresFit, Readable;
      var rd := RowSets(r, kinds);
      forall q: nat, row: Row | q < |kinds|
        ensures row in rd[q] <==> Fact(r.atoms[r.pos2atom[q]].view, row) in Tables(g, stores, kinds)[q]
        ensures row in rd[q] ==> |row| == Arity(prog, r, r.pos2atom[q])
      {
        RowsMirror(r.atoms[r.pos2atom[q]].view, q, kinds, row);
      }
    }

    lemma RowSetsServe(r: Rule, kinds: seq<ReadK>)
      requires Valid() && GoodRule(prog, r) && |kinds| == |r.pos2atom|
      ensures Serves(Rows(kinds), r, RowSets(r, kinds))
    {
    }

    lemma RuleShape(ri: nat)
      requires Grounded() && Linked() && ri < |prog.rules|
      ensures GoodRule(prog, prog.rules[ri])
      ensures forall q :: 0 <= q < |prog.rules[ri].pos2atom| ==>
        && prog.rules[ri].pos2atom[q] < |prog.rules[ri].atoms|
        && prog.rules[ri].atoms[prog.rules[ri].pos2atom[q]].view < |models|
    {
    }

    /** Enumerate the instances of a rule that hold one delta row at position `p`. */
    method EnumerateDelta(ri: nat, p: nat, deltaRow: Row, kinds: seq<ReadK>) returns (heads: seq<Row>, ghost ds: seq<Deriv>)
      requires Valid() && Grounded() && ri < |prog.rules|
      requires GoodRule(prog, prog.rules[ri]) && p < |prog.rules[ri].pos2atom| == |kinds|
      requires |deltaRow| == Arity(prog, prog.rules[ri], prog.rules[ri].pos2atom[p])
      modifies indexes
      ensures Valid()
      ensures
        var r := prog.rules[ri];
        DeltaListed(prog, g, ri, p, Fact(r.atoms[r.pos2atom[p]].view, deltaRow), Tables(g, stores, kinds), heads, ds)
    {
      hide Mirrored, Indexed, StoresFit, GoodProgram, WellFormed, GroundOf, Source.Valid, Serves, ListsAll, DerivesFrom, FilterHolds, TableReads, DeltaListed, Tables;
      var r := prog.rules[ri];
      SourceReady(kinds);
      RowSetsRead(r, kinds);
      RowSetsServe(r, kinds);
      RuleShape(ri);
      ghost var rd := RowSets(r, kinds);
      ghost var found;
      AskedDelta(r, p, deltaRow, kinds);
      heads, found := EnumerateRule(prog, r, Rows(kinds), p, deltaRow, rd);
      ds := EnumeratedDelta(prog, g, ri, rd, Tables(g, stores, kinds), p, deltaRow, heads, found);
      SourceLeaves(kinds);
    }

    lemma AskedDelta(r: Rule, p: nat, deltaRow: Row, kinds: seq<ReadK>)
      requires Valid() && GoodRule(prog, r) && p < |r.pos2atom| == |kinds|
      requires |deltaRow| == Arity(prog, r, r.pos2atom[p])
      ensures Asked(prog, r, RowSets(r, kinds), p, deltaRow)
    {
      RowSetsRead(r, kinds);
    }

    // ----------------------------------------------------------------
    // Firing a sweep.

    lemma RunningValid(run: Run, done: set<Deriv>)
      requires Running(run, done)
      ensures Valid()
    {
      hide Mirrored, Indexed, Linked;
    }

    /** Fire one delta row at one position. */
    method FireRow(ri: nat, q: nat, deltaRow: Row, kinds: seq<ReadK>, adding: bool,
                   ghost run: Run, ghost done: set<Deriv>, ghost more: set<Deriv>)
      requires Grounded() && run.Sound() && Running(run, done) && adding == run.adding
      requires ri < |prog.rules| && HeadStratum(prog, ri) == run.n
      requires GoodRule(prog, prog.rules[ri]) && q < |prog.rules[ri].pos2atom| == |kinds|
      requires |deltaRow| == Arity(prog, prog.rules[ri], prog.rules[ri].pos2atom[q])
      requires
        var r := prog.rules[ri];
        more == DeltaDerivs(g, ri, q, {Fact(r.atoms[r.pos2atom[q]].view, deltaRow)}, Tables(g, run.ss0, kinds))
      requires more <= run.all && done !! more
      modifies models, indexes, this`w, this`stores
      ensures Running(run, done + more)
    {
      var r := prog.rules[ri];
      hide Grounded, Mirrored, Indexed, GoodRule, Run.Sound, DeltaListed, DeltaDerivs, DerivsShaped, Tables, Listing, StoresFit, Working, Kept, Shifted, HeadStratum;
      GroundedShaped();
      HeadCovered(ri);
      RunningValid(run, done);
      KeptTables(g, run.ss0, stores, kinds);
      ghost var table := Tables(g, run.ss0, kinds);
      var heads;
      ghost var ds;
      heads, ds := EnumerateDelta(ri, q, deltaRow, kinds);
      DeltaHeaded(prog, g, ri, q, Fact(r.atoms[r.pos2atom[q]].view, deltaRow), table, heads, ds);
      FoldHeads(r.head, heads, r.recursive, adding, run, done, ds);
    }

    lemma GroundedShaped()
      requires Grounded()
      ensures DerivsShaped(prog, g) && WellFormed(g)
    {
      hide GoodProgram, DerivsShaped, WellFormed;
      GroundShaped(prog, g);
    }

    lemma HeadCovered(ri: nat)
      requires ri < |prog.rules| && GoodRule(prog, prog.rules[ri]) && Linked()
      ensures prog.rules[ri].head < |models|
    {
    }

    /** The delta rows a position enumerates in a sweep. */
    method DeltasAt(ri: nat, q: nat, sweep: Sweep) returns (ids: seq<nat>)
      requires Linked() && Mirrored() && ri < |prog.rules| && ReadsView(prog, ri, q)
      ensures ids == DeltaIds(stores, prog.rules[ri], q, sweep)
    {
      var a := prog.rules[ri].atoms[prog.rules[ri].pos2atom[q]];
      if sweep.seeding {
        ids := Frontier(models[a.view].Value(), a.negated, sweep.adding);
      } else {
        ids := OfView(sweep.round, a.view);
      }
    }

    /** Fire every delta row of one position. */
    method FirePosition(ri: nat, q: nat, sweep: Sweep, ghost run: Run, ghost done: set<Deriv>, ghost more: set<Deriv>)
      requires Grounded() && run.Sound() && Running(run, done) && sweep.adding == run.adding
      requires StoresFit(prog, run.ss0) && (!sweep.seeding ==> RoundFits(run.ss0, sweep.round))
      requires ri < |prog.rules| && HeadStratum(prog, ri) == run.n
      requires q < |prog.rules[ri].pos2atom| && ReadsView(prog, ri, q)
      requires
        var r := prog.rules[ri];
        more == DeltaDerivs(g, ri, q, FactsAt(run.ss0, r.atoms[r.pos2atom[q]].view, DeltaIds(run.ss0, r, q, sweep)),
                            Tables(g, run.ss0, KindsAt(prog, r, q, sweep)))
      requires more <= run.all && done !! more
      modifies models, indexes, this`w, this`stores
      ensures Running(run, done + more)
    {
      hide Grounded, GoodRule, Run.Sound, DeltaDerivs, FactsAt, Tables, StoresFit, HeadStratum, Store.Valid, Store.Interned,
        DeltaIds, KindsAt, Run.Reached, Kept, Mirrored, Indexed, NoRepeats, InRange, RoundFits;
      RunningStores(run, done);
      RuleIsGood(ri, q);
      var r := prog.rules[ri];
      var v := r.atoms[r.pos2atom[q]].view;
      FitAt(prog, run.ss0, v);
      var ids := DeltasAt(ri, q, sweep);
      DeltaIdsFit(prog, run.ss0, stores, r, q, sweep);
      var kinds := KindsAt(prog, r, q, sweep);
      ghost var table := Tables(g, run.ss0, kinds);
      NoDeltas(run.ss0, v, ids, g, ri, q, table, done);
      for k := 0 to |ids|
        invariant Running(run, done + DeltaDerivs(g, ri, q, FactsAt(run.ss0, v, ids[..k]), table))
      {
        ghost var old0 := DeltaDerivs(g, ri, q, FactsAt(run.ss0, v, ids[..k]), table);
        RunningStores(run, done + old0);
        DeltaStep(g, ri, q, run.ss0, v, ids, k, table, done, more);
        RowStays(prog, run.ss0, stores, v, ids[k]);
        var deltaRow := models[v].rows[ids[k]];
        FireRow(ri, q, deltaRow, kinds, sweep.adding, run, done + old0, DeltaDerivs(g, ri, q, {Fact(v, deltaRow)}, table));
      }
      assert ids[..|ids|] == ids;
    }

    lemma RunningStores(run: Run, done: set<Deriv>)
      requires Running(run, done)
      ensures Kept(run.ss0, stores) && StoresFit(prog, stores) && |stores| == |models|
      ensures forall v :: 0 <= v < |models| ==> models[v].rows == stores[v].rows
    {
      hide Indexed, StoresFit, Kept, Working, Shifted;
    }

    lemma RuleIsGood(ri: nat, q: nat)
      requires Grounded() && Linked() && ri < |prog.rules| && q < |prog.rules[ri].pos2atom|
      ensures GoodRule(prog, prog.rules[ri]) && prog.rules[ri].head < |models|
      ensures ReadsView(prog, ri, q)
      ensures
        var r := prog.rules[ri];
        Arity(prog, r, r.pos2atom[q]) == prog.views[r.atoms[r.pos2atom[q]].view].arity
    {
      hide WellFormed, GroundOf;
    }

    /** Fire one rule: every position the sweep visits, first to last. */
    method FireRule(ri: nat, sweep: Sweep, ghost run: Run, ghost done: set<Deriv>, ghost s: set<Fact>, ghost t: set<Fact>)
      requires Grounded() && run.Sound() && Running(run, done) && sweep.adding == run.adding
      requires StoresFit(prog, run.ss0) && (!sweep.seeding ==> RoundFits(run.ss0, sweep.round))
      requires ri < |prog.rules| && HeadStratum(prog, ri) == run.n
      requires SweepFires(prog, g, run.n, run.ss0, sweep, s, t)
      requires FiringBelow(g, ri, |prog.rules[ri].pos2atom|, s, t, sweep.adding) <= run.all
      requires done !! FiringBelow(g, ri, |prog.rules[ri].pos2atom|, s, t, sweep.adding)
      modifies models, indexes, this`w, this`stores
      ensures Running(run, done + FiringBelow(g, ri, |prog.rules[ri].pos2atom|, s, t, sweep.adding))
    {
      hide Grounded, GoodRule, Run.Sound, StoresFit, HeadStratum, SweepFires, FiringBelow, FiringAt, RoundFits, Running, SamePos, ReadsView, DeltaDerivs;
      var r := prog.rules[ri];
      FiringNone(g, ri, s, t, sweep.adding, done);
      for q := 0 to |r.pos2atom|
        invariant Running(run, done + FiringBelow(g, ri, q, s, t, sweep.adding))
      {
        ghost var before := done + FiringBelow(g, ri, q, s, t, sweep.adding);
        ghost var here := FiringAt(g, ri, q, s, t, sweep.adding);
        RunningLinked(run, before);
        RuleIsGood(ri, q);
        FiringMore(g, ri, q, s, t, sweep.adding);
        FiringWithin(g, ri, q, |r.pos2atom|, s, t, sweep.adding, run.all, done);
        PositionIs(prog, g, run.n, run.ss0, sweep, s, t, ri, q);
        assert before + here == done + FiringBelow(g, ri, q + 1, s, t, sweep.adding);
        if SamePos(prog, r, q) != sweep.seeding {
          FirePosition(ri, q, sweep, run, before, here);
        } else {
          assert before + here == before;
        }
      }
    }

    lemma RunningLinked(run: Run, done: set<Deriv>)
      requires Running(run, done)
      ensures Linked() && Mirrored() && run.p == prog && run.g == g
    {
    }

    /** Fire every rule of the stratum once. */
    method FireStratum(n: nat, sweep: Sweep, ghost run: Run, ghost s: set<Fact>, ghost t: set<Fact>)
      requires Grounded() && run.Sound() && Running(run, {}) && sweep.adding == run.adding && n == run.n
      requires StoresFit(prog, run.ss0) && (!sweep.seeding ==> RoundFits(run.ss0, sweep.round))
      requires SweepFires(prog, g, run.n, run.ss0, sweep, s, t)
      requires run.all == FiringRules(g, |prog.rules|, run.n, s, t, sweep.adding)
      modifies models, indexes, this`w, this`stores
      ensures Running(run, run.all)
    {
      hide Grounded, GoodRule, Run.Sound, StoresFit, SweepFires, FiringBelow, FiringRules, RoundFits, Running, DerivsShaped, WellFormed, HeadStratum;
      NoRulesYet(g, run.n, s, t, sweep.adding);
      RunningLinked(run, {});
      GroundedShaped();
      for ri := 0 to |prog.rules|
        invariant Running(run, FiringRules(g, ri, run.n, s, t, sweep.adding))
      {
        RulesWithin(prog, g, ri, run.n, s, t, sweep.adding);
        if HeadStratum(prog, ri) == n {
          FireRule(ri, sweep, run, FiringRules(g, ri, run.n, s, t, sweep.adding), s, t);
        }
      }
    }

    // ----------------------------------------------------------------
    // Claim rounds.

    /** Claim everything queued for deletion in one view. */
    method ClaimDelView(v: nat) returns (r: Result<seq<nat>>)
      requires Linked() && Mirrored() && Indexed() && v < |models| && stores[v].Valid()
      modifies models, this`stores
      ensures r.Failure? ==> Unclaimable(old(stores)[v])
      ensures r.Success? ==> Mirrored() && Indexed() && stores == old(stores)[v := stores[v]]
      ensures r.Success? ==> ClaimsOf(old(stores)[v], stores[v], false)
      ensures r.Success? ==> NewlyClaimed(old(stores)[v], r.value, |old(stores)[v].pendDel|, false)
    {
      hide Store.Valid, NewlyClaimed, Unclaimable, IndexTable.Valid;
      r := ClaimPendDel(models[v]);
      stores := stores[v := models[v].Value()];
    }

    /** Claim everything queued for deletion in the stratum. */
    method ClaimDeletions(n: nat) returns (r: Result<seq<(nat, nat)>>)
      requires Linked() && Mirrored() && Indexed() && StoresFit(prog, stores) && AllCalm(stores)
      modifies models, this`stores
      ensures r.Failure? ==> exists v :: 0 <= v < |prog.views| && prog.views[v].stratum == n && Unclaimable(old(stores)[v])
      ensures r.Success? ==> Mirrored() && Indexed()
      ensures r.Success? ==> ClaimedAll(prog, n, old(stores), stores, false) && RoundIs(stores, r.value, false)
    {
      hide Mirrored, Indexed, StoresFit, AllCalm, ClaimsOf, NewlyClaimed, RoundBelow, ClaimedBelow, ClaimedAll, RoundIs, Unclaimable, Store.Valid, Paired;
      ghost var ss := stores;
      FitSize(prog, ss);
      NoViewsYet(prog, n, ss, false);
      var round: seq<(nat, nat)> := [];
      for v := 0 to |models|
        invariant Mirrored() && Indexed()
        invariant ClaimedBelow(prog, n, ss, stores, v, false) && RoundBelow(stores, round, v, false)
      {
        ViewUntouched(prog, n, ss, stores, v, false);
        if prog.views[v].stratum == n {
          FitAt(prog, ss, v);
          ghost var ts := stores;
          var ids := ClaimDelView(v);
          if ids.Failure? {
            return Failure(ids.error);
          }
          RoundGrows(prog, n, ss, ts, round, v, false, stores[v], ids.value);
          round := round + Paired(v, ids.value);
        } else {
          RoundSkips(prog, n, ss, stores, round, v, false);
        }
      }
      RoundComplete(prog, n, ss, stores, round, false);
      return Success(round);
    }

    /** Claim everything queued for insertion in one view. */
    method ClaimAddView(v: nat) returns (ids: seq<nat>)
      requires Linked() && Mirrored() && Indexed() && v < |models| && stores[v].Valid()
      modifies models, this`stores
      ensures Mirrored() && Indexed() && stores == old(stores)[v := stores[v]]
      ensures ClaimsOf(old(stores)[v], stores[v], true)
      ensures NewlyClaimed(old(stores)[v], ids, |old(stores)[v].pendAdd|, true)
    {
      hide Store.Valid, NewlyClaimed, IndexTable.Valid;
      ids := ClaimPendAdd(models[v]);
      stores := stores[v := models[v].Value()];
    }

    /** Claim everything queued for insertion in the stratum. */
    method ClaimInsertions(n: nat) returns (round: seq<(nat, nat)>)
      requires Linked() && Mirrored() && Indexed() && StoresFit(prog, stores) && AllCalm(stores)
      modifies models, this`stores
      ensures Mirrored() && Indexed()
      ensures ClaimedAll(prog, n, old(stores), stores, true) && RoundIs(stores, round, true)
    {
      hide Mirrored, Indexed, StoresFit, AllCalm, ClaimsOf, NewlyClaimed, RoundBelow, ClaimedBelow, ClaimedAll, RoundIs, Store.Valid, Paired;
      ghost var ss := stores;
      FitSize(prog, ss);
      NoViewsYet(prog, n, ss, true);
      round := [];
      for v := 0 to |models|
        invariant Mirrored() && Indexed()
        invariant ClaimedBelow(prog, n, ss, stores, v, true) && RoundBelow(stores, round, v, true)
      {
        ViewUntouched(prog, n, ss, stores, v, true);
        if prog.views[v].stratum == n {
          FitAt(prog, ss, v);
          ghost var ts := stores;
          var ids := ClaimAddView(v);
          RoundGrows(prog, n, ss, ts, round, v, true, stores[v], ids);
          round := round + Paired(v, ids);
        } else {
          RoundSkips(prog, n, ss, stores, round, v, true);
        }
      }
      RoundComplete(prog, n, ss, stores, round, true);
    }

    /** Take the round's rows off the frontier. */
    method RetireRound(round: seq<(nat, nat)>, adding: bool)
      requires Linked() && Mirrored() && Indexed() && StoresFit(prog, stores) && RoundIs(stores, round, adding)
      modifies models, this`stores
      ensures Mirrored() && Indexed() && RetiredUpTo(old(stores), stores, round, adding)
    {
      hide Store.Valid, IndexTable.Valid, StoresFit, RetiredUpTo, RoundIs, Indexed, Mirrored;
      ghost var ss := stores;
      NoneRetired(ss, adding);
      for k := 0 to |round|
        invariant Mirrored() && Indexed() && RetiredUpTo(ss, stores, round[..k], adding)
      {
        RoundMember(prog, ss, round, adding, k);
        MirroredSize();
        RetireMore(ss, stores, round, k, adding);
        RetireRow(round[k].0, round[k].1, adding);
      }
      assert round[..|round|] == round;
    }

    lemma MirroredSize()
      requires Mirrored()
      ensures |stores| == |models|
    {
    }

    method RetireRow(v: nat, id: nat, adding: bool)
      requires Linked() && Mirrored() && Indexed() && v < |models| && id < |stores[v].st|
      modifies models, this`stores
      ensures Mirrored() && Indexed()
      ensures stores == old(stores)[v := WithState(old(stores)[v], id, Retired(old(stores)[v].st[id], adding))]
    {
      hide IndexTable.Valid;
      models[v].SetState(id, Retired(models[v].st[id], adding));
      stores := stores[v := models[v].Value()];
    }

    // ----------------------------------------------------------------
    // The phases of a stratum.

    /** Fire a launched sweep. */
    method FireSweep(n: nat, sweep: Sweep, ghost fr: Frame, ghost run: Run, ghost s: set<Fact>, ghost t: set<Fact>)
      requires Grounded() && Linked() && Mirrored() && Indexed()
      requires fr.p == prog && fr.g == g && fr.n == n && fr.ext == ext
      requires Launched(fr, run, stores, w, sweep, s, t)
      modifies models, indexes, this`w, this`stores
      ensures Linked() && Mirrored() && Indexed() && run.Reached(stores, w, run.all)
    {
      hide Grounded, Mirrored, Indexed, StoresFit, RoundFits, SweepFires, FiringRules, Run.Sound, Run.Reached;
      FireStratum(n, sweep, run, s, t);
    }

    /** OVERDELETE: the - seeds, then claim rounds until nothing is queued. */
    method Overdelete(n: nat, ghost fr: Frame) returns (r: Result<bool>)
      requires Grounded() && Linked() && Mirrored() && Indexed()
      requires fr.p == prog && fr.g == g && fr.n == n && fr.ext == ext
      requires fr.Good() && SeedState(fr, stores, w)
      modifies models, indexes, this`w, this`stores
      ensures r.Success?
      ensures Mirrored() && Indexed() && SameFronts(old(stores), stores)
      ensures fr.DeleteLoop(stores, w) && At(g, fr.At(stores, w).pendDel, n) == {}
    {
      hide Grounded, Mirrored, Indexed, Frame.Good, Frame.DeleteLoop, SeedState, Launched, Run.Reached, State.Current, Snap, SameFronts;
      ghost var first := stores;
      ghost var ss, w0 := stores, w;
      DeleteSeeds(fr, ss, w0);
      FireSweep(n, Sweep(true, false, []), fr, DeleteSeedRun(fr, ss, w0), fr.s0.present, fr.s0.Current());
      DeleteSeeded(fr, ss, w0, stores, w);
      KeptFronts(ss, stores);
      while true
        invariant Mirrored() && Indexed() && fr.DeleteLoop(stores, w) && SameFronts(first, stores) && ext == old(ext)
        decreases fr.At(stores, w).Current()
      {
        ss, w0 := stores, w;
        DeleteLoopFits(fr, ss, w0);
        NoAborts(fr, ss, w0);
        var claims := ClaimDeletions(n);
        if claims.Failure? {
          return Failure(claims.Message());
        }
        var round := claims.value;
        ghost var ts := stores;
        ClaimedFronts(prog, n, ss, ts, false);
        SameFrontsMore(first, ss, ts);
        if round == [] {
          DeleteDrained(fr, ss, w0, ts);
          break;
        }
        DeleteRound(fr, ss, w0, ts, round);
        RoundRemoves(fr, ss, w0, ts, round);
        FireSweep(n, Sweep(false, false, round), fr, DeleteRoundRun(fr, ss, w0, ts), fr.At(ss, w0).Current(), fr.At(ts, w0).Current());
        ghost var us := stores;
        RoundKept(fr, false, fr.s0, ss, ts, w0, round, fr.At(ss, w0).Current(), fr.At(ts, w0).Current(), us, w);
        RetireRound(round, false);
        DeleteRounded(fr, ss, w0, ts, round, us, w, stores);
        RoundFronts(first, ts, us, stores, round, false);
      }
      r := Success(true);
    }

    method RederiveView(v: nat)
      requires Linked() && Mirrored() && Indexed() && v < |models| && stores[v].Valid()
      modifies models, this`stores
      ensures Mirrored() && Indexed()
      ensures stores == old(stores)[v := stores[v]] && Requeued(old(stores)[v], stores[v])
    {
      hide Store.Valid, IndexTable.Valid;
      RequeueView(models[v]);
      stores := stores[v := models[v].Value()];
    }

    /** REDERIVE: a counter read, not a search. */
    method Rederive(n: nat)
      requires Linked() && Mirrored() && Indexed() && StoresFit(prog, stores)
      modifies models, this`stores
      ensures Mirrored() && Indexed() && RequeuedAll(prog, n, old(stores), stores)
    {
      hide Mirrored, Indexed, StoresFit, Requeued, Store.Valid;
      ghost var ss := stores;
      FitSize(prog, ss);
      for v := 0 to |models|
        invariant Mirrored() && Indexed() && |stores| == |ss|
        invariant forall u :: 0 <= u < |ss| ==>
          if u < v && prog.views[u].stratum == n then Requeued(ss[u], stores[u]) else stores[u] == ss[u]
      {
        if prog.views[v].stratum == n {
          FitAt(prog, ss, v);
          RederiveView(v);
        }
      }
    }

    /** INSERT: the + seeds, then claim rounds until nothing is queued. */
    method InsertPhase(n: nat, ghost fr: Frame, ghost s1: State)
      requires Grounded() && Linked() && Mirrored() && Indexed()
      requires fr.p == prog && fr.g == g && fr.n == n && fr.ext == ext
      requires fr.Good() && InsertStart(fr, s1, stores, w) && Deleting(g, n, fr.s0, s1, fr.ext0)
      modifies models, indexes, this`w, this`stores
      ensures Mirrored() && Indexed() && SameFronts(old(stores), stores)
      ensures fr.InsertLoop(s1, stores, w) && At(g, fr.At(stores, w).pendAdd, n) == {}
    {
      hide Grounded, Mirrored, Indexed, Frame.Good, Frame.InsertLoop, InsertStart, Deleting, Launched, Run.Reached, State.Current, Snap, SameFronts;
      ghost var first := stores;
      ghost var ss, w0 := stores, w;
      InsertSeeds(fr, s1, ss, w0);
      FireSweep(n, Sweep(true, true, []), fr, InsertSeedRun(fr, s1, ss, w0), fr.s0.present, fr.s0.Current());
      InsertSeeded(fr, s1, ss, w0, stores, w);
      KeptFronts(ss, stores);
      while true
        invariant Mirrored() && Indexed() && fr.InsertLoop(s1, stores, w) && SameFronts(first, stores) && ext == old(ext)
        decreases g.facts - fr.At(stores, w).Current()
      {
        ss, w0 := stores, w;
        InsertLoopFits(fr, s1, ss, w0);
        var round := ClaimInsertions(n);
        ghost var ts := stores;
        ClaimedFronts(prog, n, ss, ts, true);
        SameFrontsMore(first, ss, ts);
        if round == [] {
          InsertDrained(fr, s1, ss, w0, ts);
          break;
        }
        InsertRound(fr, s1, ss, w0, ts, round);
        RoundAdds(fr, s1, ss, w0, ts, round);
        FireSweep(n, Sweep(false, true, round), fr, InsertRoundRun(fr, s1, ss, w0, ts), fr.At(ss, w0).Current(), fr.At(ts, w0).Current());
        ghost var us := stores;
        RoundKept(fr, true, s1, ss, ts, w0, round, fr.At(ss, w0).Current(), fr.At(ts, w0).Current(), us, w);
        RetireRound(round, true);
        InsertRounded(fr, s1, ss, w0, ts, round, us, w, stores);
        RoundFronts(first, ts, us, stores, round, true);
      }
    }

    method FrontierView(v: nat)
      requires Linked() && Mirrored() && Indexed() && v < |models| && stores[v].Valid()
      requires stores[v].outDel == [] && stores[v].outAdd == []
      modifies models, this`stores
      ensures Mirrored() && Indexed()
      ensures stores == old(stores)[v := stores[v]] && Published(old(stores)[v], stores[v])
    {
      hide Store.Valid, IndexTable.Valid;
      PublishView(models[v]);
      stores := stores[v := models[v].Value()];
    }

    /** BUILDFRONTIERS: publish D\A and A\D to the strata above. */
    method BuildFrontiers(n: nat)
      requires Linked() && Mirrored() && Indexed() && StoresFit(prog, stores) && Unpublished(prog, n, stores)
      modifies models, this`stores
      ensures Mirrored() && Indexed() && PublishedAll(prog, n, old(stores), stores)
    {
      hide Mirrored, Indexed, StoresFit, Published, Store.Valid;
      ghost var ss := stores;
      FitSize(prog, ss);
      for v := 0 to |models|
        invariant Mirrored() && Indexed() && |stores| == |ss|
        invariant forall u :: 0 <= u < |ss| ==>
          if u < v && prog.views[u].stratum == n then Published(ss[u], stores[u]) else stores[u] == ss[u]
      {
        if prog.views[v].stratum == n {
          FitAt(prog, ss, v);
          FrontierView(v);
        }
      }
    }

    /** One stratum: OVERDELETE, REDERIVE, INSERT, BUILDFRONTIERS. */
    method RunStratum(n: nat, ghost ext0: set<Fact>) returns (r: Result<bool>)
      requires Grounded() && Linked() && Mirrored() && Indexed()
      requires AtStratum(prog, g, n, stores, w, ext0, ext)
      modifies models, indexes, this`w, this`stores
      ensures r.Success?
      ensures Mirrored() && Indexed() && AtStratum(prog, g, n + 1, stores, w, ext0, ext)
      ensures SameExplicit(old(stores), stores)
      ensures Below(g, Snap(g, stores, w, ext).Current(), n) == Below(g, old(Snap(g, stores, w, ext)).Current(), n)
    {
      hide Grounded, Mirrored, Indexed, Frame.Good, Frame.DeleteLoop, Frame.InsertLoop, SeedState, InsertStart, Deleting, State.Current, Snap,
        SameFronts, StoresFit, Unpublished, Boundary, FrontiersBelow, RequeuedAll, PublishedAll, SeedsReady, AllCalm;
      ghost var first := stores;
      ghost var fr := Frame(prog, g, n, Snap(g, stores, w, ext), ext0, ext);
      StratumStarts(prog, g, n, stores, w, ext0, ext);
      FrameIsGood(fr);
      SeedStateReady(fr, stores, w);
      r := Overdelete(n, fr);
      if r.Failure? {
        return;
      }
      ghost var ss, w1 := stores, w;
      ghost var s1 := fr.At(ss, w1);
      DeleteLoopFits(fr, ss, w1);
      DeleteLoopKept(fr, ss, w1);
      Rederive(n);
      RederiveDone(fr, first, ss, w1, stores);
      RequeuedFit(prog, n, ss, stores);
      SameFrontsMore(first, ss, stores);
      ghost var ts := stores;
      InsertPhase(n, fr, s1);
      SameFrontsMore(first, ts, stores);
      InsertLoopFits(fr, s1, stores, w);
      UnpublishedStays(prog, n, first, stores);
      ghost var us := stores;
      BuildFrontiers(n);
      StratumDone(fr, s1, first, us, w, stores);
    }

    lemma FrameIsGood(fr: Frame)
      requires Grounded() && fr.p == prog && fr.g == g && Boundary(g, fr.n, fr.s0, fr.ext0)
      ensures fr.Good()
    {
      hide GoodProgram, GroundOf, WellFormed, Boundary, Frame.Good;
      GroundFrame(fr);
    }

    // ----------------------------------------------------------------
    // Ingest.

    /** The store update of one asserted row. */
    method ExplicitRow(v: nat, row: Row, add: bool)
      requires Linked() && Mirrored() && Indexed() && v < |models| && stores[v].Interned()
      modifies models, this`stores
      ensures Mirrored() && Indexed()
      ensures stores == old(stores)[v := if add then ExplicitUp(old(stores)[v], row) else ExplicitDown(old(stores)[v], row)]
    {
      hide FoldUp, FoldDown, WithRow, Store.Interned, IndexTable.Valid;
      ExplicitGrows(stores[v], row);
      ghost var rows0 := stores[v].rows;
      if add {
        models[v].AddExplicit(row);
      } else {
        models[v].SubExplicit(row);
      }
      stores := stores[v := models[v].Value()];
      IndexesGrow(indexes[v], rows0, models[v].rows);
    }

    lemma ExplicitGrows(s: Store, r: Row)
      ensures s.rows <= ExplicitUp(s, r).rows && s.rows <= ExplicitDown(s, r).rows
    {
      hide FoldUp, FoldDown, WithRow;
      RowsGrow(s, r, Supported(s.Get(r), 1, true));
      RowsGrow(s, r, Supported(s.Get(r), -1, false));
      RowsGrow(s, r, s.Get(r));
    }

    /** The batch is being ingested: `asserted0` and `ext0` were asserted and supported before it. */
    ghost predicate IngestState(ext0: set<Fact>, asserted0: set<Fact>, asserted: set<Fact>, cur: set<Fact>)
      reads this, models, indexes
    {
      && Linked() && Mirrored() && Indexed()
      && IngestingOn(prog, g, stores, w, ext0, ext, asserted0, asserted, cur)
    }

    /** Assert a row of a receive view, or retract it.  No other operation of the batch is
        about the same fact. */
    method IngestRow(v: nat, row: Row, add: bool, ghost ext0: set<Fact>, ghost asserted0: set<Fact>, ghost asserted: set<Fact>, ghost cur: set<Fact>)
      requires Grounded() && IngestState(ext0, asserted0, asserted, cur)
      requires v < |prog.views| && prog.views[v].receive && |row| == prog.views[v].arity
      requires Fact(v, row) in asserted <==> Fact(v, row) in asserted0
      modifies models, this`stores, this`ext
      ensures IngestState(ext0, asserted0, if add then asserted + {Fact(v, row)} else asserted - {Fact(v, row)}, cur)
    {
      hide Grounded, Mirrored, Indexed, IngestingOn, ExplicitUp, ExplicitDown, IngestedExt, Store.Interned;
      ghost var f := Fact(v, row);
      GroundedTyped();
      IngestingFits(prog, g, stores, w, ext0, ext, asserted0, asserted, cur, v);
      MirroredSize();
      IngestOne(prog, g, stores, w, ext0, ext, asserted0, asserted, cur, f, add);
      ghost var asserted' := if add then asserted + {f} else asserted - {f};
      ExplicitRow(v, row, add);
      ext := IngestedExt(asserted0, ext0, asserted');
    }

    lemma GroundedTyped()
      requires Grounded()
      ensures WellFormed(g) && Typed(prog, g) && GoodReceives(prog)
      ensures forall v :: 0 <= v < |prog.views| && prog.views[v].receive ==> v in g.external
    {
      hide WellFormed;
      GroundTyped(prog, g);
    }

    /** Assert or retract one message's row in each of its receive views. */
    method IngestKey(k: NetKey, add: bool, ghost ext0: set<Fact>, ghost asserted0: set<Fact>, ghost asserted: set<Fact>, ghost cur: set<Fact>)
      requires Grounded() && IngestState(ext0, asserted0, asserted, cur)
      requires k.0 < |prog.receives| && RowFits(prog, k.0, k.1)
      requires forall f :: f in Targets(prog, k) ==> (f in asserted <==> f in asserted0)
      modifies models, this`stores, this`ext
      ensures IngestState(ext0, asserted0, if add then asserted + Targets(prog, k) else asserted - Targets(prog, k), cur)
    {
      hide Grounded, IngestState;
      ghost var now := asserted;
      ViewsOf(prog, k);
      for i := 0 to |prog.receives[k.0]|
        invariant now == if add then asserted + TargetsBelow(prog, k, i) else asserted - TargetsBelow(prog, k, i)
        invariant IngestState(ext0, asserted0, now, cur)
      {
        ghost var f := Fact(prog.receives[k.0][i], k.1);
        ReceivesFit(k, i);
        NextTarget(prog, k, i);
        IngestRow(prog.receives[k.0][i], k.1, add, ext0, asserted0, now, cur);
        now := if add then now + {f} else now - {f};
      }
    }

    lemma ReceivesFit(k: NetKey, i: nat)
      requires Grounded() && k.0 < |prog.receives| && RowFits(prog, k.0, k.1) && i < |prog.receives[k.0]|
      ensures GoodReceives(prog)
      ensures
        var v := prog.receives[k.0][i];
        v < |prog.views| && prog.views[v].receive && |k.1| == prog.views[v].arity
    {
    }

    /** Ingest a batch: net its operations, then apply the net ones. */
    method IngestBatch(ops: seq<BatchOp>, ghost ext0: set<Fact>, ghost asserted0: set<Fact>, ghost cur: set<Fact>)
      requires Grounded() && IngestState(ext0, asserted0, asserted0, cur)
      requires OpsFit(prog, ops) && asserted0 <= g.facts
      modifies models, this`stores, this`ext
      ensures IngestState(ext0, asserted0, Netted(prog, ops, asserted0), cur)
    {
      hide Grounded, IngestingOn, Mirrored, Indexed, NetIs, Applied, OpsFit, Targets, RowFits, Netted;
      var order, net := NetBatch(ops);
      NothingApplied(prog, order, net, asserted0);
      NetKeys(ops, net, order);
      GroundedTyped();
      TypedFacts(prog, g);
      for j := 0 to |order|
        invariant (forall x :: x in order[..j] ==> x in net) && IngestState(ext0, asserted0, Applied(prog, order[..j], net, asserted0), cur)
      {
        var k := order[j];
        KeyApplies(prog, ops, order, net, asserted0, j);
        if net[k] != 3 {
          IngestKey(k, net[k] == 1, ext0, asserted0, Applied(prog, order[..j], net, asserted0), cur);
        }
      }
      assert order[..|order|] == order;
      AppliedIsNetted(prog, ops, order, net, asserted0);
    }

    // ----------------------------------------------------------------
    // Init rules.

    /** Enumerate the instances of a rule whose positions all read the same state. */
    method EnumerateActive(ri: nat, kinds: seq<ReadK>, ghost s: set<Fact>) returns (heads: seq<Row>, ghost ds: seq<Deriv>)
      requires Valid() && Grounded() && ri < |prog.rules|
      requires GoodRule(prog, prog.rules[ri]) && |prog.rules[ri].pos2atom| == |kinds|
      requires Uniform(Tables(g, stores, kinds), s)
      modifies indexes
      ensures Valid() && ActiveListed(prog, g, ri, s, heads, ds)
    {
      hide Mirrored, Indexed, StoresFit, GoodProgram, WellFormed, GroundOf, Source.Valid, Serves, ListsAll, DerivesFrom, FilterHolds, TableReads, ActiveListed, Tables;
      var r := prog.rules[ri];
      SourceReady(kinds);
      RowSetsRead(r, kinds);
      RowSetsServe(r, kinds);
      ghost var rd := RowSets(r, kinds);
      ghost var found;
      AskedActive(r, kinds);
      heads, found := EnumerateRule(prog, r, Rows(kinds), -1, [], rd);
      ds := EnumeratedActive(prog, g, ri, rd, Tables(g, stores, kinds), s, heads, found);
      SourceLeaves(kinds);
    }

    lemma AskedActive(r: Rule, kinds: seq<ReadK>)
      requires Valid() && GoodRule(prog, r) && |r.pos2atom| == |kinds|
      ensures Asked(prog, r, RowSets(r, kinds), -1, [])
    {
      RowSetsRead(r, kinds);
    }

    /** Fire one init rule. */
    method FireInitRule(ri: nat, ghost ss0: Stores, ghost done: set<Deriv>)
      requires Grounded() && Linked() && Mirrored() && Indexed()
      requires ri < |prog.rules| && prog.rules[ri].pos2atom == [] && done !! InitOf(g, ri)
      requires InitReached(prog, g, ss0, stores, w, done)
      modifies models, indexes, this`w, this`stores
      ensures Mirrored() && Indexed() && InitReached(prog, g, ss0, stores, w, done + InitOf(g, ri))
    {
      hide Grounded, Mirrored, Indexed, GoodRule, StoresFit, Kept, Initial, DerivsShaped, WellFormed, ActiveListed, HeadStratum, InitOf, Moved, Tallied, Listing,
        Store.Interned, NoRepeats, Uniform;
      GroundedShaped();
      RuleIsSound(ri);
      HeadCovered(ri);
      var r := prog.rules[ri];
      NoTables(g, stores);
      var heads;
      ghost var ds;
      heads, ds := EnumerateActive(ri, [], {});
      InitListed(prog, g, ri, {}, heads, ds);
      ghost var ss, ww := stores, w;
      ListingNone(ds, done);
      for k := 0 to |heads|
        invariant Linked() && Mirrored() && Indexed() && stores == ss && w == ww
        invariant InitReached(prog, g, ss0, ss, ww, done + Listing(ds[..k]))
      {
        ListingMore(ds, k, done, Listing(ds));
        InitStep(prog, g, ss0, ss, ww, done + Listing(ds[..k]), ds[k], r.head, heads[k], r.recursive);
        FoldRow(r.head, heads[k], r.recursive, true, ds[k]);
        ss, ww := Moved(ss, ds[k], true), Tallied(ww, ds[k], true);
        w := ww;
      }
    }

    lemma RuleIsSound(ri: nat)
      requires Grounded() && ri < |prog.rules|
      ensures GoodRule(prog, prog.rules[ri])
    {
      hide WellFormed, GroundOf;
    }

    /** Rules without positive atoms fire once, before the first batch. */
    method FireInitRules()
      requires Grounded() && Linked() && Mirrored() && Indexed()
      requires Settled(prog, g, false, stores, w, {}) && ext == {}
      modifies models, indexes, this`w, this`stores
      ensures Mirrored() && Indexed()
      ensures AtStratum(prog, g, 0, stores, w, {}, {}) && SameExplicit(old(stores), stores)
      ensures Snap(g, stores, w, {}).Current() == {}
    {
      hide Grounded, Mirrored, Indexed, GoodRule, StoresFit, DerivsShaped, WellFormed, Settled, InitReached, InitDerivs, InitOf, AtStratum, SameExplicit;
      ghost var ss0, w0 := stores, w;
      InitStarts(prog, g, stores, w);
      GroundedShaped();
      for ri := 0 to |prog.rules|
        invariant Mirrored() && Indexed() && InitReached(prog, g, ss0, stores, w, InitDerivs(g, ri))
      {
        var r := prog.rules[ri];
        var hasPositive := exists a :: 0 <= a < |r.atoms| && !r.atoms[a].negated;
        InitMore(g, ri);
        InitShape(ri);
        if !hasPositive {
          FireInitRule(ri, ss0, InitDerivs(g, ri));
        } else {
          InitSkips(prog, g, ri);
          assert InitDerivs(g, ri) + {} == InitDerivs(g, ri);
        }
      }
      RulesBound();
      InitDone(prog, g, ss0, w0, stores, w);
    }

    lemma InitShape(ri: nat)
      requires Grounded() && ri < |prog.rules|
      ensures
        var r := prog.rules[ri];
        r.pos2atom == [] <==> !exists a :: 0 <= a < |r.atoms| && !r.atoms[a].negated
    {
      hide WellFormed, GroundOf;
      RuleIsSound(ri);
    }

    lemma RulesBound()
      requires Grounded()
      ensures forall d :: d in g.derivs ==> d.rule < |prog.rules|
    {
      hide GoodProgram, WellFormed, GroundOf;
      forall d | d in g.derivs ensures d.rule < |prog.rules| {
        DerivOfRule(prog, d);
      }
    }

    // ----------------------------------------------------------------
    // Aggregates.

    /** The rows of a view that are in the new state, in log order. */
    method NewRows(v: nat) returns (rows: seq<Row>)
      requires Linked() && Mirrored() && StoresFit(prog, stores) && v < |models|
      ensures NoRepeats(rows)
      ensures forall r :: r in rows <==> r in stores[v].ids && Pass(stores[v].Get(r), InNew)
    {
      FitAt(prog, stores, v);
      hide StoresFit;
      var vm := models[v];
      rows := [];
      for id := 0 to |vm.rows|
        invariant NoRepeats(rows)
        invariant forall r :: r in rows <==> r in stores[v].ids && stores[v].ids[r] < id && Pass(stores[v].Get(r), InNew)
      {
        assert stores[v].Get(vm.rows[id]) == vm.st[id];
        if Pass(vm.st[id], InNew) {
          rows := rows + [vm.rows[id]];
        }
      }
    }

    ghost predicate MidwayState(n: nat, ext0: set<Fact>, asserted: set<Fact>, present: set<Fact>, cur: set<Fact>)
      reads this, models, indexes
    {
      && Linked() && Mirrored() && Indexed()
      && Midway(prog, g, n, stores, w, ext0, ext, asserted, present, cur)
    }

    /** Give an aggregate row its one non-recursive count, or take it away. */
    method CountAggregateRow(n: nat, v: nat, row: Row, add: bool, ghost ext0: set<Fact>, ghost asserted: set<Fact>, ghost present: set<Fact>, ghost cur: set<Fact>)
      requires Grounded() && MidwayState(n, ext0, asserted, present, cur)
      requires v < |models| && AggregateFact(prog, g, n, Fact(v, row))
      requires if add then Fact(v, row) !in ext && Fact(v, row) !in ext0 else Fact(v, row) in ext && Fact(v, row) in ext0
      modifies models, this`stores, this`ext
      ensures MidwayState(n, ext0, asserted, present, cur)
      ensures ext == if add then old(ext) + {Fact(v, row)} else old(ext) - {Fact(v, row)}
      ensures |stores| == |old(stores)| && old(stores)[v].rows <= stores[v].rows
    {
      hide Grounded, Mirrored, Indexed, Midway, AggregateFact, Up, Down, Store.Interned, StateOf, RowState.Bumped;
      ghost var f := Fact(v, row);
      GroundedTyped();
      MidwayFits(prog, g, n, stores, w, ext0, ext, asserted, present, cur, v);
      UpDownGrow(stores, f);
      ghost var e := ext;
      if add {
        MidwayUp(prog, g, n, stores, w, ext0, e, asserted, present, cur, f);
        AddRow(v, row, false);
        ext := e + {f};
      } else {
        MidwayDown(prog, g, n, stores, w, ext0, e, asserted, present, cur, f);
        SubRow(v, row, false);
        ext := e - {f};
      }
    }

    /** The row was in at batch start. */
    method WasPresent(v: nat, row: Row, ghost n: nat, ghost ext0: set<Fact>, ghost asserted: set<Fact>, ghost present: set<Fact>, ghost cur: set<Fact>)
      returns (held: bool)
      requires MidwayState(n, ext0, asserted, present, cur) && v < |models| && Fact(v, row) in g.facts
      ensures held <==> Fact(v, row) in present
    {
      hide AtStratum, Explicit, Store.Interned, Indexed;
      MidwayFits(prog, g, n, stores, w, ext0, ext, asserted, present, cur, v);
      SnapMember(g, stores, w, ext, Fact(v, row));
      held := row in models[v].ids && models[v].ids[row] < |models[v].st| && models[v].st[models[v].ids[row]].inI;
    }

    /** +1 for each desired row that was absent at batch start. */
    method RaiseDesired(n: nat, v: nat, out: seq<Row>, ghost ext0: set<Fact>, ghost asserted: set<Fact>, ghost present: set<Fact>, ghost cur: set<Fact>)
      requires Grounded() && MidwayState(n, ext0, asserted, present, cur) && v < |models| && NoRepeats(out)
      requires forall r :: r in out ==> AggregateFact(prog, g, n, Fact(v, r))
      requires OnlySupported(g, v, present, ext0) && forall f :: f in g.facts && f.view == v ==> (f in ext <==> f in ext0)
      modifies models, this`stores, this`ext
      ensures MidwayState(n, ext0, asserted, present, cur) && Raised(g, v, out, |out|, present, old(ext), ext)
      ensures |stores| == |old(stores)| && old(stores)[v].rows <= stores[v].rows
    {
      hide Grounded, Raised, OnlySupported, NoRepeats, Midway, Mirrored, Indexed, Linked;
      ghost var before := ext;
      MidwayExt(prog, g, n, stores, w, ext0, ext, asserted, present, cur);
      RaisedNone(g, v, out, present, before);
      MirroredSize();
      for k := 0 to |out|
        invariant MidwayState(n, ext0, asserted, present, cur) && Raised(g, v, out, k, present, before, ext)
        invariant |stores| == |old(stores)| && old(stores)[v].rows <= stores[v].rows
      {
        assert out[k] in out;
        RaisedMore(g, v, out, k, present, before, ext, ext0);
        var held := WasPresent(v, out[k], n, ext0, asserted, present, cur);
        if !held {
          CountAggregateRow(n, v, out[k], true, ext0, asserted, present, cur);
        }
      }
    }

    /** -1 for each row of batch start that is no longer desired. */
    method LowerOthers(n: nat, v: nat, out: seq<Row>, rows: seq<Row>, ghost before: set<Fact>,
                       ghost ext0: set<Fact>, ghost asserted: set<Fact>, ghost present: set<Fact>, ghost cur: set<Fact>)
      requires Grounded() && MidwayState(n, ext0, asserted, present, cur) && v < |models| && NoRepeats(rows)
      requires forall r :: r in rows ==> AggregateFact(prog, g, n, Fact(v, r))
      requires OnlySupported(g, v, present, ext0) && forall f :: f in g.facts && f.view == v ==> (f in before <==> f in ext0)
      requires Raised(g, v, out, |out|, present, before, ext)
      modifies models, this`stores, this`ext
      ensures MidwayState(n, ext0, asserted, present, cur) && Lowered(g, v, out, rows, |rows|, present, old(ext), ext)
    {
      hide Grounded, Raised, Lowered, OnlySupported, NoRepeats, Midway, Mirrored, Indexed, Linked;
      ghost var raised := ext;
      MidwayExt(prog, g, n, stores, w, ext0, ext, asserted, present, cur);
      LoweredNone(g, v, out, rows, present, raised);
      for m := 0 to |rows|
        invariant MidwayState(n, ext0, asserted, present, cur) && Lowered(g, v, out, rows, m, present, raised, ext)
      {
        assert rows[m] in rows;
        LoweredMore(g, v, out, rows, m, present, before, raised, ext, ext0);
        var held := WasPresent(v, rows[m], n, ext0, asserted, present, cur);
        if held && rows[m] !in out {
          CountAggregateRow(n, v, rows[m], false, ext0, asserted, present, cur);
        }
      }
    }

    /** Recompute one aggregate over the new rows of its input and count its rows' changes. */
    method RecomputeAggregate(n: nat, i: nat, ghost ext0: set<Fact>, ghost asserted: set<Fact>, ghost present: set<Fact>, ghost cur: set<Fact>)
      requires Grounded() && MidwayState(n, ext0, asserted, present, cur)
      requires i < |prog.aggs| && prog.aggs[i].head < |prog.views| && prog.views[prog.aggs[i].head].stratum == n
      requires forall f :: f in g.facts && f.view == prog.aggs[i].head ==> (f in ext <==> f in ext0)
      modifies models, this`stores, this`ext
      ensures MidwayState(n, ext0, asserted, present, cur) && Recomputed(prog, g, i, old(ext), ext, cur)
    {
      hide Grounded, Raised, Lowered, OnlySupported, NoRepeats, Midway, Mirrored, Indexed, Recomputed, Desired, AggregateFact, A.IsDesired;
      var a := prog.aggs[i];
      var v := a.head;
      AggregateReady(n, i, ext0, asserted, present, cur);
      var members := NewRows(a.input);
      MembersAre(prog, g, n, stores, w, ext0, ext, asserted, present, cur, a.input, members);
      var out := A.ReduceAggregate(a, members);
      DesiredRows(prog, g, i, cur, members, out);
      ghost var before := ext;
      RaiseDesired(n, v, out, ext0, asserted, present, cur);
      ghost var raised := ext;
      var rows := models[v].rows;
      LogIsListed(prog, g, i, n, stores, w, ext0, ext, asserted, present, cur);
      LogMirrors(v);
      LowerOthers(n, v, out, rows, before, ext0, asserted, present, cur);
      RecomputedAll(prog, g, i, out, rows, present, cur, before, raised, ext, ext0);
    }

    lemma AggregateReady(n: nat, i: nat, ext0: set<Fact>, asserted: set<Fact>, present: set<Fact>, cur: set<Fact>)
      requires Grounded() && MidwayState(n, ext0, asserted, present, cur) && i < |prog.aggs|
      ensures GoodProgram(prog) && g == GroundOf(prog) && Typed(prog, g)
      ensures StoresFit(prog, stores) && |stores| == |prog.views| == |models|
      ensures prog.aggs[i].head < |prog.views| && prog.aggs[i].input < |prog.views|
      ensures OnlySupported(g, prog.aggs[i].head, present, ext0)
    {
      hide GoodProgram, GroundOf, WellFormed, Typed, Midway, StoresFit, OnlySupported, Mirrored, Indexed, StartsFrom;
      GroundTyped(prog, g);
      MidwayFits(prog, g, n, stores, w, ext0, ext, asserted, present, cur, 0);
      AggregateViews(prog, g, i);
      AggregatesOnlySupported(prog, g, i, present, ext0);
    }

    lemma LogMirrors(v: nat)
      requires Mirrored() && v < |models|
      ensures |stores| == |models| && models[v].rows == stores[v].rows
    {
    }

    /** Recompute every aggregate of the stratum. */
    method RecomputeAggregates(n: nat, ghost ext0: set<Fact>, ghost asserted: set<Fact>)
      requires Grounded() && Linked() && Mirrored() && Indexed()
      requires Poised(prog, g, n, stores, w, ext0, ext, asserted)
      modifies models, this`stores, this`ext
      ensures Mirrored() && Indexed() && AtStratum(prog, g, n, stores, w, ext0, ext) && Explicit(g, stores) == asserted
      ensures Received(prog, asserted)
      ensures Accounted(prog, g, n, |prog.aggs|, asserted, ext0, ext, Snap(g, stores, w, ext).Current())
    {
      hide Grounded, Mirrored, Indexed, AtStratum, Explicit, Snap, State.Current, Accounted, Received, Recomputed;
      ghost var present, cur := Snap(g, stores, w, ext).present, Snap(g, stores, w, ext).Current();
      for i := 0 to |prog.aggs|
        invariant MidwayState(n, ext0, asserted, present, cur) && Received(prog, asserted)
        invariant Accounted(prog, g, n, i, asserted, ext0, ext, cur)
      {
        AggregateHeads(i);
        if prog.views[prog.aggs[i].head].stratum == n {
          AccountedWaits(prog, g, n, i, asserted, ext0, ext, cur);
          ghost var before := ext;
          RecomputeAggregate(n, i, ext0, asserted, present, cur);
          AccountedMore(prog, g, n, i, asserted, ext0, before, ext, cur);
        } else {
          AccountedSkips(prog, g, n, i, asserted, ext0, ext, cur);
        }
      }
    }

    lemma AggregateHeads(i: nat)
      requires Grounded() && i < |prog.aggs|
      ensures GoodProgram(prog) && g == GroundOf(prog) && prog.aggs[i].head < |prog.views|
    {
      hide WellFormed, GroundOf, GoodProgram;
      AggregateIn(prog, i);
    }

    lemma GroundedProgram()
      requires Grounded()
      ensures GoodProgram(prog) && g == GroundOf(prog)
    {
      hide WellFormed, GoodProgram, GroundOf;
    }

    /** All strata, lowest first. */
    method RunStrata(ghost ext0: set<Fact>, ghost asserted: set<Fact>) returns (r: Result<bool>)
      requires Grounded() && Linked() && Mirrored() && Indexed()
      requires Poised(prog, g, 0, stores, w, ext0, ext, asserted)
      modifies models, indexes, this`w, this`stores, this`ext
      ensures r.Success?
      ensures Mirrored() && Indexed() && Poised(prog, g, prog.numStrata, stores, w, ext0, ext, asserted)
    {
      hide Grounded, Mirrored, Indexed, AtStratum, Explicit, Snap, State.Current, Accounted, Received, SameExplicit, Poised, GoodProgram, GroundOf;
      GroundedProgram();
      for n := 0 to prog.numStrata
        invariant Mirrored() && Indexed() && Poised(prog, g, n, stores, w, ext0, ext, asserted)
      {
        RecomputeAggregates(n, ext0, asserted);
        ghost var ss, w0 := stores, w;
        var step := RunStratum(n, ext0);
        if step.Failure? {
          return Failure(step.Message());
        }
        PoisedAfter(prog, g, n, ss, w0, stores, w, ext0, ext, asserted);
      }
      r := Success(true);
    }

    // ----------------------------------------------------------------
    // The batch.

    method CommitOne(v: nat) returns (r: Result<bool>)
      requires Linked() && Mirrored() && Indexed() && v < |models| && stores[v].Valid()
      modifies models, this`stores
      ensures r.Failure? <==> Uncommittable(old(stores)[v])
      ensures r.Success? ==> Mirrored() && Indexed() && stores == old(stores)[v := stores[v]]
      ensures r.Success? ==> CommittedStore(old(stores)[v], stores[v])
    {
      hide Store.Valid, Uncommittable, IndexTable.Valid;
      r := CommitView(models[v]);
      stores := stores[v := models[v].Value()];
    }

    /** COMMIT every view. */
    method Commit() returns (r: Result<bool>)
      requires Linked() && Mirrored() && Indexed() && StoresFit(prog, stores)
      modifies models, this`stores
      ensures r.Failure? <==> exists v :: 0 <= v < |old(stores)| && Uncommittable(old(stores)[v])
      ensures r.Success? ==> Mirrored() && Indexed() && CommittedAll(old(stores), stores)
    {
      hide Mirrored, Indexed, StoresFit, CommittedStore, Uncommittable, Store.Valid;
      ghost var ss := stores;
      FitSize(prog, ss);
      for v := 0 to |models|
        invariant Mirrored() && Indexed() && |stores| == |ss|
        invariant forall u :: 0 <= u < |ss| ==> if u < v then CommittedStore(ss[u], stores[u]) else stores[u] == ss[u]
        invariant forall u :: 0 <= u < v ==> !Uncommittable(ss[u])
      {
        FitAt(prog, ss, v);
        var step := CommitOne(v);
        if step.Failure? {
          return Failure(step.Message());
        }
      }
      MirroredSize();
      r := Success(true);
    }

    /** The engine is between batches. */
    ghost predicate Settling()
      reads this, models, indexes
    {
      && Linked() && Mirrored() && Indexed()
      && Settled(prog, g, initFired, stores, w, ext) && Received(prog, Explicit(g, stores))
    }

    /** The asserted facts. */
    ghost function Asserted(): set<Fact>
      reads this
    {
      Explicit(g, stores)
    }

    /** The facts that are in. */
    ghost function Present(): set<Fact>
      reads this
    {
      Snap(g, stores, w, ext).present
    }

    /** The batch may start: init rules have fired. */
    method BeginBatch()
      requires Grounded() && Settling()
      modifies models, indexes, this`w, this`stores, this`initFired
      ensures initFired && IngestState(ext, Asserted(), Asserted(), old(Present()))
      ensures Asserted() == old(Asserted()) && ext == Support(prog, Asserted(), old(Present()))
    {
      hide Grounded, Mirrored, Indexed, GoodProgram, GroundOf, WellFormed, Settled, AtStratum, Explicit, Snap, State.Current, Ingesting, Received, SameExplicit, Support;
      GroundedProgram();
      GroundedTyped();
      ghost var ss, w0 := stores, w;
      SettledSupport(prog, g, initFired, ss, w0, ext);
      if !initFired {
        initFired := true;
        FireInitRules();
        SameExplicitSet(g, ss, stores);
      } else {
        SettledStarts(prog, g, ss, w0, ext);
        StartsCurrent(prog, g, ss, w0, ext);
      }
      IngestStarts(prog, g, Explicit(g, stores), Snap(g, ss, w0, ext).present);
    }

    /** Bring the materialization up to date with a batch: ingest, strata, commit. */
    method Maintain(ops: seq<BatchOp>) returns (r: Result<bool>)
      requires Grounded() && Settling() && OpsFit(prog, ops)
      modifies models, indexes, this`w, this`stores, this`ext, this`initFired
      ensures r.Success? && Settling() && initFired
      ensures Asserted() == Netted(prog, ops, old(Asserted()))
      ensures IsProgramModel(prog, g, Asserted(), Present())
    {
      hide Grounded, Mirrored, Indexed, GoodProgram, GroundOf, WellFormed, Settled, AtStratum, Explicit, Snap, State.Current, Received, Support, OpsFit, Netted,
        IngestingOn, Poised, AllBelow, IsProgramModel, Uncommittable, CommittedAll, StoresFit;
      GroundedProgram();
      GroundedTyped();
      BeginBatch();
      ghost var ext0, asserted0, x := ext, Asserted(), old(Present());
      ExplicitIsFacts(g, stores);
      IngestBatch(ops, ext0, asserted0, x);
      ghost var asserted := Netted(prog, ops, asserted0);
      IngestedIsPoised(prog, g, stores, w, ext, asserted0, asserted, x);
      r := RunStrata(ext0, asserted);
      if r.Failure? {
        return;
      }
      StrataBelow(prog, g);
      ghost var ss := stores;
      PoisedIsDone(prog, g, ss, w, ext0, ext, asserted);
      r := Commit();
      if r.Failure? {
        return;
      }
      CommitSettles(prog, g, ss, stores, w, ext0, ext);
      SettledIsModel(prog, g, stores, w, ext);
    }

    // ----------------------------------------------------------------
    // The cross-check.

    /** The asserted rows of every receive view, in log order. */
    method ExplicitRows() returns (facts: seq<seq<Row>>)
      requires Linked() && Mirrored() && StoresFit(prog, stores) && Received(prog, Explicit(g, stores))
      ensures FactsAre(prog, facts, Explicit(g, stores))
      ensures forall v :: 0 <= v < |facts| ==> NoRepeats(facts[v])
    {
      hide StoresFit, Explicit, Received, Mirrored, NoRepeats, Store.Interned;
      facts := [];
      MirroredSize();
      for v := 0 to |models|
        invariant |facts| == v && forall u :: 0 <= u < v ==> NoRepeats(facts[u])
        invariant forall u, row :: 0 <= u < v ==> (row in facts[u] <==> Fact(u, row) in Explicit(g, stores))
      {
        var rows: seq<Row> := [];
        if prog.views[v].receive {
          rows := ExplicitIn(v);
        } else {
          NotReceived(prog, Explicit(g, stores), v);
          NoRows();
        }
        facts := facts + [rows];
      }
    }

    lemma NoRows()
      ensures NoRepeats<Row>([])
    {
    }

    method ExplicitIn(v: nat) returns (rows: seq<Row>)
      requires Linked() && Mirrored() && StoresFit(prog, stores) && v < |models|
      ensures NoRepeats(rows)
      ensures forall row :: row in rows <==> Fact(v, row) in Explicit(g, stores)
    {
      hide StoresFit, Mirrored, Store.Interned, Explicit, NoRepeats, ExplicitBelow;
      ViewIs(v);
      ghost var s := stores[v];
      var vm := models[v];
      rows := [];
      ExplicitNone(s);
      for id := 0 to |vm.rows|
        invariant ExplicitBelow(s, id, rows)
      {
        ExplicitMore(s, id, rows);
        if vm.st[id].isExplicit {
          rows := rows + [vm.rows[id]];
        }
      }
      FactsFit();
      ExplicitAll(prog, g, stores, v, rows);
    }

    lemma FactsFit()
      requires Linked()
      ensures g.facts == AllFacts(prog)
    {
    }

    /** Count the instances of every rule over the evaluator's sets. */
    method CountInstances(ev: Evaluator) returns (e: Expectations)
      requires Grounded() && ev.Grounded() && ev.Valid() && ev.prog == prog && ev.g == g
      modifies ev.indexes
      ensures ev.Valid() && Counts(g, e, ActiveRules(g, |prog.rules|, ev.x), {})
    {
      hide Grounded, Evaluator.Grounded, Evaluator.Valid, Counts, ActiveRules, ActiveOf, DerivsShaped, ActiveListed, Headed, WellFormed, Listing, NoRepeats, Counted1;
      GroundedShaped();
      e := map[];
      CountsNothing(g);
      ActiveMore(g, 0, ev.x);
      for ri := 0 to |prog.rules|
        invariant ev.Valid() && Counts(g, e, ActiveRules(g, ri, ev.x), {})
      {
        var r := prog.rules[ri];
        var heads;
        ghost var ds;
        heads, ds := ev.EnumerateAll(ri);
        ActiveMore(g, ri, ev.x);
        ActiveIsListed(prog, g, ri, ev.x, heads, ds);
        ghost var done := ActiveRules(g, ri, ev.x);
        ListingNone(ds, done);
        for k := 0 to |heads|
          invariant ev.Valid() && Counts(g, e, done + Listing(ds[..k]), {})
        {
          ListingMore(ds, k, done, Listing(ds));
          HeadedIs(g, ds[k], r.head, heads[k], r.recursive, HeadStratum(prog, ri));
          CountsMore(g, e, done + Listing(ds[..k]), {}, ds[k]);
          e := Counted1(e, Fact(r.head, heads[k]), r.recursive);
        }
      }
    }

    lemma HeadedIs(gp: GroundProgram, d: Deriv, v: nat, head: Row, recursive: bool, n: nat)
      requires Headed(gp, d, v, head, recursive, n)
      ensures d in gp.derivs && d.head == Fact(v, head) && d.recursive == recursive
    {
    }

    /** Count the asserted facts' support. */
    method CountAsserted(e0: Expectations, facts: seq<seq<Row>>, ghost done: set<Deriv>, ghost asserted: set<Fact>) returns (e: Expectations)
      requires FactsAre(prog, facts, asserted) && forall v :: 0 <= v < |facts| ==> NoRepeats(facts[v])
      requires Counts(g, e0, done, {})
      ensures Counts(g, e, done, asserted)
    {
      hide Counts, FactsAre, NoRepeats, AssertedBelow, Counted1;
      e := e0;
      AssertedEnds(facts, 0);
      for v := 0 to |facts|
        invariant Counts(g, e, done, AssertedBelow(facts, v, 0))
      {
        for k := 0 to |facts[v]|
          invariant Counts(g, e, done, AssertedBelow(facts, v, k))
        {
          AssertedMore(facts, v, k);
          CountsSupport(g, e, done, AssertedBelow(facts, v, k), Fact(v, facts[v][k]));
          e := Counted1(e, Fact(v, facts[v][k]), false);
        }
        AssertedEnds(facts, v);
      }
      AssertedAll(prog, facts, asserted);
    }

    /** Count one for each row of each aggregate. */
    method CountSummaries(e0: Expectations, ev: Evaluator, ghost done: set<Deriv>, ghost asserted: set<Fact>) returns (e: Expectations)
      requires Grounded() && ev.Valid() && ev.prog == prog && ev.g == g && Received(prog, asserted)
      requires Counts(g, e0, done, asserted)
      ensures Counts(g, e, done, asserted + SummariesBelow(prog, ev.x, |prog.aggs|))
    {
      hide Grounded, Counts, Received, NoRepeats, SummariesBelow, RowsBelowK, Counted1, Evaluator.Mirrored, Evaluator.Indexed, GoodProgram, GroundOf;
      e := e0;
      GroundedProgram();
      SummariesNone(prog, ev.x, asserted);
      for i := 0 to |prog.aggs|
        invariant Counts(g, e, done, asserted + SummariesBelow(prog, ev.x, i))
      {
        AggregateHeads(i);
        var v := prog.aggs[i].head;
        var rows := ev.views[v].rows;
        ev.InputRows(v);
        ev.RowsInIs(ev.x, v);
        SummariesMore(prog, ev.x, i, rows);
        ghost var before := asserted + SummariesBelow(prog, ev.x, i);
        SummaryStarts(prog, before, i, rows, asserted, SummariesBelow(prog, ev.x, i));
        for k := 0 to |rows|
          invariant Counts(g, e, done, before + RowsBelowK(v, rows, k))
        {
          SummaryMore(before, v, rows, k);
          CountsSupport(g, e, done, before + RowsBelowK(v, rows, k), Fact(v, rows[k]));
          e := Counted1(e, Fact(v, rows[k]), false);
        }
        assert before + RowsBelowK(v, rows, |rows|) == asserted + (SummariesBelow(prog, ev.x, i) + RowsBelowK(v, rows, |rows|));
      }
    }

    /** Compare one view with its from-scratch counterpart, row by row. */
    method CompareView(v: nat, ev: Evaluator, e: Expectations) returns (r: Result<bool>)
      requires Linked() && Mirrored() && StoresFit(prog, stores) && ev.Linked() && ev.Mirrored() && v < |models| && ev.prog == prog
      ensures r.Success? <==> Agrees(stores, v, ev.x, e)
    {
      hide StoresFit, RowsIn, Mirrored, Linked, Store.Valid, Store.Interned, Evaluator.Mirrored, Evaluator.Linked, RowAgrees, ScratchView.Set;
      LinkedSize();
      ViewIs(v);
      EvaluatedView(ev, v);
      var vm := models[v];
      for id := 0 to |vm.rows|
        invariant forall k :: 0 <= k < id ==> RowAgrees(stores[v], v, ev.x, e, k)
      {
        var row := vm.rows[id];
        RowAgreesIs(stores[v], v, ev.x, e, id);
        if vm.st[id].inI != (row in ev.views[v].ids) {
          return Failure("presence mismatch");
        }
        var expected := Of(e, Fact(v, row));
        if vm.st[id].nr != expected.nr || vm.st[id].rc != expected.rc {
          return Failure("counter mismatch");
        }
      }
      for id := 0 to |ev.views[v].rows|
        invariant forall k :: 0 <= k < id ==> ev.views[v].rows[k] in vm.ids
      {
        if ev.views[v].rows[id] !in vm.ids {
          assert Fact(v, ev.views[v].rows[id]) in ev.x;
          return Failure("row derivable from scratch never materialized incrementally");
        }
      }
      return Success(true);
    }

    lemma LinkedSize()
      requires Linked()
      ensures |models| == |prog.views|
    {
    }

    lemma ViewIs(v: nat)
      requires Mirrored() && StoresFit(prog, stores) && v < |models|
      ensures v < |stores| && models[v].Value() == stores[v] && |stores[v].st| == |stores[v].rows|
      ensures stores[v].Interned()
    {
      FitAt(prog, stores, v);
    }

    lemma EvaluatedView(ev: Evaluator, v: nat)
      requires ev.Linked() && ev.Mirrored() && v < |ev.prog.views|
      ensures v < |ev.views|
      ensures forall row :: row in ev.views[v].ids <==> Fact(v, row) in ev.x
      ensures forall id :: 0 <= id < |ev.views[v].rows| ==> Fact(v, ev.views[v].rows[id]) in ev.x
      ensures forall row :: Fact(v, row) in ev.x ==> row in ev.views[v].rows
    {
      ev.RowsInIs(ev.x, v);
      hide RowsIn;
    }

    /** Evaluate the asserted facts from scratch and count every instance over the result. */
    method CountFromScratch() returns (ev: Evaluator, e: Expectations)
      requires Grounded() && Settling() && initFired
      ensures fresh(ev) && ev.prog == prog && ev.Linked() && ev.Mirrored() && ev.x == Present()
      ensures Counts(g, e, ActiveRules(g, |prog.rules|, Present()), ext)
    {
      hide Mirrored, Indexed, GoodProgram, GroundOf, WellFormed, Settled, Explicit, Snap, Received, Support, IsProgramModel, StoresFit,
        Evaluator.Mirrored, Evaluator.Indexed, Counts, ActiveRules, SummariesBelow, FactsAre, Evaluator.Linked, Linked;
      ghost var asserted, x := Asserted(), Present();
      SettledFits(prog, g, true, stores, w, ext);
      SettledIsModel(prog, g, stores, w, ext);
      SettledSupport(prog, g, true, stores, w, ext);
      ExplicitIsFacts(g, stores);
      var facts := ExplicitRows();
      ev := new Evaluator(prog, g);
      ev.Evaluate(facts, asserted);
      ProgramModelUnique(prog, g, asserted, ev.x, x);
      e := CountInstances(ev);
      e := CountAsserted(e, facts, ActiveRules(g, |prog.rules|, x), asserted);
      e := CountSummaries(e, ev, ActiveRules(g, |prog.rules|, x), asserted);
      SummariesAreSupport(prog, g, asserted, x);
    }

    /** Compare every view with the from-scratch evaluation. */
    method CheckAgainstScratch() returns (r: Result<bool>)
      requires Grounded() && Settling() && initFired
      ensures r.Success?
    {
      hide Grounded, Indexed, Mirrored, Settled, Explicit, Snap, Received, StoresFit, Evaluator.Mirrored, Evaluator.Linked, Counts, ActiveRules, Agrees, WellFormed, Typed;
      SettledFits(prog, g, true, stores, w, ext);
      var ev, e := CountFromScratch();
      RulesBound();
      GroundedTyped();
      for v := 0 to |models|
        invariant ev.Mirrored() && ev.x == Present()
      {
        SettledAgrees(prog, g, stores, w, ext, e, v);
        var step := CompareView(v, ev, e);
        if step.Failure? {
          return Failure(step.Message());
        }
      }
      return Success(true);
    }

    /** One message batch: maintain, then check against the from-scratch evaluation.  Nothing can
        abort, and the batch ends with the stratified least model of the netted facts, every
        counter the exact number of rule instances over it. */
    method RunBatch(ops: seq<BatchOp>) returns (r: Result<bool>)
      requires Grounded() && Settling() && OpsFit(prog, ops)
      modifies models, indexes, this`w, this`stores, this`ext, this`initFired
      ensures r.Success? && Settling() && initFired
      ensures Asserted() == Netted(prog, ops, old(Asserted()))
      ensures IsProgramModel(prog, g, Asserted(), Present())
      ensures ExactlyCounted(g, stores, Present(), Support(prog, Asserted(), Present()))
    {
      hide Grounded, Settling, Asserted, Present, OpsFit, Netted, IsProgramModel, ExactlyCounted;
      r := Maintain(ops);
      if r.Success? {
        r := CheckAgainstScratch();
      }
      SettlingCounted();
    }

    lemma SettlingCounted()
      requires Settling() && initFired
      ensures ExactlyCounted(g, stores, Present(), Support(prog, Asserted(), Present()))
    {
      hide Linked, Mirrored, Indexed, Settled, Explicit, Snap, Received, Support, ExactlyCounted;
      SettledSupport(prog, g, true, stores, w, ext);
      SettledIsCounted(prog, g, stores, w, ext);
    }

    /** A whole run: no batch of it can fail, and its final state is the model of the facts that
        survive all its batches. */
    method RunBatches(batches: seq<seq<BatchOp>>) returns (r: Result<bool>)
      requires Grounded() && Settling() && forall b :: b in batches ==> OpsFit(prog, b)
      modifies models, indexes, this`w, this`stores, this`ext, this`initFired
      ensures r.Success? && Settling()
      ensures Asserted() == NettedAll(prog, batches, old(Asserted()))
      ensures batches == [] ==> Present() == old(Present())
      ensures batches != [] ==> initFired && IsProgramModel(prog, g, Asserted(), Present())
      ensures batches != [] ==> ExactlyCounted(g, stores, Present(), Support(prog, Asserted(), Present()))
    {
      hide Grounded, Settling, Asserted, Present, OpsFit, Netted, IsProgramModel, ExactlyCounted, Support;
      ghost var asserted0 := Asserted();
      for i := 0 to |batches|
        invariant Settling() && Asserted() == NettedAll(prog, batches[..i], asserted0)
        invariant i == 0 ==> Present() == old(Present())
        invariant i > 0 ==> initFired && IsProgramModel(prog, g, Asserted(), Present())
        invariant i > 0 ==> ExactlyCounted(g, stores, Present(), Support(prog, Asserted(), Present()))
      {
        assert batches[i] in batches && batches[..i + 1] == batches[..i] + [batches[i]];
        var step := RunBatch(batches[i]);
        if step.Failure? {
          return Failure(step.Message());
        }
      }
      assert batches[..|batches|] == batches;
      r := Success(true);
    }
  }
}
