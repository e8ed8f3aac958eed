/** The read tables of the delta schema: what a seed pass and a claim round enumerate at each
    position of a rule is exactly what fires there. */
module Reads {
  import opened Ground
  import opened Weights
  import opened Model
  import opened Phase
  import opened Overdeletion
  import opened Firings
  import opened RowStore
  import opened Rules
  import opened Grounding
  import opened Snapshots

  /** Position `q` of the rule reads a view of the head's own stratum. */
  predicate SamePos(p: Program, r: Rule, q: nat) {
    && q < |r.pos2atom| && r.pos2atom[q] < |r.atoms| && r.head < |p.views|
    && r.atoms[r.pos2atom[q]].view < |p.views| && AtomStratum(p, r, r.pos2atom[q]) == p.views[r.head].stratum
  }

  /** A seed reads new rows before the delta position, batch-start rows after it. */
  function SeedReads(r: Rule, p: nat): (kinds: seq<ReadK>) {
    seq(|r.pos2atom|, q requires 0 <= q < |r.pos2atom| => if q < p then InNew else InI)
  }

  /** A claim round reads new rows at lower positions, the rows after the claim before the delta
      position and the rows before the claim after it. */
  function FixReads(p: Program, r: Rule, delta: nat, deleting: bool): (kinds: seq<ReadK>) {
    seq(|r.pos2atom|, q requires 0 <= q < |r.pos2atom| =>
      if !SamePos(p, r, q) then InNew
      else if q < delta then (if deleting then SurvivesSoFar else InNewWithFrontier)
      else (if deleting then AliveAtClaim else InNewSansFrontier))
  }

  /** The facts each position may see under the given membership predicates. */
  ghost function Tables(g: GroundProgram, ss: Stores, kinds: seq<ReadK>): (t: seq<set<Fact>>) {
    seq(|kinds|, q requires 0 <= q < |kinds| => Readable(g, ss, kinds[q]))
  }

  lemma KeptTables(g: GroundProgram, ss: Stores, ts: Stores, kinds: seq<ReadK>)
    requires Kept(ss, ts)
    ensures Tables(g, ts, kinds) == Tables(g, ss, kinds)
  {
    forall q | 0 <= q < |kinds| ensures Readable(g, ts, kinds[q]) == Readable(g, ss, kinds[q]) {
      KeptReadable(g, ss, ts, kinds[q]);
    }
  }

  /** The facts of view `v` at some log positions. */
  ghost function FactsAt(ss: Stores, v: nat, ids: seq<nat>): set<Fact> {
    if v < |ss| then set id | id in ids && id < |ss[v].rows| :: Fact(v, ss[v].rows[id]) else {}
  }

  function Frontier(s: Store, negated: bool, adding: bool): seq<nat> {
    if negated == adding then s.outDel else s.outAdd
  }

  ghost function OutDel(g: GroundProgram, ss: Stores): set<Fact> {
    set f | f in g.facts && f.view < |ss| && f.row in ss[f.view].RowsOf(ss[f.view].outDel)
  }

  ghost function OutAdd(g: GroundProgram, ss: Stores): set<Fact> {
    set f | f in g.facts && f.view < |ss| && f.row in ss[f.view].RowsOf(ss[f.view].outAdd)
  }

  // ------------------------------------------------------------------
  // One pass over the rules of a stratum.

  /** The log positions of view `v` in a round. */
  function OfView(round: seq<(nat, nat)>, v: nat): (ids: seq<nat>)
    ensures forall id :: id in ids <==> (v, id) in round
  {
    if round == [] then []
    else
      var ids := OfView(round[..|round| - 1], v);
      var last := round[|round| - 1];
      assert round == round[..|round| - 1] + [last];
      if last.0 == v then ids + [last.1] else ids
  }

  lemma {:induction false} OfViewNoRepeats(round: seq<(nat, nat)>, v: nat)
    requires NoRepeats(round)
    ensures NoRepeats(OfView(round, v))
  {
    if round != [] {
      OfViewNoRepeats(round[..|round| - 1], v);
      var most := round[..|round| - 1];
      assert forall i :: 0 <= i < |most| ==> most[i] != round[|round| - 1];
    }
  }

  /** A pass over a stratum's rules: seeds at the lower positions, or one claim round at the
      positions of the stratum itself. */
  datatype Sweep = Sweep(seeding: bool, adding: bool, round: seq<(nat, nat)>)

  function KindsAt(p: Program, r: Rule, q: nat, sweep: Sweep): (kinds: seq<ReadK>)
    ensures |kinds| == |r.pos2atom|
  {
    if sweep.seeding then SeedReads(r, q) else FixReads(p, r, q, !sweep.adding)
  }

  function DeltaIds(ss: Stores, r: Rule, q: nat, sweep: Sweep): seq<nat>
    requires q < |r.pos2atom| && r.pos2atom[q] < |r.atoms|
  {
    var a := r.atoms[r.pos2atom[q]];
    if a.view >= |ss| then []
    else if sweep.seeding then Frontier(ss[a.view], a.negated, sweep.adding)
    else OfView(sweep.round, a.view)
  }

  ghost predicate OfRule(g: GroundProgram, ri: nat, d: Deriv) {
    d in g.derivs && d.rule == ri
  }

  function HeadStratum(p: Program, ri: nat): nat
    requires ri < |p.rules|
  {
    if p.rules[ri].head < |p.views| then p.views[p.rules[ri].head].stratum else 0
  }

  /** At position `q`, the sweep enumerates exactly the derivations that fire there from `s` to `t`. */
  ghost predicate PositionFires(p: Program, g: GroundProgram, ss: Stores, sweep: Sweep, s: set<Fact>, t: set<Fact>,
                                ri: nat, q: nat)
    requires ri < |p.rules|
  {
    var r := p.rules[ri];
    q < |r.pos2atom| && r.pos2atom[q] < |r.atoms| ==>
      forall d :: OfRule(g, ri, d) ==>
        (FiresAt(d, q, s, t, sweep.adding) <==>
          SamePos(p, r, q) != sweep.seeding
          && DeltaReads(d, q, FactsAt(ss, r.atoms[r.pos2atom[q]].view, DeltaIds(ss, r, q, sweep)),
                        Tables(g, ss, KindsAt(p, r, q, sweep))))
  }

  /** The sweep enumerates exactly what fires from `s` to `t`, at every position of every rule. */
  ghost predicate SweepFires(p: Program, g: GroundProgram, n: nat, ss: Stores, sweep: Sweep, s: set<Fact>, t: set<Fact>) {
    forall ri: nat, q: nat :: ri < |p.rules| && HeadStratum(p, ri) == n ==> PositionFires(p, g, ss, sweep, s, t, ri, q)
  }

  /** What literal `q` of a derivation of rule `r` looks like. */
  ghost predicate LiteralShape(p: Program, g: GroundProgram, r: Rule, d: Deriv, q: nat) {
    && q < |d.body| == |r.pos2atom| && r.pos2atom[q] < |r.atoms|
    && d.body[q].fact in g.facts
    && d.body[q].fact.view == r.atoms[r.pos2atom[q]].view
    && d.body[q].negated == r.atoms[r.pos2atom[q]].negated
    && (Stratum(g, d.body[q].fact) == Stratum(g, d.head) <==> SamePos(p, r, q))
  }

  ghost predicate DerivShape(p: Program, g: GroundProgram, ri: nat, d: Deriv)
    requires ri < |p.rules|
  {
    var r := p.rules[ri];
    && |d.body| == |r.pos2atom|
    && Stratum(g, d.head) == HeadStratum(p, ri)
    && forall q :: 0 <= q < |d.body| ==> LiteralShape(p, g, r, d, q)
  }

  lemma ShapeOfLiteral(p: Program, ri: nat, rows: Assignment, q: nat)
    requires GoodProgram(p) && ri < |p.rules| && GoodRule(p, p.rules[ri]) && RowsFit(p, p.rules[ri], rows)
    requires q < |p.rules[ri].pos2atom|
    ensures LiteralShape(p, GroundOf(p), p.rules[ri], Instance(p.rules[ri], ri, rows), q)
    ensures Stratum(GroundOf(p), Instance(p.rules[ri], ri, rows).head) == HeadStratum(p, ri)
  {
    hide GoodProgram;
    LiteralFits(p, ri, rows, q);
  }

  lemma HeadFits(p: Program, ri: nat, rows: Assignment)
    requires GoodProgram(p) && ri < |p.rules| && GoodRule(p, p.rules[ri]) && RowsFit(p, p.rules[ri], rows)
    ensures Stratum(GroundOf(p), Instance(p.rules[ri], ri, rows).head) == HeadStratum(p, ri)
  {
  }

  lemma ShapeOf(p: Program, g: GroundProgram, ri: nat, d: Deriv)
    requires GoodProgram(p) && g == GroundOf(p) && ri < |p.rules| && OfRule(g, ri, d)
    ensures GoodRule(p, p.rules[ri]) && DerivShape(p, g, ri, d) && WellFormedDeriv(g, d)
  {
    var rows := DerivIsInstance(p, d);
    DerivOfRule(p, d);
    assert RowsFit(p, p.rules[ri], rows);
    HeadFits(p, ri, rows);
    hide WellFormedDeriv, LiteralShape, GoodProgram, GroundOf, GoodRule, Matches, Stratum;
    forall q: nat | q < |d.body| ensures LiteralShape(p, g, p.rules[ri], d, q) {
      ShapeOfLiteral(p, ri, rows, q);
    }
  }

  /** Every derivation has the shape of its rule. */
  ghost predicate DerivsShaped(p: Program, g: GroundProgram) {
    forall ri: nat, d :: ri < |p.rules| && OfRule(g, ri, d) ==> DerivShape(p, g, ri, d) && WellFormedDeriv(g, d)
  }

  lemma GroundShaped(p: Program, g: GroundProgram)
    requires GoodProgram(p) && g == GroundOf(p)
    ensures DerivsShaped(p, g)
  {
    hide GoodProgram, GroundOf, DerivShape, WellFormedDeriv, OfRule;
    forall ri: nat, d | ri < |p.rules| && OfRule(g, ri, d) ensures DerivShape(p, g, ri, d) && WellFormedDeriv(g, d) {
      ShapeOf(p, g, ri, d);
    }
  }

  // ------------------------------------------------------------------
  // Seeds.

  /** What a seed pass of stratum `n` relies on: `s0` is the state that reached the stratum. */
  ghost predicate SeedsReady(g: GroundProgram, n: nat, ss: Stores, s0: State) {
    && Shaped(g, s0) && DoneBelow(g, n, s0)
    && FrontiersBelow(g, n, s0, OutDel(g, ss), OutAdd(g, ss))
    && Readable(g, ss, InI) == s0.present
    && Below(g, Readable(g, ss, InNew), n) == Below(g, s0.Current(), n)
    && At(g, s0.Current(), n) == At(g, s0.present, n)
  }

  /** A literal of the right view is in the frontier its position enumerates. */
  lemma FrontierMember(p: Program, g: GroundProgram, ss: Stores, r: Rule, d: Deriv, q: nat, sweep: Sweep)
    requires sweep.seeding && LiteralShape(p, g, r, d, q)
    requires r.atoms[r.pos2atom[q]].view < |ss|
    ensures d.body[q].fact in FactsAt(ss, r.atoms[r.pos2atom[q]].view, DeltaIds(ss, r, q, sweep))
        <==> d.body[q].fact in FrontierOf(d.body[q], sweep.adding, OutDel(g, ss), OutAdd(g, ss))
  {
    var f := d.body[q].fact;
    var st := ss[f.view];
    var ids := DeltaIds(ss, r, q, sweep);
    assert ids == Frontier(st, d.body[q].negated, sweep.adding);
    assert f.row in st.RowsOf(ids) <==> f in FactsAt(ss, f.view, ids);
  }

  lemma SeedTableIs(g: GroundProgram, ss: Stores, r: Rule, q: nat, k: nat)
    requires k == |r.pos2atom|
    ensures Tables(g, ss, SeedReads(r, q)) == SeedTable(q, k, Readable(g, ss, InI), Readable(g, ss, InNew))
  {
  }

  lemma SeedFiresAt(p: Program, g: GroundProgram, n: nat, ss: Stores, sweep: Sweep, s0: State, ri: nat, q: nat, d: Deriv)
    requires SeedsReady(g, n, ss, s0) && sweep.seeding && |ss| == |p.views|
    requires ri < |p.rules| && OfRule(g, ri, d) && DerivShape(p, g, ri, d) && WellFormedDeriv(g, d)
    requires HeadStratum(p, ri) == n && q < |p.rules[ri].pos2atom|
    requires p.rules[ri].pos2atom[q] < |p.rules[ri].atoms| && p.rules[ri].atoms[p.rules[ri].pos2atom[q]].view < |ss|
    ensures
      var r := p.rules[ri];
      FiresAt(d, q, s0.present, s0.Current(), sweep.adding) <==>
        !SamePos(p, r, q)
        && DeltaReads(d, q, FactsAt(ss, r.atoms[r.pos2atom[q]].view, DeltaIds(ss, r, q, sweep)), Tables(g, ss, SeedReads(r, q)))
  {
    hide DoneBelow, FrontiersBelow, WellFormedDeriv, FiresAt, DeltaReads, Tables, DeltaIds, FactsAt, Flips, SeedTable, Readable, State.Current;
    var r := p.rules[ri];
    var mid := s0.Current();
    assert LiteralShape(p, g, r, d, q);
    var deltas := FactsAt(ss, r.atoms[r.pos2atom[q]].view, DeltaIds(ss, r, q, sweep));
    if SamePos(p, r, q) {
      SeedSkipsSame(g, n, s0, mid, d, q, sweep.adding);
    } else {
      BodyBelow(g, d, q);
      FrontierMember(p, g, ss, r, d, q, sweep);
      LowerFlips(g, n, s0, mid, OutDel(g, ss), OutAdd(g, ss), d.body[q], sweep.adding);
      SeedTableIs(g, ss, r, q, |d.body|);
      SeedReadsFire(g, n, s0, mid, Readable(g, ss, InNew), d, q, deltas, sweep.adding);
    }
  }

  lemma BodyBelow(g: GroundProgram, d: Deriv, q: nat)
    requires WellFormedDeriv(g, d) && q < |d.body|
    ensures Stratum(g, d.body[q].fact) <= Stratum(g, d.head)
  {
  }

  /** A seed pass fires exactly the change from the batch-start state to the new lower state. */
  lemma SeedsFire(p: Program, g: GroundProgram, n: nat, ss: Stores, sweep: Sweep, s0: State)
    requires DerivsShaped(p, g) && SeedsReady(g, n, ss, s0) && sweep.seeding && |ss| == |p.views|
    requires forall i, q :: 0 <= i < |p.rules| && 0 <= q < |p.rules[i].pos2atom| ==> ReadsView(p, i, q)
    ensures SweepFires(p, g, n, ss, sweep, s0.present, s0.Current())
  {
    hide SeedsReady, FiresAt, DeltaReads, FactsAt, Tables, DerivShape, SamePos, WellFormedDeriv, DeltaIds;
    forall ri: nat, q: nat, d | ri < |p.rules| && HeadStratum(p, ri) == n && q < |p.rules[ri].pos2atom|
        && p.rules[ri].pos2atom[q] < |p.rules[ri].atoms| && OfRule(g, ri, d)
      ensures
        var r := p.rules[ri];
        FiresAt(d, q, s0.present, s0.Current(), sweep.adding) <==>
          !SamePos(p, r, q)
          && DeltaReads(d, q, FactsAt(ss, r.atoms[r.pos2atom[q]].view, DeltaIds(ss, r, q, sweep)), Tables(g, ss, KindsAt(p, r, q, sweep)))
    {
      assert ReadsView(p, ri, q);
      SeedFiresAt(p, g, n, ss, sweep, s0, ri, q, d);
    }
  }

  ghost predicate ReadsView(p: Program, ri: nat, q: nat)
    requires ri < |p.rules|
  {
    var r := p.rules[ri];
    q < |r.pos2atom| && r.pos2atom[q] < |r.atoms| && r.atoms[r.pos2atom[q]].view < |p.views|
  }

  // ------------------------------------------------------------------
  // Claim rounds.

  /** The rows of stratum `n` that a claim round reads before and after the delta position. */
  function Before(adding: bool): ReadK {
    if adding then InNewWithFrontier else SurvivesSoFar
  }

  function After(adding: bool): ReadK {
    if adding then InNewSansFrontier else AliveAtClaim
  }

  /** What a claim round of stratum `n` relies on: it moves the state from `s` to `t`. */
  ghost predicate RoundReady(g: GroundProgram, n: nat, ss: Stores, sweep: Sweep, s: set<Fact>, t: set<Fact>, claimed: set<Fact>) {
    && RoundOf(g, n, s, t, claimed, sweep.adding)
    && (forall f :: f in g.facts && Stratum(g, f) < n ==> SameAt(f, Readable(g, ss, InNew), t))
    && (forall f :: f in g.facts && Stratum(g, f) == n ==>
          && SameAt(f, Readable(g, ss, Before(sweep.adding)), t)
          && SameAt(f, Readable(g, ss, After(sweep.adding)), s)
          && (f in claimed <==> f in FactsAt(ss, f.view, OfView(sweep.round, f.view))))
  }

  lemma RoundTableIs(p: Program, g: GroundProgram, n: nat, ss: Stores, sweep: Sweep, s: set<Fact>, t: set<Fact>,
                     claimed: set<Fact>, ri: nat, q: nat, d: Deriv)
    requires RoundReady(g, n, ss, sweep, s, t, claimed) && ri < |p.rules| && q < |d.body|
    requires DerivShape(p, g, ri, d) && WellFormedDeriv(g, d) && Stratum(g, d.head) == n && SamePos(p, p.rules[ri], q)
    ensures RoundTable(g, n, d, q, s, t, Tables(g, ss, FixReads(p, p.rules[ri], q, !sweep.adding)))
  {
    hide Readable;
    var r := p.rules[ri];
    var table := Tables(g, ss, FixReads(p, r, q, !sweep.adding));
    forall k: nat | k < |d.body| && k != q
      ensures if k < q then SameAt(d.body[k].fact, table[k], t) else SameAt(d.body[k].fact, table[k], s)
    {
      assert LiteralShape(p, g, r, d, k) && LiteralShape(p, g, r, d, q);
      assert table[k] == Readable(g, ss, FixReads(p, r, q, !sweep.adding)[k]);
      if Stratum(g, d.body[k].fact) < n {
        assert SameAt(d.body[k].fact, s, t);
      }
    }
  }

  lemma RoundFiresAt(p: Program, g: GroundProgram, n: nat, ss: Stores, sweep: Sweep, s: set<Fact>, t: set<Fact>,
                     claimed: set<Fact>, ri: nat, q: nat, d: Deriv)
    requires RoundReady(g, n, ss, sweep, s, t, claimed) && !sweep.seeding && |ss| == |p.views|
    requires ri < |p.rules| && OfRule(g, ri, d) && DerivShape(p, g, ri, d) && WellFormedDeriv(g, d)
    requires HeadStratum(p, ri) == n && q < |p.rules[ri].pos2atom|
    requires p.rules[ri].pos2atom[q] < |p.rules[ri].atoms| && p.rules[ri].atoms[p.rules[ri].pos2atom[q]].view < |ss|
    ensures
      var r := p.rules[ri];
      FiresAt(d, q, s, t, sweep.adding) <==>
        SamePos(p, r, q)
        && DeltaReads(d, q, FactsAt(ss, r.atoms[r.pos2atom[q]].view, DeltaIds(ss, r, q, sweep)),
                      Tables(g, ss, FixReads(p, r, q, !sweep.adding)))
  {
    var r := p.rules[ri];
    assert LiteralShape(p, g, r, d, q);
    BodyBelow(g, d, q);
    RoundIsOf(g, n, ss, sweep, s, t, claimed);
    if SamePos(p, r, q) {
      var table := Tables(g, ss, FixReads(p, r, q, !sweep.adding));
      var deltas := FactsAt(ss, r.atoms[r.pos2atom[q]].view, DeltaIds(ss, r, q, sweep));
      assert d.body[q].fact in deltas <==> d.body[q].fact in claimed;
      hide RoundReady, WellFormedDeriv, FiresAt, Tables, DeltaIds, FactsAt, RoundTable, RoundOf, DerivShape;
      RoundTableIs(p, g, n, ss, sweep, s, t, claimed, ri, q, d);
      RoundReadsFire(g, n, s, t, claimed, d, q, table, sweep.adding);
    } else {
      hide RoundReady, WellFormedDeriv, FiresAt, Tables, DeltaIds, FactsAt, RoundTable, RoundOf, DerivShape;
      RoundSkipsLower(g, n, s, t, claimed, d, q, sweep.adding);
    }
  }

  lemma RoundIsOf(g: GroundProgram, n: nat, ss: Stores, sweep: Sweep, s: set<Fact>, t: set<Fact>, claimed: set<Fact>)
    requires RoundReady(g, n, ss, sweep, s, t, claimed)
    ensures RoundOf(g, n, s, t, claimed, sweep.adding)
  {
  }

  /** A claim round fires exactly the change it makes. */
  lemma RoundFires(p: Program, g: GroundProgram, n: nat, ss: Stores, sweep: Sweep, s: set<Fact>, t: set<Fact>, claimed: set<Fact>)
    requires DerivsShaped(p, g) && RoundReady(g, n, ss, sweep, s, t, claimed) && !sweep.seeding && |ss| == |p.views|
    requires forall i, q :: 0 <= i < |p.rules| && 0 <= q < |p.rules[i].pos2atom| ==> ReadsView(p, i, q)
    ensures SweepFires(p, g, n, ss, sweep, s, t)
  {
    hide RoundReady, FiresAt, DeltaReads, FactsAt, Tables, DerivShape, SamePos, WellFormedDeriv, DeltaIds;
    forall ri: nat, q: nat, d | ri < |p.rules| && HeadStratum(p, ri) == n && q < |p.rules[ri].pos2atom|
        && p.rules[ri].pos2atom[q] < |p.rules[ri].atoms| && OfRule(g, ri, d)
      ensures
        var r := p.rules[ri];
        FiresAt(d, q, s, t, sweep.adding) <==>
          SamePos(p, r, q)
          && DeltaReads(d, q, FactsAt(ss, r.atoms[r.pos2atom[q]].view, DeltaIds(ss, r, q, sweep)), Tables(g, ss, KindsAt(p, r, q, sweep)))
    {
      assert ReadsView(p, ri, q);
      RoundFiresAt(p, g, n, ss, sweep, s, t, claimed, ri, q, d);
    }
  }
}
