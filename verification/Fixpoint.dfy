/** Why a worklist finds the least model: rules with an atom of their own stratum fire only from
    worklist rows, the other positions reading the sets as they are. */
module Fixpoint {
  import opened Ground
  import opened Weights
  import opened Model
  import opened Firings
  import opened RowStore
  import opened Rules
  import opened Grounding
  import opened Reads
  import opened Deltas
  import opened Sweeps
  import opened Supports
  import opened Rounds
  import A = Aggregates

  ghost predicate HasSame(g: GroundProgram, d: Deriv) {
    exists p :: 0 <= p < |d.body| && Stratum(g, d.body[p].fact) == Stratum(g, d.head)
  }

  /** `x` holds the model of the strata below `n` and, in stratum `n`, rows of its least model. */
  ghost predicate Sound(g: GroundProgram, n: nat, ext: set<Fact>, x: set<Fact>) {
    && x <= g.facts && ext <= g.facts
    && (forall f :: f in x ==> Stratum(g, f) <= n)
    && (forall m: nat :: m < n ==> At(g, x, m) == Least(g, m, Below(g, x, m), ext))
    && At(g, x, n) <= Least(g, n, Below(g, x, n), ext)
  }

  /** Rows already processed have fired with one another: their consequences are in. */
  ghost predicate Processed(g: GroundProgram, n: nat, x: set<Fact>, done: set<Fact>) {
    && done <= At(g, x, n)
    && forall d :: d in g.derivs && Stratum(g, d.head) == n && HasSame(g, d) && Active(d, Below(g, x, n) + done)
         ==> d.head in x
  }

  /** Everything of the stratum that needs no row of the stratum is in. */
  ghost predicate Seeded(g: GroundProgram, n: nat, ext: set<Fact>, x: set<Fact>) {
    && At(g, ext, n) <= x
    && forall d :: d in g.derivs && Stratum(g, d.head) == n && !HasSame(g, d) && Active(d, Below(g, x, n)) ==> d.head in x
  }

  /** A derivation active over sound rows has its head in the least model. */
  lemma SoundFires(g: GroundProgram, n: nat, ext: set<Fact>, x: set<Fact>, d: Deriv)
    requires WellFormed(g) && Sound(g, n, ext, x) && d in g.derivs && Stratum(g, d.head) == n && Active(d, x)
    ensures d.head in Least(g, n, Below(g, x, n), ext)
  {
    var goal := Least(g, n, Below(g, x, n), ext);
    LeastIsClosed(g, n, Below(g, x, n), ext);
    ActiveSplit(g, d, n, x);
    ActiveMonotone(g, d, n, Below(g, x, n), At(g, x, n), goal);
  }

  lemma SupportIsSound(g: GroundProgram, n: nat, ext: set<Fact>, x: set<Fact>, f: Fact)
    requires WellFormed(g) && Sound(g, n, ext, x) && f in ext && Stratum(g, f) == n
    ensures f in Least(g, n, Below(g, x, n), ext)
  {
    LeastIsClosed(g, n, Below(g, x, n), ext);
    assert f in At(g, ext, n);
  }

  lemma AddedBelow(g: GroundProgram, n: nat, x: set<Fact>, f: Fact, m: nat)
    requires Stratum(g, f) == n
    ensures m <= n ==> Below(g, x + {f}, m) == Below(g, x, m)
    ensures m < n ==> At(g, x + {f}, m) == At(g, x, m)
    ensures At(g, x + {f}, n) == At(g, x, n) + {f}
  {
  }

  /** Adding a row of the least model keeps everything. */
  lemma SoundGrows(g: GroundProgram, n: nat, ext: set<Fact>, x: set<Fact>, f: Fact)
    requires Sound(g, n, ext, x) && f in Least(g, n, Below(g, x, n), ext)
    ensures Sound(g, n, ext, x + {f})
  {
    AddedBelow(g, n, x, f, n);
    forall m: nat | m < n ensures At(g, x + {f}, m) == Least(g, m, Below(g, x + {f}, m), ext) {
      AddedBelow(g, n, x, f, m);
    }
  }

  lemma ProcessedGrows(g: GroundProgram, n: nat, x: set<Fact>, done: set<Fact>, f: Fact)
    requires Processed(g, n, x, done) && Stratum(g, f) == n
    ensures Processed(g, n, x + {f}, done)
  {
    AddedBelow(g, n, x, f, n);
  }

  /** A row taken off the worklist has fired at every position of its view: its consequences
      together with the rows processed before it are in. */
  ghost predicate Popped(g: GroundProgram, n: nat, x0: set<Fact>, x: set<Fact>, f: Fact) {
    forall d, p: nat :: d in g.derivs && Stratum(g, d.head) == n && DeltaReads(d, p, {f}, Uniformly(|d.body|, x0)) ==> d.head in x
  }

  ghost function Uniformly(k: nat, s: set<Fact>): (t: seq<set<Fact>>) {
    seq(k, _ => s)
  }

  lemma ProcessedMore(g: GroundProgram, n: nat, x0: set<Fact>, x: set<Fact>, done: set<Fact>, f: Fact)
    requires (forall d :: d in g.derivs ==> WellFormedDeriv(g, d)) && Processed(g, n, x, done) && Popped(g, n, x0, x, f)
    requires f in At(g, x0, n) && x0 <= x && done <= x0 && Below(g, x0, n) == Below(g, x, n)
    ensures Processed(g, n, x, done + {f})
  {
    forall d | d in g.derivs && Stratum(g, d.head) == n && HasSame(g, d) && Active(d, Below(g, x, n) + (done + {f}))
      ensures d.head in x
    {
      if p: nat :| p < |d.body| && d.body[p].fact == f {
        DeltaOf(g, n, x0, x, done, f, d, p);
      } else {
        WithoutRow(g, n, x, done, f, d);
      }
    }
  }

  lemma DeltaOf(g: GroundProgram, n: nat, x0: set<Fact>, x: set<Fact>, done: set<Fact>, f: Fact, d: Deriv, p: nat)
    requires WellFormedDeriv(g, d) && Stratum(g, d.head) == n && p < |d.body| && d.body[p].fact == f
    requires f in At(g, x0, n) && done <= At(g, x0, n) && Below(g, x0, n) == Below(g, x, n)
    requires Active(d, Below(g, x, n) + (done + {f}))
    ensures DeltaReads(d, p, {f}, Uniformly(|d.body|, x0))
  {
    forall q | 0 <= q < |d.body| ensures Holds(d.body[q], x0) {
      assert Holds(d.body[q], Below(g, x, n) + (done + {f}));
      assert d.body[q].fact in Below(g, x0, n) <==> d.body[q].fact in Below(g, x, n);
    }
  }

  lemma WithoutRow(g: GroundProgram, n: nat, x: set<Fact>, done: set<Fact>, f: Fact, d: Deriv)
    requires forall p :: 0 <= p < |d.body| ==> d.body[p].fact != f
    requires Active(d, Below(g, x, n) + (done + {f}))
    ensures Active(d, Below(g, x, n) + done)
  {
    forall p | 0 <= p < |d.body| ensures Holds(d.body[p], Below(g, x, n) + done) {
      assert Holds(d.body[p], Below(g, x, n) + (done + {f}));
    }
  }

  /** A derivation without a row of its own stratum reads the finished strata only. */
  lemma ReadsBelowOnly(g: GroundProgram, n: nat, d: Deriv, x: set<Fact>)
    requires WellFormedDeriv(g, d) && Stratum(g, d.head) == n && !HasSame(g, d)
    ensures Active(d, x) == Active(d, Below(g, x, n))
  {
    forall p | 0 <= p < |d.body| ensures Holds(d.body[p], x) == Holds(d.body[p], Below(g, x, n)) {
      assert Stratum(g, d.body[p].fact) != n;
    }
  }

  /** The worklist is empty: the stratum holds its least model. */
  lemma StratumComplete(g: GroundProgram, n: nat, ext: set<Fact>, x: set<Fact>)
    requires WellFormed(g) && Sound(g, n, ext, x) && Seeded(g, n, ext, x) && Processed(g, n, x, At(g, x, n))
    ensures At(g, x, n) == Least(g, n, Below(g, x, n), ext)
    ensures Sound(g, n + 1, ext, x)
  {
    var lower := Below(g, x, n);
    forall d | d in g.derivs && Stratum(g, d.head) == n && Active(d, lower + At(g, x, n)) ensures d.head in At(g, x, n) {
      if !HasSame(g, d) {
        ReadsBelowOnly(g, n, d, lower + At(g, x, n));
        assert Below(g, lower + At(g, x, n), n) == lower;
      }
    }
    LeastIsLeast(g, n, lower, ext, At(g, x, n));
    assert At(g, x, n + 1) == {};
  }

  // ------------------------------------------------------------------
  // The worklist.

  ghost function Facts(work: seq<Fact>): set<Fact> {
    set f | f in work
  }

  /** The worklist holds exactly the rows of the stratum that have not been processed. */
  ghost predicate Pending(g: GroundProgram, n: nat, x: set<Fact>, done: set<Fact>, work: seq<Fact>) {
    NoRepeats(work) && done !! Facts(work) && done + Facts(work) == At(g, x, n)
  }

  /** The state of the evaluator inside stratum `n`; the rows in `popped` are being fired. */
  ghost predicate Underway(g: GroundProgram, n: nat, ext: set<Fact>, x: set<Fact>, done: set<Fact>, popped: set<Fact>, work: seq<Fact>) {
    Sound(g, n, ext, x) && Processed(g, n, x, done) && Pending(g, n, x, done + popped, work)
  }

  lemma UnderwayStarts(g: GroundProgram, n: nat, ext: set<Fact>, x: set<Fact>)
    requires WellFormed(g) && Sound(g, n, ext, x) && At(g, x, n) == {}
    ensures Underway(g, n, ext, x, {}, {}, [])
  {
    forall d | d in g.derivs && HasSame(g, d) && Stratum(g, d.head) == n ensures !Active(d, Below(g, x, n) + {}) {
      var p :| 0 <= p < |d.body| && Stratum(g, d.body[p].fact) == Stratum(g, d.head);
      assert !Holds(d.body[p], Below(g, x, n) + {});
    }
  }

  lemma LeastIn(g: GroundProgram, n: nat, lower: set<Fact>, ext: set<Fact>, f: Fact)
    requires f in Least(g, n, lower, ext)
    ensures f in g.facts && Stratum(g, f) == n
  {
  }

  /** Adding a row of the least model: it goes on the worklist unless it was there. */
  lemma UnderwayAdds(g: GroundProgram, n: nat, ext: set<Fact>, x: set<Fact>, done: set<Fact>, popped: set<Fact>, work: seq<Fact>, f: Fact)
    requires Underway(g, n, ext, x, done, popped, work) && f in Least(g, n, Below(g, x, n), ext)
    ensures Underway(g, n, ext, x + {f}, done, popped, if f in x then work else work + [f])
    ensures Below(g, x + {f}, n) == Below(g, x, n)
  {
    hide Sound, Processed;
    LeastIn(g, n, Below(g, x, n), ext, f);
    SoundGrows(g, n, ext, x, f);
    ProcessedGrows(g, n, x, done, f);
    AddedBelow(g, n, x, f, n);
    PendingGrows(g, n, x, done + popped, work, f);
  }

  lemma PendingGrows(g: GroundProgram, n: nat, x: set<Fact>, done: set<Fact>, work: seq<Fact>, f: Fact)
    requires Pending(g, n, x, done, work) && Stratum(g, f) == n
    ensures Pending(g, n, x + {f}, done, if f in x then work else work + [f])
  {
    AddedBelow(g, n, x, f, n);
    if f in x {
      assert x + {f} == x;
    } else {
      assert f !in At(g, x, n);
      assert Facts(work + [f]) == Facts(work) + {f};
    }
  }

  /** The last row comes off the worklist. */
  lemma UnderwayPops(g: GroundProgram, n: nat, ext: set<Fact>, x: set<Fact>, done: set<Fact>, work: seq<Fact>)
    requires Underway(g, n, ext, x, done, {}, work) && work != []
    ensures Underway(g, n, ext, x, done, {work[|work| - 1]}, work[..|work| - 1])
    ensures
      var f := work[|work| - 1];
      f in x && f in g.facts && Stratum(g, f) == n && f !in done && done <= x
  {
    hide Processed;
    var f := work[|work| - 1];
    var rest := work[..|work| - 1];
    assert done + {} == done;
    assert f in Facts(work) && f in At(g, x, n);
    assert Facts(work) == Facts(rest) + {f} && f !in Facts(rest);
    assert done <= At(g, x, n);
  }

  /** Its consequences are in: it has been processed. */
  lemma UnderwayDone(g: GroundProgram, n: nat, ext: set<Fact>, x0: set<Fact>, x: set<Fact>, done: set<Fact>, work: seq<Fact>, f: Fact)
    requires WellFormed(g) && Underway(g, n, ext, x, done, {f}, work)
    requires f in x0 && f in g.facts && Stratum(g, f) == n && x0 <= x && done <= x0 && Below(g, x0, n) == Below(g, x, n)
    requires Popped(g, n, x0, x, f)
    ensures Underway(g, n, ext, x, done + {f}, {}, work)
  {
    hide Sound, Popped, WellFormedDeriv;
    ProcessedMore(g, n, x0, x, done, f);
    assert done + {f} + {} == done + {f};
  }

  // ------------------------------------------------------------------
  // Firing a popped row, position by position.

  ghost predicate PositionPopped(g: GroundProgram, n: nat, x0: set<Fact>, x: set<Fact>, f: Fact, ri: nat, q: nat) {
    forall d :: d in g.derivs && d.rule == ri && Stratum(g, d.head) == n && DeltaReads(d, q, {f}, Uniformly(|d.body|, x0)) ==> d.head in x
  }

  /** What the enumerator lists for the popped row is in the least model. */
  lemma PoppedHeads(p: Program, g: GroundProgram, n: nat, ext: set<Fact>, x: set<Fact>, done: set<Fact>, work: seq<Fact>, f: Fact,
                    ri: nat, q: nat, heads: seq<Row>, ds: seq<Deriv>)
    requires DerivsShaped(p, g) && WellFormed(g) && Underway(g, n, ext, x, done, {f}, work) && f in x
    requires ri < |p.rules| && HeadStratum(p, ri) == n && q < |p.rules[ri].pos2atom|
    requires SamePos(p, p.rules[ri], q)
    requires DeltaListed(p, g, ri, q, f, Uniformly(|p.rules[ri].pos2atom|, x), heads, ds)
    ensures forall row :: row in heads ==> Fact(p.rules[ri].head, row) in Least(g, n, Below(g, x, n), ext)
  {
    hide DerivsShaped, WellFormed, Sound, Processed, Pending, Least, WellFormedDeriv;
    forall k | 0 <= k < |ds| ensures Fact(p.rules[ri].head, heads[k]) in Least(g, n, Below(g, x, n), ext) {
      var d := ds[k];
      assert d in ds && Listed(p, g, ri, d, heads[k]);
      ListedHeaded(p, g, ri, d, heads[k]);
      DerivLength(p, g, ri, d);
      PoppedIsActive(p, g, ri, q, d, x, f);
      SoundFires(g, n, ext, x, d);
    }
    assert forall row :: row in heads ==> exists k :: 0 <= k < |heads| && heads[k] == row;
  }

  lemma DerivLength(p: Program, g: GroundProgram, ri: nat, d: Deriv)
    requires DerivsShaped(p, g) && ri < |p.rules| && d in g.derivs && d.rule == ri
    ensures |d.body| == |p.rules[ri].pos2atom| && WellFormedDeriv(g, d) && DerivShape(p, g, ri, d)
  {
    assert OfRule(g, ri, d);
  }

  lemma PoppedIsActive(p: Program, g: GroundProgram, ri: nat, q: nat, d: Deriv, x: set<Fact>, f: Fact)
    requires ri < |p.rules| && DerivShape(p, g, ri, d) && WellFormedDeriv(g, d) && f in x && SamePos(p, p.rules[ri], q)
    requires DeltaReads(d, q, {f}, Uniformly(|d.body|, x))
    ensures Active(d, x)
  {
    assert LiteralShape(p, g, p.rules[ri], d, q);
    assert !d.body[q].negated && d.body[q].fact == f;
    forall k | 0 <= k < |d.body| ensures Holds(d.body[k], x) {
    }
  }

  /** Reading a larger set of the stratum's rows enumerates at least as much. */
  lemma DeltaGrows(g: GroundProgram, n: nat, d: Deriv, q: nat, f: Fact, x0: set<Fact>, x: set<Fact>)
    requires WellFormedDeriv(g, d) && Stratum(g, d.head) == n && x0 <= x && forall e :: e in x && e !in x0 ==> Stratum(g, e) == n
    requires DeltaReads(d, q, {f}, Uniformly(|d.body|, x0))
    ensures DeltaReads(d, q, {f}, Uniformly(|d.body|, x))
  {
    forall k | 0 <= k < |d.body| && k != q ensures Holds(d.body[k], x) {
      assert Holds(d.body[k], Uniformly(|d.body|, x0)[k]);
    }
  }

  lemma PositionIsPopped(p: Program, g: GroundProgram, n: nat, x0: set<Fact>, before: set<Fact>, x: set<Fact>, f: Fact,
                         ri: nat, q: nat, heads: seq<Row>, ds: seq<Deriv>)
    requires DerivsShaped(p, g) && ri < |p.rules|
    requires DeltaListed(p, g, ri, q, f, Uniformly(|p.rules[ri].pos2atom|, before), heads, ds)
    requires x0 <= before && forall e :: e in before && e !in x0 ==> Stratum(g, e) == n
    requires forall row :: row in heads ==> Fact(p.rules[ri].head, row) in x
    ensures PositionPopped(g, n, x0, x, f, ri, q)
  {
    hide DerivsShaped, WellFormedDeriv, DeltaReads, Uniformly;
    forall d | d in g.derivs && d.rule == ri && Stratum(g, d.head) == n && DeltaReads(d, q, {f}, Uniformly(|d.body|, x0))
      ensures d.head in x
    {
      DerivLength(p, g, ri, d);
      DeltaGrows(g, n, d, q, f, x0, before);
      assert d in DeltaDerivs(g, ri, q, {f}, Uniformly(|p.rules[ri].pos2atom|, before));
      var k: nat :| k < |ds| && ds[k] == d;
      assert Listed(p, g, ri, d, heads[k]) && heads[k] in heads;
    }
  }

  /** The popped row has fired at the positions before `q` of rule `ri` and at all of the rules before it. */
  ghost predicate PoppedBelow(g: GroundProgram, n: nat, x0: set<Fact>, x: set<Fact>, f: Fact, ri: nat, q: nat) {
    forall d, p: nat :: d in g.derivs && Stratum(g, d.head) == n && (d.rule < ri || (d.rule == ri && p < q))
        && DeltaReads(d, p, {f}, Uniformly(|d.body|, x0))
      ==> d.head in x
  }

  lemma NonePopped(g: GroundProgram, n: nat, x0: set<Fact>, x: set<Fact>, f: Fact)
    ensures PoppedBelow(g, n, x0, x, f, 0, 0)
  {
  }

  lemma PoppedMore(g: GroundProgram, n: nat, x0: set<Fact>, before: set<Fact>, x: set<Fact>, f: Fact, ri: nat, q: nat)
    requires PoppedBelow(g, n, x0, before, f, ri, q) && PositionPopped(g, n, x0, x, f, ri, q) && before <= x
    ensures PoppedBelow(g, n, x0, x, f, ri, q + 1)
  {
    hide DeltaReads, Uniformly;
  }

  lemma PoppedRule(p: Program, g: GroundProgram, n: nat, x0: set<Fact>, x: set<Fact>, f: Fact, ri: nat)
    requires DerivsShaped(p, g) && ri < |p.rules| && PoppedBelow(g, n, x0, x, f, ri, |p.rules[ri].pos2atom|)
    ensures PoppedBelow(g, n, x0, x, f, ri + 1, 0)
  {
    forall d, k: nat | d in g.derivs && Stratum(g, d.head) == n && d.rule < ri + 1
        && DeltaReads(d, k, {f}, Uniformly(|d.body|, x0))
      ensures d.head in x
    {
      if d.rule == ri {
        DerivLength(p, g, ri, d);
      }
    }
  }

  lemma PoppedAll(p: Program, g: GroundProgram, n: nat, x0: set<Fact>, x: set<Fact>, f: Fact)
    requires GoodProgram(p) && g == GroundOf(p) && PoppedBelow(g, n, x0, x, f, |p.rules|, 0)
    ensures Popped(g, n, x0, x, f)
  {
    hide GoodProgram, GroundOf, DeltaReads, Uniformly;
    forall d | d in g.derivs ensures d.rule < |p.rules| {
      DerivOfRule(p, d);
    }
  }

  /** A position of another view, or of a rule of another stratum, has nothing to fire. */
  lemma PositionSkipped(p: Program, g: GroundProgram, n: nat, x0: set<Fact>, x: set<Fact>, f: Fact, ri: nat, q: nat)
    requires DerivsShaped(p, g) && ri < |p.rules| && ReadsView(p, ri, q) && f in g.facts && Stratum(g, f) == n
    requires !(HeadStratum(p, ri) == n && SamePos(p, p.rules[ri], q) && p.rules[ri].atoms[p.rules[ri].pos2atom[q]].view == f.view)
    ensures PositionPopped(g, n, x0, x, f, ri, q)
  {
    hide DerivsShaped, WellFormedDeriv;
    forall d | d in g.derivs && d.rule == ri && Stratum(g, d.head) == n
      ensures !DeltaReads(d, q, {f}, Uniformly(|d.body|, x0))
    {
      DerivLength(p, g, ri, d);
      assert q < |d.body| ==> LiteralShape(p, g, p.rules[ri], d, q);
    }
  }

  lemma NewIsHere(g: GroundProgram, n: nat, ext: set<Fact>, x0: set<Fact>, x: set<Fact>, done: set<Fact>, popped: set<Fact>, work: seq<Fact>)
    requires Underway(g, n, ext, x, done, popped, work) && x0 <= x && Below(g, x, n) == Below(g, x0, n)
    ensures forall e :: e in x && e !in x0 ==> Stratum(g, e) == n
  {
    forall e | e in x && e !in x0 ensures Stratum(g, e) == n {
      assert e in Below(g, x, n) <==> e in Below(g, x0, n);
    }
  }

  // ------------------------------------------------------------------
  // Seeding a stratum.

  /** `facts[v]` lists the asserted rows of view `v`. */
  ghost predicate FactsAre(p: Program, facts: seq<seq<Row>>, asserted: set<Fact>) {
    && |facts| == |p.views| && Received(p, asserted)
    && forall v, row :: 0 <= v < |facts| ==> (row in facts[v] <==> Fact(v, row) in asserted)
  }

  lemma AssertedIsSound(p: Program, g: GroundProgram, n: nat, ext: set<Fact>, x: set<Fact>, done: set<Fact>, popped: set<Fact>, work: seq<Fact>,
                        facts: seq<seq<Row>>, asserted: set<Fact>, v: nat)
    requires WellFormed(g) && Typed(p, g) && Underway(g, n, ext, x, done, popped, work)
    requires FactsAre(p, facts, asserted) && asserted <= ext && v < |p.views| && p.views[v].stratum == n
    ensures forall row :: row in facts[v] ==> Fact(v, row) in Least(g, n, Below(g, x, n), ext)
  {
    hide WellFormed, Processed, Pending, Least;
    forall row | row in facts[v] ensures Fact(v, row) in Least(g, n, Below(g, x, n), ext) {
      SupportIsSound(g, n, ext, x, Fact(v, row));
    }
  }

  lemma AssertedOf(p: Program, g: GroundProgram, n: nat, facts: seq<seq<Row>>, asserted: set<Fact>, v: nat, x: set<Fact>)
    requires Typed(p, g) && FactsAre(p, facts, asserted) && v < |p.views|
    requires p.views[v].stratum == n && p.views[v].receive ==> forall row :: row in facts[v] ==> Fact(v, row) in x
    ensures forall f :: f in asserted && Stratum(g, f) == n && f.view == v ==> f in x
  {
    forall f | f in asserted && Stratum(g, f) == n && f.view == v ensures f in x {
      assert f.row in facts[v];
    }
  }

  ghost predicate AggregateAt(p: Program, n: nat, i: nat) {
    i < |p.aggs| && p.aggs[i].head < |p.views| && p.views[p.aggs[i].head].stratum == n
  }

  /** An aggregate's rows over finished strata are in the stratum's support. */
  lemma AggregateIsSound(p: Program, g: GroundProgram, n: nat, x0: set<Fact>, x: set<Fact>, done: set<Fact>, popped: set<Fact>, work: seq<Fact>,
                         asserted: set<Fact>, i: nat, rows: seq<Row>, out: seq<Row>)
    requires GoodProgram(p) && g == GroundOf(p) && WellFormed(g) && AggregateAt(p, n, i)
    requires Underway(g, n, Support(p, asserted, x0), x, done, popped, work) && Below(g, x, n) == Below(g, x0, n)
    requires A.RowSet(rows) == RowsIn(x, p.aggs[i].input)
    requires forall row :: row in out <==> A.IsDesired(p.aggs[i], A.RowSet(rows), row)
    ensures forall row :: row in out <==> row in Desired(p.aggs[i], x0)
    ensures forall row :: row in out ==> Fact(p.aggs[i].head, row) in Least(g, n, Below(g, x, n), Support(p, asserted, x0))
  {
    hide GoodProgram, WellFormed, Processed, Pending, Least, Desired, A.IsDesired;
    SameRows(p, g, n, x0, x, i);
    HeadStrata(p, g);
    forall row ensures row in out <==> row in Desired(p.aggs[i], x0) {
      DesiredIs(p.aggs[i], x0, row);
    }
    forall row | row in out ensures Fact(p.aggs[i].head, row) in Least(g, n, Below(g, x, n), Support(p, asserted, x0)) {
      SupportIsSound(g, n, Support(p, asserted, x0), x, Fact(p.aggs[i].head, row));
    }
  }

  lemma SameRows(p: Program, g: GroundProgram, n: nat, x0: set<Fact>, x: set<Fact>, i: nat)
    requires GoodProgram(p) && g == GroundOf(p) && AggregateAt(p, n, i) && Below(g, x, n) == Below(g, x0, n)
    ensures RowsIn(x, p.aggs[i].input) == RowsIn(x0, p.aggs[i].input)
  {
    AggregateIn(p, i);
    RowsBelow(g, x, x0, n, p.aggs[i].input);
  }

  /** Rules [0, ri) of the stratum that read finished strata only have fired. */
  ghost predicate RulesSeeded(g: GroundProgram, n: nat, x: set<Fact>, ri: nat) {
    forall d :: d in g.derivs && d.rule < ri && Stratum(g, d.head) == n && !HasSame(g, d) && Active(d, Below(g, x, n)) ==> d.head in x
  }

  lemma NoneSeeded(g: GroundProgram, n: nat, x: set<Fact>)
    ensures RulesSeeded(g, n, x, 0)
  {
  }

  lemma ActiveHeads(p: Program, g: GroundProgram, n: nat, ext: set<Fact>, x: set<Fact>, done: set<Fact>, popped: set<Fact>, work: seq<Fact>,
                    ri: nat, heads: seq<Row>, ds: seq<Deriv>)
    requires DerivsShaped(p, g) && WellFormed(g) && Underway(g, n, ext, x, done, popped, work)
    requires ri < |p.rules| && HeadStratum(p, ri) == n && ActiveListed(p, g, ri, x, heads, ds)
    ensures forall row :: row in heads ==> Fact(p.rules[ri].head, row) in Least(g, n, Below(g, x, n), ext)
  {
    hide DerivsShaped, WellFormed, Sound, Processed, Pending, Least, Active, HeadStratum;
    forall k | 0 <= k < |ds| ensures Fact(p.rules[ri].head, heads[k]) in Least(g, n, Below(g, x, n), ext) {
      var d := ds[k];
      assert d in ds && Listed(p, g, ri, d, heads[k]);
      ListedHeaded(p, g, ri, d, heads[k]);
      SoundFires(g, n, ext, x, d);
    }
    assert forall row :: row in heads ==> exists k :: 0 <= k < |heads| && heads[k] == row;
  }

  lemma RuleSeeded(p: Program, g: GroundProgram, n: nat, before: set<Fact>, x: set<Fact>, ri: nat, heads: seq<Row>, ds: seq<Deriv>)
    requires DerivsShaped(p, g) && ri < |p.rules| && RulesSeeded(g, n, before, ri) && before <= x && Below(g, x, n) == Below(g, before, n)
    requires ActiveListed(p, g, ri, before, heads, ds) && forall row :: row in heads ==> Fact(p.rules[ri].head, row) in x
    ensures RulesSeeded(g, n, x, ri + 1)
  {
    hide DerivsShaped, WellFormedDeriv, Active, HasSame, Below;
    forall d | d in g.derivs && d.rule == ri && Stratum(g, d.head) == n && !HasSame(g, d) && Active(d, Below(g, x, n))
      ensures d.head in x
    {
      DerivLength(p, g, ri, d);
      ReadsBelowOnly(g, n, d, before);
      assert ActiveDeriv(g, ri, before, d);
      var k: nat :| k < |ds| && ds[k] == d;
      assert Listed(p, g, ri, d, heads[k]) && heads[k] in heads;
    }
  }

  /** A rule with an atom of the stratum has no derivation without one. */
  lemma RuleUnseeded(p: Program, g: GroundProgram, n: nat, x: set<Fact>, ri: nat)
    requires DerivsShaped(p, g) && ri < |p.rules| && RulesSeeded(g, n, x, ri)
    requires !(HeadStratum(p, ri) == n && forall q :: 0 <= q < |p.rules[ri].pos2atom| ==> !SamePos(p, p.rules[ri], q))
    ensures RulesSeeded(g, n, x, ri + 1)
  {
    hide DerivsShaped, WellFormedDeriv, Active, Below;
    forall d | d in g.derivs && d.rule == ri && Stratum(g, d.head) == n ensures HasSame(g, d) {
      DerivLength(p, g, ri, d);
      var q: nat :| q < |p.rules[ri].pos2atom| && SamePos(p, p.rules[ri], q);
      assert LiteralShape(p, g, p.rules[ri], d, q);
    }
  }

  /** All three kinds of seeds are in. */
  lemma AllSeeded(p: Program, g: GroundProgram, n: nat, x0: set<Fact>, x: set<Fact>, asserted: set<Fact>)
    requires GoodProgram(p) && g == GroundOf(p) && RulesSeeded(g, n, x, |p.rules|)
    requires forall f :: f in asserted && Stratum(g, f) == n ==> f in x
    requires forall i, out :: 0 <= i < |p.aggs| && AggregateAt(p, n, i) && out in Desired(p.aggs[i], x0) ==> Fact(p.aggs[i].head, out) in x
    ensures Seeded(g, n, Support(p, asserted, x0), x)
  {
    hide GoodProgram, GroundOf, Desired, Active, HasSame, Below;
    HeadStrata(p, g);
    forall d | d in g.derivs ensures d.rule < |p.rules| {
      DerivOfRule(p, d);
    }
    forall f | f in At(g, Support(p, asserted, x0), n) ensures f in x {
      if f !in asserted {
        var i: nat, out: Row :| i < |p.aggs| && out in Desired(p.aggs[i], x0) && f == Fact(p.aggs[i].head, out);
        assert AggregateAt(p, n, i);
      }
    }
  }

  // ------------------------------------------------------------------
  // From stratum to stratum.

  lemma AssertedSupported(p: Program, asserted: set<Fact>, x: set<Fact>)
    ensures asserted <= Support(p, asserted, x)
  {
  }

  lemma SeededStays(g: GroundProgram, n: nat, ext: set<Fact>, before: set<Fact>, x: set<Fact>)
    requires Seeded(g, n, ext, before) && before <= x && Below(g, x, n) == Below(g, before, n)
    ensures Seeded(g, n, ext, x)
  {
  }

  /** The stratum is finished; its support is that of the facts found so far. */
  lemma StratumEvaluated(p: Program, g: GroundProgram, n: nat, x0: set<Fact>, x: set<Fact>, asserted: set<Fact>, done: set<Fact>)
    requires GoodProgram(p) && g == GroundOf(p) && WellFormed(g) && asserted <= g.facts
    requires Underway(g, n, Support(p, asserted, x0), x, done, {}, []) && Seeded(g, n, Support(p, asserted, x0), x)
    requires Below(g, x, n) == Below(g, x0, n)
    ensures Sound(g, n + 1, Support(p, asserted, x), x) && At(g, x, n + 1) == {}
  {
    hide GoodProgram, GroundOf, WellFormed, Support, Seeded, Processed, Below;
    assert Facts([]) == {} && done + {} == done && done == At(g, x, n);
    StratumComplete(g, n, Support(p, asserted, x0), x);
    SupportFits(p, g, asserted, x);
    SupportMoves(p, g, n, x0, x, asserted);
  }

  lemma SupportMoves(p: Program, g: GroundProgram, n: nat, x0: set<Fact>, x: set<Fact>, asserted: set<Fact>)
    requires GoodProgram(p) && g == GroundOf(p) && Support(p, asserted, x) <= g.facts
    requires Sound(g, n + 1, Support(p, asserted, x0), x) && Below(g, x, n) == Below(g, x0, n) && At(g, x, n + 1) == {}
    ensures Sound(g, n + 1, Support(p, asserted, x), x)
  {
    hide GoodProgram, GroundOf, Support;
    forall m: nat | m < n + 1 ensures At(g, x, m) == Least(g, m, Below(g, x, m), Support(p, asserted, x)) {
      assert Below(g, x, m) == Below(g, Below(g, x, n), m) && Below(g, x0, m) == Below(g, Below(g, x0, n), m);
      SupportBelow(p, g, asserted, x, x0, m);
      LeastLocal(g, m, Below(g, x, m), Support(p, asserted, x0), Support(p, asserted, x));
    }
  }

  lemma NothingIsSound(p: Program, g: GroundProgram, asserted: set<Fact>)
    requires GoodProgram(p) && g == GroundOf(p) && asserted <= g.facts
    ensures Sound(g, 0, Support(p, asserted, {}), {}) && At(g, {}, 0) == {}
  {
    hide GoodProgram, GroundOf, Support;
    SupportFits(p, g, asserted, {});
  }

  lemma SoundIsModel(p: Program, g: GroundProgram, asserted: set<Fact>, x: set<Fact>)
    requires GoodProgram(p) && g == GroundOf(p) && Sound(g, p.numStrata, Support(p, asserted, x), x)
    ensures IsProgramModel(p, g, asserted, x)
  {
    hide Support;
    assert AllBelow(g, p.numStrata);
    hide GoodProgram, GroundOf;
    forall m: nat ensures At(g, x, m) == Least(g, m, Below(g, x, m), Support(p, asserted, x)) {
      if m >= p.numStrata {
        LeastAbove(g, p.numStrata, m, x, Support(p, asserted, x));
      }
    }
  }
}
