/** What the engine's delta reads enumerate, in terms of the delta law. */
module Firings {
  import opened Ground
  import opened Weights
  import opened Model
  import opened Phase
  import opened Overdeletion
  import opened Insertion
  import opened Passes

  /** `change` was added to the weight of every derivation in `fired`, once. */
  ghost predicate Shifted(before: Weight, after: Weight, fired: set<Deriv>, change: int) {
    && after.Keys == before.Keys
    && forall d :: d in before ==> after[d] == before[d] + (if d in fired then change else 0)
  }

  function Sign(adding: bool): int {
    if adding then 1 else -1
  }

  /** The derivation holds a row of `deltas` at position `p` and reads `reads[q]` at the others. */
  ghost predicate DeltaReads(d: Deriv, p: nat, deltas: set<Fact>, reads0: seq<set<Fact>>) {
    && p < |d.body| == |reads0| && d.body[p].fact in deltas
    && forall q :: 0 <= q < |d.body| && q != p ==> Holds(d.body[q], reads0[q])
  }

  ghost function DeltaDerivs(g: GroundProgram, rule: nat, p: nat, deltas: set<Fact>, reads0: seq<set<Fact>>): set<Deriv> {
    set d | d in g.derivs && d.rule == rule && DeltaReads(d, p, deltas, reads0)
  }

  /** The derivations of a rule that fire from `s` to `t` at position `p`. */
  ghost function FiringAt(g: GroundProgram, rule: nat, p: nat, s: set<Fact>, t: set<Fact>, gained: bool): set<Deriv> {
    set d | d in g.derivs && d.rule == rule && FiresAt(d, p, s, t, gained)
  }

  ghost function FiringBelow(g: GroundProgram, rule: nat, n: nat, s: set<Fact>, t: set<Fact>, gained: bool): set<Deriv> {
    set d | d in g.derivs && d.rule == rule && exists p: nat :: p < n && FiresAt(d, p, s, t, gained)
  }

  /** The derivations of rules [0, n) with heads in stratum `k` that fire from `s` to `t`. */
  ghost function FiringRules(g: GroundProgram, n: nat, k: nat, s: set<Fact>, t: set<Fact>, gained: bool): set<Deriv> {
    set d | d in g.derivs && d.rule < n && Stratum(g, d.head) == k && Fires(d, s, t, gained)
  }

  /** Positions fire disjointly. */
  lemma FiringMore(g: GroundProgram, rule: nat, p: nat, s: set<Fact>, t: set<Fact>, gained: bool)
    ensures FiringBelow(g, rule, p, s, t, gained) !! FiringAt(g, rule, p, s, t, gained)
    ensures FiringBelow(g, rule, p + 1, s, t, gained) == FiringBelow(g, rule, p, s, t, gained) + FiringAt(g, rule, p, s, t, gained)
  {
    forall d, q: nat | d in FiringAt(g, rule, p, s, t, gained) && FiresAt(d, q, s, t, gained) ensures q == p {
      FiresOnce(d, p, q, s, t, gained);
    }
  }

  lemma FiringWhole(g: GroundProgram, rule: nat, n: nat, k: nat, s: set<Fact>, t: set<Fact>, gained: bool)
    requires forall d :: d in g.derivs && d.rule == rule ==> |d.body| <= n
    requires forall d :: d in g.derivs && d.rule == rule ==> Stratum(g, d.head) == k
    ensures FiringRules(g, rule, k, s, t, gained) !! FiringBelow(g, rule, n, s, t, gained)
    ensures FiringRules(g, rule + 1, k, s, t, gained)
         == FiringRules(g, rule, k, s, t, gained) + FiringBelow(g, rule, n, s, t, gained)
  {
    forall d | d in g.derivs && d.rule == rule && Fires(d, s, t, gained)
      ensures d in FiringBelow(g, rule, n, s, t, gained)
    {
      var p: nat :| FiresAt(d, p, s, t, gained);
    }
  }

  lemma FiringSkip(g: GroundProgram, rule: nat, k: nat, s: set<Fact>, t: set<Fact>, gained: bool)
    requires forall d :: d in g.derivs && d.rule == rule ==> Stratum(g, d.head) != k
    ensures FiringRules(g, rule + 1, k, s, t, gained) == FiringRules(g, rule, k, s, t, gained)
  {
  }

  /** All rules have fired: the pass is complete. */
  lemma ShiftedIsFired(g: GroundProgram, rules: nat, k: nat, before: Weight, after: Weight, s: set<Fact>, t: set<Fact>, gained: bool)
    requires before.Keys == g.derivs
    requires forall d :: d in g.derivs ==> d.rule < rules
    requires Shifted(before, after, FiringRules(g, rules, k, s, t, gained), Sign(gained))
    ensures Fired(g, k, before, after, s, t, gained)
  {
  }

  // ------------------------------------------------------------------
  // Seed passes.

  /** The frontier a literal reads: net additions when a positive literal is gained or a
      negated one is lost, net removals otherwise. */
  ghost function FrontierOf(l: Literal, gained: bool, removals: set<Fact>, additions: set<Fact>): set<Fact> {
    if l.negated == gained then removals else additions
  }

  /** The published frontiers of the finished strata. */
  ghost predicate FrontiersBelow(g: GroundProgram, n: nat, s: State, removals: set<Fact>, additions: set<Fact>) {
    && (forall f :: f in g.facts && Stratum(g, f) < n ==> (f in removals <==> f in s.deleted && f !in s.added))
    && (forall f :: f in g.facts && Stratum(g, f) < n ==> (f in additions <==> f in s.added && f !in s.deleted))
  }

  /** A lower literal flips from the batch-start state to the new one exactly when its fact is
      in the frontier it reads. */
  lemma LowerFlips(g: GroundProgram, n: nat, s: State, mid: set<Fact>, removals: set<Fact>, additions: set<Fact>,
                   l: Literal, gained: bool)
    requires Shaped(g, s) && DoneBelow(g, n, s) && Below(g, mid, n) == Below(g, s.Current(), n)
    requires FrontiersBelow(g, n, s, removals, additions)
    requires l.fact in g.facts && Stratum(g, l.fact) < n
    ensures Flips(l, s.present, mid, gained) <==> l.fact in FrontierOf(l, gained, removals, additions)
  {
    assert FactDone(g, s, l.fact);
    assert l.fact in Below(g, mid, n) <==> l.fact in Below(g, s.Current(), n);
  }

  /** The read table of a seed: new rows before the delta position, batch-start rows after it. */
  ghost function SeedTable(p: nat, k: nat, old0: set<Fact>, new0: set<Fact>): (r: seq<set<Fact>>) {
    seq(k, q requires 0 <= q < k => if q < p then new0 else old0)
  }

  /** A seed at a lower position enumerates exactly the derivations that fire there. */
  lemma SeedReadsFire(g: GroundProgram, n: nat, s: State, mid: set<Fact>, new0: set<Fact>, d: Deriv, p: nat,
                      deltas: set<Fact>, gained: bool)
    requires WellFormedDeriv(g, d) && Stratum(g, d.head) == n
    requires Below(g, mid, n) == Below(g, new0, n)
    requires p < |d.body| && Stratum(g, d.body[p].fact) < n
    requires Flips(d.body[p], s.present, mid, gained) <==> d.body[p].fact in deltas
    ensures DeltaReads(d, p, deltas, SeedTable(p, |d.body|, s.present, new0)) <==> FiresAt(d, p, s.present, mid, gained)
  {
    var table := SeedTable(p, |d.body|, s.present, new0);
    forall q | 0 <= q < |d.body| && q != p
      ensures Holds(d.body[q], table[q]) == (if q < p then Holds(d.body[q], mid) else Holds(d.body[q], s.present))
    {
      if q < p {
        assert Stratum(g, d.body[q].fact) < n;
        assert d.body[q].fact in Below(g, mid, n) <==> d.body[q].fact in Below(g, new0, n);
      }
    }
  }

  /** Positions of the head's own stratum never fire in a seed pass. */
  lemma SeedSkipsSame(g: GroundProgram, n: nat, s: State, mid: set<Fact>, d: Deriv, p: nat, gained: bool)
    requires At(g, mid, n) == At(g, s.present, n)
    requires p < |d.body| && Stratum(g, d.body[p].fact) == n
    ensures !FiresAt(d, p, s.present, mid, gained)
  {
    assert d.body[p].fact in At(g, mid, n) <==> d.body[p].fact in At(g, s.present, n);
  }

  // ------------------------------------------------------------------
  // Claim rounds.

  /** Two states that differ in stratum `n` only, by the claimed rows. */
  ghost predicate RoundOf(g: GroundProgram, n: nat, s: set<Fact>, t: set<Fact>, claimed: set<Fact>, adding: bool) {
    && (forall f :: f in claimed ==> Stratum(g, f) == n)
    && (if adding then t == s + claimed && claimed !! s else t == s - claimed && claimed <= s)
  }

  /** The read table of a claim round: the state after the claim before the delta position, the
      state before the claim after it, at positions of the head's stratum. */
  ghost predicate RoundTable(g: GroundProgram, n: nat, d: Deriv, p: nat, s: set<Fact>, t: set<Fact>, table: seq<set<Fact>>) {
    && |table| == |d.body|
    && forall q :: 0 <= q < |d.body| && q != p ==>
         if q < p then SameAt(d.body[q].fact, table[q], t) else SameAt(d.body[q].fact, table[q], s)
  }

  ghost predicate SameAt(f: Fact, s: set<Fact>, t: set<Fact>) {
    f in s <==> f in t
  }

  /** A round enumerates at a same-stratum position exactly the derivations that fire there. */
  lemma RoundReadsFire(g: GroundProgram, n: nat, s: set<Fact>, t: set<Fact>, claimed: set<Fact>, d: Deriv, p: nat,
                       table: seq<set<Fact>>, adding: bool)
    requires WellFormedDeriv(g, d) && Stratum(g, d.head) == n && RoundOf(g, n, s, t, claimed, adding)
    requires p < |d.body| && Stratum(g, d.body[p].fact) == n
    requires RoundTable(g, n, d, p, s, t, table)
    ensures DeltaReads(d, p, claimed, table) <==> FiresAt(d, p, s, t, adding)
  {
    forall q | 0 <= q < |d.body| && q != p
      ensures Holds(d.body[q], table[q]) == (if q < p then Holds(d.body[q], t) else Holds(d.body[q], s))
    {
      assert if q < p then SameAt(d.body[q].fact, table[q], t) else SameAt(d.body[q].fact, table[q], s);
    }
  }

  /** Lower positions never fire in a claim round. */
  lemma RoundSkipsLower(g: GroundProgram, n: nat, s: set<Fact>, t: set<Fact>, claimed: set<Fact>, d: Deriv, p: nat, adding: bool)
    requires RoundOf(g, n, s, t, claimed, adding)
    requires p < |d.body| && Stratum(g, d.body[p].fact) < n
    ensures !FiresAt(d, p, s, t, adding)
  {
  }
}
