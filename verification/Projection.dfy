/** The monotone projection: the surviving facts of a whole run, evaluated once from scratch as
    if nothing had ever been removed. */
module Projection {
  import opened Wrappers
  import opened Ground
  import opened Model
  import opened RowStore
  import opened Rules
  import opened Grounding
  import opened Supports
  import opened Netting
  import opened Settling
  import opened Fixpoint
  import opened Scratch
  import opened Engine

  /** The set-semantics presence bits, one per message row ever netted. */
  type Presence = map<NetKey, bool>

  ghost predicate KeyFitsProgram(p: Program, k: NetKey) {
    k.0 < |p.receives| && RowFits(p, k.0, k.1)
  }

  /** The surviving rows stand for the asserted facts. */
  ghost predicate Survive(p: Program, present: Presence, asserted: set<Fact>) {
    && (forall k :: k in present ==> KeyFitsProgram(p, k))
    && forall f :: f in asserted <==> exists k :: k in present && present[k] && f in Targets(p, k)
  }

  lemma NoneSurvives(p: Program)
    ensures Survive(p, map[], {})
  {
  }

  /** One netted key: its row becomes present or absent. */
  lemma SurviveMore(p: Program, present: Presence, asserted: set<Fact>, k: NetKey, n: nat)
    requires GoodReceives(p) && Survive(p, present, asserted) && KeyFitsProgram(p, k) && (n == 1 || n == 2)
    ensures Survive(p, present[k := n == 1], AppliedKey(p, k, n, asserted))
  {
    var after := present[k := n == 1];
    forall f
      ensures f in AppliedKey(p, k, n, asserted) <==> exists x :: x in after && after[x] && f in Targets(p, x)
    {
      if f in Targets(p, k) {
        forall x | x in after && f in Targets(p, x) ensures x == k {
          if x != k {
            TargetsDisjoint(p, k, x);
          }
        }
        if n == 1 {
          assert k in after && after[k];
        }
      } else {
        hide GoodReceives, Targets, KeyFitsProgram;
        if f in asserted {
          var x :| x in present && present[x] && f in Targets(p, x);
          assert x in after && after[x];
        }
      }
    }
  }

  /** Net one batch into the presence bits. */
  method NetInto(p: Program, ops: seq<BatchOp>, before: Presence, ghost asserted: set<Fact>) returns (present: Presence)
    requires GoodReceives(p) && OpsFit(p, ops) && Survive(p, before, asserted) && asserted <= AllFacts(p)
    ensures Survive(p, present, Netted(p, ops, asserted))
  {
    hide NetIs, Applied, OpsFit, Targets, RowFits, Netted, GoodReceives, Survive, AllFacts;
    var order, net := NetBatch(ops);
    present := before;
    NothingApplied(p, order, net, asserted);
    NetKeys(ops, net, order);
    for j := 0 to |order|
      invariant (forall x :: x in order[..j] ==> x in net) && Survive(p, present, Applied(p, order[..j], net, asserted))
    {
      var k := order[j];
      KeyApplies(p, ops, order, net, asserted, j);
      if net[k] != 3 {
        SurviveMore(p, present, Applied(p, order[..j], net, asserted), k, net[k]);
        present := present[k := net[k] == 1];
      }
    }
    assert order[..|order|] == order;
    AppliedIsNetted(p, ops, order, net, asserted);
  }

  /** The surviving rows of every receive view. */
  method SurvivingRows(p: Program, present: Presence, ghost asserted: set<Fact>) returns (facts: seq<seq<Row>>)
    requires GoodReceives(p) && Survive(p, present, asserted)
    ensures FactsAre(p, facts, asserted)
  {
    facts := seq(|p.views|, _ => []);
    var todo := present.Keys;
    ghost var done: set<NetKey> := {};
    while todo != {}
      invariant |facts| == |p.views| && done !! todo && done + todo == present.Keys
      invariant forall v, row :: 0 <= v < |facts| ==>
        (row in facts[v] <==> exists k :: k in done && present[k] && Fact(v, row) in Targets(p, k))
      decreases todo
    {
      var k :| k in todo;
      if present[k] {
        facts := SeedKey(p, facts, k);
      }
      todo, done := todo - {k}, done + {k};
    }
    assert done == present.Keys;
    SurvivorsReceived(p, present, asserted);
  }

  lemma SurvivorsReceived(p: Program, present: Presence, asserted: set<Fact>)
    requires GoodReceives(p) && Survive(p, present, asserted)
    ensures Received(p, asserted)
  {
    forall f | f in asserted ensures f.view < |p.views| && p.views[f.view].receive {
      var k :| k in present && present[k] && f in Targets(p, k);
      assert KeyFitsProgram(p, k);
    }
  }

  /** Add a row to each receive view of its message, unless it is there. */
  method SeedKey(p: Program, facts: seq<seq<Row>>, k: NetKey) returns (more: seq<seq<Row>>)
    requires GoodReceives(p) && KeyFitsProgram(p, k) && |facts| == |p.views|
    ensures |more| == |facts|
    ensures forall v, row :: 0 <= v < |more| ==> (row in more[v] <==> row in facts[v] || Fact(v, row) in Targets(p, k))
  {
    more := facts;
    ViewsOf(p, k);
    for i := 0 to |p.receives[k.0]|
      invariant |more| == |facts|
      invariant forall v, row :: 0 <= v < |more| ==> (row in more[v] <==> row in facts[v] || Fact(v, row) in TargetsBelow(p, k, i))
    {
      var v := p.receives[k.0][i];
      NextTarget(p, k, i);
      if k.1 !in more[v] {
        more := more[v := more[v] + [k.1]];
      }
    }
  }

  /** The projection of a run: net every batch, then evaluate the surviving facts from scratch. */
  method MonotoneProjection(p: Program, batches: seq<seq<BatchOp>>, ghost g: GroundProgram) returns (ev: Evaluator)
    requires GoodProgram(p) && g == GroundOf(p) && forall b :: b in batches ==> OpsFit(p, b)
    ensures fresh(ev) && IsProgramModel(p, g, NettedAll(p, batches, {}), ev.x)
  {
    hide GoodProgram, GroundOf, OpsFit, Survive, Netted, GoodReceives, IsProgramModel, FactsAre, WellFormed, Evaluator.Valid, AllFacts;
    ReceivesAreGood(p, g);
    var present: Presence := map[];
    NoneSurvives(p);
    for i := 0 to |batches|
      invariant Survive(p, present, NettedAll(p, batches[..i], {}))
    {
      assert batches[i] in batches && batches[..i + 1] == batches[..i] + [batches[i]];
      NettedFits(p, batches[..i]);
      present := NetInto(p, batches[i], present, NettedAll(p, batches[..i], {}));
    }
    assert batches[..|batches|] == batches;
    NettedFits(p, batches);
    var facts := SurvivingRows(p, present, NettedAll(p, batches, {}));
    ev := new Evaluator(p, g);
    ev.Evaluate(facts, NettedAll(p, batches, {}));
  }

  lemma ReceivesAreGood(p: Program, g: GroundProgram)
    requires GoodProgram(p) && g == GroundOf(p)
    ensures GoodReceives(p) && WellFormed(g) && g.facts == AllFacts(p)
  {
    hide WellFormed;
    GroundWellFormed(p);
  }

  lemma {:induction false} NettedFits(p: Program, batches: seq<seq<BatchOp>>)
    ensures NettedAll(p, batches, {}) <= AllFacts(p)
  {
  }

  // ------------------------------------------------------------------
  // A run without batches: init rules fire with the first batch, the projection fires them anyway.

  /** Some rule without atoms has an instance. */
  predicate InitFires(p: Program) {
    exists i :: 0 <= i < |p.rules| && p.rules[i].atoms == [] && PassesFilters(p.rules[i], []) && MapValue(p.rules[i], []).Some?
  }

  /** Such a rule derives its head over no facts at all. */
  lemma InitDerives(p: Program, i: nat) returns (d: Deriv)
    requires GoodProgram(p) && i < |p.rules| && p.rules[i].atoms == []
    requires PassesFilters(p.rules[i], []) && MapValue(p.rules[i], []).Some?
    ensures d in GroundOf(p).derivs && d.body == []
  {
    var r := p.rules[i];
    assert GoodRule(p, r);
    InstanceIsDeriv(p, i, []);
    d := Instance(r, i, []);
  }

  lemma NoBody(g: GroundProgram, d: Deriv)
    requires WellFormedDeriv(g, d) && Active(d, {})
    ensures d.body == []
  {
  }

  /** And no other rule does. */
  lemma InitOnly(p: Program, d: Deriv)
    requires GoodProgram(p) && d in GroundOf(p).derivs && Active(d, {})
    ensures InitFires(p)
  {
    DerivOfRule(p, d);
    NoBody(GroundOf(p), d);
    var rows := DerivIsInstance(p, d);
    var r := p.rules[d.rule];
    assert rows == [];
  }

  lemma NothingIsModel(p: Program, g: GroundProgram)
    requires GoodProgram(p) && g == GroundOf(p) && !InitFires(p)
    ensures IsProgramModel(p, g, {}, {})
  {
    NoSupport(p);
    forall d | d in g.derivs ensures !Active(d, {}) {
      if Active(d, {}) {
        InitOnly(p, d);
      }
    }
    NoneActive(g);
  }

  lemma NoneActive(g: GroundProgram)
    requires forall d :: d in g.derivs ==> !Active(d, {})
    ensures IsModel(g, {}, {})
  {
    forall n: nat ensures At(g, {}, n) == Least(g, n, Below(g, {}, n), {}) {
      var none: set<Fact> := {};
      assert none + none == none && At(g, none, n) == none && Below(g, none, n) == none;
      LeastIsLeast(g, n, none, none, none);
    }
  }

  /** Asserting nothing means nothing exactly when no rule without atoms has an instance. */
  lemma NothingAsserted(p: Program, g: GroundProgram, x: set<Fact>)
    requires GoodProgram(p) && g == GroundOf(p) && IsProgramModel(p, g, {}, x)
    ensures x == {} <==> !InitFires(p)
  {
    hide GoodProgram, GroundOf, IsProgramModel, PassesFilters, MapValue;
    if InitFires(p) {
      var i :| 0 <= i < |p.rules| && p.rules[i].atoms == [] && PassesFilters(p.rules[i], []) && MapValue(p.rules[i], []).Some?;
      var d := InitDerives(p, i);
      HeadIn(p, g, x, d);
    } else {
      NothingIsModel(p, g);
      ReceivesAreGood(p, g);
      ProgramModelUnique(p, g, {}, x, {});
    }
  }

  lemma HeadIn(p: Program, g: GroundProgram, x: set<Fact>, d: Deriv)
    requires GoodProgram(p) && g == GroundOf(p) && IsProgramModel(p, g, {}, x) && d in g.derivs && d.body == []
    ensures d.head in x
  {
    hide WellFormedDeriv;
    GroundWellFormed(p);
    SupportFits(p, g, {}, x);
    GroundStratifiedToo(g);
    ModelFacts(g, Support(p, {}, x), x);
  }

  lemma GroundStratifiedToo(g: GroundProgram)
    requires WellFormed(g)
    ensures Stratified(g)
  {
  }

  /** One view and one constant tuple. */
  function ConstantProgram(): Program {
    Program([View(0, 1, false)], [Rule(0, [], [], [], [], [Const(7)], [], [], NoMap, [], false)], [], 1, [])
  }

  lemma ConstantFires()
    ensures GoodProgram(ConstantProgram()) && InitFires(ConstantProgram())
  {
    var p := ConstantProgram();
    var r := p.rules[0];
    assert GoodRule(p, r);
    assert PassesFilters(r, []) && MapValue(r, []).Some?;
  }

  /** Differential-final equals monotone-projection: maintaining a run batch by batch ends with the
      facts that evaluating its surviving facts once gives, if there is a batch; without one, exactly
      when no rule without atoms has an instance. */
  method RunBoth(p: Program, batches: seq<seq<BatchOp>>, ghost g: GroundProgram) returns (r: Result<bool>, oracle: Oracle, ev: Evaluator)
    requires GoodProgram(p) && g == GroundOf(p) && forall b :: b in batches ==> OpsFit(p, b)
    ensures r.Success? && IsProgramModel(p, g, NettedAll(p, batches, {}), ev.x)
    ensures oracle.Present() == ev.x <==> batches != [] || !InitFires(p)
  {
    hide GoodProgram, GroundOf, OpsFit, Netted, IsProgramModel, Oracle.Grounded, Oracle.Settling, Oracle.Asserted, Oracle.Present, InitFires;
    oracle := new Oracle(p, g);
    r := oracle.RunBatches(batches);
    ev := MonotoneProjection(p, batches, g);
    if batches == [] {
      NothingAsserted(p, g, ev.x);
    } else {
      ProgramModelUnique(p, g, NettedAll(p, batches, {}), oracle.Present(), ev.x);
    }
  }

  /** On the constant tuple's program a run without batches ends empty, and its projection does not. */
  method ConstantDiffers() returns (oracle: Oracle, ev: Evaluator)
    ensures oracle.Present() != ev.x
  {
    ConstantFires();
    var r;
    r, oracle, ev := RunBoth(ConstantProgram(), [], GroundOf(ConstantProgram()));
  }
}
