/** What a program's model contains, stated over the columns of its rows: asserted facts, the heads of
    rule instances that hold, and aggregate rows, and nothing else. */
module Answers {
  import opened Ground
  import opened Model
  import opened Rules
  import opened Meaning
  import opened Grounding
  import opened Supports
  import A = Aggregates

  /** Every positive atom has its row in the facts, every negated atom's key is absent. */
  ghost predicate BodyHolds(r: Rule, rows: Assignment, x: set<Fact>) {
    |rows| == |r.atoms| && forall a :: 0 <= a < |rows| ==> (Fact(r.atoms[a].view, rows[a]) in x <==> !r.atoms[a].negated)
  }

  ghost predicate HasInstance(p: Program, x: set<Fact>, f: Fact) {
    exists i: nat, rows :: i < |p.rules| && p.rules[i].head == f.view && Derives(p, p.rules[i], rows, f.row) && BodyHolds(p.rules[i], rows, x)
  }

  ghost predicate HasAggregate(p: Program, x: set<Fact>, f: Fact) {
    exists i: nat :: i < |p.aggs| && p.aggs[i].head == f.view && A.IsDesired(p.aggs[i], RowsIn(x, p.aggs[i].input), f.row)
  }

  lemma RuleIsGood(p: Program, i: nat)
    requires GoodProgram(p) && i < |p.rules|
    ensures GoodRule(p, p.rules[i])
  {
  }

  lemma InstanceActive(p: Program, i: nat, rows: Assignment, x: set<Fact>)
    requires GoodProgram(p) && i < |p.rules| && GoodRule(p, p.rules[i]) && RowsFit(p, p.rules[i], rows)
    ensures Active(Instance(p.rules[i], i, rows), x) <==> BodyHolds(p.rules[i], rows, x)
  {
    hide GoodProgram, GoodSlots;
    var r := p.rules[i];
    var d := Instance(r, i, rows);
    forall k | 0 <= k < |r.pos2atom|
      ensures Holds(d.body[k], x) <==>
        (Fact(r.atoms[r.pos2atom[k]].view, rows[r.pos2atom[k]]) in x <==> !r.atoms[r.pos2atom[k]].negated)
    {
      BodyAt(p, i, rows, k);
    }
    forall a | 0 <= a < |r.atoms| && Active(d, x) ensures Fact(r.atoms[a].view, rows[a]) in x <==> !r.atoms[a].negated {
      assert a in r.pos2atom;
      var k :| 0 <= k < |r.pos2atom| && r.pos2atom[k] == a;
      assert Holds(d.body[k], x);
    }
  }

  lemma DerivesActive(p: Program, i: nat, rows: Assignment, head: Row, x: set<Fact>) returns (d: Deriv)
    requires GoodProgram(p) && i < |p.rules| && Derives(p, p.rules[i], rows, head) && BodyHolds(p.rules[i], rows, x)
    ensures d in GroundOf(p).derivs && d.head == Fact(p.rules[i].head, head) && Active(d, x)
  {
    hide GoodProgram, GroundOf, Active, BodyHolds;
    RuleIsGood(p, i);
    DerivesIs(p, p.rules[i], rows, head);
    InstanceIsDeriv(p, i, rows);
    InstanceActive(p, i, rows, x);
    d := Instance(p.rules[i], i, rows);
  }

  lemma ActiveDerives(p: Program, d: Deriv, x: set<Fact>)
    requires GoodProgram(p) && d in GroundOf(p).derivs && Active(d, x)
    ensures HasInstance(p, x, d.head)
  {
    hide GoodProgram, GroundOf, Active, BodyHolds, Derives;
    var rows := DerivIsInstance(p, d);
    var r := p.rules[d.rule];
    DerivesIs(p, r, rows, d.head.row);
    InstanceActive(p, d.rule, rows, x);
    assert Derives(p, r, rows, d.head.row);
  }

  lemma GroundStratified(p: Program, g: GroundProgram)
    requires GoodProgram(p) && g == GroundOf(p)
    ensures Stratified(g)
  {
    hide GoodProgram, GroundOf, CanDip;
    GroundWellFormed(p);
  }

  /** The facts of the model are exactly the asserted ones, the heads of instances whose body holds in
      the model, and the rows of aggregates over the model. */
  lemma ModelAnswers(p: Program, g: GroundProgram, asserted: set<Fact>, x: set<Fact>, f: Fact)
    requires GoodProgram(p) && g == GroundOf(p) && asserted <= g.facts && IsProgramModel(p, g, asserted, x)
    ensures f in x <==> f in asserted || HasInstance(p, x, f) || HasAggregate(p, x, f)
  {
    hide GoodProgram, GroundOf, IsModel, Active, Derives, BodyHolds, A.IsDesired;
    GroundStratified(p, g);
    SupportFits(p, g, asserted, x);
    ModelFacts(g, Support(p, asserted, x), x);
    SupportHas(p, asserted, x, f);
    if f in x && f !in Support(p, asserted, x) {
      var d :| d in g.derivs && d.head == f && Active(d, x);
      ActiveDerives(p, d, x);
    }
    if HasInstance(p, x, f) {
      var i: nat, rows :| i < |p.rules| && p.rules[i].head == f.view && Derives(p, p.rules[i], rows, f.row) && BodyHolds(p.rules[i], rows, x);
      var d := DerivesActive(p, i, rows, f.row, x);
    }
  }

  lemma SupportHas(p: Program, asserted: set<Fact>, x: set<Fact>, f: Fact)
    ensures f in Support(p, asserted, x) <==> f in asserted || HasAggregate(p, x, f)
  {
    hide A.IsDesired;
    forall i: nat | i < |p.aggs| ensures f.row in Desired(p.aggs[i], x) <==> A.IsDesired(p.aggs[i], RowsIn(x, p.aggs[i].input), f.row) {
      DesiredIs(p.aggs[i], x, f.row);
    }
  }

  /** The rows of an aggregate's input view give a key and a value. */
  lemma InputsReadable(p: Program, a: Aggregate, row: Row)
    requires GoodAggregate(p, a) && |row| == p.views[a.input].arity
    ensures A.Readable(a, row) && A.Configured(a)
  {
    assert A.Member(a, row, A.KeyOf(a, row), A.InputValue(a.valSlot, row));
  }
}
