/** The ground program of a well-formed rule program is well-formed, and its derivations are
    exactly the rule instances, each once. */
module Grounding {
  import opened Ground
  import opened Model
  import opened Rules

  lemma BodyAt(p: Program, i: nat, rows: Assignment, k: nat)
    requires GoodProgram(p) && i < |p.rules| && RowsFit(p, p.rules[i], rows)
    requires k < |p.rules[i].pos2atom|
    ensures GoodRule(p, p.rules[i]) && p.rules[i].pos2atom[k] < |p.rules[i].atoms|
    ensures Instance(p.rules[i], i, rows).body[k] == BodyLiteral(p.rules[i], rows, p.rules[i].pos2atom[k])
  {
    assert GoodRule(p, p.rules[i]);
  }

  /** An instance's literals are facts of their views; their strata are those of its atoms. */
  lemma LiteralFits(p: Program, i: nat, rows: Assignment, k: nat)
    requires GoodProgram(p) && i < |p.rules| && RowsFit(p, p.rules[i], rows)
    requires k < |p.rules[i].pos2atom|
    ensures GoodRule(p, p.rules[i])
    ensures
      var r := p.rules[i];
      var l := Instance(r, i, rows).body[k];
      && l.fact in AllFacts(p) && l.negated == r.atoms[r.pos2atom[k]].negated
      && l.fact.view == r.atoms[r.pos2atom[k]].view
      && Stratum(GroundOf(p), l.fact) == AtomStratum(p, r, r.pos2atom[k])
      && Stratum(GroundOf(p), Instance(r, i, rows).head) == p.views[r.head].stratum
  {
    BodyAt(p, i, rows, k);
  }

  lemma WellFormedFromAtoms(p: Program, r: Rule, g: GroundProgram, d: Deriv)
    requires GoodRule(p, r) && |d.body| == |r.pos2atom| && d.recursive == r.recursive
    requires d.head in g.facts && Stratum(g, d.head) == p.views[r.head].stratum
    requires forall k :: 0 <= k < |d.body| ==> d.body[k].fact in g.facts
    requires forall k :: 0 <= k < |d.body| ==> Stratum(g, d.body[k].fact) == AtomStratum(p, r, r.pos2atom[k])
    requires forall k :: 0 <= k < |d.body| ==> d.body[k].negated == r.atoms[r.pos2atom[k]].negated
    ensures WellFormedDeriv(g, d)
  {
    if d.body != [] {
      var a :| 0 <= a < |r.atoms| && !r.atoms[a].negated;
      assert a in r.pos2atom;
      var k :| 0 <= k < |r.pos2atom| && r.pos2atom[k] == a;
      assert !d.body[k].negated;
    }
  }

  lemma InstanceWellFormed(p: Program, i: nat, rows: Assignment)
    requires GoodProgram(p) && i < |p.rules| && RowsFit(p, p.rules[i], rows)
    ensures GoodRule(p, p.rules[i])
    ensures WellFormedDeriv(GroundOf(p), Instance(p.rules[i], i, rows))
  {
    var r := p.rules[i];
    assert GoodRule(p, r);
    var d := Instance(r, i, rows);
    forall k | 0 <= k < |d.body|
      ensures d.body[k].fact in AllFacts(p) && Stratum(GroundOf(p), d.body[k].fact) == AtomStratum(p, r, r.pos2atom[k])
      ensures d.body[k].negated == r.atoms[r.pos2atom[k]].negated
    {
      LiteralFits(p, i, rows, k);
    }
    WellFormedFromAtoms(p, r, GroundOf(p), d);
  }

  /** Every derivation is the instance of some assignment of its rule. */
  lemma DerivIsInstance(p: Program, d: Deriv) returns (rows: Assignment)
    requires GoodProgram(p) && d in GroundOf(p).derivs
    ensures d.rule < |p.rules| && Matches(p, p.rules[d.rule], rows)
    ensures GoodRule(p, p.rules[d.rule]) && d == Instance(p.rules[d.rule], d.rule, rows)
  {
    var i: nat :| i < |p.rules| && d in Instances(p, i);
    assert GoodRule(p, p.rules[i]);
    rows :| rows in Assignments(p, p.rules[i], |p.rules[i].atoms|) && Matches(p, p.rules[i], rows)
      && d == Instance(p.rules[i], i, rows);
  }

  lemma InstanceIsDeriv(p: Program, i: nat, rows: Assignment)
    requires GoodProgram(p) && i < |p.rules| && Matches(p, p.rules[i], rows)
    ensures GoodRule(p, p.rules[i])
    ensures Instance(p.rules[i], i, rows) in GroundOf(p).derivs
  {
    assert GoodRule(p, p.rules[i]);
    assert rows in Assignments(p, p.rules[i], |p.rules[i].atoms|);
    assert Instance(p.rules[i], i, rows) in Instances(p, i);
  }

  /** Distinct assignments are distinct derivations. */
  lemma InstanceInjective(p: Program, i: nat, rows: Assignment, rows': Assignment)
    requires GoodProgram(p) && i < |p.rules| && RowsFit(p, p.rules[i], rows) && RowsFit(p, p.rules[i], rows')
    requires GoodRule(p, p.rules[i])
    requires Instance(p.rules[i], i, rows) == Instance(p.rules[i], i, rows')
    ensures rows == rows'
  {
    var r := p.rules[i];
    forall a | 0 <= a < |r.atoms| ensures rows[a] == rows'[a] {
      assert a in r.pos2atom;
      var k :| 0 <= k < |r.pos2atom| && r.pos2atom[k] == a;
      BodyAt(p, i, rows, k);
      BodyAt(p, i, rows', k);
    }
  }

  lemma DipIsWide(p: Program, d: Deriv)
    requires GoodProgram(p) && d in GroundOf(p).derivs && CanDip(GroundOf(p), d)
    ensures d.rule < |p.rules| && Wide(p, p.rules[d.rule]) && p.rules[d.rule].head == d.head.view
  {
    var rows := DerivIsInstance(p, d);
    var r := p.rules[d.rule];
    var k :| 0 <= k < |d.body| && Stratum(GroundOf(p), d.body[k].fact) < Stratum(GroundOf(p), d.head);
    LiteralFits(p, d.rule, rows, k);
    assert AtomStratum(p, r, r.pos2atom[k]) < p.views[r.head].stratum;
  }

  lemma DerivOfRule(p: Program, d: Deriv)
    requires GoodProgram(p) && d in GroundOf(p).derivs
    ensures d.rule < |p.rules| && d.head.view == p.rules[d.rule].head && d.recursive == p.rules[d.rule].recursive
    ensures WellFormedDeriv(GroundOf(p), d)
  {
    var rows := DerivIsInstance(p, d);
    InstanceWellFormed(p, d.rule, rows);
  }

  lemma GroundWellFormed(p: Program)
    requires GoodProgram(p)
    ensures WellFormed(GroundOf(p))
  {
    hide WellFormedDeriv, CanDip, Wide, GoodRule;
    var g := GroundOf(p);
    forall d | d in g.derivs ensures WellFormedDeriv(g, d) {
      DerivOfRule(p, d);
    }
    forall d, e | d in g.derivs && e in g.derivs && CanDip(g, d) && e.head.view == d.head.view
      ensures e.recursive && d.head.view !in g.external
    {
      DipIsWide(p, d);
      DerivOfRule(p, e);
    }
  }
}
