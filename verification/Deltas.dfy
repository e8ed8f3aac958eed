/** From enumerated assignments to ground derivations. */
module Deltas {
  import opened Ground
  import opened Model
  import opened Rules
  import opened Grounding
  import opened RowStore
  import opened Enumerate
  import opened Firings

  /** `rd[q]` is what position `q` of the rule reads when it may see the facts `table[q]`. */
  ghost predicate TableReads(r: Rule, rd: seq<set<Row>>, table: seq<set<Fact>>) {
    && |rd| == |table| == |r.pos2atom|
    && forall q, row :: 0 <= q < |rd| && r.pos2atom[q] < |r.atoms| ==>
         (row in rd[q] <==> Fact(r.atoms[r.pos2atom[q]].view, row) in table[q])
  }

  /** The derivations an enumeration stands for. */
  ghost function Derivs(r: Rule, i: nat, found: seq<Assignment>): (ds: seq<Deriv>)
    requires forall k :: 0 <= k < |r.pos2atom| ==> r.pos2atom[k] < |r.atoms|
    requires forall rows :: rows in found ==> |rows| == |r.atoms|
    ensures |ds| == |found|
  {
    seq(|found|, k requires 0 <= k < |found| => assert found[k] in found; Instance(r, i, found[k]))
  }

  /** At one position, what the enumerator tests is what the ground derivation reads. */
  lemma WantedAt(p: Program, i: nat, rows: Assignment, rd: seq<set<Row>>, table: seq<set<Fact>>,
                 delta: int, deltaRow: Row, q: nat)
    requires GoodProgram(p) && i < |p.rules| && GoodRule(p, p.rules[i]) && RowsFit(p, p.rules[i], rows)
    requires TableReads(p.rules[i], rd, table) && q < |rd|
    ensures
      var r := p.rules[i];
      var d := Instance(r, i, rows);
      AtPosition(r, rd, delta, deltaRow, rows, q) <==>
        if q == delta then d.body[q].fact == Fact(r.atoms[r.pos2atom[q]].view, deltaRow) else Holds(d.body[q], table[q])
  {
    BodyAt(p, i, rows, q);
    var r := p.rules[i];
    var a := r.pos2atom[q];
    assert rows[a] in rd[q] <==> Fact(r.atoms[a].view, rows[a]) in table[q];
  }

  /** With a delta position, the wanted instances are the derivations that hold the delta fact
      there and read the tables elsewhere. */
  lemma WantedIsDelta(p: Program, i: nat, rows: Assignment, rd: seq<set<Row>>, table: seq<set<Fact>>,
                      delta: nat, deltaRow: Row)
    requires GoodProgram(p) && i < |p.rules| && GoodRule(p, p.rules[i]) && Matches(p, p.rules[i], rows)
    requires TableReads(p.rules[i], rd, table) && delta < |rd|
    ensures
      var r := p.rules[i];
      Wanted(p, r, rd, delta, deltaRow, rows) <==>
        DeltaReads(Instance(r, i, rows), delta, {Fact(r.atoms[r.pos2atom[delta]].view, deltaRow)}, table)
  {
    hide GoodProgram, GoodRule, TableReads, AtPosition, Matches;
    var r := p.rules[i];
    DeltaLengths(p, i, rows, rd, table);
    forall q | 0 <= q < |rd|
      ensures AtPosition(r, rd, delta, deltaRow, rows, q) <==>
        if q == delta then Instance(r, i, rows).body[q].fact == Fact(r.atoms[r.pos2atom[q]].view, deltaRow)
        else Holds(Instance(r, i, rows).body[q], table[q])
    {
      WantedAt(p, i, rows, rd, table, delta, deltaRow, q);
    }
  }

  lemma DeltaLengths(p: Program, i: nat, rows: Assignment, rd: seq<set<Row>>, table: seq<set<Fact>>)
    requires GoodProgram(p) && i < |p.rules| && GoodRule(p, p.rules[i]) && Matches(p, p.rules[i], rows)
    requires TableReads(p.rules[i], rd, table)
    ensures |rd| == |table| == |p.rules[i].pos2atom| && RowsFit(p, p.rules[i], rows)
    ensures |rows| == |p.rules[i].atoms| && forall k :: 0 <= k < |p.rules[i].pos2atom| ==> p.rules[i].pos2atom[k] < |p.rules[i].atoms|
    ensures |Instance(p.rules[i], i, rows).body| == |rd|
  {
  }

  /** Without a delta position, the wanted instances are the derivations active over one state. */
  lemma WantedIsActive(p: Program, i: nat, rows: Assignment, rd: seq<set<Row>>, table: seq<set<Fact>>, s: set<Fact>)
    requires GoodProgram(p) && i < |p.rules| && GoodRule(p, p.rules[i]) && Matches(p, p.rules[i], rows)
    requires TableReads(p.rules[i], rd, table) && forall q :: 0 <= q < |table| ==> table[q] == s
    ensures Wanted(p, p.rules[i], rd, -1, [], rows) <==> Active(Instance(p.rules[i], i, rows), s)
  {
    hide GoodProgram, GoodRule, TableReads, AtPosition, Matches;
    var r := p.rules[i];
    DeltaLengths(p, i, rows, rd, table);
    forall q | 0 <= q < |rd|
      ensures AtPosition(r, rd, -1, [], rows, q) <==> Holds(Instance(r, i, rows).body[q], s)
    {
      WantedAt(p, i, rows, rd, table, -1, [], q);
    }
  }

  /** `d` is a derivation of rule `i` with this head row. */
  ghost predicate Listed(p: Program, g: GroundProgram, i: nat, d: Deriv, head: Row) {
    && i < |p.rules| && d in g.derivs && d.rule == i
    && d.head == Fact(p.rules[i].head, head) && d.recursive == p.rules[i].recursive
  }

  /** Every enumerated assignment is a derivation of the ground program, with its head, once. */
  lemma DerivsListed(p: Program, g: GroundProgram, i: nat, rd: seq<set<Row>>, delta: int, deltaRow: Row,
                     heads: seq<Row>, found: seq<Assignment>)
    requires GoodProgram(p) && g == GroundOf(p) && i < |p.rules| && GoodRule(p, p.rules[i]) && |rd| == |p.rules[i].pos2atom|
    requires ListsAll(p, p.rules[i], rd, delta, deltaRow, heads, found)
    ensures forall rows :: rows in found ==> |rows| == |p.rules[i].atoms|
    ensures
      var ds := Derivs(p.rules[i], i, found);
      && |heads| == |ds| && NoRepeats(ds)
      && forall k :: 0 <= k < |ds| ==> Listed(p, g, i, ds[k], heads[k])
  {
    var r := p.rules[i];
    var ds := Derivs(r, i, found);
    forall k | 0 <= k < |ds|
      ensures Listed(p, g, i, ds[k], heads[k])
    {
      assert found[k] in found;
      InstanceIsDeriv(p, i, found[k]);
    }
    forall j, k | 0 <= j < k < |ds| ensures ds[j] != ds[k] {
      assert found[j] in found && found[k] in found;
      if ds[j] == ds[k] {
        InstanceInjective(p, i, found[j], found[k]);
      }
    }
  }

  /** Every enumerated derivation is a delta derivation. */
  lemma FoundIsDelta(p: Program, g: GroundProgram, i: nat, rd: seq<set<Row>>, table: seq<set<Fact>>,
                     delta: nat, deltaRow: Row, heads: seq<Row>, found: seq<Assignment>, k: nat)
    requires GoodProgram(p) && g == GroundOf(p) && i < |p.rules| && GoodRule(p, p.rules[i])
    requires TableReads(p.rules[i], rd, table) && delta < |rd|
    requires ListsAll(p, p.rules[i], rd, delta, deltaRow, heads, found) && k < |found|
    requires |found[k]| == |p.rules[i].atoms|
    ensures
      var r := p.rules[i];
      Instance(r, i, found[k]) in DeltaDerivs(g, i, delta, {Fact(r.atoms[r.pos2atom[delta]].view, deltaRow)}, table)
  {
    hide GoodProgram, GoodRule, TableReads, Matches, DeltaReads, GroundOf;
    assert found[k] in found;
    WantedIsDelta(p, i, found[k], rd, table, delta, deltaRow);
    InstanceIsDeriv(p, i, found[k]);
  }

  /** Every delta derivation is enumerated. */
  lemma DeltaIsFound(p: Program, g: GroundProgram, i: nat, rd: seq<set<Row>>, table: seq<set<Fact>>,
                     delta: nat, deltaRow: Row, heads: seq<Row>, found: seq<Assignment>, d: Deriv) returns (k: nat)
    requires GoodProgram(p) && g == GroundOf(p) && i < |p.rules| && GoodRule(p, p.rules[i])
    requires TableReads(p.rules[i], rd, table) && delta < |rd|
    requires ListsAll(p, p.rules[i], rd, delta, deltaRow, heads, found)
    requires
      var r := p.rules[i];
      d in DeltaDerivs(g, i, delta, {Fact(r.atoms[r.pos2atom[delta]].view, deltaRow)}, table)
    ensures k < |found| && |found[k]| == |p.rules[i].atoms| && Instance(p.rules[i], i, found[k]) == d
  {
    hide GoodProgram, GoodRule, TableReads, Matches, DeltaReads, GroundOf;
    var rows := DerivIsInstance(p, d);
    WantedIsDelta(p, i, rows, rd, table, delta, deltaRow);
    assert rows in found;
    k :| 0 <= k < |found| && found[k] == rows;
    MatchesFit(p, p.rules[i], rows);
  }

  lemma MatchesFit(p: Program, r: Rule, rows: Assignment)
    requires Matches(p, r, rows)
    ensures |rows| == |r.atoms|
  {
  }

  /** The enumerated derivations are exactly the delta derivations. */
  lemma DerivsAreDelta(p: Program, g: GroundProgram, i: nat, rd: seq<set<Row>>, table: seq<set<Fact>>,
                       delta: nat, deltaRow: Row, heads: seq<Row>, found: seq<Assignment>)
    requires GoodProgram(p) && g == GroundOf(p) && i < |p.rules| && GoodRule(p, p.rules[i])
    requires TableReads(p.rules[i], rd, table) && delta < |rd|
    requires ListsAll(p, p.rules[i], rd, delta, deltaRow, heads, found)
    requires forall rows :: rows in found ==> |rows| == |p.rules[i].atoms|
    ensures
      var r := p.rules[i];
      forall d :: d in Derivs(r, i, found) <==>
        d in DeltaDerivs(g, i, delta, {Fact(r.atoms[r.pos2atom[delta]].view, deltaRow)}, table)
  {
    var r := p.rules[i];
    var ds := Derivs(r, i, found);
    var target := {Fact(r.atoms[r.pos2atom[delta]].view, deltaRow)};
    hide GoodProgram, TableReads, GroundOf, ListsAll, DeltaDerivs;
    forall d | d in ds ensures d in DeltaDerivs(g, i, delta, target, table) {
      var k: nat :| k < |ds| && ds[k] == d;
      assert found[k] in found;
      FoundIsDelta(p, g, i, rd, table, delta, deltaRow, heads, found, k);
    }
    forall d | d in DeltaDerivs(g, i, delta, target, table) ensures d in ds {
      var k := DeltaIsFound(p, g, i, rd, table, delta, deltaRow, heads, found, d);
      assert ds[k] == d;
    }
  }

  /** `ds` are the derivations of rule `i` that hold `deltaFact` at position `delta` and read
      the tables elsewhere, each once; `heads` are their head rows. */
  ghost predicate DeltaListed(p: Program, g: GroundProgram, i: nat, delta: nat, deltaFact: Fact, table: seq<set<Fact>>,
                              heads: seq<Row>, ds: seq<Deriv>)
  {
    && |heads| == |ds| && NoRepeats(ds)
    && (forall k :: 0 <= k < |ds| ==> Listed(p, g, i, ds[k], heads[k]))
    && (forall d :: d in ds <==> d in DeltaDerivs(g, i, delta, {deltaFact}, table))
  }

  lemma EnumeratedDelta(p: Program, g: GroundProgram, i: nat, rd: seq<set<Row>>, table: seq<set<Fact>>,
                        delta: nat, deltaRow: Row, heads: seq<Row>, found: seq<Assignment>) returns (ds: seq<Deriv>)
    requires GoodProgram(p) && g == GroundOf(p) && i < |p.rules| && GoodRule(p, p.rules[i])
    requires TableReads(p.rules[i], rd, table) && delta < |rd|
    requires ListsAll(p, p.rules[i], rd, delta, deltaRow, heads, found)
    ensures
      var r := p.rules[i];
      delta < |r.pos2atom| && r.pos2atom[delta] < |r.atoms|
      && DeltaListed(p, g, i, delta, Fact(r.atoms[r.pos2atom[delta]].view, deltaRow), table, heads, ds)
  {
    hide ListsAll, TableReads, DeltaDerivs, Listed, NoRepeats;
    TableLength(p.rules[i], rd, table);
    DerivsListed(p, g, i, rd, delta, deltaRow, heads, found);
    DerivsAreDelta(p, g, i, rd, table, delta, deltaRow, heads, found);
    ds := Derivs(p.rules[i], i, found);
  }

  lemma TableLength(r: Rule, rd: seq<set<Row>>, table: seq<set<Fact>>)
    requires TableReads(r, rd, table)
    ensures |rd| == |table| == |r.pos2atom|
  {
  }

  // ------------------------------------------------------------------
  // Without a delta position.

  ghost predicate ActiveDeriv(g: GroundProgram, i: nat, s: set<Fact>, d: Deriv) {
    d in g.derivs && d.rule == i && Active(d, s)
  }

  /** Every position reads the same state. */
  ghost predicate Uniform(table: seq<set<Fact>>, s: set<Fact>) {
    forall q :: 0 <= q < |table| ==> table[q] == s
  }

  lemma FoundIsActive(p: Program, g: GroundProgram, i: nat, rd: seq<set<Row>>, table: seq<set<Fact>>, s: set<Fact>,
                      heads: seq<Row>, found: seq<Assignment>, k: nat)
    requires GoodProgram(p) && g == GroundOf(p) && i < |p.rules| && GoodRule(p, p.rules[i])
    requires TableReads(p.rules[i], rd, table) && Uniform(table, s)
    requires |rd| == |p.rules[i].pos2atom| && ListsAll(p, p.rules[i], rd, -1, [], heads, found) && k < |found|
    requires |found[k]| == |p.rules[i].atoms|
    ensures ActiveDeriv(g, i, s, Instance(p.rules[i], i, found[k]))
  {
    hide GoodProgram, GoodRule, TableReads, Matches, Active, GroundOf;
    assert found[k] in found;
    WantedIsActive(p, i, found[k], rd, table, s);
    InstanceIsDeriv(p, i, found[k]);
  }

  lemma ActiveIsFound(p: Program, g: GroundProgram, i: nat, rd: seq<set<Row>>, table: seq<set<Fact>>, s: set<Fact>,
                      heads: seq<Row>, found: seq<Assignment>, d: Deriv) returns (k: nat)
    requires GoodProgram(p) && g == GroundOf(p) && i < |p.rules| && GoodRule(p, p.rules[i])
    requires TableReads(p.rules[i], rd, table) && Uniform(table, s)
    requires |rd| == |p.rules[i].pos2atom| && ListsAll(p, p.rules[i], rd, -1, [], heads, found)
    requires ActiveDeriv(g, i, s, d)
    ensures k < |found| && |found[k]| == |p.rules[i].atoms| && Instance(p.rules[i], i, found[k]) == d
  {
    hide GoodProgram, GoodRule, TableReads, Matches, Active, GroundOf;
    var rows := DerivIsInstance(p, d);
    WantedIsActive(p, i, rows, rd, table, s);
    assert rows in found;
    k :| 0 <= k < |found| && found[k] == rows;
    MatchesFit(p, p.rules[i], rows);
  }

  /** `ds` are the derivations of rule `i` active over `s`, each once; `heads` are their head rows. */
  ghost predicate ActiveListed(p: Program, g: GroundProgram, i: nat, s: set<Fact>, heads: seq<Row>, ds: seq<Deriv>) {
    && |heads| == |ds| && NoRepeats(ds)
    && (forall k :: 0 <= k < |ds| ==> Listed(p, g, i, ds[k], heads[k]))
    && (forall d :: d in ds <==> ActiveDeriv(g, i, s, d))
  }

  lemma EnumeratedActive(p: Program, g: GroundProgram, i: nat, rd: seq<set<Row>>, table: seq<set<Fact>>, s: set<Fact>,
                         heads: seq<Row>, found: seq<Assignment>) returns (ds: seq<Deriv>)
    requires GoodProgram(p) && g == GroundOf(p) && i < |p.rules| && GoodRule(p, p.rules[i])
    requires TableReads(p.rules[i], rd, table) && Uniform(table, s)
    requires |rd| == |p.rules[i].pos2atom| && ListsAll(p, p.rules[i], rd, -1, [], heads, found)
    ensures ActiveListed(p, g, i, s, heads, ds)
  {
    hide ListsAll, TableReads, ActiveDeriv, Listed, NoRepeats, Uniform, GoodProgram, GroundOf;
    DerivsListed(p, g, i, rd, -1, [], heads, found);
    ds := Derivs(p.rules[i], i, found);
    forall d ensures d in ds <==> ActiveDeriv(g, i, s, d) {
      if d in ds {
        var k: nat :| k < |ds| && ds[k] == d;
        assert found[k] in found;
        FoundIsActive(p, g, i, rd, table, s, heads, found, k);
      }
      if ActiveDeriv(g, i, s, d) {
        var k := ActiveIsFound(p, g, i, rd, table, s, heads, found, d);
        assert ds[k] == d;
      }
    }
  }
}
