/** Deleting empty views, pruning merges, and deleting tuples that hand a merge's rows back to it. */
module Trimming {
  import opened FlowGraph
  import opened Ground
  import opened Model
  import opened Taint
  import opened Wrappers

  function Deleted(nodes: seq<Node>, v: nat): seq<Node>
    requires v < |nodes|
  {
    nodes[v := nodes[v].(dead := true)]
  }

  lemma DeletedFits(nodes: seq<Node>, rows: set<Row>, strata: seq<nat>, tainted: set<nat>, v: nat)
    requires GraphFits(nodes, rows) && StrataFit(nodes, strata) && TaintClosed(nodes, tainted) && v < |nodes|
    ensures GraphFits(Deleted(nodes, v), rows) && StrataFit(Deleted(nodes, v), strata) && TaintClosed(Deleted(nodes, v), tainted)
  {
    var less := Deleted(nodes, v);
    forall u: nat | Taints(less, tainted, u) ensures u in tainted {
      assert Taints(nodes, tainted, u);
    }
    forall u: nat | Live(less, u) ensures OpAbove(strata, less[u].op, strata[u]) {
      assert Live(nodes, u);
    }
  }

  lemma DeleteEmpty(nodes: seq<Node>, rows: set<Row>, strata: seq<nat>, received: set<Fact>, x: set<Fact>, v: nat)
    requires GraphFits(nodes, rows) && StrataFit(nodes, strata) && FlowModel(nodes, rows, strata, received, x)
    requires v < |nodes| && forall f :: f in x ==> f.view != v
    ensures FlowModel(Deleted(nodes, v), rows, strata, received, x)
  {
    hide IsModel, IsRule, StrataFit, GraphFits, Stratified;
    var less := Deleted(nodes, v);
    var g, h := GraphProgram(nodes, rows, strata), GraphProgram(less, rows, strata);
    var ext := External(nodes, rows, received, x);
    GraphStratified(nodes, rows, strata);
    ModelFacts(g, ext, x);
    assert ext == External(less, rows, received, x);
    FewerRules(g, h, ext, x);
  }

  function Keep(merged: seq<nat>, nodes: seq<Node>, tainted: set<nat>): (kept: seq<nat>)
    ensures forall m :: m in kept <==> m in merged && m < |nodes| && !nodes[m].dead && m in tainted
  {
    if merged == [] then []
    else
      var m := merged[0];
      (if m < |nodes| && !nodes[m].dead && m in tainted then [m] else []) + Keep(merged[1..], nodes, tainted)
  }

  /** The list is filtered entry by entry: order and copies stay. */
  lemma {:induction false} KeepJoins(a: seq<nat>, b: seq<nat>, nodes: seq<Node>, tainted: set<nat>, m: nat)
    ensures Keep(a + b, nodes, tainted) == Keep(a, nodes, tainted) + Keep(b, nodes, tainted)
    ensures Keep([m], nodes, tainted) == if m < |nodes| && !nodes[m].dead && m in tainted then [m] else []
  {
    if a == [] {
      assert a + b == b;
    } else {
      assert (a + b)[1..] == a[1..] + b;
      KeepJoins(a[1..], b, nodes, tainted, m);
    }
  }

  function Pruned(nodes: seq<Node>, tainted: set<nat>, v: nat): seq<Node>
    requires v < |nodes| && nodes[v].op.Merge?
  {
    nodes[v := nodes[v].(op := Merge(Keep(nodes[v].op.merged, nodes, tainted)))]
  }

  lemma PrunedFits(nodes: seq<Node>, rows: set<Row>, strata: seq<nat>, tainted: set<nat>, v: nat)
    requires GraphFits(nodes, rows) && StrataFit(nodes, strata) && TaintClosed(nodes, tainted) && v < |nodes| && nodes[v].op.Merge?
    ensures GraphFits(Pruned(nodes, tainted, v), rows) && StrataFit(Pruned(nodes, tainted, v), strata)
    ensures TaintClosed(Pruned(nodes, tainted, v), tainted)
  {
    var less := Pruned(nodes, tainted, v);
    assert OpFits(|nodes|, rows, nodes[v].op);
    forall u: nat | u < |nodes| ensures OpFits(|nodes|, rows, less[u].op) {
      assert OpFits(|nodes|, rows, nodes[u].op);
    }
    forall u: nat | Taints(less, tainted, u) ensures u in tainted {
      assert Taints(nodes, tainted, u);
    }
    forall u: nat | Live(less, u) ensures OpAbove(strata, less[u].op, strata[u]) {
      assert Live(nodes, u) && OpAbove(strata, nodes[u].op, strata[u]);
    }
  }

  /** A merge loses nothing with the deleted and untainted views it lists. */
  lemma PruneMerge(nodes: seq<Node>, rows: set<Row>, strata: seq<nat>, received: set<Fact>, x: set<Fact>, tainted: set<nat>, v: nat)
    requires GraphFits(nodes, rows) && StrataFit(nodes, strata) && FlowModel(nodes, rows, strata, received, x)
    requires TaintClosed(nodes, tainted) && v < |nodes| && nodes[v].op.Merge?
    ensures FlowModel(Pruned(nodes, tainted, v), rows, strata, received, x)
  {
    hide IsModel, StrataFit, GraphFits, Stratified, TaintClosed;
    var less := Pruned(nodes, tainted, v);
    var g, h := GraphProgram(nodes, rows, strata), GraphProgram(less, rows, strata);
    var ext := External(nodes, rows, received, x);
    GraphStratified(nodes, rows, strata);
    OnlyLive(nodes, rows, strata, received, x);
    UntaintedEmpty(nodes, rows, strata, received, x, tainted);
    assert ext == External(less, rows, received, x);
    forall d | d in g.derivs && d !in h.derivs ensures Idle(d, x) {
      PrunedIdle(nodes, rows, x, tainted, v, d);
    }
    FewerRules(g, h, ext, x);
  }

  lemma PrunedIdle(nodes: seq<Node>, rows: set<Row>, x: set<Fact>, tainted: set<nat>, v: nat, d: Deriv)
    requires v < |nodes| && nodes[v].op.Merge?
    requires forall f :: f in x ==> Live(nodes, f.view) && f.view in tainted
    requires Live(nodes, d.head.view) && IsRule(nodes[d.head.view].op, d.head.view, rows, d)
    requires !IsRule(Pruned(nodes, tainted, v)[d.head.view].op, d.head.view, rows, d)
    ensures Idle(d, x)
  {
    var m :| m in nodes[v].op.merged && d.body == [Literal(Fact(m, d.head.row), false)];
    assert d.body[0].fact !in x;
  }

  predicate Mentions(op: Op, u: nat) {
    match op
    case Input => false
    case Relation(inserts) => u in inserts
    case Merge(merged) => u in merged
    case Forward(_, source, _) => source == Some(u)
    case Negate(source, negated, _) => source == Some(u) || negated == u
    case Reduce(values, keys, _) => values == Some(u) || keys == Some(u)
    case Join(joined, _) => u in joined
  }

  /** `m` is the only view left that uses `t`. */
  predicate OnlyUser(nodes: seq<Node>, t: nat, m: nat) {
    && m < |nodes| && !nodes[m].dead && Mentions(nodes[m].op, t)
    && forall v :: 0 <= v < |nodes| && !nodes[v].dead && v != m ==> !Mentions(nodes[v].op, t)
  }

  /** A column's index is its position, so comparing the two views' column indices compares arities. */
  predicate IsTrivialCycle(nodes: seq<Node>, t: nat)
    requires t < |nodes|
  {
    var op := nodes[t].op;
    op.Forward? && op.kind.TupleNode? && op.source.Some?
    && OnlyUser(nodes, t, op.source.value)
    && nodes[op.source.value].arity == nodes[t].arity && nodes[op.source.value].op.Merge?
  }

  ghost function SourceSet(source: Option<nat>): set<nat> {
    if source.Some? then {source.value} else {}
  }

  /** The views whose columns a node uses. */
  ghost function Operands(op: Op): set<nat> {
    match op
    case Input => {}
    case Relation(inserts) => set i | i in inserts
    case Merge(merged) => set m | m in merged
    case Forward(_, source, _) => SourceSet(source)
    case Negate(source, negated, _) => SourceSet(source) + {negated}
    case Reduce(values, keys, _) => SourceSet(values) + SourceSet(keys)
    case Join(joined, _) => set j | j in joined
  }

  /** A tuple that hands the rows of a merge of its arity back to that merge, and to no other node that
      is left. */
  ghost predicate LoopsBack(nodes: seq<Node>, t: nat) {
    t < |nodes| && nodes[t].op.Forward? && nodes[t].op.kind.TupleNode?
    && exists m: nat ::
         && nodes[t].op.source == Some(m) && m < |nodes| && !nodes[m].dead
         && nodes[m].op.Merge? && t in nodes[m].op.merged && nodes[m].arity == nodes[t].arity
         && forall v: nat :: v < |nodes| && t in Operands(nodes[v].op) ==> v == m || nodes[v].dead
  }

  lemma TrivialCycleIs(nodes: seq<Node>, t: nat)
    requires t < |nodes|
    ensures IsTrivialCycle(nodes, t) <==> LoopsBack(nodes, t)
  {
    forall v: nat | v < |nodes| ensures Mentions(nodes[v].op, t) <==> t in Operands(nodes[v].op) {
    }
    if IsTrivialCycle(nodes, t) {
      var m := nodes[t].op.source.value;
      forall v: nat | v < |nodes| && t in Operands(nodes[v].op) ensures v == m || nodes[v].dead {
        assert Mentions(nodes[v].op, t);
      }
    }
  }

  /** The tuple forwards every column in its place. */
  ghost predicate InPlace(passes: set<(Row, Row)>) {
    forall p :: p in passes ==> p.0 == p.1
  }

  lemma RuleMentions(op: Op, v: nat, rows: set<Row>, d: Deriv, p: nat)
    requires IsRule(op, v, rows, d) && p < |d.body|
    ensures Mentions(op, d.body[p].fact.view)
    ensures d.body[p].negated ==> op.Negate?
  {
  }

  ghost function Without(x: set<Fact>, t: nat): set<Fact> {
    set f | f in x && f.view != t
  }

  ghost predicate IsCycle(nodes: seq<Node>, strata: seq<nat>, t: nat, m: nat) {
    && Live(nodes, t) && Live(nodes, m) && |strata| == |nodes| && strata[t] == strata[m]
    && nodes[t].op.Forward? && nodes[t].op.source == Some(m) && InPlace(nodes[t].op.passes)
    && nodes[m].op.Merge? && OnlyUser(nodes, t, m)
  }

  /** A rule other than the merge's own from the tuple does not read the tuple. */
  lemma CycleReads(nodes: seq<Node>, rows: set<Row>, strata: seq<nat>, t: nat, m: nat, d: Deriv, p: nat)
    requires IsCycle(nodes, strata, t, m) && d in GraphProgram(nodes, rows, strata).derivs && p < |d.body|
    requires d.body[p].fact.view == t
    ensures d.head.view == m && d.body == [Literal(Fact(t, d.head.row), false)]
  {
    RuleMentions(nodes[d.head.view].op, d.head.view, rows, d, p);
  }

  lemma CycleRule(nodes: seq<Node>, rows: set<Row>, strata: seq<nat>, t: nat, m: nat, d: Deriv)
    requires IsCycle(nodes, strata, t, m) && d in GraphProgram(nodes, rows, strata).derivs && d.head.view == t
    ensures d.body == [Literal(Fact(m, d.head.row), false)]
  {
  }

  lemma WithoutActive(nodes: seq<Node>, rows: set<Row>, strata: seq<nat>, t: nat, m: nat, d: Deriv, x: set<Fact>)
    requires IsCycle(nodes, strata, t, m) && d in GraphProgram(nodes, rows, strata).derivs && Active(d, Without(x, t))
    ensures Active(d, x)
  {
    hide GraphProgram, IsCycle;
    forall p | 0 <= p < |d.body| ensures Holds(d.body[p], x) {
      assert Holds(d.body[p], Without(x, t));
      if d.body[p].fact.view == t {
        CycleReads(nodes, rows, strata, t, m, d, p);
      }
    }
  }

  /** A closed set without the tuple, with the tuple's rows put back. */
  ghost function Restored(z: set<Fact>, facts: set<Fact>, t: nat, m: nat): set<Fact> {
    set f | f in facts && if f.view == t then Fact(m, f.row) in z else f in z
  }

  lemma RestoredStep(
    nodes: seq<Node>, rows: set<Row>, strata: seq<nat>, t: nat, m: nat, n: nat, lower: set<Fact>, z: set<Fact>, d: Deriv)
    requires IsCycle(nodes, strata, t, m) && t != m
    requires
      var g := GraphProgram(nodes, rows, strata);
      d in g.derivs && Stratum(g, d.head) == n && lower == Below(g, lower, n) && z <= At(g, g.facts, n) && d.head in g.facts
      && Active(d, lower + Restored(z, At(g, g.facts, n), t, m))
      && (d.head.view != t && Active(d, Without(lower, t) + z) ==> d.head in z)
    ensures
      var g := GraphProgram(nodes, rows, strata);
      d.head in Restored(z, At(g, g.facts, n), t, m)
  {
    var g := GraphProgram(nodes, rows, strata);
    hide GraphProgram;
    var z1 := Restored(z, At(g, g.facts, n), t, m);
    if d.head.view == t {
      CycleRule(nodes, rows, strata, t, m, d);
      assert Holds(d.body[0], lower + z1);
    } else if p: nat :| p < |d.body| && d.body[p].fact.view == t {
      CycleReads(nodes, rows, strata, t, m, d, p);
      assert Holds(d.body[0], lower + z1);
    } else {
      forall p | 0 <= p < |d.body| ensures Holds(d.body[p], Without(lower, t) + z) {
        assert Holds(d.body[p], lower + z1) && d.body[p].fact.view != t;
      }
    }
  }

  lemma CycleClosed(
    nodes: seq<Node>, rows: set<Row>, strata: seq<nat>, received: set<Fact>, x: set<Fact>, t: nat, m: nat, n: nat,
    h: GroundProgram, y: set<Fact>, ext: set<Fact>)
    requires GraphFits(nodes, rows) && StrataFit(nodes, strata) && FlowModel(nodes, rows, strata, received, x)
    requires IsCycle(nodes, strata, t, m) && t != m
    requires h == GraphProgram(Deleted(nodes, t), rows, strata) && y == Without(x, t) && ext == External(nodes, rows, received, x)
    ensures Closed(h, n, Below(h, y, n), ext, At(h, y, n)) && y <= h.facts
  {
    var g := GraphProgram(nodes, rows, strata);
    assert h.facts == g.facts && forall d :: d in h.derivs <==> d in g.derivs && d.head.view != t;
    hide IsModel, GraphProgram, GraphFits, StrataFit, IsCycle, FlowModel, External, Active, InPlace;
    GraphStratified(nodes, rows, strata);
    ModelOf(nodes, rows, strata, received, x);
    ModelFacts(g, ext, x);
    CycleGiven(nodes, rows, received, x, t, m);
    forall d | d in h.derivs && Stratum(h, d.head) == n && Active(d, Below(h, y, n) + At(h, y, n)) ensures d.head in At(h, y, n) {
      assert StratifiedDeriv(h, d) by {
        assert StratifiedDeriv(g, d);
      }
      ActiveSplit(h, d, n, y);
      WithoutActive(nodes, rows, strata, t, m, d, x);
    }
  }

  lemma CycleFree(
    nodes: seq<Node>, rows: set<Row>, strata: seq<nat>, received: set<Fact>, x: set<Fact>, t: nat, m: nat, n: nat)
    requires GraphFits(nodes, rows) && StrataFit(nodes, strata) && FlowModel(nodes, rows, strata, received, x)
    requires IsCycle(nodes, strata, t, m) && t != m
    ensures
      var h, y := GraphProgram(Deleted(nodes, t), rows, strata), Without(x, t);
      At(h, y, n) == Least(h, n, Below(h, y, n), External(nodes, rows, received, x))
  {
    hide IsModel, GraphProgram, GraphFits, StrataFit, FlowModel, External, Closed, Stratified, Without;
    var h, y, ext := GraphProgram(Deleted(nodes, t), rows, strata), Without(x, t), External(nodes, rows, received, x);
    CycleClosed(nodes, rows, strata, received, x, t, m, n, h, y, ext);
    LeastIsLeast(h, n, Below(h, y, n), ext, At(h, y, n));
    forall z: set<Fact> | z <= At(h, h.facts, n) && Closed(h, n, Below(h, y, n), ext, z) ensures At(h, y, n) <= z {
      CycleFreeLeast(nodes, rows, strata, received, x, t, m, n, z);
    }
  }

  lemma CycleFreeLeast(
    nodes: seq<Node>, rows: set<Row>, strata: seq<nat>, received: set<Fact>, x: set<Fact>, t: nat, m: nat, n: nat, z: set<Fact>)
    requires GraphFits(nodes, rows) && StrataFit(nodes, strata) && FlowModel(nodes, rows, strata, received, x)
    requires IsCycle(nodes, strata, t, m) && t != m
    requires
      var h, y := GraphProgram(Deleted(nodes, t), rows, strata), Without(x, t);
      z <= At(h, h.facts, n) && Closed(h, n, Below(h, y, n), External(nodes, rows, received, x), z)
    ensures
      var h, y := GraphProgram(Deleted(nodes, t), rows, strata), Without(x, t);
      At(h, y, n) <= z
  {
    var less, y := Deleted(nodes, t), Without(x, t);
    var g, h, ext := GraphProgram(nodes, rows, strata), GraphProgram(less, rows, strata), External(nodes, rows, received, x);
    assert h.facts == g.facts && forall d :: d in h.derivs <==> d in g.derivs && d.head.view != t;
    hide GraphProgram, GraphFits, StrataFit, IsCycle, External, Active, FlowModel;
    GraphStratified(nodes, rows, strata);
    ModelOf(nodes, rows, strata, received, x);
    CycleGiven(nodes, rows, received, x, t, m);
    var lower := Below(g, x, n);
    var z1 := Restored(z, At(g, g.facts, n), t, m);
    assert Without(lower, t) == Below(h, y, n);
    assert At(g, ext, n) <= z1;
    forall d | d in g.derivs && Stratum(g, d.head) == n && Active(d, lower + z1) ensures d.head in z1 {
      assert Stratum(h, d.head) == n;
      RestoredStep(nodes, rows, strata, t, m, n, lower, z, d);
    }
    LeastIsLeast(g, n, lower, ext, z1);
    forall f | f in At(h, y, n) ensures f in z {
      assert f in At(g, x, n) && f in z1;
    }
  }

  lemma CycleGiven(nodes: seq<Node>, rows: set<Row>, received: set<Fact>, x: set<Fact>, t: nat, m: nat)
    requires t < |nodes| && nodes[t].op.Forward? && m < |nodes| && nodes[m].op.Merge? && OnlyUser(nodes, t, m)
    ensures External(Deleted(nodes, t), rows, received, Without(x, t)) == External(nodes, rows, received, x)
    ensures forall f :: f in External(nodes, rows, received, x) ==> f.view != t
  {
    var less, y := Deleted(nodes, t), Without(x, t);
    forall f | f in GraphFacts(nodes, rows) ensures Given(less, received, y, f) <==> Given(nodes, received, x, f) {
      if Live(nodes, f.view) && nodes[f.view].op.Reduce? {
        assert !Mentions(nodes[f.view].op, t);
        assert InputRows(x, ReduceSource(nodes[f.view].op)) == InputRows(y, ReduceSource(nodes[f.view].op));
      }
    }
  }

  /** A tuple that hands a merge's own rows back in place may be deleted. */
  lemma DropCycle(nodes: seq<Node>, rows: set<Row>, strata: seq<nat>, received: set<Fact>, x: set<Fact>, t: nat)
    requires GraphFits(nodes, rows) && StrataFit(nodes, strata) && FlowModel(nodes, rows, strata, received, x)
    requires t < |nodes| && IsTrivialCycle(nodes, t) && InPlace(nodes[t].op.passes)
    ensures FlowModel(Deleted(nodes, t), rows, strata, received, Without(x, t))
  {
    hide IsModel, GraphFits, StrataFit, External, IsRule;
    var m := nodes[t].op.source.value;
    OnlyLive(nodes, rows, strata, received, x);
    if f :| f in x && f.view == t {
      CycleIsLive(nodes, rows, strata, received, x, t, f);
      CycleGiven(nodes, rows, received, x, t, m);
      DropLiveCycle(nodes, rows, strata, received, x, t, m);
    } else {
      assert Without(x, t) == x;
      DeleteEmpty(nodes, rows, strata, received, x, t);
    }
  }

  /** A tuple that holds a row has it from its merge. */
  lemma CycleIsLive(nodes: seq<Node>, rows: set<Row>, strata: seq<nat>, received: set<Fact>, x: set<Fact>, t: nat, f: Fact)
    requires GraphFits(nodes, rows) && StrataFit(nodes, strata) && FlowModel(nodes, rows, strata, received, x)
    requires t < |nodes| && IsTrivialCycle(nodes, t) && InPlace(nodes[t].op.passes) && f in x && f.view == t
    ensures IsCycle(nodes, strata, t, nodes[t].op.source.value)
  {
    hide IsModel, GraphProgram, External, StrataFit, GraphFits, FlowModel, InPlace, OnlyUser, Mentions;
    var m := nodes[t].op.source.value;
    var g, ext := GraphProgram(nodes, rows, strata), External(nodes, rows, received, x);
    GraphStratified(nodes, rows, strata);
    ModelOf(nodes, rows, strata, received, x);
    ModelFacts(g, ext, x);
    OnlyLive(nodes, rows, strata, received, x);
    ForwardNotGiven(nodes, rows, received, x, f);
    var d :| d in g.derivs && d.head == f && Active(d, x);
    RuleOf(nodes, rows, strata, d);
    assert Holds(d.body[0], x);
    CycleStrata(nodes, strata, t, m);
  }

  lemma ForwardNotGiven(nodes: seq<Node>, rows: set<Row>, received: set<Fact>, x: set<Fact>, f: Fact)
    requires f.view < |nodes| && nodes[f.view].op.Forward?
    ensures f !in External(nodes, rows, received, x)
  {
  }

  lemma CycleStrata(nodes: seq<Node>, strata: seq<nat>, t: nat, m: nat)
    requires StrataFit(nodes, strata) && Live(nodes, t) && Live(nodes, m) && nodes[t].op.Forward? && nodes[t].op.source == Some(m)
    requires nodes[m].op.Merge? && OnlyUser(nodes, t, m)
    ensures |strata| == |nodes| && strata[t] == strata[m] && m < |nodes|
  {
    assert OpAbove(strata, nodes[t].op, strata[t]) && OpAbove(strata, nodes[m].op, strata[m]);
    assert SourceBelow(strata, Some(t), strata[m]);
  }

  lemma DropLiveCycle(nodes: seq<Node>, rows: set<Row>, strata: seq<nat>, received: set<Fact>, x: set<Fact>, t: nat, m: nat)
    requires GraphFits(nodes, rows) && StrataFit(nodes, strata) && FlowModel(nodes, rows, strata, received, x)
    requires IsCycle(nodes, strata, t, m) && t != m
    ensures FlowModel(Deleted(nodes, t), rows, strata, received, Without(x, t))
  {
    var h, y := GraphProgram(Deleted(nodes, t), rows, strata), Without(x, t);
    CycleGiven(nodes, rows, received, x, t, m);
    forall n: nat ensures At(h, y, n) == Least(h, n, Below(h, y, n), External(nodes, rows, received, x)) {
      CycleFree(nodes, rows, strata, received, x, t, m, n);
    }
  }

  /** An input, a merge of it with a tuple, and the tuple, which forwards the merge's rows to it. */
  function CycleGraph(passes: set<(Row, Row)>): seq<Node> {
    [Node(Input, 2, false, false),
     Node(Merge([0, 2]), 2, false, false),
     Node(Forward(TupleNode, Some(1), passes), 2, false, false)]
  }

  const CYCLE_STRATA: seq<nat> := [0, 1, 1]

  ghost predicate PassesFit(passes: set<(Row, Row)>, rows: set<Row>) {
    forall p :: p in passes ==> p.0 in rows && p.1 in rows
  }

  lemma CycleGraphFits(passes: set<(Row, Row)>, rows: set<Row>)
    requires PassesFit(passes, rows)
    ensures GraphFits(CycleGraph(passes), rows) && StrataFit(CycleGraph(passes), CYCLE_STRATA) && IsTrivialCycle(CycleGraph(passes), 2)
  {
    var nodes := CycleGraph(passes);
    assert Mentions(nodes[1].op, 2) && !Mentions(nodes[0].op, 2) && !Mentions(nodes[2].op, 2);
  }

  lemma CycleInput(passes: set<(Row, Row)>, rows: set<Row>, a: Row, x: set<Fact>)
    requires a in rows
    ensures External(CycleGraph(passes), rows, {Fact(0, a)}, x) == {Fact(0, a)}
    ensures Least(GraphProgram(CycleGraph(passes), rows, CYCLE_STRATA), 0, {}, {Fact(0, a)}) == {Fact(0, a)}
  {
    var g, f := GraphProgram(CycleGraph(passes), rows, CYCLE_STRATA), {Fact(0, a)};
    assert At(g, f, 0) == f;
    assert Closed(g, 0, {}, f, f);
    LeastIsLeast(g, 0, {}, f, f);
  }

  /** The graph has a model for one received row. */
  lemma CycleModel(passes: set<(Row, Row)>, rows: set<Row>, a: Row) returns (x: set<Fact>)
    requires PassesFit(passes, rows) && a in rows
    ensures FlowModel(CycleGraph(passes), rows, CYCLE_STRATA, {Fact(0, a)}, x)
  {
    hide Least, IsRule, IsModel;
    var f, g := {Fact(0, a)}, GraphProgram(CycleGraph(passes), rows, CYCLE_STRATA);
    x := f + Least(g, 1, f, f);
    CycleInput(passes, rows, a, x);
    CycleParts(g, f, x);
  }

  /** Two strata make a model: what is received, and the least model above it. */
  lemma CycleParts(g: GroundProgram, f: set<Fact>, x: set<Fact>)
    requires x == f + Least(g, 1, f, f) && f <= g.facts && AllBelow(g, 2)
    requires (forall e :: e in f ==> Stratum(g, e) == 0) && Least(g, 0, {}, f) == f
    ensures IsModel(g, f, x)
  {
    assert x <= g.facts && Below(g, x, 0) == {} && At(g, x, 0) == f && Below(g, x, 1) == f && At(g, x, 1) == Least(g, 1, f, f);
    forall n: nat ensures At(g, x, n) == Least(g, n, Below(g, x, n), f) {
      if n > 1 {
        LeastAbove(g, 2, n, x, f);
      }
    }
  }

  lemma RuleFires(nodes: seq<Node>, rows: set<Row>, x: set<Fact>, d: Deriv)
    requires forall e :: e in GraphProgram(nodes, rows, CYCLE_STRATA).derivs && Active(e, x) ==> e.head in x
    requires Live(nodes, d.head.view) && IsRule(nodes[d.head.view].op, d.head.view, rows, d) && Active(d, x)
    ensures d.head in x
  {
  }

  /** With the tuple, the merge holds what the tuple makes of the received row. */
  lemma CycleHolds(passes: set<(Row, Row)>, rows: set<Row>, a: Row, b: Row, x: set<Fact>)
    requires PassesFit(passes, rows) && (a, b) in passes
    requires FlowModel(CycleGraph(passes), rows, CYCLE_STRATA, {Fact(0, a)}, x)
    ensures Fact(1, b) in x
  {
    var nodes := CycleGraph(passes);
    var g, ext := GraphProgram(nodes, rows, CYCLE_STRATA), External(nodes, rows, {Fact(0, a)}, x);
    CycleGraphFits(passes, rows);
    GraphStratified(nodes, rows, CYCLE_STRATA);
    ModelFacts(g, ext, x);
    CycleInput(passes, rows, a, x);
    hide FlowModel, GraphFits, StrataFit, Stratified, IsTrivialCycle, PassesFit, GraphProgram;
    var first, second, third := Deriv(1, Fact(1, a), [Literal(Fact(0, a), false)], false),
                                Deriv(2, Fact(2, b), [Literal(Fact(1, a), false)], false),
                                Deriv(1, Fact(1, b), [Literal(Fact(2, b), false)], false);
    RuleFires(nodes, rows, x, first);
    assert second.body == SourceBody(Some(1), a);
    RuleFires(nodes, rows, x, second);
    RuleFires(nodes, rows, x, third);
  }

  /** Without the tuple, the merge holds the received row only. */
  lemma CycleLoses(passes: set<(Row, Row)>, rows: set<Row>, a: Row, b: Row, y: set<Fact>)
    requires PassesFit(passes, rows) && a != b
    requires FlowModel(Deleted(CycleGraph(passes), 2), rows, CYCLE_STRATA, {Fact(0, a)}, y)
    ensures Fact(1, b) !in y
  {
    var less := Deleted(CycleGraph(passes), 2);
    CycleGraphFits(passes, rows);
    DeletedFits(CycleGraph(passes), rows, CYCLE_STRATA, NodeSet(3), 2);
    GraphStratified(less, rows, CYCLE_STRATA);
    OnlyLive(less, rows, CYCLE_STRATA, {Fact(0, a)}, y);
    var g, ext := GraphProgram(less, rows, CYCLE_STRATA), External(less, rows, {Fact(0, a)}, y);
    ModelFacts(g, ext, y);
    assert Fact(0, b) !in y;
    forall d | d in g.derivs && d.head.view == 1 && Active(d, y) ensures d.head.row != b {
      assert Holds(d.body[0], y);
    }
  }

  ghost predicate DeletionSafe(passes: set<(Row, Row)>, rows: set<Row>) {
    forall received, x :: FlowModel(CycleGraph(passes), rows, CYCLE_STRATA, received, x)
      ==> FlowModel(Deleted(CycleGraph(passes), 2), rows, CYCLE_STRATA, received, Without(x, 2))
  }

  /** A tuple may be deleted from this graph, where the pass deletes every tuple, exactly when it
      forwards its columns in place: the code compares the views' own column indices, which are
      always equal. */
  lemma DeletionSafeIffInPlace(passes: set<(Row, Row)>, rows: set<Row>)
    requires PassesFit(passes, rows)
    ensures IsTrivialCycle(CycleGraph(passes), 2)
    ensures DeletionSafe(passes, rows) <==> InPlace(passes)
  {
    hide FlowModel, GraphFits, StrataFit;
    CycleGraphFits(passes, rows);
    if InPlace(passes) {
      forall received, x | FlowModel(CycleGraph(passes), rows, CYCLE_STRATA, received, x)
        ensures FlowModel(Deleted(CycleGraph(passes), 2), rows, CYCLE_STRATA, received, Without(x, 2))
      {
        DropCycle(CycleGraph(passes), rows, CYCLE_STRATA, received, x, 2);
      }
    } else {
      var p :| p in passes && p.0 != p.1;
      var x := CycleModel(passes, rows, p.0);
      CycleHolds(passes, rows, p.0, p.1, x);
      if FlowModel(Deleted(CycleGraph(passes), 2), rows, CYCLE_STRATA, {Fact(0, p.0)}, Without(x, 2)) {
        CycleLoses(passes, rows, p.0, p.1, Without(x, 2));
      }
    }
  }

  const AB: Row := [0, 1]
  const BA: Row := [1, 0]

  /** The pass deletes a tuple that swaps two columns, and a row is lost. */
  lemma SwappedRowIsLost()
    ensures IsTrivialCycle(CycleGraph({(AB, BA), (BA, AB)}), 2) && !DeletionSafe({(AB, BA), (BA, AB)}, {AB, BA})
  {
    var passes := {(AB, BA), (BA, AB)};
    DeletionSafeIffInPlace(passes, {AB, BA});
    assert (AB, BA) in passes && AB[0] != BA[0];
  }
}
