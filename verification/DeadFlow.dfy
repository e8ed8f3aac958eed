/** Dead-flow elimination: views that no input reaches are deleted, negations of such views are
    folded away, and the meaning of every view that stays is unchanged. */
module DeadFlow {
  import opened Folding
  import opened FlowGraph
  import opened Ground
  import opened Survivors
  import opened Taint
  import opened Trimming
  import opened Wrappers

  /** The model `x` seen through the surviving views: each holds the rows of the view it stands for. */
  ghost function Kept(nodes: seq<Node>, origin: seq<nat>, rows: set<Row>, x: set<Fact>): set<Fact> {
    set v: nat, r | v < |nodes| && v < |origin| && !nodes[v].dead && r in rows && Fact(origin[v], r) in x :: Fact(v, r)
  }

  /** Whatever is received, the surviving views of the new graph hold what they held in the old one. */
  ghost predicate Preserved(
    rows: set<Row>, nodes0: seq<Node>, strata0: seq<nat>, nodes: seq<Node>, strata: seq<nat>, origin: seq<nat>)
  {
    |origin| == |nodes| &&
    forall received, x :: FlowModel(nodes0, rows, strata0, received, x)
      ==> FlowModel(nodes, rows, strata, received, Kept(nodes, origin, rows, x))
  }

  /** With that, the new graph's one model is determined by the old one's, whatever is received. */
  lemma NewMeaning(
    rows: set<Row>, nodes0: seq<Node>, strata0: seq<nat>, nodes: seq<Node>, strata: seq<nat>, origin: seq<nat>,
    received: set<Fact>, y: set<Fact>)
    requires GraphFits(nodes0, rows) && StrataFit(nodes0, strata0) && GraphFits(nodes, rows) && StrataFit(nodes, strata)
    requires Preserved(rows, nodes0, strata0, nodes, strata, origin) && FlowModel(nodes, rows, strata, received, y)
    ensures exists x :: FlowModel(nodes0, rows, strata0, received, x) && y == Kept(nodes, origin, rows, x)
  {
    hide FlowModel, GraphFits, StrataFit;
    var x := FlowModelExists(nodes0, rows, strata0, received);
    FlowModelUnique(nodes, rows, strata, received, y, Kept(nodes, origin, rows, x));
  }

  /** A view with a merge for its only source that is one of the merge's sources, of the same arity. */
  ghost predicate CycleShape(nodes: seq<Node>, v: nat) {
    v < |nodes| && exists m ::
      ((nodes[v].op.Forward? && nodes[v].op.kind.TupleNode? && nodes[v].op.source == Some(m))
       || (nodes[v].op.Negate? && nodes[v].op.source == Some(m)))
      && m < |nodes| && nodes[m].op.Merge? && v in nodes[m].op.merged && nodes[m].arity == nodes[v].arity
  }

  ghost predicate Identity(op: Op) {
    && (op.Forward? ==> InPlace(op.passes))
    && (op.Negate? ==> forall c :: c in op.checks ==> c.input == c.output)
  }

  /** Every such view forwards column i as column i. */
  ghost predicate CyclesInPlace(nodes: seq<Node>) {
    forall v: nat :: CycleShape(nodes, v) ==> Identity(nodes[v].op)
  }

  lemma StartsPreserved(rows: set<Row>, nodes: seq<Node>, strata: seq<nat>, origin: seq<nat>)
    requires GraphFits(nodes, rows) && StrataFit(nodes, strata)
    requires |origin| == |nodes| && forall v :: 0 <= v < |nodes| ==> origin[v] == v
    ensures Preserved(rows, nodes, strata, nodes, strata, origin)
  {
    forall received, x | FlowModel(nodes, rows, strata, received, x)
      ensures FlowModel(nodes, rows, strata, received, Kept(nodes, origin, rows, x))
    {
      OnlyLive(nodes, rows, strata, received, x);
      ModelOf(nodes, rows, strata, received, x);
      assert Kept(nodes, origin, rows, x) == x;
    }
  }

  lemma DeletePreserves(
    rows: set<Row>, nodes0: seq<Node>, strata0: seq<nat>, nodes: seq<Node>, strata: seq<nat>, origin: seq<nat>, tainted: set<nat>, v: nat)
    requires GraphFits(nodes, rows) && StrataFit(nodes, strata) && Preserved(rows, nodes0, strata0, nodes, strata, origin)
    requires TaintClosed(nodes, tainted) && v < |nodes| && v !in tainted
    ensures Preserved(rows, nodes0, strata0, Deleted(nodes, v), strata, origin)
  {
    hide FlowModel, GraphFits, StrataFit, TaintClosed;
    var less := Deleted(nodes, v);
    forall received, x | FlowModel(nodes0, rows, strata0, received, x)
      ensures FlowModel(less, rows, strata, received, Kept(less, origin, rows, x))
    {
      var y := Kept(nodes, origin, rows, x);
      UntaintedEmpty(nodes, rows, strata, received, y, tainted);
      assert Kept(less, origin, rows, x) == y;
      DeleteEmpty(nodes, rows, strata, received, y, v);
    }
  }

  lemma CyclePreserves(
    rows: set<Row>, nodes0: seq<Node>, strata0: seq<nat>, nodes: seq<Node>, strata: seq<nat>, origin: seq<nat>, t: nat)
    requires GraphFits(nodes, rows) && StrataFit(nodes, strata) && Preserved(rows, nodes0, strata0, nodes, strata, origin)
    requires t < |nodes| && IsTrivialCycle(nodes, t) && CyclesInPlace(nodes)
    ensures Preserved(rows, nodes0, strata0, Deleted(nodes, t), strata, origin)
  {
    hide FlowModel, GraphFits, StrataFit;
    var less := Deleted(nodes, t);
    assert CycleShape(nodes, t);
    forall received, x | FlowModel(nodes0, rows, strata0, received, x)
      ensures FlowModel(less, rows, strata, received, Kept(less, origin, rows, x))
    {
      var y := Kept(nodes, origin, rows, x);
      assert Kept(less, origin, rows, x) == Without(y, t);
      DropCycle(nodes, rows, strata, received, y, t);
    }
  }

  lemma PrunePreserves(
    rows: set<Row>, nodes0: seq<Node>, strata0: seq<nat>, nodes: seq<Node>, strata: seq<nat>, origin: seq<nat>, tainted: set<nat>, v: nat)
    requires GraphFits(nodes, rows) && StrataFit(nodes, strata) && Preserved(rows, nodes0, strata0, nodes, strata, origin)
    requires TaintClosed(nodes, tainted) && v < |nodes| && nodes[v].op.Merge?
    ensures Preserved(rows, nodes0, strata0, Pruned(nodes, tainted, v), strata, origin)
  {
    hide FlowModel, GraphFits, StrataFit, TaintClosed;
    var less := Pruned(nodes, tainted, v);
    forall received, x | FlowModel(nodes0, rows, strata0, received, x)
      ensures FlowModel(less, rows, strata, received, Kept(less, origin, rows, x))
    {
      var y := Kept(nodes, origin, rows, x);
      assert Kept(less, origin, rows, x) == y;
      PruneMerge(nodes, rows, strata, received, y, tainted, v);
    }
  }

  lemma FoldPreserves(
    rows: set<Row>, nodes0: seq<Node>, strata0: seq<nat>, nodes: seq<Node>, strata: seq<nat>, origin: seq<nat>, tainted: set<nat>, n: nat)
    requires GraphFits(nodes, rows) && StrataFit(nodes, strata) && Preserved(rows, nodes0, strata0, nodes, strata, origin)
    requires TaintClosed(nodes, tainted) && Live(nodes, n) && nodes[n].op.Negate? && nodes[n].op.negated !in tainted
    ensures n < |strata| && n < |origin|
    ensures Preserved(rows, nodes0, strata0, Folded(nodes, n), FoldedStrata(strata, n), origin + [origin[n]])
  {
    hide FlowModel, GraphFits, TaintClosed;
    var more, far, t := Folded(nodes, n), origin + [origin[n]], |nodes|;
    forall received, x | FlowModel(nodes0, rows, strata0, received, x)
      ensures FlowModel(more, rows, FoldedStrata(strata, n), received, Kept(more, far, rows, x))
    {
      var y := Kept(nodes, origin, rows, x);
      UntaintedEmpty(nodes, rows, strata, received, y, tainted);
      KeptFolds(nodes, origin, rows, x, n);
      FoldNegation(nodes, rows, strata, received, y, n);
    }
  }

  lemma KeptFolds(nodes: seq<Node>, origin: seq<nat>, rows: set<Row>, x: set<Fact>, n: nat)
    requires |origin| == |nodes| && Live(nodes, n) && nodes[n].op.Negate?
    ensures Kept(Folded(nodes, n), origin + [origin[n]], rows, x) == MovedFacts(Kept(nodes, origin, rows, x), n, |nodes|)
  {
    var more, far, t := Folded(nodes, n), origin + [origin[n]], |nodes|;
    var y, moved := Kept(nodes, origin, rows, x), MovedFacts(Kept(nodes, origin, rows, x), n, |nodes|);
    forall f | f in Kept(more, far, rows, x) ensures f in moved {
      assert MovedFact(Fact(if f.view == t then n else f.view, f.row), n, t) == f;
      assert Fact(if f.view == t then n else f.view, f.row) in y;
    }
    forall f | f in y ensures MovedFact(f, n, t) in Kept(more, far, rows, x) {
      var v := Moved(f.view, n, t);
      assert !more[v].dead && far[v] == origin[f.view];
    }
  }

  lemma ShapesDeleted(nodes: seq<Node>, v: nat)
    requires v < |nodes| && CyclesInPlace(nodes)
    ensures CyclesInPlace(Deleted(nodes, v))
  {
    forall u: nat | CycleShape(Deleted(nodes, v), u) ensures Identity(Deleted(nodes, v)[u].op) {
      assert CycleShape(nodes, u);
    }
  }

  lemma ShapesPruned(nodes: seq<Node>, tainted: set<nat>, v: nat)
    requires v < |nodes| && nodes[v].op.Merge? && CyclesInPlace(nodes)
    ensures CyclesInPlace(Pruned(nodes, tainted, v))
  {
    forall u: nat | CycleShape(Pruned(nodes, tainted, v), u) ensures Identity(Pruned(nodes, tainted, v)[u].op) {
      assert CycleShape(nodes, u);
    }
  }

  lemma ShapesFolded(nodes: seq<Node>, rows: set<Row>, n: nat)
    requires n < |nodes| && nodes[n].op.Negate? && GraphFits(nodes, rows) && CyclesInPlace(nodes)
    ensures CyclesInPlace(Folded(nodes, n))
  {
    var more, t := Folded(nodes, n), |nodes|;
    forall u: nat | CycleShape(more, u) ensures Identity(more[u].op) {
      var v := if u == t then n else u;
      var m := more[u].op.source.value;
      assert m < t && m != n;
      var i :| 0 <= i < |nodes[m].op.merged| && Moved(nodes[m].op.merged[i], n, t) == u;
      assert OpFits(t, rows, nodes[m].op) && nodes[m].op.merged[i] in nodes[m].op.merged;
      assert OpFits(t, rows, nodes[v].op);
      assert CycleShape(nodes, v);
    }
  }

  /** What every step of the pass keeps. */
  ghost predicate PassInvariant(
    rows: set<Row>, nodes0: seq<Node>, strata0: seq<nat>, reached: set<nat>,
    nodes: seq<Node>, strata: seq<nat>, origin: seq<nat>, tainted: set<nat>)
  {
    && GraphFits(nodes, rows) && StrataFit(nodes, strata)
    && TaintClosed(nodes, tainted) && tainted <= NodeSet(|nodes|)
    && |nodes0| <= |nodes| && |origin| == |nodes| && (forall v :: 0 <= v < |nodes0| ==> origin[v] == v)
    && (forall v :: 0 <= v < |nodes| ==> (v in tainted <==> origin[v] in reached))
    && (CyclesInPlace(nodes0) ==> CyclesInPlace(nodes) && Preserved(rows, nodes0, strata0, nodes, strata, origin))
  }

  lemma PassStarts(rows: set<Row>, nodes: seq<Node>, strata: seq<nat>, origin: seq<nat>, tainted: set<nat>)
    requires GraphFits(nodes, rows) && StrataFit(nodes, strata) && TaintClosed(nodes, tainted) && Justified(nodes, tainted)
    requires |origin| == |nodes| && forall v :: 0 <= v < |nodes| ==> origin[v] == v
    ensures PassInvariant(rows, nodes, strata, tainted, nodes, strata, origin, tainted)
  {
    StartsPreserved(rows, nodes, strata, origin);
  }

  lemma FoldKeeps(
    rows: set<Row>, nodes0: seq<Node>, strata0: seq<nat>, reached: set<nat>,
    nodes: seq<Node>, strata: seq<nat>, origin: seq<nat>, tainted: set<nat>, n: nat)
    requires PassInvariant(rows, nodes0, strata0, reached, nodes, strata, origin, tainted)
    requires n < |nodes0| && Live(nodes, n) && nodes[n].op.Negate? && nodes[n].op.negated !in tainted
    ensures n < |strata| && n < |origin|
    ensures PassInvariant(rows, nodes0, strata0, reached, Folded(nodes, n), FoldedStrata(strata, n), origin + [n],
                          FoldedTaint(tainted, n, |nodes|))
  {
    hide GraphFits, TaintClosed, CyclesInPlace, Preserved, Folded;
    FoldedFits(nodes, rows, strata, n);
    FoldedTaintClosed(nodes, rows, tainted, n);
    assert origin[n] == n;
    if CyclesInPlace(nodes0) {
      ShapesFolded(nodes, rows, n);
      FoldPreserves(rows, nodes0, strata0, nodes, strata, origin, tainted, n);
    }
  }

  lemma DeleteKeeps(
    rows: set<Row>, nodes0: seq<Node>, strata0: seq<nat>, reached: set<nat>,
    nodes: seq<Node>, strata: seq<nat>, origin: seq<nat>, tainted: set<nat>, v: nat)
    requires PassInvariant(rows, nodes0, strata0, reached, nodes, strata, origin, tainted)
    requires v < |nodes| && (v !in tainted || IsTrivialCycle(nodes, v))
    ensures PassInvariant(rows, nodes0, strata0, reached, Deleted(nodes, v), strata, origin, tainted)
  {
    hide GraphFits, StrataFit, TaintClosed, CyclesInPlace, Preserved, IsTrivialCycle;
    DeletedFits(nodes, rows, strata, tainted, v);
    if CyclesInPlace(nodes0) {
      ShapesDeleted(nodes, v);
      if v !in tainted {
        DeletePreserves(rows, nodes0, strata0, nodes, strata, origin, tainted, v);
      } else {
        CyclePreserves(rows, nodes0, strata0, nodes, strata, origin, v);
      }
    }
  }

  lemma PruneKeeps(
    rows: set<Row>, nodes0: seq<Node>, strata0: seq<nat>, reached: set<nat>,
    nodes: seq<Node>, strata: seq<nat>, origin: seq<nat>, tainted: set<nat>, v: nat)
    requires PassInvariant(rows, nodes0, strata0, reached, nodes, strata, origin, tainted)
    requires v < |nodes| && nodes[v].op.Merge?
    ensures PassInvariant(rows, nodes0, strata0, reached, Pruned(nodes, tainted, v), strata, origin, tainted)
  {
    hide GraphFits, StrataFit, TaintClosed, CyclesInPlace, Preserved;
    PrunedFits(nodes, rows, strata, tainted, v);
    if CyclesInPlace(nodes0) {
      ShapesPruned(nodes, tainted, v);
      PrunePreserves(rows, nodes0, strata0, nodes, strata, origin, tainted, v);
    }
  }

  /** The dataflow graph of a query. */
  class Query {
    var nodes: seq<Node>

    constructor (graph: seq<Node>)
      ensures nodes == graph
    {
      nodes := graph;
    }

    /** Deletes what no input reaches, and nothing else but trivial cycles. `reached` is what the inputs
        reach in the old graph, `stand` the new node that stands for each old one and `origin` the old
        one each stands for, `folded` the graph once negations of unreached views are folded, `levels`
        the strata of the new graph. */
    method EliminateDeadFlows(ghost rows: set<Row>, ghost strata: seq<nat>)
      returns (ghost origin: seq<nat>, ghost levels: seq<nat>, ghost reached: set<nat>, ghost folded: seq<Node>, ghost stand: seq<nat>)
      requires GraphFits(nodes, rows) && StrataFit(nodes, strata)
      modifies this
      ensures forall v: nat :: v in reached <==> Founded(old(nodes), v)
      ensures TaintClosed(old(nodes), reached) && BelowClosed(old(nodes), reached)
      ensures Eliminated(old(nodes), reached, folded, stand, origin, nodes)
      ensures CyclesInPlace(old(nodes)) ==> Preserved(rows, old(nodes), strata, nodes, levels, origin)
      ensures GraphFits(nodes, rows) && StrataFit(nodes, levels)
    {
      hide PassInvariant, TaintClosed, BelowClosed, Justified, Founded, GraphFits, StrataFit, Folded, Live, FoldedTo, SweptTo, PrunedTo, Folds;
      var tainted: set<nat> := TaintFixpoint(nodes);
      reached, levels := tainted, strata;
      ghost var nodes0, size := nodes, |nodes|;
      origin := seq(size, v requires 0 <= v < size => v);
      stand := origin;
      PassStarts(rows, nodes, strata, origin, tainted);
      FoldStarts(nodes, rows, reached, stand);
      var n0 := |nodes|;
      for v := 0 to n0
        invariant n0 <= |nodes| && n0 == |nodes0| == |stand|
        invariant PassInvariant(rows, nodes0, strata, reached, nodes, levels, origin, tainted)
        invariant FoldedTo(nodes0, reached, nodes, stand, origin, v)
      {
        TaintIsOrigin(rows, nodes0, strata, reached, nodes, levels, origin, tainted);
        FoldTest(nodes0, rows, reached, nodes, stand, origin, tainted, v);
        if nodes[v].op.Negate? && Live(nodes, v) && nodes[v].op.negated !in tainted {
          FoldKeeps(rows, nodes0, strata, reached, nodes, levels, origin, tainted, v);
          FoldStep(nodes0, rows, reached, nodes, stand, origin, v);
          origin, levels, stand := origin + [v], FoldedStrata(levels, v), stand[v := |nodes|];
          tainted := if v in tainted then tainted + {|nodes|} else tainted;
          nodes := Folded(nodes, v);
        } else {
          FoldSkip(nodes0, reached, nodes, stand, origin, v);
        }
      }
      folded := nodes;
      TaintIsOrigin(rows, nodes0, strata, reached, nodes, levels, origin, tainted);
      SweepStarts(folded, reached, origin);
      var n1 := |nodes|;
      for v := 0 to n1
        invariant |nodes| == n1 == |origin| && SweptTo(folded, reached, origin, nodes, v)
        invariant PassInvariant(rows, nodes0, strata, reached, nodes, levels, origin, tainted)
      {
        TaintIsOrigin(rows, nodes0, strata, reached, nodes, levels, origin, tainted);
        ghost var before := nodes;
        if v !in tainted || IsTrivialCycle(nodes, v) {
          DeleteKeeps(rows, nodes0, strata, reached, nodes, levels, origin, tainted, v);
          nodes := Deleted(nodes, v);
        }
        SweepStep(folded, reached, origin, before, v, nodes);
      }
      PruneStarts(folded, reached, origin, nodes);
      for v := 0 to n1
        invariant |nodes| == n1 == |origin| && PrunedTo(folded, reached, origin, nodes, v)
        invariant PassInvariant(rows, nodes0, strata, reached, nodes, levels, origin, tainted)
      {
        TaintIsOrigin(rows, nodes0, strata, reached, nodes, levels, origin, tainted);
        LiveIsTainted(folded, reached, origin, nodes, v, tainted);
        ghost var before := nodes;
        if nodes[v].op.Merge? && !nodes[v].dead {
          PruneKeeps(rows, nodes0, strata, reached, nodes, levels, origin, tainted, v);
          nodes := Pruned(nodes, tainted, v);
        }
        PruneStep(folded, reached, origin, before, tainted, v, nodes);
      }
      PassEnds(rows, nodes0, strata, reached, nodes, levels, origin, tainted);
    }
  }

  lemma SweepStarts(folded: seq<Node>, reached: set<nat>, origin: seq<nat>)
    requires |origin| == |folded|
    ensures SweptTo(folded, reached, origin, folded, 0)
  {
  }

  lemma TaintIsOrigin(
    rows: set<Row>, nodes0: seq<Node>, strata0: seq<nat>, reached: set<nat>,
    nodes: seq<Node>, strata: seq<nat>, origin: seq<nat>, tainted: set<nat>)
    requires PassInvariant(rows, nodes0, strata0, reached, nodes, strata, origin, tainted)
    ensures |origin| == |nodes| && forall v :: 0 <= v < |nodes| ==> (v in tainted <==> origin[v] in reached)
  {
  }

  lemma PassEnds(
    rows: set<Row>, nodes0: seq<Node>, strata0: seq<nat>, reached: set<nat>,
    nodes: seq<Node>, strata: seq<nat>, origin: seq<nat>, tainted: set<nat>)
    requires PassInvariant(rows, nodes0, strata0, reached, nodes, strata, origin, tainted)
    ensures CyclesInPlace(nodes0) ==> Preserved(rows, nodes0, strata0, nodes, strata, origin)
    ensures GraphFits(nodes, rows) && StrataFit(nodes, strata)
  {
    hide Preserved, CyclesInPlace, GraphFits, StrataFit;
  }
}
