/** Taint from the inputs: what it leaves out holds no row, whatever is received. */
module Taint {
  import opened FlowGraph
  import opened Ground
  import opened Model
  import opened Wrappers

  /** The tainted nodes that have not been deleted. */
  function Usable(nodes: seq<Node>, tainted: set<nat>): set<nat> {
    set u | u in tainted && u < |nodes| && !nodes[u].dead
  }

  /** What taints a node: any insert or merged view, every joined view, or the view it reads. */
  predicate OpTaints(usable: set<nat>, tainted: set<nat>, op: Op) {
    match op
    case Input => true
    case Relation(inserts) => exists i :: i in inserts && i in usable
    case Merge(merged) => exists m :: m in merged && m in usable
    case Forward(_, source, _) => source.Some? ==> source.value in tainted
    case Negate(source, _, _) => source.Some? ==> source.value in tainted
    case Reduce(_, _, _) => ReduceSource(op).Some? ==> ReduceSource(op).value in tainted
    case Join(joined, _) => forall j :: j in joined ==> j in usable
  }

  predicate Taints(nodes: seq<Node>, tainted: set<nat>, v: nat) {
    Live(nodes, v) && OpTaints(Usable(nodes, tainted), tainted, nodes[v].op)
  }

  ghost predicate TaintClosed(nodes: seq<Node>, tainted: set<nat>) {
    forall v: nat :: Taints(nodes, tainted, v) ==> v in tainted
  }

  ghost predicate Justified(nodes: seq<Node>, tainted: set<nat>) {
    forall v :: v in tainted ==> Taints(nodes, tainted, v)
  }

  ghost predicate BelowClosed(nodes: seq<Node>, tainted: set<nat>) {
    forall u: set<nat> :: TaintClosed(nodes, u) ==> tainted <= u
  }

  lemma TaintGrows(nodes: seq<Node>, s: set<nat>, t: set<nat>, v: nat)
    requires s <= t && Taints(nodes, s, v)
    ensures Taints(nodes, t, v)
  {
  }

  function NodeSet(n: nat): (s: set<nat>)
    ensures forall v: nat :: v in s <==> v < n
  {
    if n == 0 then {} else NodeSet(n - 1) + {n - 1}
  }

  /** The least set of nodes closed under the taint rules, reached by sweeps until one adds nothing. */
  method TaintFixpoint(nodes: seq<Node>) returns (tainted: set<nat>)
    ensures TaintClosed(nodes, tainted) && Justified(nodes, tainted) && BelowClosed(nodes, tainted)
    ensures forall v: nat :: v in tainted <==> Founded(nodes, v)
  {
    hide Founded;
    tainted := {};
    var changed := true;
    while changed
      invariant Justified(nodes, tainted) && BelowClosed(nodes, tainted) && tainted <= NodeSet(|nodes|)
      invariant !changed ==> TaintClosed(nodes, tainted)
      decreases NodeSet(|nodes|) - tainted, changed
    {
      changed := false;
      ghost var before := tainted;
      for v := 0 to |nodes|
        invariant Justified(nodes, tainted) && BelowClosed(nodes, tainted) && before <= tainted <= NodeSet(|nodes|)
        invariant changed <==> before != tainted
        invariant !changed ==> forall u: nat :: u < v && Taints(nodes, tainted, u) ==> u in tainted
      {
        if v !in tainted && Taints(nodes, tainted, v) {
          TaintOneMore(nodes, tainted, v);
          tainted := tainted + {v};
          changed := true;
        }
      }
    }
    forall v: nat ensures v in tainted <==> Founded(nodes, v) {
      ReachedIsFounded(nodes, tainted, v);
    }
  }

  lemma TaintOneMore(nodes: seq<Node>, tainted: set<nat>, v: nat)
    requires Justified(nodes, tainted) && BelowClosed(nodes, tainted) && Taints(nodes, tainted, v)
    ensures Justified(nodes, tainted + {v}) && BelowClosed(nodes, tainted + {v})
  {
    forall u | u in tainted + {v} ensures Taints(nodes, tainted + {v}, u) {
      TaintGrows(nodes, tainted, tainted + {v}, u);
    }
    forall u: set<nat> | TaintClosed(nodes, u) ensures tainted + {v} <= u {
      TaintGrows(nodes, tainted, u, v);
    }
  }

  // ------------------------------------------------------------------
  // What is left out, without the taint rules.

  predicate Gone(nodes: seq<Node>, u: set<nat>, w: nat) {
    w in u || w >= |nodes| || nodes[w].dead
  }

  /** Everything the node could take rows from is gone: all that a merge or a relation lists, the one view
      a forward, a negation or a reduction reads, some side of a join. Inputs and nodes whose source is
      all constants take rows from elsewhere. */
  ghost predicate Starved(nodes: seq<Node>, u: set<nat>, op: Op) {
    match op
    case Input => false
    case Relation(inserts) => forall i :: i in inserts ==> Gone(nodes, u, i)
    case Merge(merged) => forall m :: m in merged ==> Gone(nodes, u, m)
    case Forward(_, source, _) => source.Some? && Gone(nodes, u, source.value)
    case Negate(source, _, _) => source.Some? && Gone(nodes, u, source.value)
    case Reduce(Some(values), _, _) => Gone(nodes, u, values)
    case Reduce(None, keys, _) => keys.Some? && Gone(nodes, u, keys.value)
    case Join(joined, _) => exists j :: j in joined && Gone(nodes, u, j)
  }

  /** A set of deleted, unsatisfiable and starved nodes: what its members lack only they could give. */
  ghost predicate Unfounded(nodes: seq<Node>, u: set<nat>) {
    forall v :: v in u && v < |nodes| && !nodes[v].dead && !nodes[v].unsat ==> Starved(nodes, u, nodes[v].op)
  }

  ghost predicate Founded(nodes: seq<Node>, v: nat) {
    v < |nodes| && forall u: set<nat> :: Unfounded(nodes, u) ==> v !in u
  }

  lemma StarvedUntainted(nodes: seq<Node>, u: set<nat>, tainted: set<nat>, v: nat)
    requires v < |nodes| && Starved(nodes, u, nodes[v].op) && tainted !! u && forall w :: w in tainted ==> Live(nodes, w)
    ensures !Taints(nodes, tainted, v)
  {
  }

  lemma UntaintedStarved(nodes: seq<Node>, u: set<nat>, tainted: set<nat>, v: nat)
    requires Live(nodes, v) && !Taints(nodes, tainted, v) && forall w: nat :: w < |nodes| && w !in tainted ==> w in u
    ensures Starved(nodes, u, nodes[v].op)
  {
  }

  /** An unfounded set is disjoint from what the inputs reach. */
  lemma UnfoundedUnreached(nodes: seq<Node>, tainted: set<nat>, u: set<nat>)
    requires TaintClosed(nodes, tainted) && Justified(nodes, tainted) && BelowClosed(nodes, tainted) && Unfounded(nodes, u)
    ensures tainted !! u
  {
    hide Starved;
    var less := tainted - u;
    forall v: nat | Taints(nodes, less, v) ensures v in less {
      TaintGrows(nodes, less, tainted, v);
      if v in u {
        assert forall w :: w in less ==> Taints(nodes, tainted, w);
        StarvedUntainted(nodes, u, less, v);
      }
    }
    assert TaintClosed(nodes, less);
  }

  /** What the inputs reach is what is in no unfounded set. */
  lemma ReachedIsFounded(nodes: seq<Node>, tainted: set<nat>, v: nat)
    requires TaintClosed(nodes, tainted) && Justified(nodes, tainted) && BelowClosed(nodes, tainted)
    ensures v in tainted <==> Founded(nodes, v)
  {
    hide Starved, OpTaints;
    forall u: set<nat> | Unfounded(nodes, u) ensures tainted !! u {
      UnfoundedUnreached(nodes, tainted, u);
    }
    if v < |nodes| && v !in tainted {
      var rest := NodeSet(|nodes|) - tainted;
      forall w | w in rest && !nodes[w].dead && !nodes[w].unsat ensures Starved(nodes, rest, nodes[w].op) {
        UntaintedStarved(nodes, rest, tainted, w);
      }
      assert Unfounded(nodes, rest) && v in rest;
    }
  }

  /** A rule that fires over facts of live tainted nodes taints its head. */
  lemma RuleTaints(nodes: seq<Node>, rows: set<Row>, tainted: set<nat>, d: Deriv, s: set<Fact>)
    requires Live(nodes, d.head.view) && IsRule(nodes[d.head.view].op, d.head.view, rows, d) && Active(d, s)
    requires forall f :: f in s ==> Live(nodes, f.view) && f.view in tainted
    ensures Taints(nodes, tainted, d.head.view)
  {
    var op := nodes[d.head.view].op;
    match op
    case Join(joined, combinations) =>
      var c :| c in combinations && |c.inputs| == |joined| && d.head.row == c.output && d.body == JoinBody(joined, c.inputs);
      forall j | j in joined ensures j in Usable(nodes, tainted) {
        var i :| 0 <= i < |joined| && joined[i] == j;
        assert Holds(d.body[i], s);
      }
    case Negate(source, negated, checks) =>
      assert source.Some? ==> Holds(d.body[0], s);
    case Forward(_, source, _) =>
      assert source.Some? ==> Holds(d.body[0], s);
    case Merge(_) =>
      assert Holds(d.body[0], s);
    case Relation(_) =>
      assert Holds(d.body[0], s);
    case _ =>
  }

  lemma GivenTaints(nodes: seq<Node>, rows: set<Row>, tainted: set<nat>, received: set<Fact>, x: set<Fact>, f: Fact)
    requires GraphFits(nodes, rows) && Given(nodes, received, x, f)
    requires nodes[f.view].op.Reduce? && ReduceSource(nodes[f.view].op).Some?
      ==> forall e :: e in x && e.view == ReduceSource(nodes[f.view].op).value ==> e.view in tainted
    ensures Taints(nodes, tainted, f.view)
  {
    assert OpFits(|nodes|, rows, nodes[f.view].op);
    if nodes[f.view].op.Reduce? {
      assert InputRows(x, ReduceSource(nodes[f.view].op)) != {};
    }
  }

  /** The rows of tainted views in one stratum are closed, when the strata below are all tainted. */
  lemma TaintedClosed(
    nodes: seq<Node>, rows: set<Row>, strata: seq<nat>, received: set<Fact>, x: set<Fact>, tainted: set<nat>,
    g: GroundProgram, ext: set<Fact>, k: nat, y: set<Fact>)
    requires GraphFits(nodes, rows) && StrataFit(nodes, strata) && FlowModel(nodes, rows, strata, received, x)
    requires TaintClosed(nodes, tainted) && g == GraphProgram(nodes, rows, strata) && ext == External(nodes, rows, received, x)
    requires forall f :: f in Below(g, x, k) ==> f.view in tainted
    requires y == set f | f in At(g, x, k) && f.view in tainted
    ensures Closed(g, k, Below(g, x, k), ext, y)
  {
    hide IsModel, GraphFits, StrataFit, FlowModel, IsRule, TaintClosed, GraphProgram, External, Taints, Active;
    var lower := Below(g, x, k);
    GraphStratified(nodes, rows, strata);
    ModelOf(nodes, rows, strata, received, x);
    OnlyLive(nodes, rows, strata, received, x);
    ModelFacts(g, ext, x);
    forall f | f in At(g, ext, k) ensures f in y {
      GivenBelow(nodes, rows, strata, received, x, tainted, k, f);
    }
    forall d | d in g.derivs && Stratum(g, d.head) == k && Active(d, lower + y) ensures d.head in y {
      RuleOf(nodes, rows, strata, d);
      RuleTaints(nodes, rows, tainted, d, lower + y);
      TaintHolds(nodes, tainted, d.head.view);
      ActiveMonotone(g, d, k, lower, y, At(g, x, k));
      ActiveSplit(g, d, k, x);
    }
  }

  lemma TaintHolds(nodes: seq<Node>, tainted: set<nat>, v: nat)
    requires TaintClosed(nodes, tainted) && Taints(nodes, tainted, v)
    ensures v in tainted
  {
  }

  lemma GivenBelow(
    nodes: seq<Node>, rows: set<Row>, strata: seq<nat>, received: set<Fact>, x: set<Fact>, tainted: set<nat>, k: nat, f: Fact)
    requires GraphFits(nodes, rows) && StrataFit(nodes, strata) && TaintClosed(nodes, tainted)
    requires forall e :: e in Below(GraphProgram(nodes, rows, strata), x, k) ==> e.view in tainted
    requires f in External(nodes, rows, received, x) && Stratum(GraphProgram(nodes, rows, strata), f) == k
    ensures f.view in tainted
  {
    assert OpAbove(strata, nodes[f.view].op, strata[f.view]);
    forall e | e in x && nodes[f.view].op.Reduce? && ReduceSource(nodes[f.view].op) == Some(e.view) ensures e.view in tainted {
      assert e in Below(GraphProgram(nodes, rows, strata), x, k);
    }
    GivenTaints(nodes, rows, tainted, received, x, f);
  }

  lemma {:induction false} TaintedBelow(
    nodes: seq<Node>, rows: set<Row>, strata: seq<nat>, received: set<Fact>, x: set<Fact>, tainted: set<nat>, n: nat)
    requires GraphFits(nodes, rows) && StrataFit(nodes, strata) && FlowModel(nodes, rows, strata, received, x)
    requires TaintClosed(nodes, tainted)
    ensures forall f :: f in Below(GraphProgram(nodes, rows, strata), x, n) ==> f.view in tainted
  {
    if n > 0 {
      TaintedBelow(nodes, rows, strata, received, x, tainted, n - 1);
      var g, ext := GraphProgram(nodes, rows, strata), External(nodes, rows, received, x);
      var k := n - 1;
      var y := set f | f in At(g, x, k) && f.view in tainted;
      TaintedClosed(nodes, rows, strata, received, x, tainted, g, ext, k, y);
      ModelOf(nodes, rows, strata, received, x);
      LeastIsLeast(g, k, Below(g, x, k), ext, y);
      assert forall f :: f in Below(g, x, n) ==> f in Below(g, x, k) || f in At(g, x, k);
    }
  }

  /** A view left untainted holds no row, whatever is received. */
  lemma UntaintedEmpty(nodes: seq<Node>, rows: set<Row>, strata: seq<nat>, received: set<Fact>, x: set<Fact>, tainted: set<nat>)
    requires GraphFits(nodes, rows) && StrataFit(nodes, strata) && FlowModel(nodes, rows, strata, received, x)
    requires TaintClosed(nodes, tainted)
    ensures forall f :: f in x ==> f.view in tainted
  {
    var g := GraphProgram(nodes, rows, strata);
    forall f | f in x ensures f.view in tainted {
      TaintedBelow(nodes, rows, strata, received, x, tainted, Stratum(g, f) + 1);
      assert f in Below(g, x, Stratum(g, f) + 1);
    }
  }

  /** Node `u` reads the columns of `v`. */
  predicate ReadsColumns(op: Op, v: nat) {
    match op
    case Forward(_, source, _) => source == Some(v)
    case Negate(source, _, _) => source == Some(v)
    case Reduce(_, _, _) => ReduceSource(op) == Some(v)
    case Join(joined, _) => v in joined
    case _ => false
  }

  /** Deleting an untainted view takes along, of the views that read its columns, untainted ones only. */
  lemma ReadersUntainted(nodes: seq<Node>, tainted: set<nat>, u: nat, v: nat)
    requires Justified(nodes, tainted) && u < |nodes| && ReadsColumns(nodes[u].op, v) && v !in tainted
    ensures u !in tainted
  {
  }
}
