/** What dead-flow elimination leaves: which nodes are folded, which are deleted, and what the nodes
    that stay read. */
module Survivors {
  import opened FlowGraph
  import opened Folding
  import opened Ground
  import opened Taint
  import opened Trimming
  import opened Wrappers

  // ------------------------------------------------------------------
  // Folding.

  /** A live negation of a view the inputs do not reach. */
  predicate Folds(nodes: seq<Node>, reached: set<nat>, v: nat) {
    v < |nodes| && !nodes[v].dead && !nodes[v].unsat && nodes[v].op.Negate? && nodes[v].op.negated !in reached
  }

  /** The node that stands for `u`: the tuple that replaced it, or itself. */
  function StandIn(stand: seq<nat>, u: nat): nat {
    if u < |stand| then stand[u] else u
  }

  function StandInSource(source: Option<nat>, stand: seq<nat>): Option<nat> {
    if source.Some? then Some(StandIn(stand, source.value)) else None
  }

  function StandInList(s: seq<nat>, stand: seq<nat>): (r: seq<nat>)
    ensures |r| == |s| && forall i :: 0 <= i < |s| ==> r[i] == StandIn(stand, s[i])
  {
    seq(|s|, i requires 0 <= i < |s| => StandIn(stand, s[i]))
  }

  /** The operation reading the nodes that stand for those it read. */
  function Renamed(op: Op, stand: seq<nat>): Op {
    match op
    case Input => Input
    case Relation(inserts) => Relation(StandInList(inserts, stand))
    case Merge(merged) => Merge(StandInList(merged, stand))
    case Forward(kind, source, passes) => Forward(kind, StandInSource(source, stand), passes)
    case Negate(source, negated, checks) => Negate(StandInSource(source, stand), StandIn(stand, negated), checks)
    case Reduce(values, keys, reduce) => Reduce(StandInSource(values, stand), StandInSource(keys, stand), reduce)
    case Join(joined, combinations) => Join(StandInList(joined, stand), combinations)
  }

  /** Old node `v` after the negations before `k` are folded: the same but for what it reads, and dead
      if it was folded. */
  ghost predicate OldNode(nodes0: seq<Node>, reached: set<nat>, nodes: seq<Node>, stand: seq<nat>, origin: seq<nat>, k: nat, v: nat)
    requires v < |nodes0| == |stand| <= |nodes| == |origin|
  {
    var folds := v < k && Folds(nodes0, reached, v);
    && origin[v] == v
    && (if folds then |nodes0| <= stand[v] < |nodes| && origin[stand[v]] == v else stand[v] == v)
    && nodes[v] == nodes0[v].(op := Renamed(nodes0[v].op, stand), dead := nodes0[v].dead || folds)
  }

  /** New node `t` is the live tuple of the negation it replaces. */
  ghost predicate NewNode(nodes0: seq<Node>, reached: set<nat>, nodes: seq<Node>, stand: seq<nat>, origin: seq<nat>, t: nat)
    requires |nodes0| == |stand| && t < |nodes| == |origin|
  {
    && origin[t] < |nodes0| && Folds(nodes0, reached, origin[t]) && stand[origin[t]] == t
    && var op := nodes0[origin[t]].op;
       var passes := set c | c in op.checks :: (c.input, c.output);
       nodes[t] == Node(Forward(TupleNode, StandInSource(op.source, stand), passes), nodes0[origin[t]].arity, false, false)
  }

  ghost predicate FoldedTo(nodes0: seq<Node>, reached: set<nat>, nodes: seq<Node>, stand: seq<nat>, origin: seq<nat>, k: nat) {
    && |nodes0| == |stand| <= |nodes| == |origin|
    && (forall v: nat :: v < |nodes0| ==> OldNode(nodes0, reached, nodes, stand, origin, k, v))
    && (forall t: nat :: |nodes0| <= t < |nodes| ==> NewNode(nodes0, reached, nodes, stand, origin, t))
  }

  /** Folding one more negation redirects the uses of it that are left. */
  lemma RenamedMoves(op: Op, rows: set<Row>, stand: seq<nat>, n: nat, t: nat)
    requires n < |stand| && OpFits(|stand|, rows, op) && forall u :: 0 <= u < |stand| ==> (stand[u] == n <==> u == n)
    ensures Redirected(Renamed(op, stand), n, t) == Renamed(op, stand[n := t])
  {
    match op
    case Relation(inserts) => ListMoves(inserts, stand, n, t);
    case Merge(merged) => ListMoves(merged, stand, n, t);
    case Join(joined, _) => ListMoves(joined, stand, n, t);
    case _ =>
  }

  lemma ListMoves(s: seq<nat>, stand: seq<nat>, n: nat, t: nat)
    requires n < |stand| && (forall u :: u in s ==> u < |stand|) && forall u :: 0 <= u < |stand| ==> (stand[u] == n <==> u == n)
    ensures MovedList(StandInList(s, stand), n, t) == StandInList(s, stand[n := t])
  {
    forall i | 0 <= i < |s| ensures MovedList(StandInList(s, stand), n, t)[i] == StandInList(s, stand[n := t])[i] {
      assert s[i] in s;
    }
  }

  lemma OthersStand(nodes0: seq<Node>, reached: set<nat>, nodes: seq<Node>, stand: seq<nat>, origin: seq<nat>, n: nat)
    requires FoldedTo(nodes0, reached, nodes, stand, origin, n) && n < |nodes0|
    ensures forall u :: 0 <= u < |stand| ==> (stand[u] == n <==> u == n)
  {
    forall u: nat | u < |stand| ensures stand[u] == n <==> u == n {
      assert OldNode(nodes0, reached, nodes, stand, origin, n, u) && OldNode(nodes0, reached, nodes, stand, origin, n, n);
    }
  }

  lemma FoldStep(nodes0: seq<Node>, rows: set<Row>, reached: set<nat>, nodes: seq<Node>, stand: seq<nat>, origin: seq<nat>, n: nat)
    requires GraphFits(nodes0, rows) && FoldedTo(nodes0, reached, nodes, stand, origin, n)
    requires n < |nodes0| && Folds(nodes0, reached, n) && nodes[n].op.Negate?
    ensures FoldedTo(nodes0, reached, Folded(nodes, n), stand[n := |nodes|], origin + [n], n + 1)
  {
    var more, t, stand', origin', k := Folded(nodes, n), |nodes|, stand[n := |nodes|], origin + [n], n + 1;
    OthersStand(nodes0, reached, nodes, stand, origin, n);
    forall v: nat | v < |nodes0| ensures OldNode(nodes0, reached, more, stand', origin', k, v) {
      assert OldNode(nodes0, reached, nodes, stand, origin, n, v);
      assert OpFits(|nodes0|, rows, nodes0[v].op);
      RenamedMoves(nodes0[v].op, rows, stand, n, t);
    }
    forall u: nat | |nodes0| <= u < |more| ensures NewNode(nodes0, reached, more, stand', origin', u) {
      assert u < t ==> NewNode(nodes0, reached, nodes, stand, origin, u);
      assert OldNode(nodes0, reached, nodes, stand, origin, n, n);
      var v := origin'[u];
      assert OpFits(|nodes0|, rows, nodes0[v].op);
      RenamedMoves(TupleOf(nodes0[v].op), rows, stand, n, t);
    }
  }

  lemma FoldSkip(nodes0: seq<Node>, reached: set<nat>, nodes: seq<Node>, stand: seq<nat>, origin: seq<nat>, k: nat)
    requires FoldedTo(nodes0, reached, nodes, stand, origin, k) && !Folds(nodes0, reached, k)
    ensures FoldedTo(nodes0, reached, nodes, stand, origin, k + 1)
  {
    var next := k + 1;
    forall v: nat | v < |nodes0| ensures OldNode(nodes0, reached, nodes, stand, origin, next, v) {
      assert OldNode(nodes0, reached, nodes, stand, origin, k, v);
    }
  }

  lemma RenamedAlone(op: Op, rows: set<Row>, stand: seq<nat>)
    requires OpFits(|stand|, rows, op) && forall u :: 0 <= u < |stand| ==> stand[u] == u
    ensures Renamed(op, stand) == op
  {
    match op
    case Relation(inserts) => ListAlone(inserts, stand);
    case Merge(merged) => ListAlone(merged, stand);
    case Join(joined, _) => ListAlone(joined, stand);
    case _ =>
  }

  lemma ListAlone(s: seq<nat>, stand: seq<nat>)
    requires (forall u :: u in s ==> u < |stand|) && forall u :: 0 <= u < |stand| ==> stand[u] == u
    ensures StandInList(s, stand) == s
  {
    forall i | 0 <= i < |s| ensures StandInList(s, stand)[i] == s[i] {
      assert s[i] in s;
    }
  }

  lemma FoldStarts(nodes: seq<Node>, rows: set<Row>, reached: set<nat>, stand: seq<nat>)
    requires GraphFits(nodes, rows) && |stand| == |nodes| && forall u :: 0 <= u < |stand| ==> stand[u] == u
    ensures FoldedTo(nodes, reached, nodes, stand, stand, 0)
  {
    forall v: nat | v < |nodes| ensures OldNode(nodes, reached, nodes, stand, stand, 0, v) {
      assert OpFits(|nodes|, rows, nodes[v].op);
      RenamedAlone(nodes[v].op, rows, stand);
    }
  }

  /** The pass tests the node as it is by then; the answer is that of the old graph. */
  lemma FoldTest(nodes0: seq<Node>, rows: set<Row>, reached: set<nat>, nodes: seq<Node>, stand: seq<nat>, origin: seq<nat>,
                 tainted: set<nat>, k: nat)
    requires GraphFits(nodes0, rows) && FoldedTo(nodes0, reached, nodes, stand, origin, k) && k < |nodes0|
    requires forall v :: 0 <= v < |nodes| ==> (v in tainted <==> origin[v] in reached)
    ensures nodes[k].op.Negate? && Live(nodes, k) && nodes[k].op.negated !in tainted <==> Folds(nodes0, reached, k)
  {
    assert OldNode(nodes0, reached, nodes, stand, origin, k, k) && OpFits(|nodes0|, rows, nodes0[k].op);
    if nodes0[k].op.Negate? {
      assert OldNode(nodes0, reached, nodes, stand, origin, k, nodes0[k].op.negated);
    }
  }

  // ------------------------------------------------------------------
  // Deleting and pruning.

  /** The graph when the sweep comes to `v`: deletions so far, the rest as folded. */
  ghost function AtTurn(folded: seq<Node>, nodes: seq<Node>, v: nat): (r: seq<Node>)
    requires |nodes| == |folded|
    ensures |r| == |folded|
  {
    seq(|folded|, w requires 0 <= w < |folded| => if w < v then folded[w].(dead := nodes[w].dead) else folded[w])
  }

  /** A node is dead in the end exactly when it was dead or folded, when the inputs do not reach what
      it stands for, or when it was a trivial cycle at its turn. */
  ghost predicate DeadAsStated(folded: seq<Node>, reached: set<nat>, origin: seq<nat>, nodes: seq<Node>, v: nat)
    requires v < |nodes| == |folded| == |origin|
  {
    nodes[v].dead <==> folded[v].dead || origin[v] !in reached || LoopsBack(AtTurn(folded, nodes, v), v)
  }

  /** The views a merge keeps: those that are not dead, in order. */
  function KeptList(merged: seq<nat>, nodes: seq<Node>): seq<nat> {
    Keep(merged, nodes, NodeSet(|nodes|))
  }

  /** Everything but the dead flag and a live merge's list is as folded. */
  ghost predicate OpAsStated(folded: seq<Node>, nodes: seq<Node>, k: nat, v: nat)
    requires v < |nodes| == |folded|
  {
    var f := folded[v];
    nodes[v] == f.(dead := nodes[v].dead,
                   op := if v < k && !nodes[v].dead && f.op.Merge? then Merge(KeptList(f.op.merged, nodes)) else f.op)
  }

  /** The sweep has come to `k`. */
  ghost predicate SweptTo(folded: seq<Node>, reached: set<nat>, origin: seq<nat>, nodes: seq<Node>, k: nat) {
    && |nodes| == |folded| == |origin|
    && (forall v: nat :: v < |nodes| ==> OpAsStated(folded, nodes, 0, v) && (k <= v ==> nodes[v] == folded[v]))
    && (forall v: nat :: v < k && v < |nodes| ==> DeadAsStated(folded, reached, origin, nodes, v))
  }

  /** The sweep is over, and merges before `k` are pruned. */
  ghost predicate PrunedTo(folded: seq<Node>, reached: set<nat>, origin: seq<nat>, nodes: seq<Node>, k: nat) {
    && |nodes| == |folded| == |origin|
    && (forall v: nat :: v < |nodes| ==> OpAsStated(folded, nodes, k, v) && DeadAsStated(folded, reached, origin, nodes, v))
  }

  lemma TurnIsNow(folded: seq<Node>, reached: set<nat>, origin: seq<nat>, nodes: seq<Node>, v: nat)
    requires SweptTo(folded, reached, origin, nodes, v)
    ensures AtTurn(folded, nodes, v) == nodes
  {
    forall w: nat | w < |nodes| ensures AtTurn(folded, nodes, v)[w] == nodes[w] {
      assert OpAsStated(folded, nodes, 0, w);
    }
  }

  lemma SweepStep(folded: seq<Node>, reached: set<nat>, origin: seq<nat>, nodes: seq<Node>, v: nat, more: seq<Node>)
    requires SweptTo(folded, reached, origin, nodes, v) && v < |nodes|
    requires more == if origin[v] !in reached || IsTrivialCycle(nodes, v) then Deleted(nodes, v) else nodes
    ensures SweptTo(folded, reached, origin, more, v + 1)
  {
    hide IsTrivialCycle, LoopsBack;
    TurnIsNow(folded, reached, origin, nodes, v);
    TrivialCycleIs(nodes, v);
    forall w: nat | w < v + 1 && w < |nodes| ensures DeadAsStated(folded, reached, origin, more, w) {
      assert AtTurn(folded, more, w) == AtTurn(folded, nodes, w);
      assert w < v ==> DeadAsStated(folded, reached, origin, nodes, w);
    }
    forall w: nat | w < |nodes| ensures OpAsStated(folded, more, 0, w) {
      assert OpAsStated(folded, nodes, 0, w);
    }
  }

  lemma PruneStarts(folded: seq<Node>, reached: set<nat>, origin: seq<nat>, nodes: seq<Node>)
    requires SweptTo(folded, reached, origin, nodes, |nodes|)
    ensures PrunedTo(folded, reached, origin, nodes, 0)
  {
  }

  lemma {:induction false} KeepIsKept(merged: seq<nat>, nodes: seq<Node>, more: seq<Node>, tainted: set<nat>)
    requires |more| == |nodes| && (forall m :: 0 <= m < |nodes| ==> more[m].dead == nodes[m].dead && (!nodes[m].dead ==> m in tainted))
    ensures Keep(merged, nodes, tainted) == KeptList(merged, more)
  {
    if merged != [] {
      KeepIsKept(merged[1..], nodes, more, tainted);
    }
  }

  lemma LiveIsTainted(folded: seq<Node>, reached: set<nat>, origin: seq<nat>, nodes: seq<Node>, k: nat, tainted: set<nat>)
    requires PrunedTo(folded, reached, origin, nodes, k)
    requires forall v :: 0 <= v < |nodes| ==> (v in tainted <==> origin[v] in reached)
    ensures forall m :: 0 <= m < |nodes| && !nodes[m].dead ==> m in tainted
  {
    forall m: nat | m < |nodes| && !nodes[m].dead ensures m in tainted {
      assert DeadAsStated(folded, reached, origin, nodes, m);
    }
  }

  lemma PruneStep(folded: seq<Node>, reached: set<nat>, origin: seq<nat>, nodes: seq<Node>, tainted: set<nat>, v: nat, more: seq<Node>)
    requires PrunedTo(folded, reached, origin, nodes, v) && v < |nodes|
    requires forall m :: 0 <= m < |nodes| && !nodes[m].dead ==> m in tainted
    requires more == if nodes[v].op.Merge? && !nodes[v].dead then Pruned(nodes, tainted, v) else nodes
    ensures PrunedTo(folded, reached, origin, more, v + 1)
  {
    hide LoopsBack;
    assert forall w: nat :: w < |nodes| ==> more[w].dead == nodes[w].dead;
    forall w: nat | w < |nodes| ensures DeadAsStated(folded, reached, origin, more, w) {
      assert AtTurn(folded, more, w) == AtTurn(folded, nodes, w);
      assert DeadAsStated(folded, reached, origin, nodes, w);
    }
    var next := v + 1;
    forall w: nat | w < |nodes| ensures OpAsStated(folded, more, next, w) {
      assert OpAsStated(folded, nodes, v, w);
      if folded[w].op.Merge? {
        KeepIsKept(folded[w].op.merged, nodes, more, tainted);
        KeepIsKept(folded[w].op.merged, nodes, nodes, tainted);
      }
    }
  }

  // ------------------------------------------------------------------
  // What follows for the result.

  /** The new graph in terms of the old one. */
  ghost predicate Eliminated(
    nodes0: seq<Node>, reached: set<nat>, folded: seq<Node>, stand: seq<nat>, origin: seq<nat>, nodes: seq<Node>)
  {
    && FoldedTo(nodes0, reached, folded, stand, origin, |nodes0|)
    && PrunedTo(folded, reached, origin, nodes, |nodes|)
  }

  /** What the inputs reach stays, as itself or as the tuple that replaces it, unless it is a trivial
      cycle; and what stays is reached. */
  lemma ReachedStays(
    nodes0: seq<Node>, reached: set<nat>, folded: seq<Node>, stand: seq<nat>, origin: seq<nat>, nodes: seq<Node>, v: nat)
    requires Eliminated(nodes0, reached, folded, stand, origin, nodes) && v < |nodes0| && !nodes0[v].dead
    ensures |folded| == |nodes| && stand[v] < |nodes|
    ensures !nodes[stand[v]].dead <==> v in reached && !LoopsBack(AtTurn(folded, nodes, stand[v]), stand[v])
  {
    hide LoopsBack;
    assert OldNode(nodes0, reached, folded, stand, origin, |nodes0|, v);
    if stand[v] >= |nodes0| {
      assert NewNode(nodes0, reached, folded, stand, origin, stand[v]);
    }
    assert DeadAsStated(folded, reached, origin, nodes, stand[v]);
  }

  /** Only tuples can be trivial cycles. */
  lemma OthersStay(
    nodes0: seq<Node>, reached: set<nat>, folded: seq<Node>, stand: seq<nat>, origin: seq<nat>, nodes: seq<Node>, v: nat)
    requires Eliminated(nodes0, reached, folded, stand, origin, nodes) && v < |nodes0| && !nodes0[v].dead && v in reached
    requires !nodes0[v].op.Negate? && !(nodes0[v].op.Forward? && nodes0[v].op.kind.TupleNode?)
    ensures v < |nodes| && !nodes[v].dead
  {
    ReachedStays(nodes0, reached, folded, stand, origin, nodes, v);
    assert OldNode(nodes0, reached, folded, stand, origin, |nodes0|, v);
  }

  /** Live merges list live views only. */
  lemma MergesAreLive(
    nodes0: seq<Node>, reached: set<nat>, folded: seq<Node>, stand: seq<nat>, origin: seq<nat>, nodes: seq<Node>, v: nat, m: nat)
    requires Eliminated(nodes0, reached, folded, stand, origin, nodes) && v < |nodes| && !nodes[v].dead
    requires nodes[v].op.Merge? && m in nodes[v].op.merged
    ensures m < |nodes| && !nodes[m].dead
  {
    assert OpAsStated(folded, nodes, |nodes|, v);
    assert m in KeptList(folded[v].op.merged, nodes);
  }

  /** Live negations test views the inputs reach. */
  lemma ChecksAreReached(
    nodes0: seq<Node>, rows: set<Row>, reached: set<nat>, folded: seq<Node>, stand: seq<nat>, origin: seq<nat>, nodes: seq<Node>, v: nat)
    requires Eliminated(nodes0, reached, folded, stand, origin, nodes) && GraphFits(nodes0, rows)
    requires Live(nodes, v) && nodes[v].op.Negate?
    ensures nodes[v].op.negated < |origin| && origin[nodes[v].op.negated] in reached
  {
    hide LoopsBack;
    assert OpAsStated(folded, nodes, |nodes|, v) && DeadAsStated(folded, reached, origin, nodes, v);
    assert v >= |nodes0| ==> NewNode(nodes0, reached, folded, stand, origin, v);
    assert v < |nodes0|;
    assert OldNode(nodes0, reached, folded, stand, origin, |nodes0|, v) && OpFits(|nodes0|, rows, nodes0[v].op);
    assert OldNode(nodes0, reached, folded, stand, origin, |nodes0|, nodes0[v].op.negated);
  }
}
