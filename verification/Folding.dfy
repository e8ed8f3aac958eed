/** A negation of an empty view becomes a tuple, and every use of it a use of the tuple. */
module Folding {
  import opened FlowGraph
  import opened Ground
  import opened Model
  import opened Taint
  import opened Wrappers

  function Moved(u: nat, n: nat, t: nat): nat {
    if u == n then t else u
  }

  function MovedSource(source: Option<nat>, n: nat, t: nat): Option<nat> {
    if source.Some? then Some(Moved(source.value, n, t)) else None
  }

  function MovedList(s: seq<nat>, n: nat, t: nat): (r: seq<nat>)
    ensures |r| == |s| && forall i :: 0 <= i < |s| ==> r[i] == Moved(s[i], n, t)
  {
    seq(|s|, i requires 0 <= i < |s| => Moved(s[i], n, t))
  }

  /** Every use of `n` replaced by a use of `t`. */
  function Redirected(op: Op, n: nat, t: nat): Op {
    match op
    case Input => Input
    case Relation(inserts) => Relation(MovedList(inserts, n, t))
    case Merge(merged) => Merge(MovedList(merged, n, t))
    case Forward(kind, source, passes) => Forward(kind, MovedSource(source, n, t), passes)
    case Negate(source, negated, checks) => Negate(MovedSource(source, n, t), Moved(negated, n, t), checks)
    case Reduce(values, keys, reduce) => Reduce(MovedSource(values, n, t), MovedSource(keys, n, t), reduce)
    case Join(joined, combinations) => Join(MovedList(joined, n, t), combinations)
  }

  /** The tuple that forwards a negation's input and attached columns, its absence check gone. */
  function TupleOf(op: Op): Op
    requires op.Negate?
  {
    Forward(TupleNode, op.source, set c | c in op.checks :: (c.input, c.output))
  }

  function RedirectedNode(node: Node, v: nat, n: nat, t: nat): Node {
    node.(op := Redirected(node.op, n, t), dead := node.dead || v == n)
  }

  /** Negation `n` replaced by a new tuple at the end. */
  function Folded(nodes: seq<Node>, n: nat): (r: seq<Node>)
    requires n < |nodes| && nodes[n].op.Negate?
    ensures |r| == |nodes| + 1
  {
    seq(|nodes|, v requires 0 <= v < |nodes| => RedirectedNode(nodes[v], v, n, |nodes|))
    + [Node(Redirected(TupleOf(nodes[n].op), n, |nodes|), nodes[n].arity, false, false)]
  }

  function MovedFact(f: Fact, n: nat, t: nat): Fact {
    Fact(Moved(f.view, n, t), f.row)
  }

  ghost function MovedFacts(x: set<Fact>, n: nat, t: nat): set<Fact> {
    set f | f in x :: MovedFact(f, n, t)
  }

  function MovedBody(body: seq<Literal>, n: nat, t: nat): (r: seq<Literal>)
    ensures |r| == |body| && forall i :: 0 <= i < |body| ==> r[i] == Literal(MovedFact(body[i].fact, n, t), body[i].negated)
  {
    seq(|body|, i requires 0 <= i < |body| => Literal(MovedFact(body[i].fact, n, t), body[i].negated))
  }

  /** A rule of another node, its use of `n` replaced. */
  function MovedRule(d: Deriv, n: nat, t: nat): Deriv {
    d.(body := MovedBody(d.body, n, t))
  }

  lemma MovedIsRule(op: Op, v: nat, rows: set<Row>, n: nat, t: nat, d: Deriv)
    requires IsRule(op, v, rows, d)
    ensures IsRule(Redirected(op, n, t), v, rows, MovedRule(d, n, t))
  {
    match op
    case Join(joined, combinations) =>
      var c :| c in combinations && |c.inputs| == |joined| && d.head.row == c.output && d.body == JoinBody(joined, c.inputs);
      assert MovedBody(d.body, n, t) == JoinBody(MovedList(joined, n, t), c.inputs);
    case Negate(source, negated, checks) =>
      var c :| c in checks && d.head.row == c.output && d.body == SourceBody(source, c.input) + [Literal(Fact(negated, c.key), true)];
      assert MovedBody(d.body, n, t)
          == SourceBody(MovedSource(source, n, t), c.input) + [Literal(Fact(Moved(negated, n, t), c.key), true)];
    case Forward(_, source, passes) =>
      var p :| p in passes && d.head.row == p.1 && d.body == SourceBody(source, p.0);
      assert MovedBody(d.body, n, t) == SourceBody(MovedSource(source, n, t), p.0);
    case Merge(merged) =>
      var i :| 0 <= i < |merged| && d.body == [Literal(Fact(merged[i], d.head.row), false)];
      assert MovedBody(d.body, n, t) == [Literal(Fact(MovedList(merged, n, t)[i], d.head.row), false)];
    case Relation(inserts) =>
      var i :| 0 <= i < |inserts| && d.body == [Literal(Fact(inserts[i], d.head.row), false)];
      assert MovedBody(d.body, n, t) == [Literal(Fact(MovedList(inserts, n, t)[i], d.head.row), false)];
    case _ =>
  }

  /** Every rule of a redirected node is a rule of the node itself, its use of `n` replaced. */
  lemma RuleMoved(op: Op, v: nat, rows: set<Row>, n: nat, t: nat, e: Deriv) returns (d: Deriv)
    requires IsRule(Redirected(op, n, t), v, rows, e)
    ensures IsRule(op, v, rows, d) && e == MovedRule(d, n, t)
  {
    match op
    case Join(joined, combinations) =>
      var c :| c in combinations && |c.inputs| == |joined| && e.head.row == c.output
               && e.body == JoinBody(MovedList(joined, n, t), c.inputs);
      d := e.(body := JoinBody(joined, c.inputs));
      assert MovedBody(d.body, n, t) == e.body;
    case Negate(source, negated, checks) =>
      var c :| c in checks && e.head.row == c.output
               && e.body == SourceBody(MovedSource(source, n, t), c.input) + [Literal(Fact(Moved(negated, n, t), c.key), true)];
      d := e.(body := SourceBody(source, c.input) + [Literal(Fact(negated, c.key), true)]);
      assert MovedBody(d.body, n, t) == e.body;
    case Forward(_, source, passes) =>
      var p :| p in passes && e.head.row == p.1 && e.body == SourceBody(MovedSource(source, n, t), p.0);
      d := e.(body := SourceBody(source, p.0));
      assert MovedBody(d.body, n, t) == e.body;
    case Merge(merged) =>
      var i :| 0 <= i < |merged| && e.body == [Literal(Fact(MovedList(merged, n, t)[i], e.head.row), false)];
      d := e.(body := [Literal(Fact(merged[i], e.head.row), false)]);
      assert MovedBody(d.body, n, t) == e.body;
    case Relation(inserts) =>
      var i :| 0 <= i < |inserts| && e.body == [Literal(Fact(MovedList(inserts, n, t)[i], e.head.row), false)];
      d := e.(body := [Literal(Fact(inserts[i], e.head.row), false)]);
      assert MovedBody(d.body, n, t) == e.body;
    case _ =>
      d := e;
  }

  function FoldedStrata(strata: seq<nat>, n: nat): seq<nat>
    requires n < |strata|
  {
    strata + [strata[n]]
  }

  /** What folding `n` needs: the negated view holds nothing. */
  ghost predicate CanFold(nodes: seq<Node>, rows: set<Row>, strata: seq<nat>, x: set<Fact>, n: nat) {
    && GraphFits(nodes, rows) && StrataFit(nodes, strata) && Live(nodes, n) && nodes[n].op.Negate?
    && x <= GraphFacts(nodes, rows) && forall f :: f in x ==> f.view != nodes[n].op.negated
  }

  lemma HoldsMoved(l: Literal, s: set<Fact>, n: nat, t: nat)
    requires l.fact.view < t && forall f :: f in s ==> f.view < t
    ensures Holds(Literal(MovedFact(l.fact, n, t), l.negated), MovedFacts(s, n, t)) == Holds(l, s)
  {
    if MovedFact(l.fact, n, t) in MovedFacts(s, n, t) {
      var f :| f in s && MovedFact(f, n, t) == MovedFact(l.fact, n, t);
      assert f == l.fact;
    }
  }

  lemma BodyMoved(nodes: seq<Node>, rows: set<Row>, strata: seq<nat>, d: Deriv, s: set<Fact>, n: nat)
    requires GraphFits(nodes, rows) && StrataFit(nodes, strata) && d in GraphProgram(nodes, rows, strata).derivs
    requires s <= GraphFacts(nodes, rows)
    ensures Active(MovedRule(d, n, |nodes|), MovedFacts(s, n, |nodes|)) == Active(d, s)
  {
    var e := MovedRule(d, n, |nodes|);
    RuleStratified(nodes, rows, strata, d);
    forall p | 0 <= p < |d.body| ensures Holds(e.body[p], MovedFacts(s, n, |nodes|)) == Holds(d.body[p], s) {
      HoldsMoved(d.body[p], s, n, |nodes|);
    }
    assert Active(d, s) ==> Active(e, MovedFacts(s, n, |nodes|));
  }

  lemma FoldedNode(nodes: seq<Node>, n: nat, v: nat)
    requires n < |nodes| && nodes[n].op.Negate?
    ensures Live(Folded(nodes, n), v) <==> v == |nodes| || (Live(nodes, v) && v != n)
    ensures v < |nodes| ==> Folded(nodes, n)[v].op == Redirected(nodes[v].op, n, |nodes|)
    ensures v == |nodes| ==> Folded(nodes, n)[v].op == Redirected(TupleOf(nodes[n].op), n, |nodes|)
  {
  }

  /** Without the absence check, which holds anyway, a negation's rules are the tuple's. */
  lemma CheckDropped(op: Op, n: nat, rows: set<Row>, t: nat, d: Deriv, s: set<Fact>) returns (e: Deriv)
    requires op.Negate? && IsRule(op, n, rows, d) && Active(d, s)
    ensures IsRule(TupleOf(op), t, rows, e) && e.head == Fact(t, d.head.row) && Active(e, s)
    ensures forall p :: 0 <= p < |e.body| ==> p < |d.body| && e.body[p] == d.body[p]
  {
    var c :| c in op.checks && d.head.row == c.output && d.body == SourceBody(op.source, c.input) + [Literal(Fact(op.negated, c.key), true)];
    assert (c.input, c.output) in TupleOf(op).passes;
    e := Deriv(t, Fact(t, c.output), SourceBody(op.source, c.input), false);
    assert forall p :: 0 <= p < |e.body| ==> Holds(d.body[p], s) && e.body[p] == d.body[p];
  }

  lemma CheckAdded(op: Op, n: nat, rows: set<Row>, t: nat, e: Deriv, s: set<Fact>) returns (d: Deriv)
    requires op.Negate? && IsRule(TupleOf(op), t, rows, e) && (forall f :: f in s ==> f.view != op.negated)
    ensures IsRule(op, n, rows, d) && d.head == Fact(n, e.head.row) && (Active(e, s) ==> Active(d, s))
  {
    var p :| p in TupleOf(op).passes && e.head.row == p.1 && e.body == SourceBody(op.source, p.0);
    var c :| c in op.checks && p == (c.input, c.output);
    d := Deriv(n, Fact(n, c.output), SourceBody(op.source, c.input) + [Literal(Fact(op.negated, c.key), true)], false);
    if Active(e, s) {
      forall q | 0 <= q < |d.body| ensures Holds(d.body[q], s) {
        if q < |e.body| {
          assert Holds(e.body[q], s);
        }
      }
    }
  }

  /** A rule that fires in the original graph fires in the folded one. */
  lemma FoldUp(nodes: seq<Node>, rows: set<Row>, strata: seq<nat>, x: set<Fact>, n: nat, d: Deriv, s: set<Fact>) returns (e: Deriv)
    requires CanFold(nodes, rows, strata, x, n) && n < |strata| && s <= GraphFacts(nodes, rows)
    requires d in GraphProgram(nodes, rows, strata).derivs && Active(d, s)
    ensures e in GraphProgram(Folded(nodes, n), rows, FoldedStrata(strata, n)).derivs
    ensures e.head == MovedFact(d.head, n, |nodes|) && Active(e, MovedFacts(s, n, |nodes|))
  {
    hide IsRule, GraphFits, StrataFit, Active, Folded, Live;
    var t := |nodes|;
    LiveFits(nodes, n);
    RuleOf(nodes, rows, strata, d);
    FoldedNode(nodes, n, d.head.view);
    FoldedNode(nodes, n, t);
    BodyMoved(nodes, rows, strata, d, s, n);
    MovedIsRule(nodes[d.head.view].op, d.head.view, rows, n, t, d);
    if d.head.view == n {
      var m := MovedRule(d, n, t);
      e := CheckDropped(Redirected(nodes[n].op, n, t), n, rows, t, m, MovedFacts(s, n, t));
      assert Redirected(TupleOf(nodes[n].op), n, t) == TupleOf(Redirected(nodes[n].op, n, t));
    } else {
      e := MovedRule(d, n, t);
      LiveFits(nodes, d.head.view);
    }
  }

  /** A rule that fires in the folded graph fires in the original one. */
  lemma FoldDown(nodes: seq<Node>, rows: set<Row>, strata: seq<nat>, x: set<Fact>, n: nat, e: Deriv, s: set<Fact>) returns (d: Deriv)
    requires CanFold(nodes, rows, strata, x, n) && n < |strata| && s <= x
    requires e in GraphProgram(Folded(nodes, n), rows, FoldedStrata(strata, n)).derivs && Active(e, MovedFacts(s, n, |nodes|))
    ensures d in GraphProgram(nodes, rows, strata).derivs && Active(d, s) && e.head == MovedFact(d.head, n, |nodes|)
  {
    hide IsRule, GraphFits, StrataFit, Active, Folded;
    var t := |nodes|;
    RuleOf(Folded(nodes, n), rows, FoldedStrata(strata, n), e);
    FoldedNode(nodes, n, e.head.view);
    if e.head.view == t {
      var c := RuleMoved(TupleOf(nodes[n].op), t, rows, n, t, e);
      d := CheckAdded(nodes[n].op, n, rows, t, c, s);
      TupleMoved(nodes, rows, strata, n, c, d, s);
    } else {
      d := RuleMoved(nodes[e.head.view].op, e.head.view, rows, n, t, e);
      BodyMoved(nodes, rows, strata, d, s, n);
    }
  }

  lemma TupleMoved(nodes: seq<Node>, rows: set<Row>, strata: seq<nat>, n: nat, c: Deriv, d: Deriv, s: set<Fact>)
    requires GraphFits(nodes, rows) && n < |nodes| && nodes[n].op.Negate? && s <= GraphFacts(nodes, rows)
    requires IsRule(TupleOf(nodes[n].op), |nodes|, rows, c)
    requires Active(MovedRule(c, n, |nodes|), MovedFacts(s, n, |nodes|))
    ensures Active(c, s)
  {
    assert OpFits(|nodes|, rows, nodes[n].op);
    forall p | 0 <= p < |c.body| ensures Holds(c.body[p], s) {
      HoldsMoved(c.body[p], s, n, |nodes|);
      assert Holds(MovedRule(c, n, |nodes|).body[p], MovedFacts(s, n, |nodes|));
    }
  }

  lemma FoldGiven(nodes: seq<Node>, rows: set<Row>, strata: seq<nat>, received: set<Fact>, x: set<Fact>, n: nat)
    requires CanFold(nodes, rows, strata, x, n)
    ensures External(Folded(nodes, n), rows, received, MovedFacts(x, n, |nodes|)) == External(nodes, rows, received, x)
    ensures forall f :: f in External(nodes, rows, received, x) ==> f.view != n
  {
    var more, y := Folded(nodes, n), MovedFacts(x, n, |nodes|);
    forall f | f in GraphFacts(more, rows)
      ensures Given(more, received, y, f) <==> f in GraphFacts(nodes, rows) && Given(nodes, received, x, f)
    {
      FoldedNode(nodes, n, f.view);
      if Live(nodes, f.view) && nodes[f.view].op.Reduce? {
        MovedRows(nodes, rows, x, n, ReduceSource(nodes[f.view].op), f.view);
      }
    }
  }

  lemma MovedRows(nodes: seq<Node>, rows: set<Row>, x: set<Fact>, n: nat, source: Option<nat>, v: nat)
    requires GraphFits(nodes, rows) && x <= GraphFacts(nodes, rows) && v < |nodes|
    requires nodes[v].op.Reduce? && source == ReduceSource(nodes[v].op)
    ensures InputRows(MovedFacts(x, n, |nodes|), MovedSource(source, n, |nodes|)) == InputRows(x, source)
  {
    assert OpFits(|nodes|, rows, nodes[v].op);
    var y, t := MovedFacts(x, n, |nodes|), |nodes|;
    if source.Some? {
      forall f | f in x && f.view == source.value ensures f.row in InputRows(y, MovedSource(source, n, t)) {
        assert MovedFact(f, n, t) in y;
      }
    }
  }

  lemma MovedAt(g: GroundProgram, h: GroundProgram, strata: seq<nat>, x: set<Fact>, n: nat, k: nat)
    requires n < |strata| && g.strata == strata && h.strata == FoldedStrata(strata, n)
    requires forall f :: f in x ==> f.view < |strata|
    ensures Below(h, MovedFacts(x, n, |strata|), k) == MovedFacts(Below(g, x, k), n, |strata|)
    ensures At(h, MovedFacts(x, n, |strata|), k) == MovedFacts(At(g, x, k), n, |strata|)
  {
    var y := MovedFacts(x, n, |strata|);
    forall f | f in x ensures Stratum(h, MovedFact(f, n, |strata|)) == Stratum(g, f) {
    }
  }

  lemma MovedUnion(a: set<Fact>, b: set<Fact>, n: nat, t: nat)
    ensures MovedFacts(a + b, n, t) == MovedFacts(a, n, t) + MovedFacts(b, n, t)
  {
    forall f | f in a + b ensures MovedFact(f, n, t) in MovedFacts(a, n, t) + MovedFacts(b, n, t) {
    }
    assert MovedFacts(a, n, t) <= MovedFacts(a + b, n, t) && MovedFacts(b, n, t) <= MovedFacts(a + b, n, t);
  }

  /** The facts a set holds under their new names. */
  ghost function Named(facts: set<Fact>, z: set<Fact>, n: nat, t: nat): set<Fact> {
    set f | f in facts && MovedFact(f, n, t) in z
  }

  lemma FoldClosed(
    nodes: seq<Node>, rows: set<Row>, strata: seq<nat>, received: set<Fact>, x: set<Fact>, n: nat, k: nat,
    g: GroundProgram, h: GroundProgram, y: set<Fact>, ext: set<Fact>)
    requires CanFold(nodes, rows, strata, x, n) && n < |strata| && |strata| == |nodes| && FlowModel(nodes, rows, strata, received, x)
    requires g == GraphProgram(nodes, rows, strata) && h == GraphProgram(Folded(nodes, n), rows, FoldedStrata(strata, n))
    requires y == MovedFacts(x, n, |nodes|) && ext == External(nodes, rows, received, x) && Stratified(h) && y <= h.facts
    ensures Closed(h, k, Below(h, y, k), ext, At(h, y, k))
  {
    hide IsModel, GraphProgram, GraphFits, StrataFit, FlowModel, External, Active, IsRule, Folded;
    GraphStratified(nodes, rows, strata);
    ModelOf(nodes, rows, strata, received, x);
    ModelFacts(g, ext, x);
    FoldGiven(nodes, rows, strata, received, x, n);
    forall f | f in At(h, ext, k) ensures f in At(h, y, k) {
      assert MovedFact(f, n, |nodes|) in y;
    }
    forall e | e in h.derivs && Stratum(h, e.head) == k && Active(e, Below(h, y, k) + At(h, y, k)) ensures e.head in At(h, y, k) {
      ActiveSplit(h, e, k, y);
      var d := FoldDown(nodes, rows, strata, x, n, e, x);
      assert MovedFact(d.head, n, |nodes|) in y;
    }
  }

  lemma FoldLeast(
    nodes: seq<Node>, rows: set<Row>, strata: seq<nat>, received: set<Fact>, x: set<Fact>, n: nat, k: nat,
    g: GroundProgram, h: GroundProgram, y: set<Fact>, ext: set<Fact>, z: set<Fact>)
    requires CanFold(nodes, rows, strata, x, n) && n < |strata| && |strata| == |nodes| && FlowModel(nodes, rows, strata, received, x)
    requires g == GraphProgram(nodes, rows, strata) && h == GraphProgram(Folded(nodes, n), rows, FoldedStrata(strata, n))
    requires y == MovedFacts(x, n, |nodes|) && ext == External(nodes, rows, received, x) && Stratified(h) && y <= h.facts
    requires z <= At(h, h.facts, k) && Closed(h, k, Below(h, y, k), ext, z)
    ensures At(h, y, k) <= z
  {
    hide IsModel, GraphProgram, GraphFits, StrataFit, FlowModel, External, Active, IsRule, Folded, Closed;
    GraphStratified(nodes, rows, strata);
    ModelOf(nodes, rows, strata, received, x);
    var lower, z1 := Below(g, x, k), Named(At(g, g.facts, k), z, n, |nodes|);
    MovedAt(g, h, strata, x, n, k);
    assert Closed(g, k, lower, ext, z1) by {
      FoldNamed(nodes, rows, strata, received, x, n, k, g, h, y, ext, z, lower, z1);
    }
    LeastIsLeast(g, k, lower, ext, z1);
  }

  lemma FoldNamed(
    nodes: seq<Node>, rows: set<Row>, strata: seq<nat>, received: set<Fact>, x: set<Fact>, n: nat, k: nat,
    g: GroundProgram, h: GroundProgram, y: set<Fact>, ext: set<Fact>, z: set<Fact>, lower: set<Fact>, z1: set<Fact>)
    requires CanFold(nodes, rows, strata, x, n) && n < |strata| && |strata| == |nodes| && FlowModel(nodes, rows, strata, received, x)
    requires g == GraphProgram(nodes, rows, strata) && h == GraphProgram(Folded(nodes, n), rows, FoldedStrata(strata, n))
    requires y == MovedFacts(x, n, |nodes|) && ext == External(nodes, rows, received, x) && Stratified(h) && y <= h.facts
    requires z <= At(h, h.facts, k) && Closed(h, k, Below(h, y, k), ext, z)
    requires lower == Below(g, x, k) && z1 == Named(At(g, g.facts, k), z, n, |nodes|)
    requires Below(h, y, k) == MovedFacts(lower, n, |nodes|)
    ensures Closed(g, k, lower, ext, z1)
  {
    hide IsModel, GraphProgram, GraphFits, StrataFit, FlowModel, External, Active, IsRule, Folded;
    GraphStratified(nodes, rows, strata);
    ModelOf(nodes, rows, strata, received, x);
    FoldGiven(nodes, rows, strata, received, x, n);
    var t := |nodes|;
    forall f | f in At(g, ext, k) ensures f in z1 {
      assert f in At(h, ext, k);
    }
    var moved := MovedFacts(z1, n, t);
    assert moved <= z;
    MovedUnion(lower, z1, n, t);
    forall d | d in g.derivs && Stratum(g, d.head) == k && Active(d, lower + z1) ensures d.head in z1 {
      var e := FoldUp(nodes, rows, strata, x, n, d, lower + z1);
      assert Stratum(h, e.head) == k;
      ActiveMonotone(h, e, k, Below(h, y, k), moved, z);
    }
  }

  ghost function FoldedTaint(tainted: set<nat>, n: nat, t: nat): set<nat> {
    if n in tainted then tainted + {t} else tainted
  }

  lemma FoldedFits(nodes: seq<Node>, rows: set<Row>, strata: seq<nat>, n: nat)
    requires GraphFits(nodes, rows) && StrataFit(nodes, strata) && Live(nodes, n) && nodes[n].op.Negate?
    ensures GraphFits(Folded(nodes, n), rows) && n < |strata| && StrataFit(Folded(nodes, n), FoldedStrata(strata, n))
  {
    var more, t := Folded(nodes, n), |nodes|;
    forall v | 0 <= v < |more| ensures OpFits(|more|, rows, more[v].op) {
      FoldedNode(nodes, n, v);
      RedirectedFits(if v < t then nodes[v].op else TupleOf(nodes[n].op), rows, n, t);
    }
    forall v: nat | Live(more, v) ensures OpAbove(FoldedStrata(strata, n), more[v].op, FoldedStrata(strata, n)[v]) {
      FoldedNode(nodes, n, v);
      RedirectedAbove(if v < t then nodes[v].op else TupleOf(nodes[n].op), strata, n, strata[if v < t then v else n]);
    }
  }

  lemma ListFits(s: seq<nat>, n: nat, t: nat)
    requires forall i :: i in s ==> i < t
    ensures forall i :: i in MovedList(s, n, t) ==> i < t + 1
  {
    forall i | i in MovedList(s, n, t) ensures i < t + 1 {
      var k :| 0 <= k < |s| && i == Moved(s[k], n, t);
      assert s[k] in s;
    }
  }

  lemma RedirectedFits(op: Op, rows: set<Row>, n: nat, t: nat)
    requires OpFits(t, rows, op)
    ensures OpFits(t + 1, rows, Redirected(op, n, t))
  {
    match op
    case Join(joined, _) => ListFits(joined, n, t);
    case Merge(merged) => ListFits(merged, n, t);
    case Relation(inserts) => ListFits(inserts, n, t);
    case _ =>
  }

  lemma ListAbove(s: seq<nat>, strata: seq<nat>, n: nat, stratum: nat)
    requires n < |strata| && forall i :: i in s ==> SourceBelow(strata, Some(i), stratum)
    ensures forall i :: i in MovedList(s, n, |strata|) ==> SourceBelow(FoldedStrata(strata, n), Some(i), stratum)
  {
    forall i | i in MovedList(s, n, |strata|) ensures SourceBelow(FoldedStrata(strata, n), Some(i), stratum) {
      var k :| 0 <= k < |s| && i == Moved(s[k], n, |strata|);
      assert s[k] in s;
    }
  }

  lemma RedirectedAbove(op: Op, strata: seq<nat>, n: nat, stratum: nat)
    requires OpAbove(strata, op, stratum) && n < |strata|
    ensures OpAbove(FoldedStrata(strata, n), Redirected(op, n, |strata|), stratum)
  {
    match op
    case Join(joined, _) => ListAbove(joined, strata, n, stratum);
    case Merge(merged) => ListAbove(merged, strata, n, stratum);
    case Relation(inserts) => ListAbove(inserts, strata, n, stratum);
    case _ =>
  }

  lemma FoldedTaintClosed(nodes: seq<Node>, rows: set<Row>, tainted: set<nat>, n: nat)
    requires GraphFits(nodes, rows) && TaintClosed(nodes, tainted) && tainted <= NodeSet(|nodes|)
    requires Live(nodes, n) && nodes[n].op.Negate?
    ensures TaintClosed(Folded(nodes, n), FoldedTaint(tainted, n, |nodes|))
  {
    var more, t, less := Folded(nodes, n), |nodes|, FoldedTaint(tainted, n, |nodes|);
    forall v: nat | v < t ensures Moved(v, n, t) in less ==> v in tainted {
    }
    forall v: nat | v < t ensures Moved(v, n, t) in Usable(more, less) ==> v in Usable(nodes, tainted) {
      FoldedNode(nodes, n, v);
    }
    forall v: nat | Taints(more, less, v) ensures v in less {
      FoldedNode(nodes, n, v);
      var op := if v < t then nodes[v].op else TupleOf(nodes[n].op);
      assert OpFits(t, rows, nodes[if v < t then v else n].op);
      RedirectedTaints(op, rows, n, t, Usable(nodes, tainted), tainted, Usable(more, less), less);
      assert Taints(nodes, tainted, if v < t then v else n);
    }
  }

  lemma UseMoved(s: seq<nat>, n: nat, t: nat, usable: set<nat>, more: set<nat>, u: nat)
    requires u in MovedList(s, n, t) && u in more && forall v :: v in s && Moved(v, n, t) in more ==> v in usable
    ensures exists v :: v in s && v in usable
  {
    var i :| 0 <= i < |s| && u == Moved(s[i], n, t);
    assert s[i] in s;
  }

  lemma AllMoved(s: seq<nat>, n: nat, t: nat, usable: set<nat>, more: set<nat>)
    requires forall u :: u in MovedList(s, n, t) ==> u in more
    requires forall v :: v in s && Moved(v, n, t) in more ==> v in usable
    ensures forall v :: v in s ==> v in usable
  {
    forall v | v in s ensures v in usable {
      var i :| 0 <= i < |s| && s[i] == v;
      assert MovedList(s, n, t)[i] in MovedList(s, n, t);
    }
  }

  lemma RedirectedTaints(op: Op, rows: set<Row>, n: nat, t: nat, usable: set<nat>, tainted: set<nat>, more: set<nat>, less: set<nat>)
    requires OpFits(t, rows, op) && OpTaints(more, less, Redirected(op, n, t))
    requires forall v: nat :: v < t && Moved(v, n, t) in more ==> v in usable
    requires forall v: nat :: v < t && Moved(v, n, t) in less ==> v in tainted
    ensures OpTaints(usable, tainted, op)
  {
    match op
    case Merge(merged) =>
      var u :| u in MovedList(merged, n, t) && u in more;
      UseMoved(merged, n, t, usable, more, u);
    case Relation(inserts) =>
      var u :| u in MovedList(inserts, n, t) && u in more;
      UseMoved(inserts, n, t, usable, more, u);
    case Join(joined, _) =>
      AllMoved(joined, n, t, usable, more);
    case _ =>
  }

  /** A negation of an empty view and the tuple that replaces it mean the same. */
  lemma FoldNegation(nodes: seq<Node>, rows: set<Row>, strata: seq<nat>, received: set<Fact>, x: set<Fact>, n: nat)
    requires GraphFits(nodes, rows) && StrataFit(nodes, strata) && FlowModel(nodes, rows, strata, received, x)
    requires Live(nodes, n) && nodes[n].op.Negate? && forall f :: f in x ==> f.view != nodes[n].op.negated
    ensures n < |strata|
    ensures FlowModel(Folded(nodes, n), rows, FoldedStrata(strata, n), received, MovedFacts(x, n, |nodes|))
  {
    hide GraphFits, IsRule, Closed, Least;
    FoldedFits(nodes, rows, strata, n);
    var more, up, y := Folded(nodes, n), FoldedStrata(strata, n), MovedFacts(x, n, |nodes|);
    var g, h, ext := GraphProgram(nodes, rows, strata), GraphProgram(more, rows, up), External(nodes, rows, received, x);
    ModelOf(nodes, rows, strata, received, x);
    GraphStratified(more, rows, up);
    assert CanFold(nodes, rows, strata, x, n);
    FoldGiven(nodes, rows, strata, received, x, n);
    forall k: nat ensures At(h, y, k) == Least(h, k, Below(h, y, k), ext) {
      FoldStratum(nodes, rows, strata, received, x, n, k, g, h, y, ext);
    }
  }

  lemma FoldStratum(
    nodes: seq<Node>, rows: set<Row>, strata: seq<nat>, received: set<Fact>, x: set<Fact>, n: nat, k: nat,
    g: GroundProgram, h: GroundProgram, y: set<Fact>, ext: set<Fact>)
    requires CanFold(nodes, rows, strata, x, n) && n < |strata| && |strata| == |nodes| && FlowModel(nodes, rows, strata, received, x)
    requires g == GraphProgram(nodes, rows, strata) && h == GraphProgram(Folded(nodes, n), rows, FoldedStrata(strata, n))
    requires y == MovedFacts(x, n, |nodes|) && ext == External(nodes, rows, received, x) && Stratified(h) && y <= h.facts
    ensures At(h, y, k) == Least(h, k, Below(h, y, k), ext)
  {
    hide GraphProgram, FlowModel, External, Closed, CanFold, Stratified;
    FoldClosed(nodes, rows, strata, received, x, n, k, g, h, y, ext);
    LeastIsLeast(h, k, Below(h, y, k), ext, At(h, y, k));
    forall z: set<Fact> | z <= At(h, h.facts, k) && Closed(h, k, Below(h, y, k), ext, z) ensures At(h, y, k) <= z {
      FoldLeast(nodes, rows, strata, received, x, n, k, g, h, y, ext, z);
    }
  }
}
