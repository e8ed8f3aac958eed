/** The dataflow graph and its meaning: the stratified least model of the rule instances its
    nodes stand for. */
module FlowGraph {
  import opened Ground
  import opened Model
  import opened Wrappers

  datatype ForwardKind = TupleNode | InsertNode | CompareNode | MapNode

  /** A row is forwarded as `output` unless the negated view holds `key`. */
  datatype Check = Check(input: Row, key: Row, output: Row)

  datatype Combination = Combination(inputs: seq<Row>, output: Row)

  /** What a node does to rows. A missing source stands for inputs that are all constants. Inputs are
      message receives and stream selects, `Relation` is a select over a relation and its inserts,
      `Reduce` an aggregate (`values` its aggregated columns' view) or a key-value index. */
  datatype Op =
    | Input
    | Relation(inserts: seq<nat>)
    | Forward(kind: ForwardKind, source: Option<nat>, passes: set<(Row, Row)>)
    | Negate(source: Option<nat>, negated: nat, checks: set<Check>)
    | Reduce(values: Option<nat>, keys: Option<nat>, reduce: set<Row> -> set<Row>)
    | Merge(merged: seq<nat>)
    | Join(joined: seq<nat>, combinations: set<Combination>)

  datatype Node = Node(op: Op, arity: nat, dead: bool, unsat: bool)

  /** The view a reduction reads. */
  function ReduceSource(op: Op): Option<nat>
    requires op.Reduce?
  {
    if op.values.Some? then op.values else op.keys
  }

  predicate Live(nodes: seq<Node>, v: nat) {
    v < |nodes| && !nodes[v].dead && !nodes[v].unsat
  }

  function SourceBody(source: Option<nat>, row: Row): seq<Literal> {
    if source.Some? then [Literal(Fact(source.value, row), false)] else []
  }

  function JoinBody(joined: seq<nat>, inputs: seq<Row>): seq<Literal>
    requires |joined| == |inputs|
  {
    seq(|joined|, i requires 0 <= i < |joined| => Literal(Fact(joined[i], inputs[i]), false))
  }

  /** `d` is a rule instance of node `v`. */
  ghost predicate IsRule(op: Op, v: nat, rows: set<Row>, d: Deriv) {
    && d.rule == v && !d.recursive && d.head.view == v
    && match op
       case Relation(inserts) =>
         d.head.row in rows && exists i :: i in inserts && d.body == [Literal(Fact(i, d.head.row), false)]
       case Merge(merged) =>
         d.head.row in rows && exists m :: m in merged && d.body == [Literal(Fact(m, d.head.row), false)]
       case Forward(_, source, passes) =>
         exists p :: p in passes && d.head.row == p.1 && d.body == SourceBody(source, p.0)
       case Negate(source, negated, checks) =>
         exists c :: c in checks && d.head.row == c.output
                     && d.body == SourceBody(source, c.input) + [Literal(Fact(negated, c.key), true)]
       case Join(joined, combinations) =>
         exists c :: c in combinations && |c.inputs| == |joined| && d.head.row == c.output && d.body == JoinBody(joined, c.inputs)
       case _ => false
  }

  /** The rule instances of a node as a finite set. */
  ghost function RulesOf(op: Op, v: nat, rows: set<Row>): (ds: set<Deriv>)
    ensures forall d :: d in ds <==> IsRule(op, v, rows, d)
  {
    match op
    case Relation(inserts) =>
      set i, r | i in inserts && r in rows :: Deriv(v, Fact(v, r), [Literal(Fact(i, r), false)], false)
    case Merge(merged) =>
      set m, r | m in merged && r in rows :: Deriv(v, Fact(v, r), [Literal(Fact(m, r), false)], false)
    case Forward(_, source, passes) =>
      set p | p in passes :: Deriv(v, Fact(v, p.1), SourceBody(source, p.0), false)
    case Negate(source, negated, checks) =>
      set c | c in checks :: Deriv(v, Fact(v, c.output), SourceBody(source, c.input) + [Literal(Fact(negated, c.key), true)], false)
    case Join(joined, combinations) =>
      set c | c in combinations && |c.inputs| == |joined| :: Deriv(v, Fact(v, c.output), JoinBody(joined, c.inputs), false)
    case _ => {}
  }

  ghost function GraphFacts(nodes: seq<Node>, rows: set<Row>): set<Fact> {
    set v: nat, r | v < |nodes| && r in rows :: Fact(v, r)
  }

  /** The graph's ground program: deleted and unsatisfiable nodes have no rules. */
  ghost function GraphProgram(nodes: seq<Node>, rows: set<Row>, strata: seq<nat>): (g: GroundProgram)
    ensures g.strata == strata && g.facts == GraphFacts(nodes, rows)
    ensures forall d :: d in g.derivs <==> Live(nodes, d.head.view) && IsRule(nodes[d.head.view].op, d.head.view, rows, d)
  {
    assert forall d: Deriv :: d.head.view < |nodes| ==>
      (d in RulesOf(nodes[d.head.view].op, d.head.view, rows) <==> IsRule(nodes[d.head.view].op, d.head.view, rows, d));
    GroundProgram(GraphFacts(nodes, rows),
                  set v: nat, d | v < |nodes| && Live(nodes, v) && d in RulesOf(nodes[v].op, v, rows) :: d, strata, {})
  }

  ghost function InputRows(x: set<Fact>, source: Option<nat>): set<Row> {
    if source.Some? then set f | f in x && f.view == source.value :: f.row else {[]}
  }

  /** Support from outside the rules: received rows, and reductions of what the model holds. */
  ghost predicate Given(nodes: seq<Node>, received: set<Fact>, x: set<Fact>, f: Fact) {
    Live(nodes, f.view)
    && match nodes[f.view].op
       case Input => f in received
       case Reduce(_, _, reduce) => f.row in reduce(InputRows(x, ReduceSource(nodes[f.view].op)))
       case _ => false
  }

  ghost function External(nodes: seq<Node>, rows: set<Row>, received: set<Fact>, x: set<Fact>): set<Fact> {
    set f | f in GraphFacts(nodes, rows) && Given(nodes, received, x, f)
  }

  ghost predicate FlowModel(nodes: seq<Node>, rows: set<Row>, strata: seq<nat>, received: set<Fact>, x: set<Fact>) {
    IsModel(GraphProgram(nodes, rows, strata), External(nodes, rows, received, x), x)
  }

  ghost predicate SourceFits(n: nat, source: Option<nat>) {
    source.Some? ==> source.value < n
  }

  ghost predicate OpFits(n: nat, rows: set<Row>, op: Op) {
    match op
    case Input => true
    case Relation(inserts) => forall i :: i in inserts ==> i < n
    case Merge(merged) => forall m :: m in merged ==> m < n
    case Forward(_, source, passes) => SourceFits(n, source) && forall p :: p in passes ==> p.0 in rows && p.1 in rows
    case Negate(source, negated, checks) =>
      SourceFits(n, source) && negated < n && forall c :: c in checks ==> c.input in rows && c.key in rows && c.output in rows
    case Reduce(values, keys, reduce) => SourceFits(n, values) && SourceFits(n, keys) && reduce({}) == {}
    case Join(joined, combinations) =>
      (forall j :: j in joined ==> j < n)
      && forall c :: c in combinations ==> c.output in rows && |c.inputs| == |joined| && forall r :: r in c.inputs ==> r in rows
  }

  ghost predicate GraphFits(nodes: seq<Node>, rows: set<Row>) {
    forall v :: 0 <= v < |nodes| ==> OpFits(|nodes|, rows, nodes[v].op)
  }

  ghost predicate SourceBelow(strata: seq<nat>, source: Option<nat>, stratum: int) {
    source.Some? ==> source.value < |strata| && strata[source.value] <= stratum
  }

  /** Every node lies at or above what it reads, strictly above what it negates or reduces. */
  ghost predicate OpAbove(strata: seq<nat>, op: Op, stratum: nat) {
    match op
    case Input => true
    case Relation(inserts) => forall i :: i in inserts ==> SourceBelow(strata, Some(i), stratum)
    case Merge(merged) => forall m :: m in merged ==> SourceBelow(strata, Some(m), stratum)
    case Forward(_, source, _) => SourceBelow(strata, source, stratum)
    case Negate(source, negated, _) => SourceBelow(strata, source, stratum) && SourceBelow(strata, Some(negated), stratum - 1)
    case Reduce(_, _, _) => SourceBelow(strata, ReduceSource(op), stratum - 1)
    case Join(joined, _) => forall j :: j in joined ==> SourceBelow(strata, Some(j), stratum)
  }

  ghost predicate StrataFit(nodes: seq<Node>, strata: seq<nat>) {
    |strata| == |nodes| && forall v: nat :: Live(nodes, v) ==> OpAbove(strata, nodes[v].op, strata[v])
  }

  lemma GraphStratified(nodes: seq<Node>, rows: set<Row>, strata: seq<nat>)
    requires GraphFits(nodes, rows) && StrataFit(nodes, strata)
    ensures Stratified(GraphProgram(nodes, rows, strata))
    ensures forall received, x :: External(nodes, rows, received, x) <= GraphFacts(nodes, rows)
  {
    var g := GraphProgram(nodes, rows, strata);
    forall d | d in g.derivs ensures StratifiedDeriv(g, d) {
      RuleStratified(nodes, rows, strata, d);
    }
  }

  lemma RuleStratified(nodes: seq<Node>, rows: set<Row>, strata: seq<nat>, d: Deriv)
    requires GraphFits(nodes, rows) && StrataFit(nodes, strata) && d in GraphProgram(nodes, rows, strata).derivs
    ensures StratifiedDeriv(GraphProgram(nodes, rows, strata), d)
  {
    var v := d.head.view;
    assert OpFits(|nodes|, rows, nodes[v].op) && OpAbove(strata, nodes[v].op, strata[v]);
    if nodes[v].op.Join? {
      JoinStratified(nodes, rows, strata, d);
    }
  }

  lemma JoinStratified(nodes: seq<Node>, rows: set<Row>, strata: seq<nat>, d: Deriv)
    requires GraphFits(nodes, rows) && StrataFit(nodes, strata) && d in GraphProgram(nodes, rows, strata).derivs
    requires nodes[d.head.view].op.Join?
    ensures StratifiedDeriv(GraphProgram(nodes, rows, strata), d)
  {
    var v, op := d.head.view, nodes[d.head.view].op;
    assert OpFits(|nodes|, rows, op) && OpAbove(strata, op, strata[v]);
    var c :| c in op.combinations && |c.inputs| == |op.joined| && d.head.row == c.output && d.body == JoinBody(op.joined, c.inputs);
    forall i | 0 <= i < |op.joined| ensures SourceBelow(strata, Some(op.joined[i]), strata[v]) && c.inputs[i] in rows {
      assert op.joined[i] in op.joined && c.inputs[i] in c.inputs;
    }
  }

  /** Deleted and unsatisfiable nodes are empty. */
  lemma OnlyLive(nodes: seq<Node>, rows: set<Row>, strata: seq<nat>, received: set<Fact>, x: set<Fact>)
    requires GraphFits(nodes, rows) && StrataFit(nodes, strata) && FlowModel(nodes, rows, strata, received, x)
    ensures forall f :: f in x ==> Live(nodes, f.view)
  {
    GraphStratified(nodes, rows, strata);
    ModelFacts(GraphProgram(nodes, rows, strata), External(nodes, rows, received, x), x);
  }

  lemma ModelOf(nodes: seq<Node>, rows: set<Row>, strata: seq<nat>, received: set<Fact>, x: set<Fact>)
    requires FlowModel(nodes, rows, strata, received, x)
    ensures
      var g, ext := GraphProgram(nodes, rows, strata), External(nodes, rows, received, x);
      IsModel(g, ext, x) && ext <= g.facts && x <= g.facts
  {
  }

  lemma RuleOf(nodes: seq<Node>, rows: set<Row>, strata: seq<nat>, d: Deriv)
    requires d in GraphProgram(nodes, rows, strata).derivs
    ensures Live(nodes, d.head.view) && IsRule(nodes[d.head.view].op, d.head.view, rows, d)
  {
  }

  /** The rule instance cannot fire within `x`: its head is not there, or a row it needs is not. */
  ghost predicate Idle(d: Deriv, x: set<Fact>) {
    d.head !in x || exists p :: 0 <= p < |d.body| && !d.body[p].negated && d.body[p].fact !in x
  }

  lemma IdleInactive(d: Deriv, s: set<Fact>, x: set<Fact>)
    requires Idle(d, x) && s <= x
    ensures d.head in x ==> !Active(d, s)
  {
    if p :| 0 <= p < |d.body| && !d.body[p].negated && d.body[p].fact !in x {
      assert !Holds(d.body[p], s);
    }
  }

  /** Rules that cannot fire in the model may be dropped. */
  lemma FewerRules(g: GroundProgram, h: GroundProgram, ext: set<Fact>, x: set<Fact>)
    requires Stratified(g) && ext <= g.facts && IsModel(g, ext, x)
    requires h.facts == g.facts && h.strata == g.strata && h.derivs <= g.derivs
    requires forall d :: d in g.derivs && d !in h.derivs ==> Idle(d, x)
    ensures IsModel(h, ext, x)
  {
    assert Stratified(h);
    forall n: nat ensures At(h, x, n) == Least(h, n, Below(h, x, n), ext) {
      FewerRulesAt(g, h, ext, x, n);
    }
  }

  lemma FewerRulesAt(g: GroundProgram, h: GroundProgram, ext: set<Fact>, x: set<Fact>, n: nat)
    requires Stratified(g) && Stratified(h) && ext <= g.facts && IsModel(g, ext, x)
    requires h.facts == g.facts && h.strata == g.strata && h.derivs <= g.derivs
    requires forall d :: d in g.derivs && d !in h.derivs ==> Idle(d, x)
    ensures At(h, x, n) == Least(h, n, Below(h, x, n), ext)
  {
    var lower, a := Below(g, x, n), At(g, x, n);
    assert lower == Below(h, x, n) && a == At(h, x, n) && At(g, g.facts, n) == At(h, h.facts, n) && At(g, ext, n) == At(h, ext, n);
    LeastIsClosed(g, n, lower, ext);
    assert Closed(h, n, lower, ext, a);
    LeastIsLeast(h, n, lower, ext, a);
    var m := Least(h, n, lower, ext);
    LeastIsClosed(h, n, lower, ext);
    forall d | d in g.derivs && Stratum(g, d.head) == n && Active(d, lower + m) ensures d.head in m {
      if d in h.derivs {
        assert Stratum(h, d.head) == n;
      } else {
        ActiveMonotone(g, d, n, lower, m, a);
        IdleInactive(d, lower + m, x);
        assert false;
      }
    }
    LeastIsLeast(g, n, lower, ext, m);
  }

  lemma LiveFits(nodes: seq<Node>, v: nat)
    requires Live(nodes, v)
    ensures v < |nodes|
  {
  }

  lemma {:induction false} FlowModelBelow(
    nodes: seq<Node>, rows: set<Row>, strata: seq<nat>, received: set<Fact>, x: set<Fact>, y: set<Fact>, n: nat)
    requires GraphFits(nodes, rows) && StrataFit(nodes, strata)
    requires FlowModel(nodes, rows, strata, received, x) && FlowModel(nodes, rows, strata, received, y)
    ensures Below(GraphProgram(nodes, rows, strata), x, n) == Below(GraphProgram(nodes, rows, strata), y, n)
  {
    if n > 0 {
      var g, k := GraphProgram(nodes, rows, strata), n - 1;
      FlowModelBelow(nodes, rows, strata, received, x, y, k);
      SameGiven(nodes, rows, strata, received, x, y, k);
      LeastLocal(g, k, Below(g, x, k), External(nodes, rows, received, x), External(nodes, rows, received, y));
      assert At(g, x, k) == At(g, y, k);
      assert Below(g, x, n) == Below(g, x, k) + At(g, x, k) && Below(g, y, n) == Below(g, y, k) + At(g, y, k);
    }
  }

  lemma SameGiven(nodes: seq<Node>, rows: set<Row>, strata: seq<nat>, received: set<Fact>, x: set<Fact>, y: set<Fact>, n: nat)
    requires GraphFits(nodes, rows) && StrataFit(nodes, strata)
    requires Below(GraphProgram(nodes, rows, strata), x, n) == Below(GraphProgram(nodes, rows, strata), y, n)
    ensures At(GraphProgram(nodes, rows, strata), External(nodes, rows, received, x), n)
         == At(GraphProgram(nodes, rows, strata), External(nodes, rows, received, y), n)
  {
    var g := GraphProgram(nodes, rows, strata);
    forall f | f in GraphFacts(nodes, rows) && Stratum(g, f) == n
      ensures Given(nodes, received, x, f) == Given(nodes, received, y, f)
    {
      if Live(nodes, f.view) && nodes[f.view].op.Reduce? {
        var source := ReduceSource(nodes[f.view].op);
        assert OpAbove(strata, nodes[f.view].op, strata[f.view]);
        forall e: Fact | source == Some(e.view) ensures e in x <==> e in y {
          assert e in Below(g, x, n) <==> e in Below(g, y, n);
        }
        assert InputRows(x, source) == InputRows(y, source);
      }
    }
  }

  /** A graph has one model for what it receives. */
  lemma FlowModelUnique(nodes: seq<Node>, rows: set<Row>, strata: seq<nat>, received: set<Fact>, x: set<Fact>, y: set<Fact>)
    requires GraphFits(nodes, rows) && StrataFit(nodes, strata)
    requires FlowModel(nodes, rows, strata, received, x) && FlowModel(nodes, rows, strata, received, y)
    ensures x == y
  {
    var g := GraphProgram(nodes, rows, strata);
    forall f | f in x + y ensures f in x && f in y {
      var n := Stratum(g, f) + 1;
      FlowModelBelow(nodes, rows, strata, received, x, y, n);
      assert (f in x <==> f in Below(g, x, n)) && (f in y <==> f in Below(g, y, n));
    }
  }

  // ------------------------------------------------------------------
  // Every stratified graph has a meaning.

  ghost function Ceiling(strata: seq<nat>): (n: nat)
    ensures forall i :: 0 <= i < |strata| ==> strata[i] < n
  {
    if strata == [] then 0
    else
      var last := strata[|strata| - 1] + 1;
      if Ceiling(strata[..|strata| - 1]) > last then Ceiling(strata[..|strata| - 1]) else last
  }

  /** The strata below `n` are those of a model. */
  ghost predicate ModelTo(nodes: seq<Node>, rows: set<Row>, strata: seq<nat>, received: set<Fact>, x: set<Fact>, n: nat) {
    var g := GraphProgram(nodes, rows, strata);
    && x <= g.facts && (forall f :: f in x ==> Stratum(g, f) < n)
    && forall k: nat :: k < n ==> At(g, x, k) == Least(g, k, Below(g, x, k), External(nodes, rows, received, x))
  }

  lemma ModelMore(nodes: seq<Node>, rows: set<Row>, strata: seq<nat>, received: set<Fact>, x0: set<Fact>, n: nat, x: set<Fact>)
    requires GraphFits(nodes, rows) && StrataFit(nodes, strata) && ModelTo(nodes, rows, strata, received, x0, n)
    requires x == x0 + Least(GraphProgram(nodes, rows, strata), n, x0, External(nodes, rows, received, x0))
    ensures ModelTo(nodes, rows, strata, received, x, n + 1)
  {
    var g := GraphProgram(nodes, rows, strata);
    forall k: nat | k < n + 1 ensures At(g, x, k) == Least(g, k, Below(g, x, k), External(nodes, rows, received, x)) {
      assert Below(g, x, k) == Below(g, x0, k);
      SameGiven(nodes, rows, strata, received, x, x0, k);
      LeastLocal(g, k, Below(g, x, k), External(nodes, rows, received, x), External(nodes, rows, received, x0));
      if k < n {
        assert At(g, x, k) == At(g, x0, k);
      } else {
        assert Below(g, x, n) == x0 && At(g, x, n) == Least(g, n, x0, External(nodes, rows, received, x0));
      }
    }
  }

  lemma ModelNone(nodes: seq<Node>, rows: set<Row>, strata: seq<nat>, received: set<Fact>)
    ensures ModelTo(nodes, rows, strata, received, {}, 0)
  {
  }

  lemma {:induction false} ModelUpTo(nodes: seq<Node>, rows: set<Row>, strata: seq<nat>, received: set<Fact>, n: nat)
    returns (x: set<Fact>)
    requires GraphFits(nodes, rows) && StrataFit(nodes, strata)
    ensures ModelTo(nodes, rows, strata, received, x, n)
  {
    hide ModelTo, Least, GraphFits, StrataFit, GraphProgram, External;
    if n == 0 {
      x := {};
      ModelNone(nodes, rows, strata, received);
    } else {
      var x0 := ModelUpTo(nodes, rows, strata, received, n - 1);
      x := x0 + Least(GraphProgram(nodes, rows, strata), n - 1, x0, External(nodes, rows, received, x0));
      ModelMore(nodes, rows, strata, received, x0, n - 1, x);
    }
  }

  /** A stratified graph, aggregates included, has a model for everything it may receive. */
  lemma FlowModelExists(nodes: seq<Node>, rows: set<Row>, strata: seq<nat>, received: set<Fact>) returns (x: set<Fact>)
    requires GraphFits(nodes, rows) && StrataFit(nodes, strata)
    ensures FlowModel(nodes, rows, strata, received, x)
  {
    hide Least, GraphFits, External;
    var n := Ceiling(strata);
    x := ModelUpTo(nodes, rows, strata, received, n);
    var g := GraphProgram(nodes, rows, strata);
    assert AllBelow(g, n);
    forall k: nat ensures At(g, x, k) == Least(g, k, Below(g, x, k), External(nodes, rows, received, x)) {
      if k >= n {
        LeastAbove(g, n, k, x, External(nodes, rows, received, x));
      }
    }
  }
}
