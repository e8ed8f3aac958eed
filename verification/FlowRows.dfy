/** The rows each node of a dataflow graph holds in the graph's model, kind by kind. */
module FlowRows {
  import opened FlowGraph
  import opened Ground
  import opened Model
  import opened Wrappers

  /** A missing source supplies the one row of constants. */
  ghost predicate Supplied(x: set<Fact>, source: Option<nat>, row: Row) {
    source.Some? ==> Fact(source.value, row) in x
  }

  ghost predicate Combined(x: set<Fact>, joined: seq<nat>, inputs: seq<Row>) {
    |inputs| == |joined| && forall i :: 0 <= i < |joined| ==> Fact(joined[i], inputs[i]) in x
  }

  ghost function RowsOf(x: set<Fact>, v: nat): set<Row> {
    set f | f in x && f.view == v :: f.row
  }

  /** What a node's operation makes of the rows of the views it reads. */
  ghost predicate Makes(op: Op, received: set<Fact>, x: set<Fact>, f: Fact) {
    match op
    case Input => f in received
    case Relation(inserts) => exists i :: i in inserts && Fact(i, f.row) in x
    case Merge(merged) => exists m :: m in merged && Fact(m, f.row) in x
    case Forward(_, source, passes) => exists p :: p in passes && p.1 == f.row && Supplied(x, source, p.0)
    case Negate(source, negated, checks) =>
      exists c :: c in checks && c.output == f.row && Supplied(x, source, c.input) && Fact(negated, c.key) !in x
    case Reduce(Some(values), _, reduce) => f.row in reduce(RowsOf(x, values))
    case Reduce(None, Some(keys), reduce) => f.row in reduce(RowsOf(x, keys))
    case Reduce(None, None, reduce) => f.row in reduce({[]})
    case Join(joined, combinations) => exists c :: c in combinations && c.output == f.row && Combined(x, joined, c.inputs)
  }

  lemma SourceHolds(source: Option<nat>, row: Row, x: set<Fact>)
    ensures (forall i :: 0 <= i < |SourceBody(source, row)| ==> Holds(SourceBody(source, row)[i], x)) <==> Supplied(x, source, row)
  {
    if source.Some? {
      assert SourceBody(source, row)[0] == Literal(Fact(source.value, row), false);
    }
  }

  lemma JoinHolds(joined: seq<nat>, inputs: seq<Row>, x: set<Fact>)
    requires |joined| == |inputs|
    ensures (forall i :: 0 <= i < |joined| ==> Holds(JoinBody(joined, inputs)[i], x)) <==> Combined(x, joined, inputs)
  {
    assert forall i :: 0 <= i < |joined| ==> JoinBody(joined, inputs)[i] == Literal(Fact(joined[i], inputs[i]), false);
  }

  lemma NegateActive(source: Option<nat>, negated: nat, c: Check, d: Deriv, x: set<Fact>)
    requires d.body == SourceBody(source, c.input) + [Literal(Fact(negated, c.key), true)]
    ensures Active(d, x) <==> Supplied(x, source, c.input) && Fact(negated, c.key) !in x
  {
    SourceHolds(source, c.input, x);
    assert d.body[|d.body| - 1] == Literal(Fact(negated, c.key), true);
    assert forall i :: 0 <= i < |d.body| - 1 ==> d.body[i] == SourceBody(source, c.input)[i];
  }

  lemma RuleMakes(op: Op, v: nat, rows: set<Row>, received: set<Fact>, x: set<Fact>, d: Deriv)
    requires IsRule(op, v, rows, d) && Active(d, x)
    ensures Makes(op, received, x, d.head)
  {
    match op
    case Relation(_) => assert Holds(d.body[0], x);
    case Merge(_) => assert Holds(d.body[0], x);
    case Forward(_, source, passes) =>
      var p :| p in passes && d.head.row == p.1 && d.body == SourceBody(source, p.0);
      SourceHolds(source, p.0, x);
    case Negate(source, negated, checks) =>
      var c :| c in checks && d.head.row == c.output && d.body == SourceBody(source, c.input) + [Literal(Fact(negated, c.key), true)];
      NegateActive(source, negated, c, d, x);
    case Join(joined, combinations) =>
      var c :| c in combinations && |c.inputs| == |joined| && d.head.row == c.output && d.body == JoinBody(joined, c.inputs);
      JoinHolds(joined, c.inputs, x);
    case _ =>
  }

  lemma MakesRule(op: Op, rows: set<Row>, received: set<Fact>, x: set<Fact>, f: Fact) returns (d: Deriv)
    requires !op.Input? && !op.Reduce? && f.row in rows && Makes(op, received, x, f)
    ensures d.head == f && IsRule(op, f.view, rows, d) && Active(d, x)
  {
    match op
    case Relation(inserts) =>
      var i :| i in inserts && Fact(i, f.row) in x;
      d := Deriv(f.view, f, [Literal(Fact(i, f.row), false)], false);
    case Merge(merged) =>
      var m :| m in merged && Fact(m, f.row) in x;
      d := Deriv(f.view, f, [Literal(Fact(m, f.row), false)], false);
    case Forward(_, source, passes) =>
      var p :| p in passes && p.1 == f.row && Supplied(x, source, p.0);
      d := Deriv(f.view, f, SourceBody(source, p.0), false);
      SourceHolds(source, p.0, x);
    case Negate(source, negated, checks) =>
      var c :| c in checks && c.output == f.row && Supplied(x, source, c.input) && Fact(negated, c.key) !in x;
      d := Deriv(f.view, f, SourceBody(source, c.input) + [Literal(Fact(negated, c.key), true)], false);
      NegateActive(source, negated, c, d, x);
    case Join(joined, combinations) =>
      var c :| c in combinations && c.output == f.row && Combined(x, joined, c.inputs);
      d := Deriv(f.view, f, JoinBody(joined, c.inputs), false);
      JoinHolds(joined, c.inputs, x);
  }

  lemma GivenMakes(nodes: seq<Node>, received: set<Fact>, x: set<Fact>, f: Fact)
    requires f.view < |nodes| && (nodes[f.view].op.Input? || nodes[f.view].op.Reduce?)
    ensures Given(nodes, received, x, f) <==> Live(nodes, f.view) && Makes(nodes[f.view].op, received, x, f)
  {
    match nodes[f.view].op
    case Reduce(Some(values), _, _) => assert InputRows(x, Some(values)) == RowsOf(x, values);
    case Reduce(None, Some(keys), _) => assert InputRows(x, Some(keys)) == RowsOf(x, keys);
    case _ =>
  }

  /** In the graph's model every node holds exactly the rows that its operation makes of the rows of the
      views it reads, and a deleted or unsatisfiable node holds none. */
  lemma NodeRows(nodes: seq<Node>, rows: set<Row>, strata: seq<nat>, received: set<Fact>, x: set<Fact>, v: nat, row: Row)
    requires GraphFits(nodes, rows) && StrataFit(nodes, strata) && FlowModel(nodes, rows, strata, received, x)
    requires v < |nodes| && row in rows
    ensures Fact(v, row) in x <==> !nodes[v].dead && !nodes[v].unsat && Makes(nodes[v].op, received, x, Fact(v, row))
  {
    hide IsModel, Makes, IsRule, GraphFits, StrataFit, Stratified, Active, Given;
    var g, ext, f := GraphProgram(nodes, rows, strata), External(nodes, rows, received, x), Fact(v, row);
    GraphStratified(nodes, rows, strata);
    OnlyLive(nodes, rows, strata, received, x);
    ModelFacts(g, ext, x);
    GivenKinds(nodes, received, x, f);
    if nodes[v].op.Input? || nodes[v].op.Reduce? {
      GivenMakes(nodes, received, x, f);
    }
    if f in x && f !in ext {
      var d :| d in g.derivs && d.head == f && Active(d, x);
      RuleMakes(nodes[v].op, v, rows, received, x, d);
    }
    if Live(nodes, v) && Makes(nodes[v].op, received, x, f) && !nodes[v].op.Input? && !nodes[v].op.Reduce? {
      var d := MakesRule(nodes[v].op, rows, received, x, f);
    }
  }

  lemma GivenKinds(nodes: seq<Node>, received: set<Fact>, x: set<Fact>, f: Fact)
    ensures Given(nodes, received, x, f) ==> Live(nodes, f.view) && f.view < |nodes| && (nodes[f.view].op.Input? || nodes[f.view].op.Reduce?)
  {
  }
}
