/** Rule records as rule construction leaves them, their instances, and the ground program
    they denote. */
module Rules {
  import opened Wrappers
  import opened Ground
  import opened Model

  datatype Slot = Const(value: Value) | Column(atom: nat, col: nat) | MapResult

  datatype BodyAtom = BodyAtom(view: nat, negated: bool)

  datatype Comparison = Equal | NotEqual | LessThan | GreaterThan

  datatype Filter = Filter(op: Comparison, lhs: Slot, rhs: Slot, sgn: bool)

  datatype MapFn = NoMap | DivI32 | AddI32

  /** `pos2atom` maps schema positions to atoms; `classesOf[atom][col]` lists the equality
      classes a column takes part in; `classConst` the constants classes are pinned to. */
  datatype Rule = Rule(
    head: nat, atoms: seq<BodyAtom>, pos2atom: seq<nat>,
    classConst: seq<Option<Value>>, classesOf: seq<seq<seq<nat>>>,
    headTmpl: seq<Slot>, filters: seq<Filter>, negKey: seq<Slot>,
    mapFn: MapFn, mapArgs: seq<Slot>, recursive: bool)

  datatype View = View(stratum: nat, arity: nat, receive: bool)

  datatype AggKind = SumAgg | CountAgg | SumAboveAgg | MaxAboveAgg

  /** An aggregate view: group key slots (configuration columns last), then one summary. */
  datatype Aggregate = Aggregate(
    head: nat, input: nat, kind: AggKind, keySlots: seq<Slot>, numConfig: nat, valSlot: Slot)

  datatype Program = Program(
    views: seq<View>, rules: seq<Rule>, aggs: seq<Aggregate>, numStrata: nat, receives: seq<seq<nat>>)

  // ------------------------------------------------------------------
  // Values.

  const TWO31: int := 0x8000_0000
  const TWO32: int := 0x1_0000_0000
  const TWO63: int := 0x8000_0000_0000_0000
  const TWO64: int := 0x1_0000_0000_0000_0000

  /** The signed reading of a 64-bit value. */
  function Signed(v: Value): (r: int)
    ensures -TWO63 <= r < TWO63 && r % TWO64 == v
  {
    if v < TWO63 then v else v - TWO64
  }

  /** The conversion back, modulo 2^64. */
  function Unsigned(x: int): (r: Value)
    ensures -TWO63 <= x < TWO63 ==> Signed(r) == x
  {
    x % TWO64
  }

  /** Truncation to a signed 32-bit integer. */
  function Int32(x: int): (r: int)
    ensures -TWO31 <= r < TWO31 && r % TWO32 == x % TWO32
    ensures -TWO31 <= x < TWO31 ==> r == x
  {
    var m := x % TWO32;
    if m < TWO31 then m else m - TWO32
  }

  /** Integer division truncating toward zero. */
  function TruncDiv(a: int, b: int): (q: int)
    requires b != 0
    ensures (a < 0) == (b < 0) ==> 0 <= q
    ensures (a < 0) != (b < 0) ==> q <= 0
  {
    if a >= 0 then (if b > 0 then a / b else -(a / -b))
    else if b > 0 then -((-a) / b) else (-a) / (-b)
  }

  function ApplyMapFn(fn: MapFn, args: seq<Value>): (r: Option<Value>)
    ensures fn == DivI32 && |args| == 2 ==> (r.None? <==> Int32(Signed(args[1])) == 0)
  {
    if fn.NoMap? || |args| != 2 then None
    else
      var lhs := Int32(Signed(args[0]));
      var rhs := Int32(Signed(args[1]));
      match fn
      case DivI32 => if rhs == 0 then None else Some(Unsigned(Int32(TruncDiv(lhs, rhs))))
      case AddI32 => Some(Unsigned(Int32(lhs + rhs)))
  }

  /** The remainder of a truncating division has the dividend's sign and is smaller than the divisor. */
  ghost predicate Truncates(a: int, b: int, q: int) {
    var rem := a - q * b;
    (if a >= 0 then 0 <= rem else rem <= 0) && (if b > 0 then -b < rem < b else b < rem < -b)
  }

  function Magnitude(x: int): nat {
    if x < 0 then -x else x
  }

  lemma Quotient(m: nat, n: nat) returns (k: nat, r: nat)
    requires n > 0
    ensures k == m / n && m == k * n + r && r < n
  {
    k, r := m / n, m % n;
  }

  lemma {:induction false} ProductGrows(k: nat, n: nat)
    requires n > 0
    ensures k <= k * n && (n > 1 ==> 2 * k <= k * n)
  {
    if n > 1 {
      ProductGrows(k, n - 1);
      assert k * n == k * (n - 1) + k;
    }
  }

  lemma SignsTruncate(a: int, b: int, k: int, r: int)
    requires Magnitude(a) == k * Magnitude(b) + r && 0 <= r < Magnitude(b)
    ensures Truncates(a, b, if (a < 0) == (b < 0) then k else -k)
  {
    var n: int := Magnitude(b);
    assert (-k) * n == -(k * n) && k * (-n) == -(k * n) && (-k) * (-n) == k * n;
  }

  lemma TruncDivTruncates(a: int, b: int)
    requires b != 0
    ensures Truncates(a, b, TruncDiv(a, b))
    ensures -TWO31 <= a < TWO31 && !(a == -TWO31 && b == -1) ==> -TWO31 <= TruncDiv(a, b) < TWO31
  {
    var k, r := Quotient(Magnitude(a), Magnitude(b));
    SignsTruncate(a, b, k, r);
    ProductGrows(k, Magnitude(b));
    var q: int := k;
    assert TruncDiv(a, b) == if (a < 0) == (b < 0) then q else -q;
  }

  /** A division that yields a value yields the 32-bit quotient truncated toward zero. */
  lemma MapDivides(args: seq<Value>)
    requires |args| == 2 && Int32(Signed(args[1])) != 0
    requires !(Int32(Signed(args[0])) == -TWO31 && Int32(Signed(args[1])) == -1)
    ensures ApplyMapFn(DivI32, args).Some?
    ensures Truncates(Int32(Signed(args[0])), Int32(Signed(args[1])), Signed(ApplyMapFn(DivI32, args).value))
  {
    TruncDivTruncates(Int32(Signed(args[0])), Int32(Signed(args[1])));
  }

  /** An addition yields the sum of the arguments, wrapped to 32 bits. */
  lemma MapAdds(args: seq<Value>)
    requires |args| == 2
    ensures ApplyMapFn(AddI32, args).Some?
    ensures
      var sum := Signed(ApplyMapFn(AddI32, args).value);
      -TWO31 <= sum < TWO31 && (sum - Signed(args[0]) - Signed(args[1])) % TWO32 == 0
  {
    var x, y := Signed(args[0]), Signed(args[1]);
    var sum := Int32(Int32(x) + Int32(y));
    Congruent(Int32(x), x);
    Congruent(Int32(y), y);
    Congruent(sum, Int32(x) + Int32(y));
  }

  lemma Congruent(a: int, b: int)
    requires a % TWO32 == b % TWO32
    ensures (a - b) % TWO32 == 0
  {
    assert a == (a / TWO32) * TWO32 + a % TWO32 && b == (b / TWO32) * TWO32 + b % TWO32;
  }

  predicate EvalFilter(f: Filter, l: Value, r: Value) {
    match f.op
    case Equal => l == r
    case NotEqual => l != r
    case LessThan => if f.sgn then Signed(l) < Signed(r) else l < r
    case GreaterThan => if f.sgn then Signed(l) > Signed(r) else l > r
  }

  // ------------------------------------------------------------------
  // Instances.  An assignment gives one row to every body atom.

  type Assignment = seq<Row>

  function SlotValue(s: Slot, rows: Assignment, mapped: Value): Value {
    match s
    case Const(v) => v
    case MapResult => mapped
    case Column(a, c) => if a < |rows| && c < |rows[a]| then rows[a][c] else 0
  }

  function SlotValues(ss: seq<Slot>, rows: Assignment, mapped: Value): (r: Row)
    ensures |r| == |ss|
    ensures forall i :: 0 <= i < |ss| ==> r[i] == SlotValue(ss[i], rows, mapped)
  {
    seq(|ss|, i requires 0 <= i < |ss| => SlotValue(ss[i], rows, mapped))
  }

  function NegKey(r: Rule, rows: Assignment): Row {
    SlotValues(r.negKey, rows, 0)
  }

  predicate PassesFilters(r: Rule, rows: Assignment) {
    forall i :: 0 <= i < |r.filters| ==>
      EvalFilter(r.filters[i], SlotValue(r.filters[i].lhs, rows, 0), SlotValue(r.filters[i].rhs, rows, 0))
  }

  function MapValue(r: Rule, rows: Assignment): Option<Value> {
    if r.mapFn.NoMap? then Some(0) else ApplyMapFn(r.mapFn, SlotValues(r.mapArgs, rows, 0))
  }

  function HeadRow(r: Rule, rows: Assignment): Row {
    SlotValues(r.headTmpl, rows, if MapValue(r, rows).Some? then MapValue(r, rows).value else 0)
  }

  /** Column `c` of atom `a` belongs to equality class `k`. */
  predicate InClass(r: Rule, a: nat, c: nat, k: nat) {
    a < |r.classesOf| && c < |r.classesOf[a]| && k in r.classesOf[a][c]
  }

  function Cell(rows: Assignment, a: nat, c: nat): Value {
    if a < |rows| && c < |rows[a]| then rows[a][c] else 0
  }

  /** Columns of one class hold one value, the class's constant if it has one. */
  ghost predicate ClassesAgree(r: Rule, rows: Assignment) {
    && (forall a: nat, c: nat, k: nat, a': nat, c': nat ::
          InClass(r, a, c, k) && InClass(r, a', c', k) ==> Cell(rows, a, c) == Cell(rows, a', c'))
    && (forall a: nat, c: nat, k: nat ::
          InClass(r, a, c, k) && k < |r.classConst| && r.classConst[k].Some? ==> Cell(rows, a, c) == r.classConst[k].value)
  }

  ghost predicate RowsFit(p: Program, r: Rule, rows: Assignment) {
    && |rows| == |r.atoms|
    && forall a :: 0 <= a < |r.atoms| ==> r.atoms[a].view < |p.views| && |rows[a]| == p.views[r.atoms[a].view].arity
  }

  /** `rows` is an instance of the rule, whatever the rows of the body views are:
      the row of a negated atom is the key it tests. */
  ghost predicate Matches(p: Program, r: Rule, rows: Assignment) {
    && RowsFit(p, r, rows)
    && ClassesAgree(r, rows)
    && PassesFilters(r, rows)
    && MapValue(r, rows).Some?
    && (forall a :: 0 <= a < |r.atoms| && r.atoms[a].negated ==> rows[a] == NegKey(r, rows))
  }

  // ------------------------------------------------------------------
  // Well-formed programs: what rule construction produces or fails on.

  predicate SlotFits(p: Program, r: Rule, s: Slot) {
    s.Column? ==> s.atom < |r.atoms| && !r.atoms[s.atom].negated
                  && r.atoms[s.atom].view < |p.views| && s.col < p.views[r.atoms[s.atom].view].arity
  }

  predicate PlainSlots(p: Program, r: Rule, ss: seq<Slot>) {
    forall i :: 0 <= i < |ss| ==> SlotFits(p, r, ss[i]) && !ss[i].MapResult?
  }

  function AtomStratum(p: Program, r: Rule, a: nat): nat
    requires a < |r.atoms| && r.atoms[a].view < |p.views|
  {
    p.views[r.atoms[a].view].stratum
  }

  ghost predicate GoodAtoms(p: Program, r: Rule) {
    && r.head < |p.views|
    && (forall a :: 0 <= a < |r.atoms| ==>
          && r.atoms[a].view < |p.views| && r.atoms[a].view != r.head
          && AtomStratum(p, r, a) <= p.views[r.head].stratum
          && (AtomStratum(p, r, a) == p.views[r.head].stratum ==> !r.atoms[a].negated && r.recursive)
          && (r.atoms[a].negated ==> p.views[r.atoms[a].view].arity == |r.negKey|))
    && (r.atoms != [] ==> exists a :: 0 <= a < |r.atoms| && !r.atoms[a].negated)
  }

  /** Schema positions are a permutation of the atoms, lower strata first. */
  ghost predicate GoodPositions(p: Program, r: Rule)
    requires GoodAtoms(p, r)
  {
    && |r.pos2atom| == |r.atoms|
    && (forall i :: 0 <= i < |r.pos2atom| ==> r.pos2atom[i] < |r.atoms|)
    && (forall i, j :: 0 <= i < j < |r.pos2atom| ==> r.pos2atom[i] != r.pos2atom[j])
    && (forall a :: 0 <= a < |r.atoms| ==> a in r.pos2atom)
    && (forall i, j :: 0 <= i < j < |r.pos2atom| && AtomStratum(p, r, r.pos2atom[i]) == p.views[r.head].stratum
          ==> AtomStratum(p, r, r.pos2atom[j]) == p.views[r.head].stratum)
  }

  ghost predicate GoodSlots(p: Program, r: Rule)
    requires GoodAtoms(p, r)
  {
    && |r.headTmpl| == p.views[r.head].arity
    && (forall i :: 0 <= i < |r.headTmpl| ==> SlotFits(p, r, r.headTmpl[i]))
    && PlainSlots(p, r, r.negKey) && PlainSlots(p, r, r.mapArgs)
    && (forall i :: 0 <= i < |r.filters| ==>
          && SlotFits(p, r, r.filters[i].lhs) && !r.filters[i].lhs.MapResult?
          && SlotFits(p, r, r.filters[i].rhs) && !r.filters[i].rhs.MapResult?)
    && |r.classesOf| == |r.atoms|
    && (forall a :: 0 <= a < |r.atoms| ==> |r.classesOf[a]| == p.views[r.atoms[a].view].arity)
    && (forall a: nat, c: nat, k: nat :: InClass(r, a, c, k) ==> k < |r.classConst| && !r.atoms[a].negated)
  }

  ghost predicate GoodRule(p: Program, r: Rule) {
    GoodAtoms(p, r) && GoodPositions(p, r) && GoodSlots(p, r)
  }

  /** A rule with a lower-stratum atom and at least one more atom. */
  predicate Wide(p: Program, r: Rule) {
    r.recursive && |r.atoms| >= 2 && r.head < |p.views| &&
    exists a :: 0 <= a < |r.atoms| && r.atoms[a].view < |p.views| && AtomStratum(p, r, a) < p.views[r.head].stratum
  }

  predicate External(p: Program, v: nat) {
    (v < |p.views| && p.views[v].receive) || exists i :: 0 <= i < |p.aggs| && p.aggs[i].head == v
  }

  /** A recursive rule that can be counted negatively in mid-batch is the business of
      recursive-only heads.  The shapes that rule construction produces satisfy this,
      see `ShapesAreUnmixed`. */
  ghost predicate UnmixedHeads(p: Program) {
    forall i, j :: 0 <= i < |p.rules| && 0 <= j < |p.rules| && Wide(p, p.rules[i]) && p.rules[j].head == p.rules[i].head
      ==> p.rules[j].recursive && !External(p, p.rules[i].head)
  }

  ghost predicate GoodAggregate(p: Program, a: Aggregate) {
    && a.head < |p.views| && a.input < |p.views|
    && p.views[a.input].stratum < p.views[a.head].stratum
    && p.views[a.head].arity == |a.keySlots| + 1
    && !p.views[a.head].receive
    && (forall i :: 0 <= i < |a.keySlots| ==> GoodInputSlot(p, a, a.keySlots[i]))
    && GoodInputSlot(p, a, a.valSlot)
    && (a.kind.SumAboveAgg? || a.kind.MaxAboveAgg? ==> a.numConfig == 1 && |a.keySlots| >= 1)
    && (forall j :: 0 <= j < |p.rules| ==> p.rules[j].head != a.head)
  }

  predicate GoodInputSlot(p: Program, a: Aggregate, s: Slot)
    requires a.input < |p.views|
  {
    !s.MapResult? && (s.Column? ==> s.atom == 0 && s.col < p.views[a.input].arity)
  }

  ghost predicate GoodProgram(p: Program) {
    && (forall v :: 0 <= v < |p.views| ==> p.views[v].stratum < p.numStrata)
    && (forall i :: 0 <= i < |p.rules| ==> GoodRule(p, p.rules[i]))
    && (forall i :: 0 <= i < |p.aggs| ==> GoodAggregate(p, p.aggs[i]))
    && (forall i, j :: 0 <= i < j < |p.aggs| ==> p.aggs[i].head != p.aggs[j].head)
    && UnmixedHeads(p)
    && GoodReceives(p)
  }

  /** Every receive view belongs to one message, and the views of a message share its arity. */
  ghost predicate GoodReceives(p: Program) {
    && (forall m, i :: 0 <= m < |p.receives| && 0 <= i < |p.receives[m]| ==>
          p.receives[m][i] < |p.views| && p.views[p.receives[m][i]].receive)
    && (forall m, i, m', i' ::
          (0 <= m < |p.receives| && 0 <= i < |p.receives[m]| && 0 <= m' < |p.receives| && 0 <= i' < |p.receives[m']|
           && p.receives[m][i] == p.receives[m'][i']) ==> m == m' && i == i')
  }

  /** Rule construction's shapes: a head whose rule has more than one atom (JOIN, NEGATE) has
      that single rule and no support from outside. */
  ghost predicate ConstructedShapes(p: Program) {
    && (forall i, j :: (0 <= i < |p.rules| && 0 <= j < |p.rules| && |p.rules[i].atoms| >= 2
                        && p.rules[i].head == p.rules[j].head) ==> i == j)
    && (forall i :: 0 <= i < |p.rules| && |p.rules[i].atoms| >= 2 ==> !External(p, p.rules[i].head))
  }

  lemma ShapesAreUnmixed(p: Program)
    requires ConstructedShapes(p)
    ensures UnmixedHeads(p)
  {
  }

  // ------------------------------------------------------------------
  // The ground program.

  ghost function ValuesBelow(n: nat): (r: set<Value>)
    requires n <= TWO64
    ensures forall v: Value :: v in r <==> v < n
  {
    if n == 0 then {} else ValuesBelow(n - 1) + {n - 1}
  }

  /** All rows of a given arity: finitely many, since values are 64-bit. */
  ghost function AllRows(arity: nat): (r: set<Row>)
    ensures forall row: Row :: row in r <==> |row| == arity
  {
    if arity == 0 then
      {[]}
    else
      var shorter := AllRows(arity - 1);
      var all := set row: Row, v: Value | row in shorter && v in ValuesBelow(TWO64) :: row + [v];
      RowsExtend(arity, shorter, all);
      all
  }

  lemma RowsExtend(arity: nat, shorter: set<Row>, all: set<Row>)
    requires arity > 0 && forall row: Row :: row in shorter <==> |row| == arity - 1
    requires all == set row: Row, v: Value | row in shorter && v in ValuesBelow(TWO64) :: row + [v]
    ensures forall row: Row :: row in all <==> |row| == arity
  {
    forall row: Row | |row| == arity ensures row in all {
      assert row == row[..arity - 1] + [row[arity - 1]];
      assert row[..arity - 1] in shorter && row[arity - 1] in ValuesBelow(TWO64);
    }
  }

  ghost function AllFacts(p: Program): (r: set<Fact>)
    ensures forall f: Fact :: f in r <==> f.view < |p.views| && |f.row| == p.views[f.view].arity
  {
    set v: nat, row: Row | v < |p.views| && row in AllRows(p.views[v].arity) :: Fact(v, row)
  }

  /** All ways of giving the first `k` atoms of a rule rows of their arity. */
  ghost function Assignments(p: Program, r: Rule, k: nat): (s: set<Assignment>)
    requires GoodAtoms(p, r) && k <= |r.atoms|
    ensures forall rows: Assignment :: rows in s <==>
      |rows| == k && forall a :: 0 <= a < k ==> |rows[a]| == p.views[r.atoms[a].view].arity
  {
    if k == 0 then
      {[]}
    else
      var shorter := Assignments(p, r, k - 1);
      var last := AllRows(p.views[r.atoms[k - 1].view].arity);
      var all := set rows: Assignment, row: Row | rows in shorter && row in last :: rows + [row];
      AssignmentsExtend(p, r, k, shorter, last, all);
      all
  }

  lemma AssignmentsExtend(p: Program, r: Rule, k: nat, shorter: set<Assignment>, last: set<Row>, all: set<Assignment>)
    requires GoodAtoms(p, r) && 0 < k <= |r.atoms|
    requires forall row: Row :: row in last <==> |row| == p.views[r.atoms[k - 1].view].arity
    requires forall rows: Assignment :: rows in shorter <==>
      |rows| == k - 1 && forall a :: 0 <= a < k - 1 ==> |rows[a]| == p.views[r.atoms[a].view].arity
    requires all == set rows: Assignment, row: Row | rows in shorter && row in last :: rows + [row]
    ensures forall rows: Assignment :: rows in all <==>
      |rows| == k && forall a :: 0 <= a < k ==> |rows[a]| == p.views[r.atoms[a].view].arity
  {
    forall rows: Assignment | |rows| == k && forall a :: 0 <= a < k ==> |rows[a]| == p.views[r.atoms[a].view].arity
      ensures rows in all
    {
      assert rows == rows[..k - 1] + [rows[k - 1]];
      assert rows[..k - 1] in shorter && rows[k - 1] in last;
    }
  }

  function BodyLiteral(r: Rule, rows: Assignment, a: nat): Literal
    requires a < |r.atoms| && |rows| == |r.atoms|
  {
    Literal(Fact(r.atoms[a].view, rows[a]), r.atoms[a].negated)
  }

  /** The ground derivation of an instance, its literals in schema order. */
  function Instance(r: Rule, i: nat, rows: Assignment): (d: Deriv)
    requires |rows| == |r.atoms| && forall k :: 0 <= k < |r.pos2atom| ==> r.pos2atom[k] < |r.atoms|
  {
    Deriv(i, Fact(r.head, HeadRow(r, rows)),
      seq(|r.pos2atom|, k requires 0 <= k < |r.pos2atom| => BodyLiteral(r, rows, r.pos2atom[k])),
      r.recursive)
  }

  ghost function Instances(p: Program, i: nat): (s: set<Deriv>)
    requires GoodProgram(p) && i < |p.rules|
  {
    var r := p.rules[i];
    assert GoodRule(p, r);
    set rows: Assignment | rows in Assignments(p, r, |r.atoms|) && Matches(p, r, rows) :: Instance(r, i, rows)
  }

  ghost function GroundOf(p: Program): (g: GroundProgram)
    requires GoodProgram(p)
  {
    GroundProgram(
      AllFacts(p),
      set i: nat, d: Deriv | i < |p.rules| && d in Instances(p, i) :: d,
      seq(|p.views|, v requires 0 <= v < |p.views| => p.views[v].stratum),
      set v: nat | v < |p.views| && External(p, v))
  }
}
