/** What a rule derives, stated over the columns of its rows: the order a comparison means, the value a
    slot stands for, the result of a functor, and the heads of a rule's instances. */
module Meaning {
  import opened Wrappers
  import opened Ground
  import opened Rules

  // ------------------------------------------------------------------
  // The order of a comparison.

  predicate Compares(f: Filter, op: Comparison, l: Value, r: Value) {
    EvalFilter(f.(op := op), l, r)
  }

  /** Of two values exactly one is less, equal or greater; the order is transitive, and every value but
      the greatest, in the reading the filter asks for, is less than its successor. */
  lemma ComparisonsOrder(f: Filter, x: Value, y: Value, z: Value)
    ensures Bit(Compares(f, Equal, x, y)) + Bit(Compares(f, LessThan, x, y)) + Bit(Compares(f, GreaterThan, x, y)) == 1
    ensures Compares(f, Equal, x, y) <==> x == y
    ensures Compares(f, NotEqual, x, y) <==> !Compares(f, Equal, x, y)
    ensures Compares(f, GreaterThan, x, y) <==> Compares(f, LessThan, y, x)
    ensures Compares(f, LessThan, x, y) && Compares(f, LessThan, y, z) ==> Compares(f, LessThan, x, z)
    ensures !f.sgn && x < TWO64 - 1 ==> Compares(f, LessThan, x, x + 1)
    ensures f.sgn && Signed(x) < TWO63 - 1 ==> Compares(f, LessThan, x, Unsigned(Signed(x) + 1))
  {
  }

  /** The place of a value among all values: for the signed reading the upper half comes first. */
  function Rank(sgn: bool, v: Value): int {
    if sgn then (v + TWO63) % TWO64 else v
  }

  ghost predicate InOrder(f: Filter, l: Value, r: Value) {
    match f.op
    case Equal => l == r
    case NotEqual => l != r
    case LessThan => Rank(f.sgn, l) < Rank(f.sgn, r)
    case GreaterThan => Rank(f.sgn, r) < Rank(f.sgn, l)
  }

  lemma FilterRanks(f: Filter, l: Value, r: Value)
    ensures EvalFilter(f, l, r) <==> InOrder(f, l, r)
  {
    RankIsSigned(l);
    RankIsSigned(r);
  }

  lemma RankIsSigned(v: Value)
    ensures Rank(true, v) == Signed(v) + TWO63
  {
    if v < TWO63 {
      assert (v + TWO63) % TWO64 == v + TWO63;
    } else {
      assert v + TWO63 == (v - TWO63) + TWO64;
      assert (v + TWO63) % TWO64 == v - TWO63;
    }
  }

  // ------------------------------------------------------------------
  // The instances of a rule.

  /** The slot stands for `v` over these rows, `mapped` being the functor's result. */
  ghost predicate SlotIs(s: Slot, rows: Assignment, mapped: Value, v: Value) {
    || s == Const(v)
    || (s.Column? && s.atom < |rows| && s.col < |rows[s.atom]| && rows[s.atom][s.col] == v)
    || (s.MapResult? && mapped == v)
  }

  ghost predicate SlotsAre(ss: seq<Slot>, rows: Assignment, mapped: Value, vs: Row) {
    |vs| == |ss| && forall i :: 0 <= i < |ss| ==> SlotIs(ss[i], rows, mapped, vs[i])
  }

  /** The functor yields `v`: 32-bit division truncates toward zero and has no result for a divisor
      of zero, 32-bit addition wraps. Without a functor it is 0. */
  ghost predicate Yields(fn: MapFn, args: Row, v: Value) {
    match fn
    case NoMap => v == 0
    case DivI32 =>
      && |args| == 2 && Int32(Signed(args[1])) != 0 && Wraps(v)
      && exists q: int :: Truncates(Int32(Signed(args[0])), Int32(Signed(args[1])), q) && (Signed(v) - q) % TWO32 == 0
    case AddI32 => |args| == 2 && Wraps(v) && (Signed(v) - Signed(args[0]) - Signed(args[1])) % TWO32 == 0
  }

  predicate Wraps(v: Value) {
    -TWO31 <= Signed(v) < TWO31
  }

  ghost predicate ColumnsAgree(r: Rule, rows: Assignment) {
    && (forall a, c, a', c', k ::
          && 0 <= a < |rows| && 0 <= c < |rows[a]| && a < |r.classesOf| && c < |r.classesOf[a]| && k in r.classesOf[a][c]
          && 0 <= a' < |rows| && 0 <= c' < |rows[a']| && a' < |r.classesOf| && c' < |r.classesOf[a']| && k in r.classesOf[a'][c']
          ==> rows[a][c] == rows[a'][c'])
    && (forall a, c, k ::
          && 0 <= a < |rows| && 0 <= c < |rows[a]| && a < |r.classesOf| && c < |r.classesOf[a]| && k in r.classesOf[a][c]
          && k < |r.classConst| && r.classConst[k].Some?
          ==> rows[a][c] == r.classConst[k].value)
  }

  /** The filter's two slots stand for values in its order. */
  ghost predicate FilterHolds(f: Filter, rows: Assignment) {
    exists l, v :: SlotIs(f.lhs, rows, 0, l) && SlotIs(f.rhs, rows, 0, v) && InOrder(f, l, v)
  }

  /** `rows` is an instance of the rule, with functor arguments `args` and result `mapped`, and
      derives `head`. */
  ghost predicate DerivesBy(p: Program, r: Rule, rows: Assignment, args: Row, mapped: Value, head: Row) {
    && RowsFit(p, r, rows)
    && ColumnsAgree(r, rows)
    && (forall f :: f in r.filters ==> FilterHolds(f, rows))
    && SlotsAre(r.mapArgs, rows, 0, args) && Yields(r.mapFn, args, mapped)
    && (forall a :: 0 <= a < |r.atoms| && r.atoms[a].negated ==> SlotsAre(r.negKey, rows, 0, rows[a]))
    && SlotsAre(r.headTmpl, rows, mapped, head)
  }

  ghost predicate Derives(p: Program, r: Rule, rows: Assignment, head: Row) {
    exists args, mapped :: DerivesBy(p, r, rows, args, mapped, head)
  }

  // ------------------------------------------------------------------
  // The enumerator's instances and heads are these.

  lemma MagnitudeProduct(d: int, b: int)
    ensures Magnitude(d * b) == Magnitude(d) * Magnitude(b)
  {
    if d < 0 && b < 0 {
      assert (-d) * (-b) == d * b;
    } else if d < 0 {
      assert (-d) * b == -(d * b);
    } else if b < 0 {
      assert d * (-b) == -(d * b);
    }
  }

  lemma SmallMultiple(d: int, b: int)
    requires Magnitude(d * b) < Magnitude(b)
    ensures d == 0
  {
    MagnitudeProduct(d, b);
    if d != 0 {
      ProductGrows(Magnitude(b), Magnitude(d));
    }
  }

  lemma TruncatesOnce(a: int, b: int, q: int, q': int)
    requires b != 0 && Truncates(a, b, q) && Truncates(a, b, q')
    ensures q == q'
  {
    var x, x' := q * b, q' * b;
    assert (q - q') * b == x - x';
    SmallMultiple(q - q', b);
  }

  lemma WrapsOnce(v: Value, v': Value, x: int)
    requires Wraps(v) && Wraps(v') && (Signed(v) - x) % TWO32 == 0 && (Signed(v') - x) % TWO32 == 0
    ensures v == v'
  {
    var k, k' := (Signed(v) - x) / TWO32, (Signed(v') - x) / TWO32;
    assert Signed(v) == x + k * TWO32 && Signed(v') == x + k' * TWO32;
    assert Unsigned(Signed(v)) == v && Unsigned(Signed(v')) == v';
  }

  lemma QuotientWraps(x: int, v: Value)
    requires v == Unsigned(Int32(x))
    ensures Wraps(v) && (Signed(v) - x) % TWO32 == 0
  {
    Congruent(Int32(x), x);
  }

  lemma YieldsIs(fn: MapFn, args: Row, v: Value)
    ensures Yields(fn, args, v) <==> if fn.NoMap? then v == 0 else ApplyMapFn(fn, args) == Some(v)
  {
    if fn.DivI32? && |args| == 2 && Int32(Signed(args[1])) != 0 {
      DivisionYields(Int32(Signed(args[0])), Int32(Signed(args[1])), args, v);
    } else if fn.AddI32? && |args| == 2 {
      AdditionYields(args, v);
    }
  }

  lemma DivisionYields(a: int, b: int, args: Row, v: Value)
    requires |args| == 2 && a == Int32(Signed(args[0])) && b == Int32(Signed(args[1])) != 0
    ensures Yields(DivI32, args, v) <==> ApplyMapFn(DivI32, args) == Some(v)
  {
    var w := Unsigned(Int32(TruncDiv(a, b)));
    TruncDivTruncates(a, b);
    QuotientWraps(TruncDiv(a, b), w);
    if Yields(DivI32, args, v) {
      var q: int :| Truncates(a, b, q) && (Signed(v) - q) % TWO32 == 0;
      TruncatesOnce(a, b, q, TruncDiv(a, b));
      WrapsOnce(v, w, q);
    }
  }

  lemma AdditionYields(args: Row, v: Value)
    requires |args| == 2
    ensures Yields(AddI32, args, v) <==> ApplyMapFn(AddI32, args) == Some(v)
  {
    MapAdds(args);
    if Yields(AddI32, args, v) {
      WrapsOnce(v, ApplyMapFn(AddI32, args).value, Signed(args[0]) + Signed(args[1]));
    }
  }

  lemma SlotRead(p: Program, r: Rule, rows: Assignment, s: Slot, mapped: Value, v: Value)
    requires SlotFits(p, r, s) && RowsFit(p, r, rows)
    ensures SlotIs(s, rows, mapped, v) <==> v == SlotValue(s, rows, mapped)
  {
  }

  lemma SlotsRead(p: Program, r: Rule, rows: Assignment, ss: seq<Slot>, mapped: Value, vs: Row)
    requires RowsFit(p, r, rows) && forall i :: 0 <= i < |ss| ==> SlotFits(p, r, ss[i])
    ensures SlotsAre(ss, rows, mapped, vs) <==> vs == SlotValues(ss, rows, mapped)
  {
    hide SlotFits, RowsFit, SlotIs, SlotValue;
    forall i | 0 <= i < |ss| && i < |vs| ensures SlotIs(ss[i], rows, mapped, vs[i]) <==> vs[i] == SlotValue(ss[i], rows, mapped) {
      SlotRead(p, r, rows, ss[i], mapped, vs[i]);
    }
  }

  lemma FilterRead(p: Program, r: Rule, rows: Assignment, f: Filter)
    requires SlotFits(p, r, f.lhs) && SlotFits(p, r, f.rhs) && RowsFit(p, r, rows)
    ensures FilterHolds(f, rows) <==> EvalFilter(f, SlotValue(f.lhs, rows, 0), SlotValue(f.rhs, rows, 0))
  {
    hide EvalFilter, InOrder, SlotValue, SlotIs, SlotFits, RowsFit;
    var l, v := SlotValue(f.lhs, rows, 0), SlotValue(f.rhs, rows, 0);
    FilterRanks(f, l, v);
    SlotRead(p, r, rows, f.lhs, 0, l);
    SlotRead(p, r, rows, f.rhs, 0, v);
    if FilterHolds(f, rows) {
      var l', v' :| SlotIs(f.lhs, rows, 0, l') && SlotIs(f.rhs, rows, 0, v') && InOrder(f, l', v');
      SlotRead(p, r, rows, f.lhs, 0, l');
      SlotRead(p, r, rows, f.rhs, 0, v');
    }
  }

  lemma FiltersRead(p: Program, r: Rule, rows: Assignment)
    requires GoodRule(p, r) && RowsFit(p, r, rows)
    ensures (forall f :: f in r.filters ==> FilterHolds(f, rows)) <==> PassesFilters(r, rows)
  {
    hide FilterHolds, EvalFilter, SlotValue, RowsFit, GoodPositions;
    forall i | 0 <= i < |r.filters|
      ensures FilterHolds(r.filters[i], rows) <==>
        EvalFilter(r.filters[i], SlotValue(r.filters[i].lhs, rows, 0), SlotValue(r.filters[i].rhs, rows, 0))
    {
      FilterRead(p, r, rows, r.filters[i]);
    }
    if PassesFilters(r, rows) {
      forall f | f in r.filters ensures FilterHolds(f, rows) {
        var i :| 0 <= i < |r.filters| && r.filters[i] == f;
      }
    } else {
      var i :| 0 <= i < |r.filters| && !EvalFilter(r.filters[i], SlotValue(r.filters[i].lhs, rows, 0), SlotValue(r.filters[i].rhs, rows, 0));
      assert r.filters[i] in r.filters;
    }
  }

  lemma ColumnsRead(p: Program, r: Rule, rows: Assignment)
    requires GoodRule(p, r) && RowsFit(p, r, rows)
    ensures ColumnsAgree(r, rows) <==> ClassesAgree(r, rows)
  {
    hide GoodPositions, SlotFits, PlainSlots;
    if ColumnsAgree(r, rows) {
      forall a: nat, c: nat, k: nat | InClass(r, a, c, k) ensures Cell(rows, a, c) == rows[a][c] && k in r.classesOf[a][c] {
      }
    }
    if ClassesAgree(r, rows) {
      forall a: nat, c: nat, k: nat | a < |rows| && c < |rows[a]| && k in r.classesOf[a][c] ensures InClass(r, a, c, k) && Cell(rows, a, c) == rows[a][c] {
      }
    }
  }

  lemma SlotsFit(p: Program, r: Rule)
    requires GoodRule(p, r)
    ensures forall i :: 0 <= i < |r.mapArgs| ==> SlotFits(p, r, r.mapArgs[i])
    ensures forall i :: 0 <= i < |r.negKey| ==> SlotFits(p, r, r.negKey[i])
    ensures forall i :: 0 <= i < |r.headTmpl| ==> SlotFits(p, r, r.headTmpl[i])
  {
  }

  lemma RowsFitSize(p: Program, r: Rule, rows: Assignment)
    requires RowsFit(p, r, rows)
    ensures |rows| == |r.atoms|
  {
  }

  /** The instances the enumerator looks for, and the heads it emits for them, are the rule's. */
  lemma DerivesIs(p: Program, r: Rule, rows: Assignment, head: Row)
    requires GoodRule(p, r)
    ensures Derives(p, r, rows, head) <==> Matches(p, r, rows) && head == HeadRow(r, rows)
  {
    hide GoodRule, RowsFit, ClassesAgree, ColumnsAgree, PassesFilters, FilterHolds, SlotFits, SlotsAre, Yields, SlotValues, ApplyMapFn;
    SlotsFit(p, r);
    if RowsFit(p, r, rows) {
      RowsFitSize(p, r, rows);
      ColumnsRead(p, r, rows);
      FiltersRead(p, r, rows);
      var args := SlotValues(r.mapArgs, rows, 0);
      SlotsRead(p, r, rows, r.mapArgs, 0, args);
      forall a | 0 <= a < |r.atoms| ensures SlotsAre(r.negKey, rows, 0, rows[a]) <==> rows[a] == NegKey(r, rows) {
        SlotsRead(p, r, rows, r.negKey, 0, rows[a]);
      }
      if Derives(p, r, rows, head) {
        var args', mapped :| DerivesBy(p, r, rows, args', mapped, head);
        SlotsRead(p, r, rows, r.mapArgs, 0, args');
        YieldsIs(r.mapFn, args', mapped);
        SlotsRead(p, r, rows, r.headTmpl, mapped, head);
      }
      if Matches(p, r, rows) && head == HeadRow(r, rows) {
        var mapped := MapValue(r, rows).value;
        YieldsIs(r.mapFn, args, mapped);
        SlotsRead(p, r, rows, r.headTmpl, mapped, head);
        assert DerivesBy(p, r, rows, args, mapped, head);
      }
    }
  }
}
