/** The rule enumerator: a backtracking descent over a rule's schema positions that emits
    every instance of the rule over the given row sources exactly once. */
module Enumerate {
  import opened Wrappers
  import opened Ground
  import opened Rules
  import opened Meaning
  import opened RowStore
  import opened Binding
  import opened Sources

  type Forced = seq<seq<Option<Value>>>

  // ------------------------------------------------------------------
  // What is to be enumerated.

  /** `rd[q]` is the set of rows position `q` reads.  The delta position holds the delta row
      and nothing else; the others hold a row that is read, or a key that is absent. */
  ghost predicate AtPosition(r: Rule, rd: seq<set<Row>>, delta: int, deltaRow: Row, rows: Assignment, q: nat)
    requires q < |r.pos2atom| == |rd| && r.pos2atom[q] < |r.atoms| && |rows| == |r.atoms|
  {
    var a := r.pos2atom[q];
    if q == delta then rows[a] == deltaRow
    else if r.atoms[a].negated then rows[a] !in rd[q]
    else rows[a] in rd[q]
  }

  ghost predicate Wanted(p: Program, r: Rule, rd: seq<set<Row>>, delta: int, deltaRow: Row, rows: Assignment)
    requires GoodRule(p, r) && |rd| == |r.pos2atom|
  {
    Matches(p, r, rows) && forall q :: 0 <= q < |r.pos2atom| ==> AtPosition(r, rd, delta, deltaRow, rows, q)
  }

  function Arity(p: Program, r: Rule, a: nat): nat
    requires a < |r.atoms| && r.atoms[a].view < |p.views|
  {
    p.views[r.atoms[a].view].arity
  }

  /** The delta position and the rows read are of the right shape. */
  ghost predicate Asked(p: Program, r: Rule, rd: seq<set<Row>>, delta: int, deltaRow: Row) {
    && GoodRule(p, r) && |rd| == |r.pos2atom|
    && delta < |r.pos2atom|
    && (0 <= delta ==> |deltaRow| == Arity(p, r, r.pos2atom[delta]))
    && (forall q, row :: 0 <= q < |rd| && row in rd[q] ==> |row| == Arity(p, r, r.pos2atom[q]))
  }

  predicate NegatedDelta(r: Rule, delta: int) {
    0 <= delta < |r.pos2atom| && r.pos2atom[delta] < |r.atoms| && r.atoms[r.pos2atom[delta]].negated
  }

  ghost predicate ForcedSlot(r: Rule, deltaRow: Row, a: nat, col: nat, v: Value) {
    exists i :: 0 <= i < |r.negKey| && i < |deltaRow| && r.negKey[i] == Column(a, col) && deltaRow[i] == v
  }

  /** Forced columns are exactly the key slots that a negated delta row fixes. */
  ghost predicate ForcedBy(p: Program, r: Rule, delta: int, deltaRow: Row, forced: Forced)
    requires GoodRule(p, r)
  {
    && |forced| == |r.atoms|
    && (forall a :: 0 <= a < |forced| ==> |forced[a]| == Arity(p, r, a))
    && (forall a: nat, col: nat :: a < |forced| && col < |forced[a]| && forced[a][col].Some? ==>
          NegatedDelta(r, delta) && ForcedSlot(r, deltaRow, a, col, forced[a][col].value))
    && (NegatedDelta(r, delta) ==> |deltaRow| == |r.negKey| && forall i :: 0 <= i < |r.negKey| ==>
          && (r.negKey[i].Const? ==> r.negKey[i].value == deltaRow[i])
          && (r.negKey[i].Column? ==> forced[r.negKey[i].atom][r.negKey[i].col] == Some(deltaRow[i])))
  }

  /** The positive atoms bound so far: the delta atom and the atoms of positions below `pos`. */
  ghost predicate BoundTo(p: Program, r: Rule, rd: seq<set<Row>>, delta: int, deltaRow: Row, forced: Forced,
                          pos: nat, b: Bound)
    requires GoodRule(p, r) && |rd| == |r.pos2atom| && ForcedBy(p, r, delta, deltaRow, forced)
  {
    && |b| == |r.atoms|
    && forall q :: 0 <= q < |r.pos2atom| ==> BoundAt(p, r, rd, delta, deltaRow, forced, pos, b, q)
  }

  ghost predicate BoundAt(p: Program, r: Rule, rd: seq<set<Row>>, delta: int, deltaRow: Row, forced: Forced,
                          pos: nat, b: Bound, q: nat)
    requires GoodRule(p, r) && |rd| == |r.pos2atom| && ForcedBy(p, r, delta, deltaRow, forced)
    requires |b| == |r.atoms| && q < |r.pos2atom|
  {
    var a := r.pos2atom[q];
    && (b[a].Some? <==> !r.atoms[a].negated && (q < pos || q == delta))
    && (b[a].Some? ==>
          && |b[a].value| == Arity(p, r, a)
          && (if q == delta then b[a].value == deltaRow else b[a].value in rd[q])
          && forall col :: 0 <= col < |forced[a]| && forced[a][col].Some? ==> forced[a][col].value == b[a].value[col])
  }

  // ------------------------------------------------------------------
  // Every wanted instance survives the pruning.

  /** A class value that is already pinned is the value every wanted instance has there. */
  lemma PinnedValue(p: Program, r: Rule, b: Bound, c: Classes, rows: Assignment, a: nat, col: nat, k: nat)
    requires GoodRule(p, r) && Matches(p, r, rows) && Extends(b, rows) && Pinned(r, b, c)
    requires InClass(r, a, col, k) && k < |c| && c[k].Some? && a < |rows| && col < |rows[a]|
    ensures rows[a][col] == c[k].value
  {
    if r.classConst[k].Some? {
      assert Cell(rows, a, col) == r.classConst[k].value;
    } else {
      var a': nat, col': nat :| InClass(r, a', col', k) && PinnedBy(b, a', col', c[k].value);
      assert Cell(rows, a, col) == Cell(rows, a', col');
    }
  }

  lemma ForcedValue(p: Program, r: Rule, rd: seq<set<Row>>, delta: int, deltaRow: Row, forced: Forced,
                    rows: Assignment, a: nat, col: nat)
    requires Asked(p, r, rd, delta, deltaRow) && ForcedBy(p, r, delta, deltaRow, forced)
    requires Wanted(p, r, rd, delta, deltaRow, rows)
    requires a < |forced| && col < |forced[a]| && forced[a][col].Some?
    ensures |rows[a]| == |forced[a]| && rows[a][col] == forced[a][col].value
  {
    var i :| 0 <= i < |r.negKey| && i < |deltaRow| && r.negKey[i] == Column(a, col) && deltaRow[i] == forced[a][col].value;
    assert AtPosition(r, rd, delta, deltaRow, rows, delta);
    assert rows[r.pos2atom[delta]] == NegKey(r, rows);
    assert NegKey(r, rows)[i] == SlotValue(r.negKey[i], rows, 0);
  }

  lemma WantedFits(p: Program, r: Rule, rd: seq<set<Row>>, delta: int, deltaRow: Row, forced: Forced,
                   b: Bound, c: Classes, rows: Assignment, a: nat)
    requires Asked(p, r, rd, delta, deltaRow) && ForcedBy(p, r, delta, deltaRow, forced)
    requires Wanted(p, r, rd, delta, deltaRow, rows) && Extends(b, rows) && Pinned(r, b, c) && a < |r.atoms|
    ensures |forced[a]| == |rows[a]| == |r.classesOf[a]| && Fits(forced[a], r.classesOf[a], rows[a], c)
  {
    var row := rows[a];
    forall col: nat | col < |row| && forced[a][col].Some? ensures forced[a][col].value == row[col] {
      ForcedValue(p, r, rd, delta, deltaRow, forced, rows, a, col);
    }
    forall col: nat, k: nat | col < |row| && k in r.classesOf[a][col] && k < |c| && c[k].Some?
      ensures c[k].value == row[col]
    {
      assert InClass(r, a, col, k);
      PinnedValue(p, r, b, c, rows, a, col, k);
    }
    forall col: nat, col': nat, k: nat |
        col < |row| && col' < |row| && k in r.classesOf[a][col] && k in r.classesOf[a][col']
      ensures row[col] == row[col']
    {
      assert InClass(r, a, col, k) && InClass(r, a, col', k);
      assert Cell(rows, a, col) == Cell(rows, a, col');
    }
  }

  /** Binding one more row keeps the classes in step with the bound rows. */
  lemma BindPins(p: Program, r: Rule, b: Bound, c: Classes, a: nat, row: Row, c': Classes)
    requires GoodRule(p, r) && a < |r.atoms| && |b| == |r.atoms| && b[a].None? && Pinned(r, b, c)
    requires |row| == Arity(p, r, a) && Joined(r.classesOf[a], row, |row|, c, c')
    requires forall col, k: nat :: 0 <= col < |row| && k in r.classesOf[a][col] && k < |c| && c[k].Some? ==> c[k].value == row[col]
    ensures Pinned(r, b[a := Some(row)], c')
  {
    var b' := b[a := Some(row)];
    forall x: nat, col: nat, k: nat | InClass(r, x, col, k) && x < |b'| && b'[x].Some? && col < |b'[x].value| && k < |c'|
      ensures c'[k] == Some(b'[x].value[col])
    {
      if x != a {
        assert c[k] == Some(b[x].value[col]);
      }
    }
    forall k | 0 <= k < |c'| && c'[k].Some? && r.classConst[k].None?
      ensures exists x: nat, col: nat :: InClass(r, x, col, k) && PinnedBy(b', x, col, c'[k].value)
    {
      if c'[k] == c[k] {
        var x: nat, col: nat :| InClass(r, x, col, k) && PinnedBy(b, x, col, c[k].value);
        assert PinnedBy(b', x, col, c'[k].value);
      } else {
        var col: nat :| col < |row| && k in r.classesOf[a][col];
        assert InClass(r, a, col, k) && PinnedBy(b', a, col, c'[k].value);
      }
    }
  }

  /** Classes agree on bound rows as soon as they are in step with them. */
  lemma PinnedAgree(p: Program, r: Rule, b: Bound, c: Classes, rows: Assignment)
    requires GoodRule(p, r) && Pinned(r, b, c) && Extends(b, rows) && |b| == |r.atoms|
    requires forall a :: 0 <= a < |r.atoms| && !r.atoms[a].negated ==> b[a].Some? && |b[a].value| == Arity(p, r, a)
    ensures ClassesAgree(r, rows)
  {
    forall a: nat, col: nat, k: nat | InClass(r, a, col, k)
      ensures k < |c| && c[k] == Some(Cell(rows, a, col))
    {
      assert !r.atoms[a].negated;
    }
  }

  // ------------------------------------------------------------------
  // The leaves of the descent.

  /** The only assignment that extends a binding of all positive atoms. */
  function Completed(r: Rule, b: Bound): (rows: Assignment)
    requires |b| == |r.atoms|
    ensures |rows| == |b|
  {
    var pos := seq(|b|, a requires 0 <= a < |b| => if b[a].Some? then b[a].value else []);
    seq(|b|, a requires 0 <= a < |b| => if b[a].Some? then b[a].value else NegKey(r, pos))
  }

  lemma SlotsOverPositive(p: Program, r: Rule, ss: seq<Slot>, x: Assignment, y: Assignment, m: Value)
    requires |x| == |y| == |r.atoms|
    requires forall i :: 0 <= i < |ss| ==> SlotFits(p, r, ss[i])
    requires forall a :: 0 <= a < |r.atoms| && !r.atoms[a].negated ==> x[a] == y[a]
    ensures SlotValues(ss, x, m) == SlotValues(ss, y, m)
  {
  }

  lemma CompletedExtends(p: Program, r: Rule, b: Bound, rows: Assignment)
    requires GoodRule(p, r) && |b| == |r.atoms| && |rows| == |b|
    requires forall a :: 0 <= a < |r.atoms| ==> (b[a].Some? <==> !r.atoms[a].negated)
    ensures Extends(b, Completed(r, b))
    ensures forall a :: 0 <= a < |r.atoms| && r.atoms[a].negated ==> Completed(r, b)[a] == NegKey(r, Completed(r, b))
    ensures Extends(b, rows) && (forall a :: 0 <= a < |r.atoms| && r.atoms[a].negated ==> rows[a] == NegKey(r, rows))
      ==> rows == Completed(r, b)
  {
    var pos := seq(|b|, a requires 0 <= a < |b| => if b[a].Some? then b[a].value else []);
    SlotsOverPositive(p, r, r.negKey, pos, Completed(r, b), 0);
    if Extends(b, rows) {
      SlotsOverPositive(p, r, r.negKey, pos, rows, 0);
    }
  }

  /** With a negated delta row, the forced columns make the key of every completion that row. */
  lemma NegatedDeltaKey(p: Program, r: Rule, rd: seq<set<Row>>, delta: int, deltaRow: Row, forced: Forced,
                        b: Bound, rows: Assignment)
    requires Asked(p, r, rd, delta, deltaRow) && ForcedBy(p, r, delta, deltaRow, forced)
    requires BoundTo(p, r, rd, delta, deltaRow, forced, |r.atoms|, b)
    requires NegatedDelta(r, delta) && Extends(b, rows)
    ensures NegKey(r, rows) == deltaRow
  {
    forall i | 0 <= i < |r.negKey| ensures NegKey(r, rows)[i] == deltaRow[i] {
      var s := r.negKey[i];
      if s.Column? {
        assert s.atom in r.pos2atom;
        var q :| 0 <= q < |r.pos2atom| && r.pos2atom[q] == s.atom;
        assert BoundAt(p, r, rd, delta, deltaRow, forced, |r.atoms|, b, q);
      }
    }
  }

  lemma AllBound(p: Program, r: Rule, rd: seq<set<Row>>, delta: int, deltaRow: Row, forced: Forced, b: Bound)
    requires GoodRule(p, r) && |rd| == |r.pos2atom| && ForcedBy(p, r, delta, deltaRow, forced)
    requires BoundTo(p, r, rd, delta, deltaRow, forced, |r.atoms|, b)
    ensures forall a :: 0 <= a < |r.atoms| ==> (b[a].Some? <==> !r.atoms[a].negated)
    ensures forall a :: 0 <= a < |r.atoms| && b[a].Some? ==> |b[a].value| == Arity(p, r, a)
  {
    forall a | 0 <= a < |r.atoms|
      ensures (b[a].Some? <==> !r.atoms[a].negated) && (b[a].Some? ==> |b[a].value| == Arity(p, r, a))
    {
      assert a in r.pos2atom;
      var q :| 0 <= q < |r.pos2atom| && r.pos2atom[q] == a;
      assert BoundAt(p, r, rd, delta, deltaRow, forced, |r.atoms|, b, q);
    }
  }

  lemma CompletionAt(p: Program, r: Rule, rd: seq<set<Row>>, delta: int, deltaRow: Row, forced: Forced,
                     b: Bound, rows: Assignment, q: nat)
    requires Asked(p, r, rd, delta, deltaRow) && ForcedBy(p, r, delta, deltaRow, forced)
    requires BoundTo(p, r, rd, delta, deltaRow, forced, |r.atoms|, b) && q < |r.pos2atom|
    requires Extends(b, rows) && (r.atoms[r.pos2atom[q]].negated ==> rows[r.pos2atom[q]] == NegKey(r, rows))
    ensures AtPosition(r, rd, delta, deltaRow, rows, q) <==>
      (q == delta || !r.atoms[r.pos2atom[q]].negated || NegKey(r, rows) !in rd[q])
  {
    if NegatedDelta(r, delta) {
      NegatedDeltaKey(p, r, rd, delta, deltaRow, forced, b, rows);
    }
    assert BoundAt(p, r, rd, delta, deltaRow, forced, |r.atoms|, b, q);
  }

  /** What the leaf of the descent tests. */
  ghost predicate LeafPasses(r: Rule, rd: seq<set<Row>>, delta: int, rows: Assignment)
    requires |rd| == |r.pos2atom| && forall q :: 0 <= q < |r.pos2atom| ==> r.pos2atom[q] < |r.atoms|
  {
    && PassesFilters(r, rows) && MapValue(r, rows).Some?
    && forall q :: 0 <= q < |r.pos2atom| && q != delta && r.atoms[r.pos2atom[q]].negated ==> NegKey(r, rows) !in rd[q]
  }

  /** The completion of a full binding is wanted exactly when it passes the filters, the
      functor produces a value and no other negated key is present. */
  lemma CompletionWanted(p: Program, r: Rule, rd: seq<set<Row>>, delta: int, deltaRow: Row, forced: Forced,
                         b: Bound, c: Classes)
    requires Asked(p, r, rd, delta, deltaRow) && ForcedBy(p, r, delta, deltaRow, forced)
    requires BoundTo(p, r, rd, delta, deltaRow, forced, |r.atoms|, b) && Pinned(r, b, c)
    ensures Wanted(p, r, rd, delta, deltaRow, Completed(r, b)) <==> LeafPasses(r, rd, delta, Completed(r, b))
  {
    var rows := Completed(r, b);
    AllBound(p, r, rd, delta, deltaRow, forced, b);
    CompletedExtends(p, r, b, rows);
    PinnedAgree(p, r, b, c, rows);
    forall q | 0 <= q < |r.pos2atom|
      ensures AtPosition(r, rd, delta, deltaRow, rows, q) <==>
        (q == delta || !r.atoms[r.pos2atom[q]].negated || NegKey(r, rows) !in rd[q])
    {
      CompletionAt(p, r, rd, delta, deltaRow, forced, b, rows, q);
    }
    assert RowsFit(p, r, rows);
  }

  lemma OnlyCompletion(p: Program, r: Rule, rd: seq<set<Row>>, delta: int, deltaRow: Row, forced: Forced, b: Bound)
    requires Asked(p, r, rd, delta, deltaRow) && ForcedBy(p, r, delta, deltaRow, forced)
    requires BoundTo(p, r, rd, delta, deltaRow, forced, |r.atoms|, b)
    ensures forall rows :: Wanted(p, r, rd, delta, deltaRow, rows) && Extends(b, rows) ==> rows == Completed(r, b)
    ensures Extends(b, Completed(r, b))
  {
    AllBound(p, r, rd, delta, deltaRow, forced, b);
    CompletedExtends(p, r, b, Completed(r, b));
    forall rows | Wanted(p, r, rd, delta, deltaRow, rows) && Extends(b, rows) ensures rows == Completed(r, b) {
      CompletedExtends(p, r, b, rows);
    }
  }

  /** The sources read by a rule's positions. */
  ghost predicate Serves(src: Source, r: Rule, rd: seq<set<Row>>)
    reads src.models, src.views
  {
    && |rd| == |r.pos2atom|
    && forall q :: 0 <= q < |rd| ==>
         && r.pos2atom[q] < |r.atoms| && src.Covers(r.atoms[r.pos2atom[q]].view, q)
         && rd[q] == src.Rows(r.atoms[r.pos2atom[q]].view, q)
  }

  /** What has been found lists, once each, the wanted instances that extend the binding. */
  ghost predicate Lists(p: Program, r: Rule, rd: seq<set<Row>>, delta: int, deltaRow: Row, b: Bound,
                        heads: seq<Row>, found: seq<Assignment>)
    requires GoodRule(p, r) && |rd| == |r.pos2atom|
  {
    && |heads| == |found| && NoRepeats(found)
    && (forall i :: 0 <= i < |heads| ==> heads[i] == HeadRow(r, found[i]))
    && (forall rows :: rows in found <==> Wanted(p, r, rd, delta, deltaRow, rows) && Extends(b, rows))
  }

  /** Filters, functor, absence tests. */
  method CheckLeaf(r: Rule, src: Source, delta: int, rows: Assignment, ghost rd: seq<set<Row>>) returns (passes: bool)
    requires src.Valid() && Serves(src, r, rd)
    ensures passes == LeafPasses(r, rd, delta, rows)
  {
    for i := 0 to |r.filters|
      invariant forall j :: 0 <= j < i ==>
        EvalFilter(r.filters[j], SlotValue(r.filters[j].lhs, rows, 0), SlotValue(r.filters[j].rhs, rows, 0))
    {
      var f := r.filters[i];
      if !EvalFilter(f, SlotValue(f.lhs, rows, 0), SlotValue(f.rhs, rows, 0)) {
        return false;
      }
    }
    if MapValue(r, rows).None? {
      return false;
    }
    passes := AllAbsent(r, src, delta, NegKey(r, rows), rd);
  }

  method AllAbsent(r: Rule, src: Source, delta: int, key: Row, ghost rd: seq<set<Row>>) returns (absent: bool)
    requires src.Valid() && Serves(src, r, rd)
    ensures absent <==> forall q :: 0 <= q < |r.pos2atom| && q != delta && r.atoms[r.pos2atom[q]].negated ==> key !in rd[q]
  {
    for q := 0 to |r.pos2atom|
      invariant forall j :: 0 <= j < q && j != delta && r.atoms[r.pos2atom[j]].negated ==> key !in rd[j]
    {
      var atom := r.atoms[r.pos2atom[q]];
      if atom.negated && q != delta {
        var present := Contains(src, atom.view, q, key);
        if present {
          return false;
        }
      }
    }
    absent := true;
  }

  /** All positive atoms are bound: test the leaf, then emit the head. */
  method Finish(p: Program, r: Rule, src: Source, delta: int, b: Bound,
                ghost rd: seq<set<Row>>, ghost deltaRow: Row, ghost forced: Forced, ghost c: Classes)
    returns (heads: seq<Row>, ghost found: seq<Assignment>)
    requires Asked(p, r, rd, delta, deltaRow) && ForcedBy(p, r, delta, deltaRow, forced)
    requires BoundTo(p, r, rd, delta, deltaRow, forced, |r.atoms|, b) && Pinned(r, b, c)
    requires src.Valid() && Serves(src, r, rd)
    ensures Lists(p, r, rd, delta, deltaRow, b, heads, found)
  {
    heads, found := [], [];
    var rows := Completed(r, b);
    CompletionWanted(p, r, rd, delta, deltaRow, forced, b, c);
    OnlyCompletion(p, r, rd, delta, deltaRow, forced, b);
    var passes := CheckLeaf(r, src, delta, rows, rd);
    if passes {
      heads, found := [HeadRow(r, rows)], [rows];
    }
  }

  // ------------------------------------------------------------------
  // The descent.

  /** The value a column is pinned to, forced or through one of its classes. */
  ghost predicate KeyFrom(forced: seq<Option<Value>>, perCol: seq<seq<nat>>, c: Classes, col: nat, v: Value)
    requires |forced| == |perCol|
  {
    col < |perCol| && (forced[col] == Some(v) || exists k :: k in perCol[col] && k < |c| && c[k] == Some(v))
  }

  /** The columns of the next atom whose value is already pinned, with their values. */
  method KeyColumns(forced: seq<Option<Value>>, perCol: seq<seq<nat>>, cls: array<Option<Value>>)
    returns (cols: seq<nat>, vals: Row)
    requires |forced| == |perCol|
    requires forall col, k :: 0 <= col < |perCol| && k in perCol[col] ==> k < cls.Length
    ensures |cols| == |vals|
    ensures forall i :: 0 <= i < |cols| ==> KeyFrom(forced, perCol, cls[..], cols[i], vals[i])
  {
    cols, vals := [], [];
    for c := 0 to |forced|
      invariant |cols| == |vals|
      invariant forall i :: 0 <= i < |cols| ==> KeyFrom(forced, perCol, cls[..], cols[i], vals[i])
    {
      var want := forced[c];
      var i := 0;
      while want.None? && i < |perCol[c]|
        invariant i <= |perCol[c]|
        invariant want.Some? ==> KeyFrom(forced, perCol, cls[..], c, want.value)
      {
        assert perCol[c][i] in perCol[c];
        want := cls[perCol[c][i]];
        i := i + 1;
      }
      if want.Some? {
        cols, vals := cols + [c], vals + [want.value];
      }
    }
  }

  lemma FitsKey(forced: seq<Option<Value>>, perCol: seq<seq<nat>>, row: Row, c: Classes, cols: seq<nat>, vals: Row)
    requires |forced| == |row| == |perCol| && Fits(forced, perCol, row, c)
    requires |cols| == |vals|
    requires forall i :: 0 <= i < |cols| ==> KeyFrom(forced, perCol, c, cols[i], vals[i])
    ensures Project(row, cols) == vals
  {
    forall i | 0 <= i < |cols| ensures Project(row, cols)[i] == vals[i] {
      assert KeyFrom(forced, perCol, c, cols[i], vals[i]);
    }
  }

  /** Where the descent stands at position `pos`. */
  ghost predicate Standing(p: Program, r: Rule, rd: seq<set<Row>>, delta: int, deltaRow: Row,
                           forced: Forced, pos: nat, b: Bound, c: Classes)
  {
    && Asked(p, r, rd, delta, deltaRow) && ForcedBy(p, r, delta, deltaRow, forced)
    && pos <= |r.atoms| && BoundTo(p, r, rd, delta, deltaRow, forced, pos, b) && Pinned(r, b, c)
  }

  /** Binding the next atom to a fitting row moves the descent one position on. */
  lemma BoundNext(p: Program, r: Rule, rd: seq<set<Row>>, delta: int, deltaRow: Row, forced: Forced,
                  pos: nat, b: Bound, c: Classes, row: Row)
    requires Asked(p, r, rd, delta, deltaRow) && ForcedBy(p, r, delta, deltaRow, forced)
    requires pos < |r.atoms| && BoundTo(p, r, rd, delta, deltaRow, forced, pos, b)
    requires pos != delta && !r.atoms[r.pos2atom[pos]].negated && row in rd[pos]
    requires |row| == |forced[r.pos2atom[pos]]| == |r.classesOf[r.pos2atom[pos]]|
    requires Fits(forced[r.pos2atom[pos]], r.classesOf[r.pos2atom[pos]], row, c)
    ensures BoundTo(p, r, rd, delta, deltaRow, forced, pos + 1, b[r.pos2atom[pos] := Some(row)])
  {
    var b' := b[r.pos2atom[pos] := Some(row)];
    var next := pos + 1;
    forall q | 0 <= q < |r.pos2atom| ensures BoundAt(p, r, rd, delta, deltaRow, forced, next, b', q) {
      assert BoundAt(p, r, rd, delta, deltaRow, forced, pos, b, q);
    }
  }

  /** Positions that are not bound here do not change the binding. */
  lemma BoundSkip(p: Program, r: Rule, rd: seq<set<Row>>, delta: int, deltaRow: Row, forced: Forced, pos: nat, b: Bound)
    requires Asked(p, r, rd, delta, deltaRow) && ForcedBy(p, r, delta, deltaRow, forced)
    requires pos < |r.atoms| && BoundTo(p, r, rd, delta, deltaRow, forced, pos, b)
    requires pos == delta || r.atoms[r.pos2atom[pos]].negated
    ensures BoundTo(p, r, rd, delta, deltaRow, forced, pos + 1, b)
  {
    var next := pos + 1;
    forall q | 0 <= q < |r.pos2atom| ensures BoundAt(p, r, rd, delta, deltaRow, forced, next, b, q) {
      assert BoundAt(p, r, rd, delta, deltaRow, forced, pos, b, q);
    }
  }

  /** Every wanted instance that extends the binding has, at the next atom, one of the
      candidate rows, and that row can be bound. */
  lemma CandidatesCover(p: Program, r: Rule, rd: seq<set<Row>>, delta: int, deltaRow: Row, forced: Forced,
                        pos: nat, b: Bound, c: Classes, cols: seq<nat>, vals: Row, rows: Assignment)
    requires Asked(p, r, rd, delta, deltaRow) && ForcedBy(p, r, delta, deltaRow, forced)
    requires pos < |r.atoms| && pos != delta && !r.atoms[r.pos2atom[pos]].negated
    requires Pinned(r, b, c) && Extends(b, rows) && Wanted(p, r, rd, delta, deltaRow, rows)
    requires |cols| == |vals| && |forced[r.pos2atom[pos]]| == |r.classesOf[r.pos2atom[pos]]|
    requires forall i :: 0 <= i < |cols| ==> KeyFrom(forced[r.pos2atom[pos]], r.classesOf[r.pos2atom[pos]], c, cols[i], vals[i])
    ensures rows[r.pos2atom[pos]] in rd[pos] && Project(rows[r.pos2atom[pos]], cols) == vals
    ensures |forced[r.pos2atom[pos]]| == |rows[r.pos2atom[pos]]| == |r.classesOf[r.pos2atom[pos]]|
    ensures Fits(forced[r.pos2atom[pos]], r.classesOf[r.pos2atom[pos]], rows[r.pos2atom[pos]], c)
  {
    var a := r.pos2atom[pos];
    assert AtPosition(r, rd, delta, deltaRow, rows, pos);
    WantedFits(p, r, rd, delta, deltaRow, forced, b, c, rows, a);
    FitsKey(forced[a], r.classesOf[a], rows[a], c, cols, vals);
  }

  /** Likewise, restricted to the candidates tried so far at atom `a`. */
  ghost predicate ListsSome(p: Program, r: Rule, rd: seq<set<Row>>, delta: int, deltaRow: Row, b: Bound, a: nat,
                            cands: seq<Row>, heads: seq<Row>, found: seq<Assignment>)
    requires GoodRule(p, r) && |rd| == |r.pos2atom|
  {
    && |heads| == |found| && NoRepeats(found)
    && (forall i :: 0 <= i < |heads| ==> heads[i] == HeadRow(r, found[i]))
    && (forall rows :: rows in found <==>
          Wanted(p, r, rd, delta, deltaRow, rows) && Extends(b, rows) && a < |rows| && rows[a] in cands)
  }

  lemma ListsOneMore(p: Program, r: Rule, rd: seq<set<Row>>, delta: int, deltaRow: Row, b: Bound, a: nat,
                     cands: seq<Row>, row: Row, heads: seq<Row>, found: seq<Assignment>,
                     heads': seq<Row>, found': seq<Assignment>)
    requires GoodRule(p, r) && |rd| == |r.pos2atom| && a < |b| && b[a].None? && row !in cands
    requires ListsSome(p, r, rd, delta, deltaRow, b, a, cands, heads, found)
    requires Lists(p, r, rd, delta, deltaRow, b[a := Some(row)], heads', found')
    ensures ListsSome(p, r, rd, delta, deltaRow, b, a, cands + [row], heads + heads', found + found')
  {
    hide Wanted, GoodRule, HeadRow, Extends;
    forall rows ensures Extends(b[a := Some(row)], rows) <==> Extends(b, rows) && a < |rows| && rows[a] == row {
      if Extends(b[a := Some(row)], rows) {
        ExtendsLess(b, a, row, rows);
      } else if Extends(b, rows) && a < |rows| && rows[a] == row {
        ExtendsMore(b, a, row, rows);
      }
    }
    forall rows ensures rows in found + found' <==>
      Wanted(p, r, rd, delta, deltaRow, rows) && Extends(b, rows) && a < |rows| && rows[a] in cands + [row]
    {
    }
    NoRepeatsConcat(found, found');
  }

  lemma NoRepeatsConcat<T>(s: seq<T>, t: seq<T>)
    requires NoRepeats(s) && NoRepeats(t) && forall x :: x in s ==> x !in t
    ensures NoRepeats(s + t)
  {
    forall i, j | 0 <= i < j < |s + t| ensures (s + t)[i] != (s + t)[j] {
      if i < |s| <= j {
        assert s[i] in s && t[j - |s|] in t;
      }
    }
  }

  /** Descend from schema position `pos`, binding one row per positive position and undoing
      every binding on the way back. */
  method Descend(p: Program, r: Rule, src: Source, delta: int, forced: Forced, pos: nat,
                 bound: array<Option<Row>>, cls: array<Option<Value>>,
                 ghost rd: seq<set<Row>>, ghost deltaRow: Row)
    returns (heads: seq<Row>, ghost found: seq<Assignment>)
    requires Standing(p, r, rd, delta, deltaRow, forced, pos, bound[..], cls[..])
    requires src.Valid() && Serves(src, r, rd)
    modifies bound, cls, src.indexes
    ensures src.Valid() && bound[..] == old(bound[..]) && cls[..] == old(cls[..])
    ensures Lists(p, r, rd, delta, deltaRow, bound[..], heads, found)
    decreases |r.atoms| - pos, 3
  {
    hide Source.Valid, Serves, Pinned, Wanted, BoundTo, ForcedBy, Lists;
    if pos == |r.atoms| {
      heads, found := Finish(p, r, src, delta, bound[..], rd, deltaRow, forced, cls[..]);
      return;
    }
    var a := r.pos2atom[pos];
    if pos == delta || r.atoms[a].negated {
      BoundSkip(p, r, rd, delta, deltaRow, forced, pos, bound[..]);
      heads, found := Descend(p, r, src, delta, forced, pos + 1, bound, cls, rd, deltaRow);
      return;
    }
    heads, found := TryCandidates(p, r, src, delta, forced, pos, bound, cls, rd, deltaRow);
  }

  /** The next position to bind: a positive atom that is not the delta. */
  ghost predicate Open(r: Rule, delta: int, pos: nat) {
    pos < |r.pos2atom| && pos != delta && r.pos2atom[pos] < |r.atoms| && !r.atoms[r.pos2atom[pos]].negated
  }

  /** Try every candidate row of the next atom. */
  method TryCandidates(p: Program, r: Rule, src: Source, delta: int, forced: Forced, pos: nat,
                       bound: array<Option<Row>>, cls: array<Option<Value>>,
                       ghost rd: seq<set<Row>>, ghost deltaRow: Row)
    returns (heads: seq<Row>, ghost found: seq<Assignment>)
    requires Standing(p, r, rd, delta, deltaRow, forced, pos, bound[..], cls[..])
    requires src.Valid() && Serves(src, r, rd)
    requires Open(r, delta, pos)
    modifies bound, cls, src.indexes
    ensures src.Valid() && bound[..] == old(bound[..]) && cls[..] == old(cls[..])
    ensures Lists(p, r, rd, delta, deltaRow, bound[..], heads, found)
    decreases |r.atoms| - pos, 2
  {
    hide Source.Valid, Serves, Standing, GoodRule, Open, Lists, ListsSome, Source.Rows, KeyFrom;
    ghost var b := bound[..];
    ghost var c := cls[..];
    NextUnbound(p, r, rd, delta, deltaRow, forced, pos, b, c);
    var a := r.pos2atom[pos];
    ServedAt(src, r, rd, pos);
    var cols, vals := KeyColumns(forced[a], r.classesOf[a], cls);
    var cands := ForEach(src, r.atoms[a].view, pos, cols, vals);
    heads, found := TryEach(p, r, src, delta, forced, pos, cands, bound, cls, rd, deltaRow);
    AllListed(p, r, rd, delta, deltaRow, forced, pos, b, c, cols, vals, cands, heads, found);
  }

  method TryEach(p: Program, r: Rule, src: Source, delta: int, forced: Forced, pos: nat, cands: seq<Row>,
                 bound: array<Option<Row>>, cls: array<Option<Value>>,
                 ghost rd: seq<set<Row>>, ghost deltaRow: Row)
    returns (heads: seq<Row>, ghost found: seq<Assignment>)
    requires Standing(p, r, rd, delta, deltaRow, forced, pos, bound[..], cls[..])
    requires src.Valid() && Serves(src, r, rd)
    requires Open(r, delta, pos)
    requires NoRepeats(cands) && forall row :: row in cands ==> row in rd[pos]
    modifies bound, cls, src.indexes
    ensures src.Valid() && bound[..] == old(bound[..]) && cls[..] == old(cls[..])
    ensures ListsSome(p, r, rd, delta, deltaRow, bound[..], r.pos2atom[pos], cands, heads, found)
    decreases |r.atoms| - pos, 1
  {
    hide Source.Valid, Serves, Standing, GoodRule, Open, Lists, ListsSome, NoRepeats;
    ghost var b := bound[..];
    ghost var c := cls[..];
    NextUnbound(p, r, rd, delta, deltaRow, forced, pos, b, c);
    heads, found := [], [];
    ghost var a := r.pos2atom[pos];
    NoneListed(p, r, rd, delta, deltaRow, b, a);
    for i := 0 to |cands|
      invariant bound[..] == b && cls[..] == c && src.Valid() && Serves(src, r, rd)
      invariant ListsSome(p, r, rd, delta, deltaRow, b, a, cands[..i], heads, found)
    {
      assert cands[i] in cands;
      NoRepeatsPrefix(cands, i);
      var more, moreFound := TryRow(p, r, src, delta, forced, pos, cands[i], bound, cls, rd, deltaRow);
      ListsOneMore(p, r, rd, delta, deltaRow, b, a, cands[..i], cands[i], heads, found, more, moreFound);
      heads, found := heads + more, found + moreFound;
    }
    assert cands[..|cands|] == cands;
  }

  lemma NoRepeatsPrefix<T>(s: seq<T>, i: nat)
    requires NoRepeats(s) && i < |s|
    ensures s[i] !in s[..i] && s[..i + 1] == s[..i] + [s[i]]
  {
  }

  lemma ServedAt(src: Source, r: Rule, rd: seq<set<Row>>, pos: nat)
    requires Serves(src, r, rd) && pos < |rd|
    ensures r.pos2atom[pos] < |r.atoms| && src.Covers(r.atoms[r.pos2atom[pos]].view, pos)
    ensures rd[pos] == src.Rows(r.atoms[r.pos2atom[pos]].view, pos)
  {
  }

  lemma NoneListed(p: Program, r: Rule, rd: seq<set<Row>>, delta: int, deltaRow: Row, b: Bound, a: nat)
    requires GoodRule(p, r) && |rd| == |r.pos2atom|
    ensures ListsSome(p, r, rd, delta, deltaRow, b, a, [], [], [])
  {
  }

  /** When every candidate has been tried, every wanted instance has been found. */
  lemma AllListed(p: Program, r: Rule, rd: seq<set<Row>>, delta: int, deltaRow: Row, forced: Forced, pos: nat,
                  b: Bound, c: Classes, cols: seq<nat>, vals: Row, cands: seq<Row>, heads: seq<Row>, found: seq<Assignment>)
    requires Standing(p, r, rd, delta, deltaRow, forced, pos, b, c) && Open(r, delta, pos)
    requires |cols| == |vals|
    requires forall i :: 0 <= i < |cols| ==> KeyFrom(forced[r.pos2atom[pos]], r.classesOf[r.pos2atom[pos]], c, cols[i], vals[i])
    requires forall row :: row in cands <==> row in rd[pos] && Project(row, cols) == vals
    requires ListsSome(p, r, rd, delta, deltaRow, b, r.pos2atom[pos], cands, heads, found)
    ensures Lists(p, r, rd, delta, deltaRow, b, heads, found)
  {
    hide Pinned, Wanted, BoundTo, ForcedBy, GoodSlots, GoodAtoms;
    var a := r.pos2atom[pos];
    NextUnbound(p, r, rd, delta, deltaRow, forced, pos, b, c);
    forall rows | Wanted(p, r, rd, delta, deltaRow, rows) && Extends(b, rows) ensures a < |rows| && rows[a] in cands {
      CandidatesCover(p, r, rd, delta, deltaRow, forced, pos, b, c, cols, vals, rows);
    }
  }

  /** Bind one candidate, descend, unbind. */
  method TryRow(p: Program, r: Rule, src: Source, delta: int, forced: Forced, pos: nat, row: Row,
                bound: array<Option<Row>>, cls: array<Option<Value>>,
                ghost rd: seq<set<Row>>, ghost deltaRow: Row)
    returns (heads: seq<Row>, ghost found: seq<Assignment>)
    requires Standing(p, r, rd, delta, deltaRow, forced, pos, bound[..], cls[..])
    requires src.Valid() && Serves(src, r, rd)
    requires Open(r, delta, pos) && row in rd[pos]
    modifies bound, cls, src.indexes
    ensures src.Valid() && bound[..] == old(bound[..]) && cls[..] == old(cls[..])
    ensures Lists(p, r, rd, delta, deltaRow, bound[..][r.pos2atom[pos] := Some(row)], heads, found)
    decreases |r.atoms| - pos, 0
  {
    hide Source.Valid, Serves, Standing, GoodRule, Open, Lists, Fits, Joined, Undoes;
    ghost var b := bound[..];
    ghost var c := cls[..];
    NextUnbound(p, r, rd, delta, deltaRow, forced, pos, b, c);
    var a := r.pos2atom[pos];
    var ok, undo := BindRow(forced[a], r.classesOf[a], row, cls);
    if ok {
      StandingNext(p, r, rd, delta, deltaRow, forced, pos, b, c, row, cls[..]);
      bound[a] := Some(row);
      assert bound[..] == b[a := Some(row)];
      heads, found := Descend(p, r, src, delta, forced, pos + 1, bound, cls, rd, deltaRow);
      bound[a] := None;
      assert bound[..] == b;
    } else {
      heads, found := [], [];
      UnfitUnwanted(p, r, rd, delta, deltaRow, forced, pos, b, c, a, row);
    }
    Unbind(undo, cls, c);
  }

  lemma StandingNext(p: Program, r: Rule, rd: seq<set<Row>>, delta: int, deltaRow: Row, forced: Forced, pos: nat,
                     b: Bound, c: Classes, row: Row, c': Classes)
    requires Standing(p, r, rd, delta, deltaRow, forced, pos, b, c) && Open(r, delta, pos) && row in rd[pos]
    requires |row| == |forced[r.pos2atom[pos]]| == |r.classesOf[r.pos2atom[pos]]|
    requires Fits(forced[r.pos2atom[pos]], r.classesOf[r.pos2atom[pos]], row, c)
    requires Joined(r.classesOf[r.pos2atom[pos]], row, |row|, c, c')
    ensures Standing(p, r, rd, delta, deltaRow, forced, pos + 1, b[r.pos2atom[pos] := Some(row)], c')
  {
    hide Pinned, BoundTo, ForcedBy, Joined, GoodAtoms, GoodSlots;
    BoundNext(p, r, rd, delta, deltaRow, forced, pos, b, c, row);
    NextUnbound(p, r, rd, delta, deltaRow, forced, pos, b, c);
    BindPins(p, r, b, c, r.pos2atom[pos], row, c');
  }

  lemma NextUnbound(p: Program, r: Rule, rd: seq<set<Row>>, delta: int, deltaRow: Row, forced: Forced, pos: nat,
                    b: Bound, c: Classes)
    requires Standing(p, r, rd, delta, deltaRow, forced, pos, b, c) && Open(r, delta, pos)
    ensures GoodRule(p, r) && pos < |r.atoms| == |rd| == |r.pos2atom|
    ensures
      var a := r.pos2atom[pos];
      && a < |b| == |r.atoms| == |forced| == |r.classesOf| && b[a] == None && |c| == |r.classConst|
      && (forall col, k :: 0 <= col < |r.classesOf[a]| && k in r.classesOf[a][col] ==> k < |r.classConst|)
      && |r.classesOf[a]| == |forced[a]|
      && (forall row :: row in rd[pos] ==> |row| == |forced[a]|)
  {
    assert BoundAt(p, r, rd, delta, deltaRow, forced, pos, b, pos);
    var a := r.pos2atom[pos];
    forall col: nat, k: nat | col < |r.classesOf[a]| && k in r.classesOf[a][col] ensures k < |r.classConst| {
      assert InClass(r, a, col, k);
    }
  }

  /** A row that cannot be bound is in no wanted instance that extends the binding. */
  lemma UnfitUnwanted(p: Program, r: Rule, rd: seq<set<Row>>, delta: int, deltaRow: Row, forced: Forced, pos: nat,
                      b: Bound, c: Classes, a: nat, row: Row)
    requires Standing(p, r, rd, delta, deltaRow, forced, pos, b, c)
    requires a < |b| == |r.atoms| && b[a].None?
    requires |forced[a]| == |row| == |r.classesOf[a]| && !Fits(forced[a], r.classesOf[a], row, c)
    ensures Lists(p, r, rd, delta, deltaRow, b[a := Some(row)], [], [])
  {
    forall rows | Wanted(p, r, rd, delta, deltaRow, rows) ensures !Extends(b[a := Some(row)], rows) {
      if Extends(b, rows) {
        WantedFits(p, r, rd, delta, deltaRow, forced, b, c, rows, a);
      }
      if Extends(b[a := Some(row)], rows) {
        ExtendsLess(b, a, row, rows);
      }
    }
  }

  lemma ExtendsMore(b: Bound, a: nat, row: Row, rows: Assignment)
    requires a < |b| && Extends(b, rows) && rows[a] == row
    ensures Extends(b[a := Some(row)], rows)
  {
  }

  lemma ExtendsLess(b: Bound, a: nat, row: Row, rows: Assignment)
    requires a < |b| && b[a].None? && Extends(b[a := Some(row)], rows)
    ensures Extends(b, rows) && a < |rows| && rows[a] == row
  {
    forall x | 0 <= x < |b| && b[x].Some? ensures rows[x] == b[x].value {
      assert b[a := Some(row)][x].Some?;
    }
    assert b[a := Some(row)][a].Some?;
  }

  // ------------------------------------------------------------------
  // Setting up the delta.

  function NoForced(p: Program, r: Rule): (forced: Forced)
    requires GoodRule(p, r)
  {
    seq(|r.atoms|, a requires 0 <= a < |r.atoms| => seq(Arity(p, r, a), _ => None))
  }

  /** The key slots [0, n) have been fixed by the negated delta row. */
  ghost predicate KeyForced(p: Program, r: Rule, deltaRow: Row, n: nat, forced: Forced)
    requires GoodRule(p, r) && |deltaRow| == |r.negKey| && n <= |r.negKey|
  {
    && |forced| == |r.atoms| && (forall a :: 0 <= a < |forced| ==> |forced[a]| == Arity(p, r, a))
    && (forall a: nat, col: nat :: a < |forced| && col < |forced[a]| && forced[a][col].Some? ==>
          ForcedSlot(r, deltaRow, a, col, forced[a][col].value))
    && (forall i :: 0 <= i < n ==>
          && (r.negKey[i].Const? ==> r.negKey[i].value == deltaRow[i])
          && (r.negKey[i].Column? ==> forced[r.negKey[i].atom][r.negKey[i].col] == Some(deltaRow[i])))
  }

  /** The delta row of a negated view fixes the key slots, or contradicts them. */
  method ForceKey(p: Program, r: Rule, deltaRow: Row) returns (ok: bool, forced: Forced)
    requires GoodRule(p, r) && |deltaRow| == |r.negKey|
    ensures ok ==> KeyForced(p, r, deltaRow, |r.negKey|, forced)
    ensures !ok ==> forall rows :: RowsFit(p, r, rows) ==> NegKey(r, rows) != deltaRow
  {
    forced := NoForced(p, r);
    for i := 0 to |r.negKey|
      invariant KeyForced(p, r, deltaRow, i, forced)
    {
      var s := r.negKey[i];
      if s.Const? {
        if s.value != deltaRow[i] {
          KeyContradicted(p, r, deltaRow, i, i);
          return false, forced;
        }
      } else {
        assert s.Column? && s.atom < |forced| && s.col < |forced[s.atom]|;
        if forced[s.atom][s.col].Some? && forced[s.atom][s.col].value != deltaRow[i] {
          ghost var j :| 0 <= j < |r.negKey| && j < |deltaRow| && r.negKey[j] == s && deltaRow[j] == forced[s.atom][s.col].value;
          KeyContradicted(p, r, deltaRow, i, j);
          return false, forced;
        }
        KeyForcedOneMore(p, r, deltaRow, i, forced);
        forced := forced[s.atom := forced[s.atom][s.col := Some(deltaRow[i])]];
      }
    }
    ok := true;
  }

  lemma KeyForcedOneMore(p: Program, r: Rule, deltaRow: Row, i: nat, forced: Forced)
    requires GoodRule(p, r) && |deltaRow| == |r.negKey| && i < |r.negKey| && KeyForced(p, r, deltaRow, i, forced)
    requires r.negKey[i].Column? && r.negKey[i].atom < |forced| && r.negKey[i].col < |forced[r.negKey[i].atom]|
    requires var old0 := forced[r.negKey[i].atom][r.negKey[i].col]; old0.Some? ==> old0.value == deltaRow[i]
    ensures KeyForced(p, r, deltaRow, i + 1,
      forced[r.negKey[i].atom := forced[r.negKey[i].atom][r.negKey[i].col := Some(deltaRow[i])]])
  {
    hide GoodPositions, GoodAtoms;
    var s := r.negKey[i];
    var forced': Forced := forced[s.atom := forced[s.atom][s.col := Some(deltaRow[i])]];
    forall a: nat, col: nat | a < |forced'| && col < |forced'[a]| && forced'[a][col].Some?
      ensures ForcedSlot(r, deltaRow, a, col, forced'[a][col].value)
    {
      if a == s.atom && col == s.col {
        assert r.negKey[i] == Column(a, col);
      } else {
        assert forced'[a][col] == forced[a][col];
      }
    }
  }

  lemma KeyContradicted(p: Program, r: Rule, deltaRow: Row, i: nat, j: nat)
    requires GoodRule(p, r) && |deltaRow| == |r.negKey| && i < |r.negKey| && j < |r.negKey|
    requires r.negKey[j] == r.negKey[i]
    requires deltaRow[i] != deltaRow[j] || (r.negKey[i].Const? && r.negKey[i].value != deltaRow[i])
    ensures forall rows :: RowsFit(p, r, rows) ==> NegKey(r, rows) != deltaRow
  {
    forall rows | RowsFit(p, r, rows) ensures NegKey(r, rows) != deltaRow {
      assert NegKey(r, rows)[i] == SlotValue(r.negKey[i], rows, 0) == NegKey(r, rows)[j];
    }
  }

  /** Nothing is bound but the delta row of a positive delta position. */
  ghost predicate OnlyDelta(r: Rule, delta: int, deltaRow: Row, b: Bound)
    requires forall q :: 0 <= q < |r.pos2atom| ==> r.pos2atom[q] < |r.atoms|
  {
    && |b| == |r.atoms|
    && forall a :: 0 <= a < |b| ==>
         b[a] == if 0 <= delta < |r.pos2atom| && a == r.pos2atom[delta] && !r.atoms[a].negated then Some(deltaRow) else None
  }

  lemma DeltaStands(p: Program, r: Rule, rd: seq<set<Row>>, delta: int, deltaRow: Row, forced: Forced, b: Bound, c: Classes)
    requires Asked(p, r, rd, delta, deltaRow) && ForcedBy(p, r, delta, deltaRow, forced) && Pinned(r, b, c)
    requires OnlyDelta(r, delta, deltaRow, b)
    ensures Standing(p, r, rd, delta, deltaRow, forced, 0, b, c)
    ensures forall rows :: Wanted(p, r, rd, delta, deltaRow, rows) ==> Extends(b, rows)
  {
    forall q | 0 <= q < |r.pos2atom| ensures BoundAt(p, r, rd, delta, deltaRow, forced, 0, b, q) {
    }
    forall rows | Wanted(p, r, rd, delta, deltaRow, rows) ensures Extends(b, rows) {
      if 0 <= delta {
        assert AtPosition(r, rd, delta, deltaRow, rows, delta);
      }
    }
  }

  /** The found assignments are the wanted ones, each once, with their heads. */
  ghost predicate ListsAll(p: Program, r: Rule, rd: seq<set<Row>>, delta: int, deltaRow: Row,
                           heads: seq<Row>, found: seq<Assignment>)
    requires GoodRule(p, r) && |rd| == |r.pos2atom|
  {
    && |heads| == |found| && NoRepeats(found)
    && (forall i :: 0 <= i < |heads| ==> heads[i] == HeadRow(r, found[i]))
    && (forall rows :: rows in found <==> Wanted(p, r, rd, delta, deltaRow, rows))
  }

  /** The rule derives `head` from `rows`, and every position holds what it may read. */
  ghost predicate DerivesFrom(p: Program, r: Rule, rd: seq<set<Row>>, delta: int, deltaRow: Row, rows: Assignment, head: Row)
    requires GoodRule(p, r) && |rd| == |r.pos2atom|
  {
    Derives(p, r, rows, head) && forall q :: 0 <= q < |r.pos2atom| && |rows| == |r.atoms| ==> AtPosition(r, rd, delta, deltaRow, rows, q)
  }

  lemma ListedDerive(p: Program, r: Rule, rd: seq<set<Row>>, delta: int, deltaRow: Row, heads: seq<Row>, found: seq<Assignment>)
    requires GoodRule(p, r) && |rd| == |r.pos2atom| && ListsAll(p, r, rd, delta, deltaRow, heads, found)
    ensures forall i :: 0 <= i < |found| ==> DerivesFrom(p, r, rd, delta, deltaRow, found[i], heads[i])
    ensures forall rows, head :: DerivesFrom(p, r, rd, delta, deltaRow, rows, head) ==> rows in found
    ensures forall rows, f :: rows in found && f in r.filters ==> FilterHolds(f, rows)
  {
    hide GoodRule, HeadRow, Matches, Derives, AtPosition;
    forall i | 0 <= i < |found| ensures DerivesFrom(p, r, rd, delta, deltaRow, found[i], heads[i]) {
      assert found[i] in found;
      DerivesIs(p, r, found[i], heads[i]);
    }
    forall rows, head | DerivesFrom(p, r, rd, delta, deltaRow, rows, head) ensures rows in found {
      DerivesIs(p, r, rows, head);
      MatchesFit(p, r, rows);
    }
    forall rows, f | rows in found && f in r.filters ensures FilterHolds(f, rows) {
      DerivesIs(p, r, rows, HeadRow(r, rows));
      DerivesFilters(p, r, rows, HeadRow(r, rows), f);
    }
  }

  lemma MatchesFit(p: Program, r: Rule, rows: Assignment)
    requires Matches(p, r, rows)
    ensures |rows| == |r.atoms|
  {
  }

  lemma DerivesFilters(p: Program, r: Rule, rows: Assignment, head: Row, f: Filter)
    requires Derives(p, r, rows, head) && f in r.filters
    ensures FilterHolds(f, rows)
  {
  }

  /** Fix what the delta row determines: key columns of a negated position, or the row and
      classes of a positive one. */
  method BindDelta(p: Program, r: Rule, delta: nat, deltaRow: Row, bound: array<Option<Row>>, cls: array<Option<Value>>,
                   ghost rd: seq<set<Row>>)
    returns (ok: bool, forced: Forced)
    requires Asked(p, r, rd, delta, deltaRow)
    requires bound.Length == |r.atoms| && forall a :: 0 <= a < bound.Length ==> bound[a].None?
    requires cls[..] == r.classConst
    modifies bound, cls
    ensures ok ==> Standing(p, r, rd, delta, deltaRow, forced, 0, bound[..], cls[..])
    ensures ok ==> forall rows :: Wanted(p, r, rd, delta, deltaRow, rows) ==> Extends(bound[..], rows)
    ensures !ok ==> forall rows :: !Wanted(p, r, rd, delta, deltaRow, rows)
  {
    hide Wanted, Standing, Joined, Undoes, KeyForced, Fits, GoodSlots, GoodAtoms;
    ghost var b := bound[..];
    ghost var c := cls[..];
    NothingPinned(p, r, b, c);
    hide Pinned;
    forced := NoForced(p, r);
    var da := r.pos2atom[delta];
    DeltaShape(p, r, rd, delta, deltaRow);
    if r.atoms[da].negated {
      ok, forced := ForceKey(p, r, deltaRow);
      if !ok {
        NegatedUnwanted(p, r, rd, delta, deltaRow);
        return;
      }
      KeyForces(p, r, delta, deltaRow, forced);
    } else {
      var fits, undo := BindRow(forced[da], r.classesOf[da], deltaRow, cls);
      if !fits {
        DeltaUnfit(p, r, rd, delta, deltaRow, b, c);
        return false, forced;
      }
      DeltaBinds(p, r, b, c, da, deltaRow, cls[..]);
      bound[da] := Some(deltaRow);
      assert bound[..] == b[da := Some(deltaRow)];
      NothingForced(p, r, delta, deltaRow);
    }
    DeltaStands(p, r, rd, delta, deltaRow, forced, bound[..], cls[..]);
    ok := true;
  }

  lemma DeltaShape(p: Program, r: Rule, rd: seq<set<Row>>, delta: nat, deltaRow: Row)
    requires Asked(p, r, rd, delta, deltaRow)
    ensures
      var da := r.pos2atom[delta];
      && |r.classesOf| == |r.atoms| && |NoForced(p, r)[da]| == |deltaRow| == |r.classesOf[da]|
      && (r.atoms[da].negated ==> |deltaRow| == |r.negKey|)
  {
  }

  lemma KeyForces(p: Program, r: Rule, delta: nat, deltaRow: Row, forced: Forced)
    requires GoodRule(p, r) && NegatedDelta(r, delta) && |deltaRow| == |r.negKey|
    requires KeyForced(p, r, deltaRow, |r.negKey|, forced)
    ensures ForcedBy(p, r, delta, deltaRow, forced)
  {
  }

  lemma NothingForced(p: Program, r: Rule, delta: int, deltaRow: Row)
    requires GoodRule(p, r) && !NegatedDelta(r, delta)
    ensures ForcedBy(p, r, delta, deltaRow, NoForced(p, r))
  {
  }

  lemma DeltaBinds(p: Program, r: Rule, b: Bound, c: Classes, a: nat, row: Row, c': Classes)
    requires GoodRule(p, r) && a < |r.atoms| && |b| == |r.atoms| && b[a].None? && Pinned(r, b, c)
    requires |row| == Arity(p, r, a) == |NoForced(p, r)[a]| && Fits(NoForced(p, r)[a], r.classesOf[a], row, c)
    requires Joined(r.classesOf[a], row, |row|, c, c')
    ensures Pinned(r, b[a := Some(row)], c')
  {
    BindPins(p, r, b, c, a, row, c');
  }

  /** Emit the head of every instance of the rule over the given sources exactly once.  With a
      delta position, only the instances that hold the delta row there. */
  method EnumerateRule(p: Program, r: Rule, src: Source, delta: int, deltaRow: Row, ghost rd: seq<set<Row>>)
    returns (heads: seq<Row>, ghost found: seq<Assignment>)
    requires Asked(p, r, rd, delta, deltaRow) && src.Valid() && Serves(src, r, rd)
    modifies src.indexes
    ensures src.Valid()
    ensures ListsAll(p, r, rd, delta, deltaRow, heads, found)
    ensures forall i :: 0 <= i < |found| ==> DerivesFrom(p, r, rd, delta, deltaRow, found[i], heads[i])
    ensures forall rows, head :: DerivesFrom(p, r, rd, delta, deltaRow, rows, head) ==> rows in found
    ensures forall rows, f :: rows in found && f in r.filters ==> FilterHolds(f, rows)
  {
    hide DerivesFrom, FilterHolds, Source.Valid, Serves, Wanted, Standing, ForcedBy, Pinned, GoodSlots, GoodAtoms, GoodPositions;
    heads, found := [], [];
    var forced := NoForced(p, r);
    var cls := new Option<Value>[|r.classConst|](k requires 0 <= k < |r.classConst| => r.classConst[k]);
    var bound := new Option<Row>[|r.atoms|](_ => None);
    assert cls[..] == r.classConst;
    if delta >= 0 {
      var ok;
      ok, forced := BindDelta(p, r, delta, deltaRow, bound, cls, rd);
      if !ok {
        ListedDerive(p, r, rd, delta, deltaRow, heads, found);
        return;
      }
    } else {
      NothingPinned(p, r, bound[..], cls[..]);
      NothingForced(p, r, delta, deltaRow);
      DeltaStands(p, r, rd, delta, deltaRow, forced, bound[..], cls[..]);
    }
    heads, found := Descend(p, r, src, delta, forced, 0, bound, cls, rd, deltaRow);
    ListedDerive(p, r, rd, delta, deltaRow, heads, found);
  }

  lemma NothingPinned(p: Program, r: Rule, b: Bound, c: Classes)
    requires GoodRule(p, r) && |b| == |r.atoms| && c == r.classConst
    requires forall a :: 0 <= a < |b| ==> b[a].None?
    ensures Pinned(r, b, c)
    ensures forall a, col, k :: 0 <= a < |r.classesOf| && 0 <= col < |r.classesOf[a]| && k in r.classesOf[a][col] ==> k < |c|
  {
    forall a: nat, col: nat, k: nat | a < |r.classesOf| && col < |r.classesOf[a]| && k in r.classesOf[a][col] ensures k < |c| {
      assert InClass(r, a, col, k);
    }
  }

  lemma WantedKey(p: Program, r: Rule, rd: seq<set<Row>>, delta: int, deltaRow: Row)
    requires Asked(p, r, rd, delta, deltaRow) && NegatedDelta(r, delta)
    ensures forall rows :: Wanted(p, r, rd, delta, deltaRow, rows) ==> RowsFit(p, r, rows) && NegKey(r, rows) == deltaRow
  {
    forall rows | Wanted(p, r, rd, delta, deltaRow, rows) ensures NegKey(r, rows) == deltaRow {
      assert AtPosition(r, rd, delta, deltaRow, rows, delta);
    }
  }

  lemma NegatedUnwanted(p: Program, r: Rule, rd: seq<set<Row>>, delta: int, deltaRow: Row)
    requires Asked(p, r, rd, delta, deltaRow) && NegatedDelta(r, delta)
    requires forall rows :: RowsFit(p, r, rows) ==> NegKey(r, rows) != deltaRow
    ensures forall rows :: !Wanted(p, r, rd, delta, deltaRow, rows)
  {
    WantedKey(p, r, rd, delta, deltaRow);
  }

  lemma DeltaFits(p: Program, r: Rule, rd: seq<set<Row>>, delta: int, deltaRow: Row, b: Bound, c: Classes)
    requires Asked(p, r, rd, delta, deltaRow) && 0 <= delta && !r.atoms[r.pos2atom[delta]].negated
    requires Pinned(r, b, c) && |b| == |r.atoms| && forall a :: 0 <= a < |b| ==> b[a].None?
    requires |NoForced(p, r)[r.pos2atom[delta]]| == |deltaRow| == |r.classesOf[r.pos2atom[delta]]|
    ensures forall rows :: Wanted(p, r, rd, delta, deltaRow, rows) ==>
      Fits(NoForced(p, r)[r.pos2atom[delta]], r.classesOf[r.pos2atom[delta]], deltaRow, c)
  {
    hide Pinned, Fits;
    NothingForced(p, r, delta, deltaRow);
    forall rows | Wanted(p, r, rd, delta, deltaRow, rows)
      ensures Fits(NoForced(p, r)[r.pos2atom[delta]], r.classesOf[r.pos2atom[delta]], deltaRow, c)
    {
      assert AtPosition(r, rd, delta, deltaRow, rows, delta);
      WantedFits(p, r, rd, delta, deltaRow, NoForced(p, r), b, c, rows, r.pos2atom[delta]);
    }
  }

  lemma DeltaUnfit(p: Program, r: Rule, rd: seq<set<Row>>, delta: int, deltaRow: Row, b: Bound, c: Classes)
    requires Asked(p, r, rd, delta, deltaRow) && 0 <= delta && !r.atoms[r.pos2atom[delta]].negated
    requires Pinned(r, b, c) && |b| == |r.atoms| && forall a :: 0 <= a < |b| ==> b[a].None?
    requires !Fits(NoForced(p, r)[r.pos2atom[delta]], r.classesOf[r.pos2atom[delta]], deltaRow, c)
    ensures forall rows :: !Wanted(p, r, rd, delta, deltaRow, rows)
  {
    DeltaFits(p, r, rd, delta, deltaRow, b, c);
  }
}
