/** Backtracking state of the rule enumerator: bound rows, equality classes, forced columns. */
module Binding {
  import opened Wrappers
  import opened Ground
  import opened Rules
  import opened RowStore

  type Bound = seq<Option<Row>>
  type Classes = seq<Option<Value>>

  ghost predicate Extends(b: Bound, rows: Assignment) {
    |rows| == |b| && forall a :: 0 <= a < |b| && b[a].Some? ==> rows[a] == b[a].value
  }

  /** The class values are exactly those pinned by constants and bound rows. */
  ghost predicate Pinned(r: Rule, b: Bound, c: Classes) {
    && |c| == |r.classConst|
    && (forall k :: 0 <= k < |c| && r.classConst[k].Some? ==> c[k] == r.classConst[k])
    && (forall a: nat, col: nat, k: nat :: InClass(r, a, col, k) && a < |b| && b[a].Some? && col < |b[a].value| && k < |c|
          ==> c[k] == Some(b[a].value[col]))
    && (forall k :: 0 <= k < |c| && c[k].Some? && r.classConst[k].None? ==>
          exists a: nat, col: nat :: InClass(r, a, col, k) && PinnedBy(b, a, col, c[k].value))
  }

  predicate PinnedBy(b: Bound, a: nat, col: nat, v: Value) {
    a < |b| && b[a].Some? && col < |b[a].value| && b[a].value[col] == v
  }

  /** A row may be bound: it fits the forced columns and the class values. */
  ghost predicate Fits(forced: seq<Option<Value>>, perCol: seq<seq<nat>>, row: Row, c: Classes)
    requires |forced| == |row| == |perCol|
  {
    && (forall col :: 0 <= col < |row| && forced[col].Some? ==> forced[col].value == row[col])
    && (forall col, k :: 0 <= col < |row| && k in perCol[col] && k < |c| && c[k].Some? ==> c[k].value == row[col])
    && (forall col, col', k :: 0 <= col < |row| && 0 <= col' < |row| && k in perCol[col] && k in perCol[col']
          ==> row[col] == row[col'])
  }

  /** The classes after columns [0, n) of `row` took part. */
  ghost predicate Joined(perCol: seq<seq<nat>>, row: Row, n: nat, before: Classes, after: Classes)
    requires |perCol| == |row| && n <= |row|
  {
    && |after| == |before|
    && (forall col, k: nat :: 0 <= col < n && k in perCol[col] && k < |after| ==> after[k] == Some(row[col]))
    && (forall k :: 0 <= k < |after| && after[k] != before[k] ==>
          before[k].None? && exists col :: 0 <= col < n && k in perCol[col])
  }

  /** `undo` lists the classes that `row` assigned. */
  ghost predicate Undoes(undo: seq<nat>, before: Classes, after: Classes) {
    |after| == |before| && forall k :: 0 <= k < |after| ==> (k in undo <==> after[k] != before[k]) && (k in undo ==> before[k].None?)
  }

  /** Bind one column's value to its classes. */
  method BindColumn(classes: seq<nat>, v: Value, cls: array<Option<Value>>) returns (ok: bool, undo: seq<nat>)
    requires forall k :: k in classes ==> k < cls.Length
    modifies cls
    ensures Undoes(undo, old(cls[..]), cls[..]) && InRange(undo, cls.Length)
    ensures forall k :: k in undo ==> k in classes && cls[k] == Some(v)
    ensures ok ==> forall k :: k in classes ==> cls[k] == Some(v)
    ensures !ok ==> exists k :: k in classes && k < cls.Length && old(cls[..])[k].Some? && old(cls[..])[k].value != v
  {
    undo := [];
    for i := 0 to |classes|
      invariant Undoes(undo, old(cls[..]), cls[..]) && InRange(undo, cls.Length)
      invariant forall k :: k in undo ==> k in classes && cls[k] == Some(v)
      invariant forall j :: 0 <= j < i ==> classes[j] < cls.Length && cls[classes[j]] == Some(v)
    {
      var k := classes[i];
      assert k in classes;
      if cls[k].Some? {
        if cls[k].value != v {
          return false, undo;
        }
      } else {
        cls[k] := Some(v);
        undo := undo + [k];
      }
    }
    ok := true;
  }

  /** Bind a candidate row: check forced columns, check or assign its classes. */
  method BindRow(forced: seq<Option<Value>>, perCol: seq<seq<nat>>, row: Row, cls: array<Option<Value>>)
    returns (ok: bool, undo: seq<nat>)
    requires |forced| == |row| == |perCol|
    requires forall col, k :: 0 <= col < |perCol| && k in perCol[col] ==> k < cls.Length
    modifies cls
    ensures Undoes(undo, old(cls[..]), cls[..]) && InRange(undo, cls.Length)
    ensures ok <==> Fits(forced, perCol, row, old(cls[..]))
    ensures ok ==> Joined(perCol, row, |row|, old(cls[..]), cls[..])
  {
    undo := [];
    for c := 0 to |row|
      invariant Undoes(undo, old(cls[..]), cls[..]) && InRange(undo, cls.Length)
      invariant Joined(perCol, row, c, old(cls[..]), cls[..])
      invariant forall col :: 0 <= col < c && forced[col].Some? ==> forced[col].value == row[col]
      invariant forall col, k :: 0 <= col < c && k in perCol[col] && old(cls[..])[k].Some? ==> old(cls[..])[k].value == row[col]
    {
      if forced[c].Some? && forced[c].value != row[c] {
        return false, undo;
      }
      ghost var mid := cls[..];
      var fine, more := BindColumn(perCol[c], row[c], cls);
      undo := undo + more;
      JoinedOne(perCol, row, c, old(cls[..]), mid, cls[..], more);
      if !fine {
        ghost var k :| k in perCol[c] && k < |mid| && mid[k].Some? && mid[k].value != row[c];
        if mid[k] != old(cls[..])[k] {
          ghost var col :| 0 <= col < c && k in perCol[col];
          assert row[col] != row[c];
        }
        return false, undo;
      }
    }
    forall col, col', k | 0 <= col < |row| && 0 <= col' < |row| && k in perCol[col] && k in perCol[col']
      ensures row[col] == row[col']
    {
      assert cls[..][k] == Some(row[col]) && cls[..][k] == Some(row[col']);
    }
    ok := true;
  }

  lemma JoinedOne(perCol: seq<seq<nat>>, row: Row, c: nat, before: Classes, mid: Classes, after: Classes, more: seq<nat>)
    requires |perCol| == |row| && c < |row|
    requires Joined(perCol, row, c, before, mid) && Undoes(more, mid, after)
    requires forall k :: k in more ==> k in perCol[c] && k < |after| && after[k] == Some(row[c])
    ensures forall k :: 0 <= k < |after| && after[k] != before[k] ==>
          before[k].None? && exists col :: 0 <= col < c + 1 && k in perCol[col]
    ensures (forall k :: k in perCol[c] && k < |after| ==> after[k] == Some(row[c]))
      ==> Joined(perCol, row, c + 1, before, after)
  {
  }

  method Unbind(undo: seq<nat>, cls: array<Option<Value>>, ghost before: Classes)
    requires InRange(undo, cls.Length) && Undoes(undo, before, cls[..])
    modifies cls
    ensures cls[..] == before
  {
    for i := 0 to |undo|
      invariant |before| == cls.Length
      invariant forall k :: 0 <= k < cls.Length && k !in undo ==> cls[k] == before[k]
      invariant forall j :: 0 <= j < i ==> undo[j] < cls.Length && cls[undo[j]] == None
    {
      assert undo[i] in undo;
      cls[undo[i]] := None;
    }
    forall k | 0 <= k < cls.Length ensures cls[k] == before[k] {
      if k in undo {
        var j :| 0 <= j < |undo| && undo[j] == k;
      }
    }
  }
}
