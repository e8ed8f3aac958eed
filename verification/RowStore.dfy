/** Per-view storage: append-only row logs with interning, lazily extended key indexes,
    and the per-row counters, flags and queues of the incremental engine. */
module RowStore {
  import opened Wrappers
  import opened Ground

  // ------------------------------------------------------------------
  // Key indexes.

  function Project(row: Row, cols: seq<nat>): (key: Row)
    ensures |key| == |cols|
    ensures forall i :: 0 <= i < |cols| && cols[i] < |row| ==> key[i] == row[cols[i]]
  {
    seq(|cols|, i requires 0 <= i < |cols| => if cols[i] < |row| then row[cols[i]] else 0)
  }

  /** The ids of the rows that project to `key`, ascending. */
  ghost function MatchingIds(rows: seq<Row>, cols: seq<nat>, key: Row): (ids: seq<nat>)
    ensures forall i :: 0 <= i < |ids| ==> ids[i] < |rows| && Project(rows[ids[i]], cols) == key
    ensures forall i, j :: 0 <= i < j < |ids| ==> ids[i] < ids[j]
    ensures forall id :: 0 <= id < |rows| && Project(rows[id], cols) == key ==> id in ids
  {
    if rows == [] then []
    else
      var n := |rows| - 1;
      var ids := MatchingIds(rows[..n], cols, key);
      if Project(rows[n], cols) == key then ids + [n] else ids
  }

  datatype KeyIndex = KeyIndex(buckets: map<Row, seq<nat>>, consumed: nat)
  {
    function Bucket(key: Row): seq<nat> {
      if key in buckets then buckets[key] else []
    }

    /** The index lists exactly the first `consumed` rows. */
    ghost predicate Lists(rows: seq<Row>, cols: seq<nat>) {
      consumed <= |rows| && forall key: Row :: Bucket(key) == MatchingIds(rows[..consumed], cols, key)
    }
  }

  class IndexTable {
    var table: map<seq<nat>, KeyIndex>

    constructor ()
      ensures forall rows: seq<Row> :: Valid(rows)
    {
      table := map[];
    }

    /** The log only grows, so an index over a prefix stays right. */
    ghost predicate Valid(rows: seq<Row>)
      reads this
    {
      forall cols :: cols in table ==> table[cols].Lists(rows, cols)
    }

    /** Extend the index on `cols` over the rows appended since its last use. */
    method GetIndex(rows: seq<Row>, cols: seq<nat>) returns (ix: KeyIndex)
      requires Valid(rows)
      modifies this
      ensures Valid(rows)
      ensures ix.consumed == |rows| && ix.Lists(rows, cols)
    {
      ix := KeyIndex(map[], 0);
      assert rows[..0] == [];
      if cols in table {
        ix := table[cols];
      }
      while ix.consumed < |rows|
        invariant table == old(table) && ix.Lists(rows, cols)
      {
        var key := Project(rows[ix.consumed], cols);
        ListsOneMore(ix, rows, cols, key);
        ix := KeyIndex(ix.buckets[key := ix.Bucket(key) + [ix.consumed]], ix.consumed + 1);
      }
      table := table[cols := ix];
    }
  }

  lemma ListsOneMore(ix: KeyIndex, rows: seq<Row>, cols: seq<nat>, key: Row)
    requires ix.Lists(rows, cols) && ix.consumed < |rows| && key == Project(rows[ix.consumed], cols)
    ensures KeyIndex(ix.buckets[key := ix.Bucket(key) + [ix.consumed]], ix.consumed + 1).Lists(rows, cols)
  {
    var more := rows[..ix.consumed + 1];
    assert more[..ix.consumed] == rows[..ix.consumed];
    forall k: Row
      ensures KeyIndex(ix.buckets[key := ix.Bucket(key) + [ix.consumed]], ix.consumed + 1).Bucket(k)
           == MatchingIds(more, cols, k)
    {
      assert ix.Bucket(k) == MatchingIds(rows[..ix.consumed], cols, k);
    }
  }

  lemma IndexesGrow(t: IndexTable, rows: seq<Row>, more: seq<Row>)
    requires t.Valid(rows) && rows <= more
    ensures t.Valid(more)
  {
    forall cols | cols in t.table ensures t.table[cols].Lists(more, cols) {
      IndexGrows(t.table[cols], rows, more, cols);
    }
  }

  lemma IndexGrows(ix: KeyIndex, rows: seq<Row>, more: seq<Row>, cols: seq<nat>)
    requires ix.Lists(rows, cols) && rows <= more
    ensures ix.Lists(more, cols)
  {
    assert more[..ix.consumed] == rows[..ix.consumed];
  }

  // ------------------------------------------------------------------
  // Row state and the named membership predicates.

  datatype RowState = RowState(
    nr: int, rc: int, inI: bool, del: bool, add: bool,
    delNow: bool, addNow: bool, isExplicit: bool, touched: bool)
  {
    function Bumped(recursive: bool, change: int): RowState {
      if recursive then this.(rc := rc + change, touched := true) else this.(nr := nr + change, touched := true)
    }

    /** A row the current batch has not reached. */
    predicate Clean() {
      !del && !add && !delNow && !addNow && (inI <==> nr + rc > 0)
    }
  }

  const NEW_ROW := RowState(0, 0, false, false, false, false, false, false, false)

  datatype ReadK = InI | InNew | SurvivesSoFar | AliveAtClaim | InNewWithFrontier | InNewSansFrontier

  predicate Pass(s: RowState, k: ReadK) {
    match k
    case InI => s.inI
    case InNew => (s.inI && !s.del) || s.add
    case SurvivesSoFar => s.inI && !s.del
    case AliveAtClaim => s.inI && (!s.del || s.delNow)
    case InNewWithFrontier => (s.inI && !s.del) || s.add
    case InNewSansFrontier => (s.inI && !s.del) || (s.add && !s.addNow)
  }

  ghost predicate NoRepeats<T>(s: seq<T>) {
    forall i, j :: 0 <= i < j < |s| ==> s[i] != s[j]
  }

  ghost predicate InRange(q: seq<nat>, n: nat) {
    forall id :: id in q ==> id < n
  }

  /** The contents of one view: its append-only log, the interning map, one state per row,
      and the batch's queues of row ids. */
  datatype Store = Store(
    arity: nat, rows: seq<Row>, ids: map<Row, nat>, st: seq<RowState>, touched: seq<nat>,
    pendDel: seq<nat>, pendAdd: seq<nat>, claimedDel: seq<nat>, claimedAdd: seq<nat>,
    outDel: seq<nat>, outAdd: seq<nat>)
  {
    ghost predicate Interned() {
      && |st| == |rows|
      && (forall id :: 0 <= id < |rows| ==> rows[id] in ids && ids[rows[id]] == id && |rows[id]| == arity)
      && (forall r :: r in ids ==> ids[r] < |rows| && rows[ids[r]] == r)
    }

    ghost predicate QueuesFit() {
      && InRange(touched, |rows|) && InRange(pendDel, |rows|) && InRange(pendAdd, |rows|)
      && InRange(claimedDel, |rows|) && InRange(claimedAdd, |rows|)
      && InRange(outDel, |rows|) && InRange(outAdd, |rows|)
      && NoRepeats(outDel) && NoRepeats(outAdd) && NoRepeats(claimedDel) && NoRepeats(claimedAdd)
    }

    ghost predicate FlagsFit() {
      |st| == |rows| && forall id :: 0 <= id < |st| ==>
        && (st[id].touched <==> id in touched)
        && (st[id].del <==> id in claimedDel) && (st[id].add <==> id in claimedAdd)
        && (!st[id].touched ==> st[id].Clean())
    }

    ghost predicate Valid() {
      Interned() && QueuesFit() && FlagsFit()
    }

    /** The state of a row; a row never interned is in the initial state. */
    function Get(r: Row): RowState {
      if r in ids && ids[r] < |st| then st[ids[r]] else NEW_ROW
    }

    ghost function RowsOf(q: seq<nat>): set<Row> {
      set id | id in q && id < |rows| :: rows[id]
    }
  }

  function EmptyStore(arity: nat): (s: Store)
    ensures s.Valid() && forall r :: s.Get(r) == NEW_ROW
  {
    Store(arity, [], map[], [], [], [], [], [], [], [], [])
  }

  /** Intern a row: a new row goes to the end of the log in the initial state. */
  function WithRow(s: Store, r: Row): (t: Store) {
    if r in s.ids then s
    else s.(rows := s.rows + [r], st := s.st + [NEW_ROW], ids := s.ids[r := |s.rows|])
  }

  function WithTouched(s: Store, id: nat): (t: Store) {
    if id >= |s.st| || s.st[id].touched then s
    else s.(st := s.st[id := s.st[id].(touched := true)], touched := s.touched + [id])
  }

  function WithState(s: Store, id: nat, x: RowState): (t: Store) {
    if id < |s.st| then s.(st := s.st[id := x]) else s
  }

  lemma WithRowKeeps(s: Store, r: Row)
    requires s.Valid() && |r| == s.arity
    ensures WithRow(s, r).Valid() && r in WithRow(s, r).ids
    ensures forall x :: WithRow(s, r).Get(x) == s.Get(x)
  {
  }

  lemma WithRowRows(s: Store, r: Row, q: seq<nat>)
    requires InRange(q, |s.rows|)
    ensures WithRow(s, r).RowsOf(q) == s.RowsOf(q)
  {
  }

  lemma WithTouchedKeeps(s: Store, id: nat)
    requires s.Valid() && id < |s.st|
    ensures WithTouched(s, id).Valid()
    ensures WithTouched(s, id).st == s.st[id := s.st[id].(touched := true)]
  {
    var t := WithTouched(s, id);
    if !s.st[id].touched {
      assert forall k :: 0 <= k < |t.st| ==> (k in t.touched <==> k in s.touched || k == id);
    }
  }

  lemma WithStateKeeps(s: Store, id: nat, x: RowState)
    requires s.Valid() && id < |s.st|
    requires s.st[id].touched && x.touched && x.del == s.st[id].del && x.add == s.st[id].add
    ensures WithState(s, id, x).Valid()
  {
  }

  lemma GetAfter(s: Store, t: Store, id: nat, x: RowState)
    requires s.Interned() && id < |s.st|
    requires t.ids == s.ids && t.st == s.st[id := x]
    ensures t.Get(s.rows[id]) == x
    ensures forall r :: r != s.rows[id] ==> t.Get(r) == s.Get(r)
  {
  }

  lemma RowsOfPush(s: Store, q: seq<nat>, id: nat)
    requires id < |s.rows|
    ensures s.RowsOf(q + [id]) == s.RowsOf(q) + {s.rows[id]}
  {
    forall r | r in s.RowsOf(q) + {s.rows[id]} ensures r in s.RowsOf(q + [id]) {
      var k: nat :| (k in q || k == id) && k < |s.rows| && s.rows[k] == r;
      assert k in q + [id];
    }
  }

  /** The id a row has or gets when it is interned. */
  function IdOf(s: Store, r: Row): nat {
    if r in s.ids then s.ids[r] else |s.rows|
  }

  /** The store after interning and touching a row and updating its state. */
  function Updated(s: Store, r: Row, x: RowState): (t: Store) {
    WithState(WithTouched(WithRow(s, r), IdOf(s, r)), IdOf(s, r), x)
  }

  /** What an update of one row's counters does to a view: that row's state changes, no other
      row's, and the queues keep their rows. */
  ghost predicate OneRowUpdated(s: Store, t: Store, r: Row, x: RowState) {
    && t.Valid() && t.arity == s.arity && s.rows <= t.rows
    && t.Get(r) == x && (forall y :: y != r ==> t.Get(y) == s.Get(y))
    && t.outDel == s.outDel && t.outAdd == s.outAdd
    && t.claimedDel == s.claimedDel && t.claimedAdd == s.claimedAdd
  }

  lemma UpdatedKeeps(s: Store, r: Row, x: RowState)
    requires s.Valid() && |r| == s.arity
    requires x.touched && x.del == s.Get(r).del && x.add == s.Get(r).add
    ensures OneRowUpdated(s, Updated(s, r, x), r, x)
    ensures Updated(s, r, x).RowsOf(s.pendDel) == s.RowsOf(s.pendDel)
    ensures Updated(s, r, x).RowsOf(s.pendAdd) == s.RowsOf(s.pendAdd)
    ensures Updated(s, r, x).pendDel == s.pendDel && Updated(s, r, x).pendAdd == s.pendAdd
    ensures IdOf(s, r) < |Updated(s, r, x).rows| && Updated(s, r, x).rows[IdOf(s, r)] == r
  {
    var s1 := WithRow(s, r);
    var id := IdOf(s, r);
    WithRowKeeps(s, r);
    WithTouchedKeeps(s1, id);
    WithStateKeeps(WithTouched(s1, id), id, x);
    GetAfter(s1, Updated(s, r, x), id, x);
    WithRowRows(s, r, s.pendDel);
    WithRowRows(s, r, s.pendAdd);
  }

  // ------------------------------------------------------------------
  // The counter folds as functions of the store.

  function PushedAdd(s: Store, id: nat, push: bool): (t: Store) {
    if push then s.(pendAdd := s.pendAdd + [id]) else s
  }

  function PushedDel(s: Store, id: nat, push: bool): (t: Store) {
    if push then s.(pendDel := s.pendDel + [id]) else s
  }

  function Crosses(before: RowState, after: RowState): bool {
    before.nr + before.rc <= 0 && after.nr + after.rc > 0
  }

  function Exposed(x: RowState): bool {
    x.inI && x.nr <= 0
  }

  /** One counter update that may queue the row for insertion or for deletion. */
  function FoldUp(s: Store, r: Row, x: RowState): (t: Store) {
    PushedAdd(Updated(s, r, x), IdOf(s, r), Crosses(s.Get(r), x))
  }

  function FoldDown(s: Store, r: Row, x: RowState): (t: Store) {
    PushedDel(Updated(s, r, x), IdOf(s, r), Exposed(x))
  }

  lemma FoldUpKeeps(s: Store, r: Row, x: RowState)
    requires s.Valid() && |r| == s.arity
    requires x.touched && x.del == s.Get(r).del && x.add == s.Get(r).add
    ensures OneRowUpdated(s, FoldUp(s, r, x), r, x)
    ensures var t := FoldUp(s, r, x);
      && t.RowsOf(t.pendDel) == s.RowsOf(s.pendDel)
      && t.RowsOf(t.pendAdd) == s.RowsOf(s.pendAdd) + (if Crosses(s.Get(r), x) then {r} else {})
  {
    UpdatedKeeps(s, r, x);
    var u := Updated(s, r, x);
    RowsOfPush(u, u.pendAdd, IdOf(s, r));
  }

  lemma FoldDownKeeps(s: Store, r: Row, x: RowState)
    requires s.Valid() && |r| == s.arity
    requires x.touched && x.del == s.Get(r).del && x.add == s.Get(r).add
    ensures OneRowUpdated(s, FoldDown(s, r, x), r, x)
    ensures var t := FoldDown(s, r, x);
      && t.RowsOf(t.pendDel) == s.RowsOf(s.pendDel) + (if Exposed(x) then {r} else {})
      && t.RowsOf(t.pendAdd) == s.RowsOf(s.pendAdd)
  {
    UpdatedKeeps(s, r, x);
    var u := Updated(s, r, x);
    RowsOfPush(u, u.pendDel, IdOf(s, r));
  }

  function ExplicitUp(s: Store, r: Row): (t: Store) {
    if s.Get(r).isExplicit then WithRow(s, r)
    else FoldUp(s, r, s.Get(r).Bumped(false, 1).(isExplicit := true))
  }

  function ExplicitDown(s: Store, r: Row): (t: Store) {
    if s.Get(r).isExplicit then FoldDown(s, r, s.Get(r).Bumped(false, -1).(isExplicit := false))
    else WithRow(s, r)
  }

  /** Claims set the flag and the frontier flag together and log the row once. */
  function ClaimedDel(s: Store, id: nat): (t: Store)
    requires id < |s.st|
  {
    if s.st[id].del then s
    else
      var t := WithTouched(s.(st := s.st[id := s.st[id].(del := true, delNow := true)]), id);
      t.(claimedDel := s.claimedDel + [id])
  }

  function ClaimedAdd(s: Store, id: nat): (t: Store)
    requires id < |s.st|
  {
    if s.st[id].add then s
    else
      var t := WithTouched(s.(st := s.st[id := s.st[id].(add := true, addNow := true)]), id);
      t.(claimedAdd := s.claimedAdd + [id])
  }

  lemma InternKeeps(s: Store, r: Row)
    requires s.Valid() && |r| == s.arity
    ensures OneRowUpdated(s, WithRow(s, r), r, s.Get(r))
    ensures WithRow(s, r).pendDel == s.pendDel && WithRow(s, r).pendAdd == s.pendAdd
    ensures WithRow(s, r).RowsOf(s.pendDel) == s.RowsOf(s.pendDel)
    ensures WithRow(s, r).RowsOf(s.pendAdd) == s.RowsOf(s.pendAdd)
  {
    WithRowKeeps(s, r);
    WithRowRows(s, r, s.pendDel);
    WithRowRows(s, r, s.pendAdd);
  }

  lemma ClaimedDelKeeps(s: Store, id: nat)
    requires s.Valid() && id < |s.rows|
    ensures ClaimedDel(s, id).Valid() && ClaimedDel(s, id).ids == s.ids
    ensures ClaimedDel(s, id).st ==
      if s.st[id].del then s.st else s.st[id := s.st[id].(del := true, delNow := true, touched := true)]
  {
    var t := ClaimedDel(s, id);
    if !s.st[id].del {
      assert forall k :: 0 <= k < |t.st| ==> (k in t.claimedDel <==> k in s.claimedDel || k == id);
      assert forall k :: 0 <= k < |t.st| ==> (k in t.touched <==> k in s.touched || k == id);
    }
  }

  lemma ClaimedAddKeeps(s: Store, id: nat)
    requires s.Valid() && id < |s.rows|
    ensures ClaimedAdd(s, id).Valid() && ClaimedAdd(s, id).ids == s.ids
    ensures ClaimedAdd(s, id).st ==
      if s.st[id].add then s.st else s.st[id := s.st[id].(add := true, addNow := true, touched := true)]
  {
    var t := ClaimedAdd(s, id);
    if !s.st[id].add {
      assert forall k :: 0 <= k < |t.st| ==> (k in t.claimedAdd <==> k in s.claimedAdd || k == id);
      assert forall k :: 0 <= k < |t.st| ==> (k in t.touched <==> k in s.touched || k == id);
    }
  }

  // ------------------------------------------------------------------
  // One view of the incremental engine.

  class ViewModel {
    const arity: nat
    const index: IndexTable

    var rows: seq<Row>
    var ids: map<Row, nat>
    var st: seq<RowState>
    var touched: seq<nat>
    var pendDel: seq<nat>
    var pendAdd: seq<nat>
    var claimedDel: seq<nat>
    var claimedAdd: seq<nat>
    var outDel: seq<nat>
    var outAdd: seq<nat>

    function Value(): Store
      reads this
    {
      Store(arity, rows, ids, st, touched, pendDel, pendAdd, claimedDel, claimedAdd, outDel, outAdd)
    }

    constructor (n: nat)
      ensures Value() == EmptyStore(n) && fresh(index) && index.Valid([])
    {
      arity := n;
      index := new IndexTable();
      rows, ids, st := [], map[], [];
      touched, pendDel, pendAdd, claimedDel, claimedAdd, outDel, outAdd := [], [], [], [], [], [], [];
    }

    method Intern(r: Row) returns (id: nat)
      requires Value().Interned()
      modifies this
      ensures Value() == WithRow(old(Value()), r) && id == IdOf(old(Value()), r)
      ensures id < |st| && st[id] == old(Value().Get(r))
    {
      if r in ids {
        return ids[r];
      }
      id := |rows|;
      rows := rows + [r];
      st := st + [NEW_ROW];
      ids := ids[r := id];
    }

    method Touch(id: nat)
      requires id < |st|
      modifies this
      ensures Value() == WithTouched(old(Value()), id)
    {
      if !st[id].touched {
        st := st[id := st[id].(touched := true)];
        touched := touched + [id];
      }
    }

    method InternTouched(r: Row) returns (id: nat)
      requires Value().Interned()
      modifies this
      ensures Value() == WithTouched(WithRow(old(Value()), r), IdOf(old(Value()), r)) && id == IdOf(old(Value()), r)
      ensures id < |st| && st[id] == old(Value()).Get(r).(touched := true)
    {
      id := Intern(r);
      Touch(id);
    }

    /** Overwrite the state of an interned, touched row. */
    method SetState(id: nat, x: RowState)
      requires id < |st|
      modifies this`st
      ensures Value() == WithState(old(Value()), id, x)
    {
      st := st[id := x];
    }

    method PushAdd(id: nat)
      modifies this`pendAdd
      ensures Value() == PushedAdd(old(Value()), id, true)
    {
      pendAdd := pendAdd + [id];
    }

    method PushDel(id: nat)
      modifies this`pendDel
      ensures Value() == PushedDel(old(Value()), id, true)
    {
      pendDel := pendDel + [id];
    }

    /** Intern and touch a row and replace its state. */
    method Update(row: Row, x: RowState) returns (id: nat)
      requires Value().Interned()
      modifies this
      ensures Value() == Updated(old(Value()), row, x) && id == IdOf(old(Value()), row)
    {
      id := InternTouched(row);
      SetState(id, x);
    }

    /** The row's state, without interning it. */
    method Lookup(row: Row) returns (x: RowState)
      requires Value().Interned()
      ensures x == Value().Get(row)
    {
      x := if row in ids then st[ids[row]] else NEW_ROW;
    }

    /** Count a derivation; queue the row when its total crosses from nonpositive to positive. */
    method AddDerivation(row: Row, recursive: bool)
      requires Value().Interned()
      modifies this
      ensures Value() == FoldUp(old(Value()), row, old(Value()).Get(row).Bumped(recursive, 1))
    {
      var before := Lookup(row);
      var after := before.Bumped(recursive, 1);
      var id := Update(row, after);
      if before.nr + before.rc <= 0 && after.nr + after.rc > 0 {
        PushAdd(id);
      }
    }

    /** Uncount a derivation; queue a batch-start row once no non-recursive support is left. */
    method SubDerivation(row: Row, recursive: bool)
      requires Value().Interned()
      modifies this
      ensures Value() == FoldDown(old(Value()), row, old(Value()).Get(row).Bumped(recursive, -1))
    {
      var before := Lookup(row);
      var after := before.Bumped(recursive, -1);
      var id := Update(row, after);
      if after.inI && after.nr <= 0 {
        PushDel(id);
      }
    }

    /** Assert an explicit fact; asserting it again changes nothing. */
    method AddExplicit(row: Row)
      requires Value().Interned()
      modifies this
      ensures Value() == ExplicitUp(old(Value()), row)
    {
      var before := Lookup(row);
      if before.isExplicit {
        var _ := Intern(row);
        return;
      }
      var after := before.Bumped(false, 1).(isExplicit := true);
      var id := Update(row, after);
      if before.nr + before.rc <= 0 && after.nr + after.rc > 0 {
        PushAdd(id);
      }
    }

    /** Retract an explicit fact; retracting an absent one changes nothing. */
    method SubExplicit(row: Row)
      requires Value().Interned()
      modifies this
      ensures Value() == ExplicitDown(old(Value()), row)
    {
      var before := Lookup(row);
      if !before.isExplicit {
        var _ := Intern(row);
        return;
      }
      var after := before.Bumped(false, -1).(isExplicit := false);
      var id := Update(row, after);
      if after.inI && after.nr <= 0 {
        PushDel(id);
      }
    }

    /** Claim a queued row for D.  Aborts on a row that still has non-recursive support. */
    method TryClaimDel(id: nat) returns (claimed: Result<bool>)
      requires id < |st|
      modifies this
      ensures claimed.Failure? <==> !old(st)[id].del && old(st)[id].nr > 0
      ensures claimed.Success? ==> claimed.value == !old(st)[id].del && Value() == ClaimedDel(old(Value()), id)
    {
      if st[id].del {
        return Success(false);
      }
      if st[id].nr > 0 {
        return Failure("TryClaimDel on a row with C_nr > 0");
      }
      st := st[id := st[id].(del := true, delNow := true)];
      Touch(id);
      claimedDel := claimedDel + [id];
      return Success(true);
    }

    /** Claim a queued row for A. */
    method TryClaimAdd(id: nat) returns (claimed: bool)
      requires id < |st|
      modifies this
      ensures claimed == !old(st)[id].add && Value() == ClaimedAdd(old(Value()), id)
    {
      if st[id].add {
        return false;
      }
      st := st[id := st[id].(add := true, addNow := true)];
      Touch(id);
      claimedAdd := claimedAdd + [id];
      return true;
    }
  }
}
