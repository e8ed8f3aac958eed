/** Where a rule's body rows come from: the incremental stores read through the named
    membership predicates, or the from-scratch sets read as they are. */
module Sources {
  import opened Wrappers
  import opened Ground
  import opened RowStore

  /** A from-scratch view: presence only. */
  class ScratchView {
    const index: IndexTable
    var rows: seq<Row>
    var ids: map<Row, nat>

    ghost predicate Valid()
      reads this
    {
      && (forall id :: 0 <= id < |rows| ==> rows[id] in ids && ids[rows[id]] == id)
      && (forall r :: r in ids ==> ids[r] < |rows| && rows[ids[r]] == r)
    }

    ghost function Set(): (s: set<Row>)
      reads this
    {
      ids.Keys
    }

    constructor ()
      ensures Valid() && Set() == {} && rows == [] && fresh(index) && index.Valid([])
    {
      index := new IndexTable();
      rows, ids := [], map[];
    }

    /** Add a row unless it is there already. */
    method Add(r: Row) returns (added: bool)
      requires Valid()
      modifies this
      ensures Valid() && old(rows) <= rows
      ensures added == (r !in old(Set())) && Set() == old(Set()) + {r}
    {
      if r in ids {
        return false;
      }
      ids := ids[r := |rows|];
      rows := rows + [r];
      return true;
    }
  }

  /** One source of body rows: `kinds` names the membership predicate of each position when
      the source is incremental; `indexes` are the views' index tables. */
  datatype Source = Source(
    incremental: bool, kinds: seq<ReadK>, models: seq<ViewModel>, views: seq<ScratchView>, indexes: seq<IndexTable>)
  {
    function Size(): nat {
      if incremental then |models| else |views|
    }

    /** Every log is consistent with its interning map and every index with its log. */
    ghost predicate Valid()
      reads models, views, indexes
    {
      && |indexes| == Size()
      && (forall u, v :: 0 <= u < v < |indexes| ==> indexes[u] != indexes[v])
      && (if incremental then
            forall v :: 0 <= v < |models| ==>
              models[v].Value().Interned() && models[v].index == indexes[v] && indexes[v].Valid(models[v].rows)
          else
            forall v :: 0 <= v < |views| ==>
              views[v].Valid() && views[v].index == indexes[v] && indexes[v].Valid(views[v].rows))
    }

    /** Position `p` may read view `v`. */
    predicate Covers(v: nat, p: nat) {
      v < Size() && (incremental ==> p < |kinds|)
    }

    /** The rows of view `v` that position `p` may read. */
    ghost function Rows(v: nat, p: nat): (s: set<Row>)
      requires Covers(v, p)
      reads models, views
    {
      if incremental then
        (set r | r in models[v].ids && Pass(models[v].Value().Get(r), kinds[p]))
      else
        views[v].Set()
    }
  }

  /** The log positions of the rows that may match a key: all of them, or one index bucket. */
  method KeyedIds(rows: seq<Row>, index: IndexTable, keyCols: seq<nat>, keyVals: Row) returns (ids: seq<nat>)
    requires index.Valid(rows) && |keyVals| == |keyCols|
    modifies index
    ensures index.Valid(rows)
    ensures NoRepeats(ids) && InRange(ids, |rows|)
    ensures forall id :: 0 <= id < |rows| ==> (id in ids <==> Project(rows[id], keyCols) == keyVals)
  {
    if keyCols == [] {
      ids := seq(|rows|, i => i);
      assert forall id :: 0 <= id < |rows| ==> ids[id] == id && Project(rows[id], keyCols) == keyVals;
    } else {
      var ix := index.GetIndex(rows, keyCols);
      ids := ix.Bucket(keyVals);
      assert rows[..|rows|] == rows;
      assert ids == MatchingIds(rows, keyCols, keyVals);
    }
  }

  method PassingRows(vm: ViewModel, ids: seq<nat>, k: ReadK) returns (cands: seq<Row>)
    requires vm.Value().Interned() && NoRepeats(ids) && InRange(ids, |vm.rows|)
    ensures NoRepeats(cands)
    ensures forall r :: r in cands <==> r in vm.ids && vm.ids[r] in ids && Pass(vm.Value().Get(r), k)
  {
    cands := [];
    for i := 0 to |ids|
      invariant NoRepeats(cands)
      invariant forall r :: r in cands <==> r in vm.ids && vm.ids[r] in ids[..i] && Pass(vm.Value().Get(r), k)
    {
      assert ids[i] in ids;
      if Pass(vm.st[ids[i]], k) {
        cands := cands + [vm.rows[ids[i]]];
      }
    }
    assert ids[..|ids|] == ids;
  }

  method ListedRows(sv: ScratchView, ids: seq<nat>) returns (cands: seq<Row>)
    requires sv.Valid() && NoRepeats(ids) && InRange(ids, |sv.rows|)
    ensures NoRepeats(cands)
    ensures forall r :: r in cands <==> r in sv.ids && sv.ids[r] in ids
  {
    cands := [];
    for i := 0 to |ids|
      invariant NoRepeats(cands)
      invariant forall r :: r in cands <==> r in sv.ids && sv.ids[r] in ids[..i]
    {
      assert ids[i] in ids;
      cands := cands + [sv.rows[ids[i]]];
    }
    assert ids[..|ids|] == ids;
  }

  /** The candidate rows of view `v` at position `p` whose key columns hold `keyVals`. */
  method ForEach(src: Source, v: nat, p: nat, keyCols: seq<nat>, keyVals: Row) returns (cands: seq<Row>)
    requires src.Valid() && src.Covers(v, p) && |keyVals| == |keyCols|
    modifies src.indexes
    ensures src.Valid()
    ensures NoRepeats(cands)
    ensures forall r :: r in cands <==> r in src.Rows(v, p) && Project(r, keyCols) == keyVals
  {
    hide IndexTable.Valid, NoRepeats, InRange;
    if src.incremental {
      cands := ModelRows(src.models[v], src.indexes[v], src.kinds[p], keyCols, keyVals);
    } else {
      cands := ScratchRows(src.views[v], src.indexes[v], keyCols, keyVals);
    }
  }

  method ModelRows(vm: ViewModel, index: IndexTable, k: ReadK, keyCols: seq<nat>, keyVals: Row) returns (cands: seq<Row>)
    requires vm.Value().Interned() && index.Valid(vm.rows) && |keyVals| == |keyCols|
    modifies index
    ensures index.Valid(vm.rows)
    ensures NoRepeats(cands)
    ensures forall r :: r in cands <==> r in vm.ids && Pass(vm.Value().Get(r), k) && Project(r, keyCols) == keyVals
  {
    hide IndexTable.Valid, NoRepeats, InRange;
    var ids := KeyedIds(vm.rows, index, keyCols, keyVals);
    cands := PassingRows(vm, ids, k);
  }

  method ScratchRows(sv: ScratchView, index: IndexTable, keyCols: seq<nat>, keyVals: Row) returns (cands: seq<Row>)
    requires sv.Valid() && index.Valid(sv.rows) && |keyVals| == |keyCols|
    modifies index
    ensures index.Valid(sv.rows)
    ensures NoRepeats(cands)
    ensures forall r :: r in cands <==> r in sv.Set() && Project(r, keyCols) == keyVals
  {
    hide IndexTable.Valid, NoRepeats, InRange;
    var ids := KeyedIds(sv.rows, index, keyCols, keyVals);
    cands := ListedRows(sv, ids);
  }

  /** The absence test of a negated position. */
  method Contains(src: Source, v: nat, p: nat, row: Row) returns (found: bool)
    requires src.Valid() && src.Covers(v, p)
    ensures found == (row in src.Rows(v, p))
  {
    if src.incremental {
      var vm := src.models[v];
      found := row in vm.ids && Pass(vm.st[vm.ids[row]], src.kinds[p]);
    } else {
      found := row in src.views[v].ids;
    }
  }
}
