/** Aggregate views: the group-wise definition of the four reductions, and the one-pass
    reduction over a list of member rows that computes it whatever the order of the rows. */
module Aggregates {
  import opened Wrappers
  import opened Ground
  import opened RowStore
  import opened Rules

  // ------------------------------------------------------------------
  // The definition.

  function InputValue(s: Slot, row: Row): Value {
    match s
    case Const(v) => v
    case Column(_, c) => if c < |row| then row[c] else 0
    case MapResult => 0
  }

  function KeyOf(a: Aggregate, row: Row): (key: Row)
    ensures |key| == |a.keySlots|
  {
    seq(|a.keySlots|, i requires 0 <= i < |a.keySlots| => InputValue(a.keySlots[i], row))
  }

  function Measure(a: Aggregate, row: Row): int {
    Signed(InputValue(a.valSlot, row))
  }

  predicate Gated(a: Aggregate) {
    a.kind.SumAboveAgg? || a.kind.MaxAboveAgg?
  }

  /** A member passes the gate when its value reaches the threshold in its group key. */
  predicate AboveGate(a: Aggregate, row: Row) {
    var key := KeyOf(a, row);
    !Gated(a) || (0 <= |key| - a.numConfig < |key| && Measure(a, row) >= Signed(key[|key| - a.numConfig]))
  }

  ghost function Group(a: Aggregate, rows: set<Row>, key: Row): set<Row> {
    set row | row in rows && KeyOf(a, row) == key
  }

  /** The members of a group that take part in the reduction. */
  ghost function Contributing(a: Aggregate, rows: set<Row>, key: Row): set<Row> {
    set row | row in rows && KeyOf(a, row) == key && AboveGate(a, row)
  }

  ghost function SumOf(a: Aggregate, rows: set<Row>): int {
    if rows == {} then 0
    else
      var row :| row in rows;
      Measure(a, row) + SumOf(a, rows - {row})
  }

  lemma {:induction false} TotalSplit(a: Aggregate, rows: set<Row>, row: Row)
    requires row in rows
    ensures SumOf(a, rows) == Measure(a, row) + SumOf(a, rows - {row})
    decreases rows
  {
    var other :| other in rows && SumOf(a, rows) == Measure(a, other) + SumOf(a, rows - {other});
    if other != row {
      TotalSplit(a, rows - {other}, row);
      TotalSplit(a, rows - {row}, other);
      assert rows - {other} - {row} == rows - {row} - {other};
    }
  }

  ghost predicate IsMaximum(a: Aggregate, rows: set<Row>, m: int) {
    (exists row :: row in rows && Measure(a, row) == m) && forall row :: row in rows ==> Measure(a, row) <= m
  }

  /** A non-empty group has exactly one maximum. */
  lemma {:induction false} MaximumExists(a: Aggregate, rows: set<Row>) returns (m: int)
    requires rows != {}
    ensures IsMaximum(a, rows, m)
    decreases rows
  {
    var row :| row in rows;
    if rows == {row} {
      m := Measure(a, row);
    } else {
      m := MaximumExists(a, rows - {row});
      if Measure(a, row) > m {
        m := Measure(a, row);
      }
    }
  }

  /** What a group reduces to; `None` for a maximum without a member above the gate. */
  ghost predicate Reduces(a: Aggregate, rows: set<Row>, key: Row, summary: int) {
    match a.kind
    case SumAgg => summary == SumOf(a, Group(a, rows, key))
    case CountAgg => summary == |Group(a, rows, key)|
    case SumAboveAgg => summary == SumOf(a, Contributing(a, rows, key))
    case MaxAboveAgg => IsMaximum(a, Contributing(a, rows, key), summary)
  }

  /** The aggregate's rows: one per group that has a summary, key first, summary last. */
  ghost predicate IsDesired(a: Aggregate, rows: set<Row>, out: Row) {
    exists key: Row, summary: int ::
      Group(a, rows, key) != {} && Reduces(a, rows, key, summary) && out == key + [Unsigned(summary)]
  }

  /** A group has a summary, and so a row, exactly when it needs no member above the gate or has one. */
  lemma EmitsIffAbove(a: Aggregate, rows: set<Row>, key: Row)
    ensures (exists summary :: Reduces(a, rows, key, summary)) <==> !a.kind.MaxAboveAgg? || Contributing(a, rows, key) != {}
  {
    match a.kind
    case SumAgg => assert Reduces(a, rows, key, SumOf(a, Group(a, rows, key)));
    case CountAgg => assert Reduces(a, rows, key, |Group(a, rows, key)|);
    case SumAboveAgg => assert Reduces(a, rows, key, SumOf(a, Contributing(a, rows, key)));
    case MaxAboveAgg =>
      if Contributing(a, rows, key) != {} {
        var m := MaximumExists(a, Contributing(a, rows, key));
        assert Reduces(a, rows, key, m);
      }
  }

  lemma ReducesOnce(a: Aggregate, rows: set<Row>, key: Row, m: int, m': int)
    requires Reduces(a, rows, key, m) && Reduces(a, rows, key, m')
    ensures m == m'
  {
  }

  // ------------------------------------------------------------------
  // The one-pass reduction.

  /** The groups met so far, each once. */
  ghost predicate Registered(a: Aggregate, seen: set<Row>, order: seq<Row>) {
    && NoRepeats(order)
    && (forall key :: key in order <==> Group(a, seen, key) != {})
    && (forall key :: key in order ==> |key| == |a.keySlots|)
  }

  ghost predicate Maxima(a: Aggregate, seen: set<Row>, acc: map<Row, int>, gateSeen: map<Row, bool>, order: seq<Row>) {
    && (forall key :: key in gateSeen <==> key in order)
    && (forall key :: key in gateSeen ==> (gateSeen[key] <==> Contributing(a, seen, key) != {}))
    && (forall key :: key in gateSeen && gateSeen[key] ==> key in acc && Reduces(a, seen, key, acc[key]))
  }

  /** Accumulators after the rows in `seen`. */
  ghost predicate Accumulated(a: Aggregate, seen: set<Row>, acc: map<Row, int>, gateSeen: map<Row, bool>, order: seq<Row>) {
    && Registered(a, seen, order)
    && if a.kind.MaxAboveAgg? then
         Maxima(a, seen, acc, gateSeen, order)
       else
         && (forall key :: key in acc <==> key in order)
         && (forall key :: key in order ==> Reduces(a, seen, key, acc[key]))
  }

  lemma OthersKeep(a: Aggregate, seen: set<Row>, row: Row, key: Row, m: int)
    requires key != KeyOf(a, row)
    ensures Group(a, seen + {row}, key) == Group(a, seen, key)
    ensures Contributing(a, seen + {row}, key) == Contributing(a, seen, key)
    ensures Reduces(a, seen + {row}, key, m) == Reduces(a, seen, key, m)
  {
    assert Group(a, seen + {row}, key) == Group(a, seen, key);
    assert Contributing(a, seen + {row}, key) == Contributing(a, seen, key);
  }

  /** One more member of its own group. */
  lemma OwnGrows(a: Aggregate, seen: set<Row>, row: Row)
    requires row !in seen
    ensures
      var key := KeyOf(a, row);
      && Group(a, seen + {row}, key) == Group(a, seen, key) + {row}
      && Contributing(a, seen + {row}, key) == Contributing(a, seen, key) + (if AboveGate(a, row) then {row} else {})
      && SumOf(a, Group(a, seen + {row}, key)) == SumOf(a, Group(a, seen, key)) + Measure(a, row)
      && (AboveGate(a, row) ==> SumOf(a, Contributing(a, seen + {row}, key)) == SumOf(a, Contributing(a, seen, key)) + Measure(a, row))
  {
    var key := KeyOf(a, row);
    var grp, cnt := Group(a, seen + {row}, key), Contributing(a, seen + {row}, key);
    assert grp == Group(a, seen, key) + {row};
    assert cnt == Contributing(a, seen, key) + (if AboveGate(a, row) then {row} else {});
    TotalSplit(a, grp, row);
    assert grp - {row} == Group(a, seen, key);
    if AboveGate(a, row) {
      TotalSplit(a, cnt, row);
      assert cnt - {row} == Contributing(a, seen, key);
    }
  }

  function Max(x: int, y: int): int {
    if x < y then y else x
  }

  /** The accumulator of the row's group after the row: sum and count reductions. */
  function Folded(a: Aggregate, old0: Option<int>, v: int, above: bool): int {
    match a.kind
    case SumAgg => (if old0.Some? then old0.value + v else v)
    case CountAgg => (if old0.Some? then old0.value + 1 else 1)
    case SumAboveAgg => (if old0.Some? then (if above then old0.value + v else old0.value) else if above then v else 0)
    case MaxAboveAgg => (if old0.Some? then Max(old0.value, v) else v)
  }

  lemma GroupSize(a: Aggregate, seen: set<Row>, row: Row)
    requires row !in seen
    ensures |Group(a, seen + {row}, KeyOf(a, row))| == |Group(a, seen, KeyOf(a, row))| + 1
  {
    var key := KeyOf(a, row);
    assert Group(a, seen + {row}, key) == Group(a, seen, key) + {row};
  }

  lemma SumOfNone(a: Aggregate)
    ensures SumOf(a, {}) == 0
  {
  }

  lemma FoldedReduces(a: Aggregate, seen: set<Row>, row: Row, old0: Option<int>)
    requires row !in seen && !a.kind.MaxAboveAgg?
    requires old0.Some? ==> Reduces(a, seen, KeyOf(a, row), old0.value)
    requires old0.None? ==> Group(a, seen, KeyOf(a, row)) == {}
    ensures Reduces(a, seen + {row}, KeyOf(a, row), Folded(a, old0, Measure(a, row), AboveGate(a, row)))
  {
    hide Group, Contributing, SumOf, KeyOf, Measure, AboveGate;
    OwnGrows(a, seen, row);
    ContributingWithin(a, seen, KeyOf(a, row));
    SumOfNone(a);
    GroupSize(a, seen, row);
  }

  lemma MaximumOfMore(a: Aggregate, rows: set<Row>, row: Row, m: int)
    requires IsMaximum(a, rows, m)
    ensures IsMaximum(a, rows + {row}, Max(m, Measure(a, row)))
  {
    var best :| best in rows && Measure(a, best) == m;
    assert best in rows + {row} && row in rows + {row};
  }

  lemma MaximumOfOne(a: Aggregate, row: Row)
    ensures IsMaximum(a, {row}, Measure(a, row))
  {
    assert row in {row};
  }

  lemma MaximumGrows(a: Aggregate, seen: set<Row>, row: Row, old0: Option<int>)
    requires row !in seen && a.kind.MaxAboveAgg? && AboveGate(a, row)
    requires old0.Some? ==> Reduces(a, seen, KeyOf(a, row), old0.value)
    requires old0.None? ==> Contributing(a, seen, KeyOf(a, row)) == {}
    ensures Reduces(a, seen + {row}, KeyOf(a, row), Folded(a, old0, Measure(a, row), true))
  {
    hide IsMaximum, Measure, KeyOf, AboveGate, SumOf, Contributing, Group;
    OwnGrows(a, seen, row);
    var key := KeyOf(a, row);
    if old0.Some? {
      MaximumOfMore(a, Contributing(a, seen, key), row, old0.value);
    } else {
      assert {} + {row} == {row};
      MaximumOfOne(a, row);
    }
  }

  lemma ContributingWithin(a: Aggregate, rows: set<Row>, key: Row)
    ensures Group(a, rows, key) == {} ==> Contributing(a, rows, key) == {}
  {
    assert Contributing(a, rows, key) <= Group(a, rows, key);
  }

  lemma OrderGrows(a: Aggregate, seen: set<Row>, row: Row, order: seq<Row>, order': seq<Row>)
    requires Registered(a, seen, order)
    requires row !in seen && order' == if KeyOf(a, row) in order then order else order + [KeyOf(a, row)]
    ensures Registered(a, seen + {row}, order')
    ensures KeyOf(a, row) !in order ==> Group(a, seen, KeyOf(a, row)) == {} && Contributing(a, seen, KeyOf(a, row)) == {}
    ensures forall key :: key in order' <==> key in order || key == KeyOf(a, row)
  {
    hide KeyOf, AboveGate;
    ContributingWithin(a, seen, KeyOf(a, row));
    assert order' == if KeyOf(a, row) in order then order else order + [KeyOf(a, row)];
    forall key ensures key in order' <==> Group(a, seen + {row}, key) != {} {
      if key == KeyOf(a, row) {
        assert row in Group(a, seen + {row}, key);
      } else {
        OthersKeep(a, seen, row, key, 0);
      }
    }
  }

  /** Groups other than the row's are untouched. */
  ghost predicate OthersSame(a: Aggregate, seen: set<Row>, row: Row) {
    && (forall key, m :: key != KeyOf(a, row) ==> Reduces(a, seen + {row}, key, m) == Reduces(a, seen, key, m))
    && (forall key :: key != KeyOf(a, row) ==>
          (Contributing(a, seen + {row}, key) != {} <==> Contributing(a, seen, key) != {}))
  }

  lemma OthersAreSame(a: Aggregate, seen: set<Row>, row: Row)
    ensures OthersSame(a, seen, row)
  {
    forall key, m | key != KeyOf(a, row) ensures Reduces(a, seen + {row}, key, m) == Reduces(a, seen, key, m) {
      OthersKeep(a, seen, row, key, m);
    }
    forall key | key != KeyOf(a, row)
      ensures Contributing(a, seen + {row}, key) != {} <==> Contributing(a, seen, key) != {}
    {
      OthersKeep(a, seen, row, key, 0);
    }
  }

  /** Fold one member into its group's accumulator: sums and counts. */
  lemma AccumulatedMore(a: Aggregate, seen: set<Row>, row: Row, acc: map<Row, int>, order: seq<Row>, order': seq<Row>)
    requires !a.kind.MaxAboveAgg? && Accumulated(a, seen, acc, map[], order) && row !in seen
    requires order' == if KeyOf(a, row) in order then order else order + [KeyOf(a, row)]
    ensures
      var key := KeyOf(a, row);
      Accumulated(a, seen + {row},
        acc[key := Folded(a, if key in acc then Some(acc[key]) else None, Measure(a, row), AboveGate(a, row))], map[], order')
  {
    hide Reduces, AboveGate, Group, Contributing, Measure, Folded, Registered;
    var key := KeyOf(a, row);
    OthersAreSame(a, seen, row);
    OrderGrows(a, seen, row, order, order');
    FoldedReduces(a, seen, row, if key in acc then Some(acc[key]) else None);
  }

  /** The maximum of the row's group so far. */
  function Seen(acc: map<Row, int>, gateSeen: map<Row, bool>, key: Row): Option<int> {
    if key in gateSeen && gateSeen[key] && key in acc then Some(acc[key]) else None
  }

  /** Fold one member into its group's accumulator: a member above the gate. */
  lemma MaximumMore(a: Aggregate, seen: set<Row>, row: Row, acc: map<Row, int>, gateSeen: map<Row, bool>, order: seq<Row>, order': seq<Row>)
    requires a.kind.MaxAboveAgg? && Accumulated(a, seen, acc, gateSeen, order) && row !in seen && AboveGate(a, row)
    requires order' == if KeyOf(a, row) in order then order else order + [KeyOf(a, row)]
    ensures
      var key := KeyOf(a, row);
      Accumulated(a, seen + {row}, acc[key := Folded(a, Seen(acc, gateSeen, key), Measure(a, row), true)], gateSeen[key := true], order')
  {
    hide Reduces, AboveGate, Group, Contributing, Measure, Folded, Registered;
    var key := KeyOf(a, row);
    OthersAreSame(a, seen, row);
    OrderGrows(a, seen, row, order, order');
    ContributingGrows(a, seen, row);
    MaximumGrows(a, seen, row, Seen(acc, gateSeen, key));
  }

  /** A member below the gate only registers its group. */
  lemma MaximumSkips(a: Aggregate, seen: set<Row>, row: Row, acc: map<Row, int>, gateSeen: map<Row, bool>, order: seq<Row>, order': seq<Row>)
    requires a.kind.MaxAboveAgg? && Accumulated(a, seen, acc, gateSeen, order) && row !in seen && !AboveGate(a, row)
    requires order' == if KeyOf(a, row) in order then order else order + [KeyOf(a, row)]
    ensures
      var key := KeyOf(a, row);
      Accumulated(a, seen + {row}, acc, if key in gateSeen then gateSeen else gateSeen[key := false], order')
  {
    hide Reduces, AboveGate, Group, Contributing, Measure, Folded, Registered;
    var key := KeyOf(a, row);
    OthersAreSame(a, seen, row);
    OrderGrows(a, seen, row, order, order');
    ContributingGrows(a, seen, row);
    if key in order && gateSeen[key] {
      MaximumStays(a, seen, row, acc[key]);
    }
  }

  lemma ContributingGrows(a: Aggregate, seen: set<Row>, row: Row)
    requires row !in seen
    ensures
      var key := KeyOf(a, row);
      Contributing(a, seen + {row}, key) != {} <==> Contributing(a, seen, key) != {} || AboveGate(a, row)
  {
    OwnGrows(a, seen, row);
  }

  lemma MaximumStays(a: Aggregate, seen: set<Row>, row: Row, m: int)
    requires row !in seen && a.kind.MaxAboveAgg? && !AboveGate(a, row) && Reduces(a, seen, KeyOf(a, row), m)
    ensures Reduces(a, seen + {row}, KeyOf(a, row), m)
  {
    OwnGrows(a, seen, row);
    var key := KeyOf(a, row);
    assert Contributing(a, seen + {row}, key) == Contributing(a, seen, key);
  }

  // ------------------------------------------------------------------
  // What the definition says of the input columns.

  /** The slot takes `v` from this row. */
  ghost predicate Takes(s: Slot, row: Row, v: Value) {
    s == Const(v) || (s.Column? && s.col < |row| && row[s.col] == v)
  }

  /** A row that gives the group key `key` and the value `v`. */
  ghost predicate Member(a: Aggregate, row: Row, key: Row, v: Value) {
    && |key| == |a.keySlots| && (forall i :: 0 <= i < |key| ==> Takes(a.keySlots[i], row, key[i]))
    && Takes(a.valSlot, row, v)
  }

  /** Every slot finds its column in the row. */
  ghost predicate Readable(a: Aggregate, row: Row) {
    exists key, v :: Member(a, row, key, v)
  }

  /** Gated kinds have a threshold among their key columns. */
  predicate Configured(a: Aggregate) {
    Gated(a) ==> 1 <= a.numConfig <= |a.keySlots|
  }

  /** The value is at least the threshold in the group key. */
  predicate Reaches(a: Aggregate, key: Row, v: Value)
    requires 1 <= a.numConfig <= |a.keySlots| == |key|
  {
    Signed(key[|a.keySlots| - a.numConfig]) <= Signed(v)
  }

  lemma MemberReads(a: Aggregate, row: Row, key: Row, v: Value)
    requires Member(a, row, key, v)
    ensures KeyOf(a, row) == key && Measure(a, row) == Signed(v)
    ensures Gated(a) && 1 <= a.numConfig <= |a.keySlots| ==> (AboveGate(a, row) <==> Reaches(a, key, v))
    ensures !Gated(a) ==> AboveGate(a, row)
  {
  }

  lemma NoMembers(a: Aggregate, key: Row)
    ensures a.kind.MaxAboveAgg? ==> forall m :: !Reduces(a, {}, key, m)
    ensures !a.kind.MaxAboveAgg? ==> Reduces(a, {}, key, 0)
  {
    assert Group(a, {}, key) == {} && Contributing(a, {}, key) == {};
  }

  /** A member that joins changes the summary of its own group only: a sum by its value, a count by one,
      a sum above the threshold by its value if that reaches the threshold, and a maximum above the
      threshold to the greater of the two if it does. */
  lemma MemberJoins(a: Aggregate, rows: set<Row>, row: Row, key: Row, v: Value, m: int)
    requires Member(a, row, key, v) && row !in rows && Configured(a)
    ensures a.kind.SumAgg? && Reduces(a, rows, key, m) ==> Reduces(a, rows + {row}, key, m + Signed(v))
    ensures a.kind.CountAgg? && Reduces(a, rows, key, m) ==> Reduces(a, rows + {row}, key, m + 1)
    ensures a.kind.SumAboveAgg? && Reduces(a, rows, key, m)
      ==> Reduces(a, rows + {row}, key, if Reaches(a, key, v) then m + Signed(v) else m)
    ensures a.kind.MaxAboveAgg? && Reduces(a, rows, key, m)
      ==> Reduces(a, rows + {row}, key, if Reaches(a, key, v) then Max(m, Signed(v)) else m)
    ensures a.kind.MaxAboveAgg? && (forall x :: !Reduces(a, rows, key, x))
      ==> if Reaches(a, key, v) then Reduces(a, rows + {row}, key, Signed(v)) else forall x :: !Reduces(a, rows + {row}, key, x)
    ensures forall other, x :: other != key ==> (Reduces(a, rows + {row}, other, x) <==> Reduces(a, rows, other, x))
  {
    hide Member, KeyOf, Measure, AboveGate, Reaches, SumOf, Group, Contributing, IsMaximum;
    MemberReads(a, row, key, v);
    OthersAreSame(a, rows, row);
    EmitsIffAbove(a, rows, key);
    EmitsIffAbove(a, rows + {row}, key);
    ContributingGrows(a, rows, row);
    if a.kind.MaxAboveAgg? {
      if AboveGate(a, row) {
        var old0 := if Reduces(a, rows, key, m) then Some(m) else None;
        if Reduces(a, rows, key, m) || forall x :: !Reduces(a, rows, key, x) {
          MaximumGrows(a, rows, row, old0);
        }
      } else if Reduces(a, rows, key, m) {
        MaximumStays(a, rows, row, m);
      }
    } else if Reduces(a, rows, key, m) {
      SummaryGrows(a, rows, row, m);
    }
  }

  lemma SummaryGrows(a: Aggregate, rows: set<Row>, row: Row, m: int)
    requires row !in rows && !a.kind.MaxAboveAgg? && Reduces(a, rows, KeyOf(a, row), m)
    ensures Reduces(a, rows + {row}, KeyOf(a, row), Folded(a, Some(m), Measure(a, row), AboveGate(a, row)))
  {
    FoldedReduces(a, rows, row, Some(m));
  }

  /** A row of a maximum above a threshold: the greatest value of a group, which reaches the threshold. */
  ghost predicate GreatestRow(a: Aggregate, rows: set<Row>, out: Row)
    requires 1 <= a.numConfig <= |a.keySlots|
  {
    var n := |a.keySlots|;
    && |out| == n + 1 && Reaches(a, out[..n], out[n])
    && (exists row :: row in rows && Member(a, row, out[..n], out[n]))
    && (forall row, v :: row in rows && Member(a, row, out[..n], v) ==> Signed(v) <= Signed(out[n]))
  }

  lemma DesiredIsGreatest(a: Aggregate, rows: set<Row>, key: Row, m: int)
    requires a.kind.MaxAboveAgg? && Configured(a) && Reduces(a, rows, key, m)
    requires forall row :: row in rows ==> Readable(a, row)
    ensures |key| == |a.keySlots| && GreatestRow(a, rows, key + [Unsigned(m)])
  {
    hide KeyOf, Measure, AboveGate, Takes, Reaches;
    var best :| best in Contributing(a, rows, key) && Measure(a, best) == m;
    assert Readable(a, best);
    var key', v :| Member(a, best, key', v);
    MemberReads(a, best, key', v);
    SignedOnce(v, Unsigned(m));
    var out := key + [Unsigned(m)];
    assert out[..|key|] == key && out[|key|] == v;
    forall row, w | row in rows && Member(a, row, key, w) ensures Signed(w) <= m {
      MemberReads(a, row, key, w);
      BelowReaches(a, key, v, w);
      assert Reaches(a, key, w) ==> row in Contributing(a, rows, key);
    }
  }

  lemma BelowReaches(a: Aggregate, key: Row, v: Value, w: Value)
    requires 1 <= a.numConfig <= |a.keySlots| == |key| && Reaches(a, key, v)
    ensures Signed(w) <= Signed(v) || Reaches(a, key, w)
  {
  }

  lemma GreatestIsDesired(a: Aggregate, rows: set<Row>, key: Row, v: Value)
    requires a.kind.MaxAboveAgg? && Configured(a) && |key| == |a.keySlots| && GreatestRow(a, rows, key + [v])
    requires forall row :: row in rows ==> Readable(a, row)
    ensures Group(a, rows, key) != {} && Reduces(a, rows, key, Signed(v))
  {
    hide KeyOf, Measure, AboveGate, Takes, Reaches;
    var out := key + [v];
    assert out[..|key|] == key && out[|key|] == v;
    var best :| best in rows && Member(a, best, key, v);
    MemberReads(a, best, key, v);
    assert best in Group(a, rows, key) && best in Contributing(a, rows, key);
    forall row | row in Contributing(a, rows, key) ensures Measure(a, row) <= Signed(v) {
      assert Readable(a, row);
      var key', w :| Member(a, row, key', w);
      MemberReads(a, row, key', w);
    }
  }

  /** The desired rows of a maximum above a threshold are those of the groups whose greatest value
      reaches it. */
  lemma GreatestDesired(a: Aggregate, rows: set<Row>, out: Row)
    requires a.kind.MaxAboveAgg? && Configured(a) && forall row :: row in rows ==> Readable(a, row)
    ensures IsDesired(a, rows, out) <==> GreatestRow(a, rows, out)
  {
    hide GreatestRow, Readable, Reduces, Group;
    if IsDesired(a, rows, out) {
      var key: Row, m: int :| Group(a, rows, key) != {} && Reduces(a, rows, key, m) && out == key + [Unsigned(m)];
      DesiredIsGreatest(a, rows, key, m);
    }
    if GreatestRow(a, rows, out) {
      GreatestSize(a, rows, out);
      var key, v := out[..|a.keySlots|], out[|a.keySlots|];
      assert out == key + [v];
      GreatestIsDesired(a, rows, key, v);
      SignedOnce(v, Unsigned(Signed(v)));
    }
  }

  lemma GreatestSize(a: Aggregate, rows: set<Row>, out: Row)
    requires 1 <= a.numConfig <= |a.keySlots| && GreatestRow(a, rows, out)
    ensures |out| == |a.keySlots| + 1
  {
  }

  /** A member that reaches the threshold gives its group a row, with a summary no smaller than its value. */
  lemma ReachingMember(a: Aggregate, rows: set<Row>, row: Row, key: Row, v: Value) returns (best: Value)
    requires a.kind.MaxAboveAgg? && Configured(a) && forall r :: r in rows ==> Readable(a, r)
    requires row in rows && Member(a, row, key, v) && Reaches(a, key, v)
    ensures IsDesired(a, rows, key + [best]) && Signed(v) <= Signed(best)
  {
    hide KeyOf, Measure, AboveGate, Takes, Reaches, GreatestRow, Readable;
    MemberReads(a, row, key, v);
    assert row in Contributing(a, rows, key) && row in Group(a, rows, key);
    var m := MaximumExists(a, Contributing(a, rows, key));
    assert Reduces(a, rows, key, m);
    best := Unsigned(m);
    assert IsDesired(a, rows, key + [best]);
    SummaryInRange(a, rows, key, m);
  }

  lemma SummaryInRange(a: Aggregate, rows: set<Row>, key: Row, m: int)
    requires a.kind.MaxAboveAgg? && Reduces(a, rows, key, m)
    ensures Signed(Unsigned(m)) == m
  {
    var row :| row in Contributing(a, rows, key) && Measure(a, row) == m;
  }

  lemma SignedOnce(v: Value, w: Value)
    requires Signed(w) == Signed(v) || w == Unsigned(Signed(v))
    ensures v == w
  {
  }

  /** Every aggregate row belongs to a group that has a member, and ends in its summary. */
  lemma DesiredHasMember(a: Aggregate, rows: set<Row>, out: Row)
    requires forall row :: row in rows ==> Readable(a, row)
    ensures IsDesired(a, rows, out) <==>
      && |out| == |a.keySlots| + 1 && (exists row, v :: row in rows && Member(a, row, out[..|a.keySlots|], v))
      && exists m :: Reduces(a, rows, out[..|a.keySlots|], m) && out[|a.keySlots|] == Unsigned(m)
  {
    hide Reduces, KeyOf, Measure, Takes;
    var n := |a.keySlots|;
    if IsDesired(a, rows, out) {
      var key: Row, m: int :| Group(a, rows, key) != {} && Reduces(a, rows, key, m) && out == key + [Unsigned(m)];
      var row :| row in Group(a, rows, key);
      assert Readable(a, row);
      var key', v :| Member(a, row, key', v);
      MemberReads(a, row, key', v);
      assert out[..n] == key;
    }
    if |out| == n + 1 && (exists row, v :: row in rows && Member(a, row, out[..n], v))
       && exists m :: Reduces(a, rows, out[..n], m) && out[n] == Unsigned(m) {
      var row, v :| row in rows && Member(a, row, out[..n], v);
      MemberReads(a, row, out[..n], v);
      assert row in Group(a, rows, out[..n]);
      var m :| Reduces(a, rows, out[..n], m) && out[n] == Unsigned(m);
      assert out == out[..n] + [Unsigned(m)];
    }
  }

  lemma NothingAccumulated(a: Aggregate)
    ensures Accumulated(a, {}, map[], map[], [])
  {
    forall key ensures Group(a, {}, key) == {} {
    }
  }

  /** The rows of an aggregate over the given member rows: each group's summary once, in
      whatever order the members come. */
  method ReduceAggregate(a: Aggregate, members: seq<Row>) returns (out: seq<Row>)
    requires NoRepeats(members)
    ensures NoRepeats(out)
    ensures forall row :: row in out <==> IsDesired(a, RowSet(members), row)
    ensures a.kind.MaxAboveAgg? && Configured(a) && (forall row :: row in members ==> Readable(a, row))
      ==> forall row :: row in out <==> GreatestRow(a, RowSet(members), row)
  {
    hide Accumulated, IsDesired, AboveGate, Measure, KeyOf, Folded, Readable, GreatestRow;
    var acc: map<Row, int> := map[];
    var gateSeen: map<Row, bool> := map[];
    var order: seq<Row> := [];
    NothingAccumulated(a);
    assert RowSet(members[..0]) == {};
    for i := 0 to |members|
      invariant Accumulated(a, RowSet(members[..i]), acc, gateSeen, order)
      invariant !a.kind.MaxAboveAgg? ==> gateSeen == map[]
    {
      var row := members[i];
      RowSetMore(members, i);
      var key := KeyOf(a, row);
      var v := Measure(a, row);
      var above := AboveGate(a, row);
      var order' := if key in order then order else order + [key];
      if a.kind.MaxAboveAgg? {
        if above {
          MaximumMore(a, RowSet(members[..i]), row, acc, gateSeen, order, order');
          acc := acc[key := Folded(a, Seen(acc, gateSeen, key), v, true)];
          gateSeen := gateSeen[key := true];
        } else {
          MaximumSkips(a, RowSet(members[..i]), row, acc, gateSeen, order, order');
          if key !in gateSeen {
            gateSeen := gateSeen[key := false];
          }
        }
      } else {
        AccumulatedMore(a, RowSet(members[..i]), row, acc, order, order');
        acc := acc[key := Folded(a, if key in acc then Some(acc[key]) else None, v, above)];
      }
      order := order';
    }
    assert members[..|members|] == members;
    out := EmitGroups(a, RowSet(members), acc, gateSeen, order);
    if a.kind.MaxAboveAgg? && Configured(a) && (forall row :: row in members ==> Readable(a, row)) {
      forall row ensures IsDesired(a, RowSet(members), row) <==> GreatestRow(a, RowSet(members), row) {
        GreatestDesired(a, RowSet(members), row);
      }
    }
  }

  ghost function RowSet(rows: seq<Row>): set<Row> {
    set row | row in rows
  }

  lemma RowSetMore(rows: seq<Row>, i: nat)
    requires NoRepeats(rows) && i < |rows|
    ensures RowSet(rows[..i + 1]) == RowSet(rows[..i]) + {rows[i]} && rows[i] !in RowSet(rows[..i])
  {
    assert rows[..i + 1] == rows[..i] + [rows[i]];
  }

  /** What the accumulators say of one registered group. */
  lemma GroupState(a: Aggregate, rows: set<Row>, acc: map<Row, int>, gateSeen: map<Row, bool>, order: seq<Row>, key: Row)
    requires Accumulated(a, rows, acc, gateSeen, order) && key in order
    ensures |key| == |a.keySlots| && (a.kind.MaxAboveAgg? ==> key in gateSeen)
    ensures !(a.kind.MaxAboveAgg? && !gateSeen[key]) ==>
      key in acc && forall out :: Emitted(a, rows, key, out) <==> out == key + [Unsigned(acc[key])]
    ensures a.kind.MaxAboveAgg? && !gateSeen[key] ==> forall out :: !Emitted(a, rows, key, out)
  {
    hide Emitted, Reduces;
    if !(a.kind.MaxAboveAgg? && !gateSeen[key]) {
      GroupEmits(a, rows, key, acc[key]);
    } else {
      GroupSilent(a, rows, key);
    }
  }

  lemma OrderIsRegistered(a: Aggregate, rows: set<Row>, acc: map<Row, int>, gateSeen: map<Row, bool>, order: seq<Row>)
    requires Accumulated(a, rows, acc, gateSeen, order)
    ensures Registered(a, rows, order)
  {
  }

  /** Emit one row per registered group that has a summary. */
  method EmitGroups(a: Aggregate, ghost rows: set<Row>, acc: map<Row, int>, gateSeen: map<Row, bool>, order: seq<Row>) returns (out: seq<Row>)
    requires Accumulated(a, rows, acc, gateSeen, order)
    ensures NoRepeats(out)
    ensures forall row :: row in out <==> IsDesired(a, rows, row)
  {
    hide Emitted, EmittedBy, IsDesired, Accumulated, Registered;
    out := [];
    NoneEmitted(a, rows, order);
    OrderIsRegistered(a, rows, acc, gateSeen, order);
    for i := 0 to |order|
      invariant NoRepeats(out)
      invariant forall row :: row in out <==> EmittedBy(a, rows, order[..i], row)
    {
      var key := order[i];
      EmittedMore(a, rows, order, i);
      GroupState(a, rows, acc, gateSeen, order, key);
      if !(a.kind.MaxAboveAgg? && !gateSeen[key]) {
        var head := key + [Unsigned(acc[key])];
        EmittedOnce(a, rows, order, i, out, head);
        out := out + [head];
      }
    }
    assert order[..|order|] == order;
    DesiredIsEmitted(a, rows, order);
  }

  ghost predicate Emitted(a: Aggregate, rows: set<Row>, key: Row, out: Row) {
    |key| == |a.keySlots| && exists summary: int :: Reduces(a, rows, key, summary) && out == key + [Unsigned(summary)]
  }

  ghost predicate EmittedBy(a: Aggregate, rows: set<Row>, keys: seq<Row>, out: Row) {
    exists key :: key in keys && Emitted(a, rows, key, out)
  }

  lemma GroupEmits(a: Aggregate, rows: set<Row>, key: Row, summary: int)
    requires Reduces(a, rows, key, summary) && |key| == |a.keySlots|
    ensures forall out :: Emitted(a, rows, key, out) <==> out == key + [Unsigned(summary)]
  {
    forall out | Emitted(a, rows, key, out) ensures out == key + [Unsigned(summary)] {
      var m :| Reduces(a, rows, key, m) && out == key + [Unsigned(m)];
      ReducesOnce(a, rows, key, m, summary);
    }
  }

  lemma GroupSilent(a: Aggregate, rows: set<Row>, key: Row)
    requires a.kind.MaxAboveAgg? && Contributing(a, rows, key) == {}
    ensures forall out :: !Emitted(a, rows, key, out)
  {
  }

  lemma NoneEmitted(a: Aggregate, rows: set<Row>, order: seq<Row>)
    ensures forall row :: !EmittedBy(a, rows, order[..0], row)
  {
  }

  lemma EmittedMore(a: Aggregate, rows: set<Row>, order: seq<Row>, i: nat)
    requires i < |order|
    ensures forall row ::
      EmittedBy(a, rows, order[..i + 1], row) <==> EmittedBy(a, rows, order[..i], row) || Emitted(a, rows, order[i], row)
  {
    assert order[..i + 1] == order[..i] + [order[i]];
  }

  lemma EmittedOnce(a: Aggregate, rows: set<Row>, order: seq<Row>, i: nat, out: seq<Row>, head: Row)
    requires Registered(a, rows, order) && i < |order| && |head| == |order[i]| + 1 && head[..|order[i]|] == order[i]
    requires forall row :: row in out <==> EmittedBy(a, rows, order[..i], row)
    ensures head !in out
  {
    forall key | key in order[..i] ensures !Emitted(a, rows, key, head) {
      var k :| 0 <= k < i && order[k] == key;
      assert order[k] != order[i];
      forall summary: int ensures head != key + [Unsigned(summary)] {
        assert (key + [Unsigned(summary)])[..|key|] == key;
      }
    }
  }

  lemma DesiredIsEmitted(a: Aggregate, rows: set<Row>, order: seq<Row>)
    requires Registered(a, rows, order)
    ensures forall row :: IsDesired(a, rows, row) <==> EmittedBy(a, rows, order, row)
  {
    forall row ensures IsDesired(a, rows, row) <==> EmittedBy(a, rows, order, row) {
      if IsDesired(a, rows, row) {
        var key: Row, summary: int :| Group(a, rows, key) != {} && Reduces(a, rows, key, summary) && row == key + [Unsigned(summary)];
        assert key in order && Emitted(a, rows, key, row);
      }
    }
  }

  /** An aggregate's rows have its arity. */
  lemma DesiredFits(a: Aggregate, rows: set<Row>, out: Row)
    requires IsDesired(a, rows, out)
    ensures |out| == |a.keySlots| + 1
  {
    var key: Row, summary: int :| Group(a, rows, key) != {} && Reduces(a, rows, key, summary) && out == key + [Unsigned(summary)];
    var row :| row in Group(a, rows, key);
  }
}
