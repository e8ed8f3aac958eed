/** Ingest netting: a batch of asserted and retracted rows has set semantics, and a row that
    appears on both sides annihilates. */
module Netting {
  import opened Ground
  import opened Model
  import opened RowStore
  import opened Rules

  datatype BatchOp = BatchOp(msg: nat, add: bool, row: Row)

  type NetKey = (nat, Row)

  /** Every operation names a message and carries a row of its receives' arity. */
  ghost predicate OpsFit(p: Program, ops: seq<BatchOp>) {
    forall op :: op in ops ==> op.msg < |p.receives| && RowFits(p, op.msg, op.row)
  }

  ghost predicate RowFits(p: Program, msg: nat, row: Row)
    requires msg < |p.receives|
  {
    forall i :: 0 <= i < |p.receives[msg]| ==> p.receives[msg][i] < |p.views| && |row| == p.views[p.receives[msg][i]].arity
  }

  ghost predicate Adds(ops: seq<BatchOp>, k: NetKey) {
    BatchOp(k.0, true, k.1) in ops
  }

  ghost predicate Removes(ops: seq<BatchOp>, k: NetKey) {
    BatchOp(k.0, false, k.1) in ops
  }

  /** The facts a key's operations are about: the message's row in each of its receive views. */
  ghost function Targets(p: Program, k: NetKey): set<Fact> {
    if k.0 < |p.receives| then set i | 0 <= i < |p.receives[k.0]| :: Fact(p.receives[k.0][i], k.1) else {}
  }

  /** What the batch makes of one fact: asserted only, retracted only, or as it was. */
  ghost predicate NetHolds(p: Program, ops: seq<BatchOp>, asserted: set<Fact>, f: Fact) {
    if exists k: NetKey :: f in Targets(p, k) && Adds(ops, k) && !Removes(ops, k) then true
    else if exists k: NetKey :: f in Targets(p, k) && Removes(ops, k) && !Adds(ops, k) then false
    else f in asserted
  }

  /** The asserted facts after a batch. */
  ghost function Netted(p: Program, ops: seq<BatchOp>, asserted: set<Fact>): set<Fact> {
    set f | f in AllFacts(p) && NetHolds(p, ops, asserted, f)
  }

  /** Only the set of operations matters: not their order, not how often each is repeated. */
  lemma NettingIgnoresOrder(p: Program, ops: seq<BatchOp>, ops': seq<BatchOp>, asserted: set<Fact>)
    requires forall op :: op in ops <==> op in ops'
    ensures Netted(p, ops, asserted) == Netted(p, ops', asserted)
  {
    forall f ensures NetHolds(p, ops, asserted, f) == NetHolds(p, ops', asserted, f) {
      assert forall k: NetKey :: Adds(ops, k) == Adds(ops', k) && Removes(ops, k) == Removes(ops', k);
    }
  }

  // ------------------------------------------------------------------
  // The net map.

  /** 1: asserted, 2: retracted, 3: both. */
  function Bits(add: bool): nat {
    if add then 1 else 2
  }

  function Joined(n: nat, m: nat): nat {
    if n == m then n else 3
  }

  ghost predicate NetIs(ops: seq<BatchOp>, net: map<NetKey, nat>, order: seq<NetKey>) {
    && NoRepeats(order)
    && (forall k :: k in order <==> k in net)
    && (forall k :: k in net <==> Adds(ops, k) || Removes(ops, k))
    && (forall k :: k in net ==> net[k] == if !Removes(ops, k) then 1 else if !Adds(ops, k) then 2 else 3)
  }

  lemma NetMore(ops: seq<BatchOp>, i: nat, net: map<NetKey, nat>, order: seq<NetKey>)
    requires i < |ops| && NetIs(ops[..i], net, order)
    ensures
      var k := (ops[i].msg, ops[i].row);
      var b := Bits(ops[i].add);
      NetIs(ops[..i + 1], net[k := if k in net then Joined(net[k], b) else b], if k in net then order else order + [k])
  {
    var k := (ops[i].msg, ops[i].row);
    assert ops[..i + 1] == ops[..i] + [ops[i]];
    forall x: NetKey
      ensures Adds(ops[..i + 1], x) <==> Adds(ops[..i], x) || (x == k && ops[i].add)
      ensures Removes(ops[..i + 1], x) <==> Removes(ops[..i], x) || (x == k && !ops[i].add)
    {
    }
    hide Adds, Removes;
  }

  method NetBatch(ops: seq<BatchOp>) returns (order: seq<NetKey>, net: map<NetKey, nat>)
    ensures NetIs(ops, net, order)
  {
    hide NetIs;
    net, order := map[], [];
    NoOps(ops);
    for i := 0 to |ops|
      invariant NetIs(ops[..i], net, order)
    {
      NetMore(ops, i, net, order);
      var k := (ops[i].msg, ops[i].row);
      var b := Bits(ops[i].add);
      if k !in net {
        order := order + [k];
        net := net[k := b];
      } else {
        net := net[k := Joined(net[k], b)];
      }
    }
    assert ops[..|ops|] == ops;
  }

  lemma NoOps(ops: seq<BatchOp>)
    ensures NetIs(ops[..0], map[], [])
  {
  }

  // ------------------------------------------------------------------
  // Applying the net map.

  /** One key: assert its row, retract it, or leave it as it is. */
  ghost function AppliedKey(p: Program, k: NetKey, n: nat, asserted: set<Fact>): set<Fact> {
    if n == 1 then asserted + Targets(p, k) else if n == 2 then asserted - Targets(p, k) else asserted
  }

  ghost function Applied(p: Program, order: seq<NetKey>, net: map<NetKey, nat>, asserted: set<Fact>): set<Fact>
    requires forall k :: k in order ==> k in net
  {
    if order == [] then asserted
    else
      var last := order[|order| - 1];
      AppliedKey(p, last, net[last], Applied(p, order[..|order| - 1], net, asserted))
  }

  /** A receive view belongs to one message, so distinct keys have no target in common. */
  lemma TargetsDisjoint(p: Program, k: NetKey, k': NetKey)
    requires GoodReceives(p) && k != k'
    ensures Targets(p, k) !! Targets(p, k')
  {
    if k.0 < |p.receives| && k'.0 < |p.receives| {
      forall i, j | 0 <= i < |p.receives[k.0]| && 0 <= j < |p.receives[k'.0]|
        ensures Fact(p.receives[k.0][i], k.1) != Fact(p.receives[k'.0][j], k'.1)
      {
      }
    }
  }

  /** A fact is decided by the one key it is a target of. */
  lemma {:induction false} AppliedAt(p: Program, order: seq<NetKey>, net: map<NetKey, nat>, asserted: set<Fact>, k: NetKey, f: Fact)
    requires GoodReceives(p) && NoRepeats(order) && (forall x :: x in order ==> x in net) && f in Targets(p, k)
    ensures f in Applied(p, order, net, asserted) <==>
      if k in order && net[k] == 1 then true else if k in order && net[k] == 2 then false else f in asserted
  {
    hide Targets, GoodReceives;
    if order != [] {
      var n := |order| - 1;
      AppliedAt(p, order[..n], net, asserted, k, f);
      assert order == order[..n] + [order[n]];
      if order[n] != k {
        TargetsDisjoint(p, k, order[n]);
      } else {
        assert k !in order[..n];
      }
    }
  }

  lemma {:induction false} AppliedElsewhere(p: Program, order: seq<NetKey>, net: map<NetKey, nat>, asserted: set<Fact>, f: Fact)
    requires (forall x :: x in order ==> x in net) && forall k: NetKey :: f !in Targets(p, k)
    ensures f in Applied(p, order, net, asserted) <==> f in asserted
  {
    if order != [] {
      AppliedElsewhere(p, order[..|order| - 1], net, asserted, f);
    }
  }

  /** Applying the keys one by one gives the netted set. */
  lemma AppliedIsNetted(p: Program, ops: seq<BatchOp>, order: seq<NetKey>, net: map<NetKey, nat>, asserted: set<Fact>)
    requires GoodReceives(p) && OpsFit(p, ops) && NetIs(ops, net, order) && asserted <= AllFacts(p)
    ensures Applied(p, order, net, asserted) == Netted(p, ops, asserted)
  {
    forall f ensures f in Applied(p, order, net, asserted) <==> f in AllFacts(p) && NetHolds(p, ops, asserted, f) {
      if k: NetKey :| f in Targets(p, k) {
        AppliedAt(p, order, net, asserted, k, f);
        NetHoldsAt(p, ops, asserted, k, f);
        if k in order {
          KeyFits(p, ops, k, f);
        }
      } else {
        AppliedElsewhere(p, order, net, asserted, f);
      }
    }
  }

  lemma NetHoldsAt(p: Program, ops: seq<BatchOp>, asserted: set<Fact>, k: NetKey, f: Fact)
    requires GoodReceives(p) && f in Targets(p, k)
    ensures NetHolds(p, ops, asserted, f) <==>
      if Adds(ops, k) && !Removes(ops, k) then true else if Removes(ops, k) && !Adds(ops, k) then false else f in asserted
  {
    hide Targets, Adds, Removes, GoodReceives;
    forall x: NetKey | f in Targets(p, x) ensures x == k {
      if x != k {
        TargetsDisjoint(p, k, x);
      }
    }
  }

  lemma KeyFits(p: Program, ops: seq<BatchOp>, k: NetKey, f: Fact)
    requires OpsFit(p, ops) && (Adds(ops, k) || Removes(ops, k)) && f in Targets(p, k)
    ensures f in AllFacts(p)
  {
    assert RowFits(p, k.0, k.1);
  }

  // ------------------------------------------------------------------
  // The views of one key, one by one.

  ghost function TargetsBelow(p: Program, k: NetKey, n: nat): set<Fact>
    requires k.0 < |p.receives| && n <= |p.receives[k.0]|
  {
    set i | 0 <= i < n :: Fact(p.receives[k.0][i], k.1)
  }

  lemma ViewsOf(p: Program, k: NetKey)
    requires k.0 < |p.receives|
    ensures TargetsBelow(p, k, 0) == {} && TargetsBelow(p, k, |p.receives[k.0]|) == Targets(p, k)
  {
  }

  lemma NextTarget(p: Program, k: NetKey, i: nat)
    requires GoodReceives(p) && k.0 < |p.receives| && i < |p.receives[k.0]|
    ensures
      var f := Fact(p.receives[k.0][i], k.1);
      f in Targets(p, k) && f !in TargetsBelow(p, k, i) && TargetsBelow(p, k, i + 1) == TargetsBelow(p, k, i) + {f}
  {
  }

  lemma NothingApplied(p: Program, order: seq<NetKey>, net: map<NetKey, nat>, asserted: set<Fact>)
    ensures order[..0] == [] && Applied(p, [], net, asserted) == asserted
  {
  }

  lemma NetKeys(ops: seq<BatchOp>, net: map<NetKey, nat>, order: seq<NetKey>)
    requires NetIs(ops, net, order)
    ensures forall j :: 0 <= j < |order| ==> order[j] in net
  {
    forall j | 0 <= j < |order| ensures order[j] in net {
      assert order[j] in order;
    }
  }

  /** What the next key of the net map is about has not been decided yet. */
  lemma KeyApplies(p: Program, ops: seq<BatchOp>, order: seq<NetKey>, net: map<NetKey, nat>, asserted: set<Fact>, j: nat)
    requires GoodReceives(p) && OpsFit(p, ops) && NetIs(ops, net, order) && j < |order|
    requires forall x :: x in order[..j] ==> x in net
    ensures order[j] in net && net[order[j]] in {1, 2, 3}
    ensures order[j].0 < |p.receives| && RowFits(p, order[j].0, order[j].1)
    ensures forall f :: f in Targets(p, order[j]) ==> (f in Applied(p, order[..j], net, asserted) <==> f in asserted)
    ensures forall x :: x in order[..j + 1] ==> x in net
    ensures Applied(p, order[..j + 1], net, asserted) == AppliedKey(p, order[j], net[order[j]], Applied(p, order[..j], net, asserted))
  {
    var k := order[j];
    assert k in order;
    assert BatchOp(k.0, true, k.1) in ops || BatchOp(k.0, false, k.1) in ops;
    assert order[..j + 1] == order[..j] + [k] && order[..j + 1][..j] == order[..j];
    forall f | f in Targets(p, k) ensures f in Applied(p, order[..j], net, asserted) <==> f in asserted {
      AppliedAt(p, order[..j], net, asserted, k, f);
    }
  }

  // ------------------------------------------------------------------
  // Whole runs.

  /** The asserted facts after a sequence of batches. */
  ghost function NettedAll(p: Program, batches: seq<seq<BatchOp>>, asserted: set<Fact>): set<Fact> {
    if batches == [] then asserted
    else Netted(p, batches[|batches| - 1], NettedAll(p, batches[..|batches| - 1], asserted))
  }
}
