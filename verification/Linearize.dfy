/** The linearization of a flow and the run-time validators that guard it. */
module Linearize {
  import opened Hazards
  import opened Kahn
  import opened Sequences
  import opened Wrappers

  // ------------------------------------------------------------------
  // The validators. Each one tests one fact about the edges and the order.

  ghost predicate EdgesFit(n: nat, edges: seq<Dep>) {
    forall e :: e in edges ==> e.from < n && e.to < n
  }

  ghost predicate NoBandHazard(keys: seq<Key>, edges: seq<Dep>)
    requires EdgesFit(|keys|, edges)
  {
    forall e :: e in edges && !e.carried ==> !KeyLess(keys[e.to], keys[e.from])
  }

  method CheckBandHazard(keys: seq<Key>, edges: seq<Dep>) returns (ok: bool)
    requires EdgesFit(|keys|, edges)
    ensures ok <==> NoBandHazard(keys, edges)
  {
    for k := 0 to |edges|
      invariant forall j :: 0 <= j < k ==> edges[j].carried || !KeyLess(keys[edges[j].to], keys[edges[j].from])
    {
      if !edges[k].carried && KeyLess(keys[edges[k].to], keys[edges[k].from]) {
        return false;
      }
    }
    ok := true;
  }

  /** `pos` maps every emitted operation to its place in the order. */
  ghost predicate PositionsOf(order: seq<nat>, pos: seq<nat>) {
    forall i :: 0 <= i < |order| ==> order[i] < |pos| && pos[order[i]] == i
  }

  method Positions(n: nat, order: seq<nat>) returns (pos: seq<nat>)
    requires Distinct(order) && forall i :: 0 <= i < |order| ==> order[i] < n
    ensures |pos| == n && PositionsOf(order, pos)
  {
    pos := seq(n, _ => 0);
    for i := 0 to |order|
      invariant |pos| == n && forall j :: 0 <= j < i ==> pos[order[j]] == j
    {
      pos := pos[order[i] := i];
    }
  }

  ghost predicate Respected(edges: seq<Dep>, pos: seq<nat>)
    requires EdgesFit(|pos|, edges)
  {
    forall e :: e in edges && !e.carried ==> pos[e.from] < pos[e.to]
  }

  method CheckLinear(edges: seq<Dep>, pos: seq<nat>) returns (ok: bool)
    requires EdgesFit(|pos|, edges)
    ensures ok <==> Respected(edges, pos)
  {
    for k := 0 to |edges|
      invariant forall j :: 0 <= j < k ==> edges[j].carried || pos[edges[j].from] < pos[edges[j].to]
    {
      if !edges[k].carried && pos[edges[k].from] >= pos[edges[k].to] {
        return false;
      }
    }
    ok := true;
  }

  predicate IsWitness(d: Dep, w: Dep) {
    !w.carried && w.kind == WAR && w.from == d.to && w.to == d.from && w.scope == d.scope
  }

  /** A carried edge is a RAW with a drain-before-refill witness, drained before it is refilled. */
  ghost predicate LoopOk(edges: seq<Dep>, pos: seq<nat>, d: Dep)
    requires d.from < |pos| && d.to < |pos|
  {
    d.kind == RAW && Dep(d.to, d.from, WAR, d.scope, false) in edges && pos[d.to] < pos[d.from]
  }

  ghost predicate LoopsOk(edges: seq<Dep>, pos: seq<nat>)
    requires EdgesFit(|pos|, edges)
  {
    forall d :: d in edges && d.carried ==> LoopOk(edges, pos, d)
  }

  method HasWitness(edges: seq<Dep>, d: Dep) returns (found: bool)
    ensures found <==> Dep(d.to, d.from, WAR, d.scope, false) in edges
  {
    for k := 0 to |edges|
      invariant forall j :: 0 <= j < k ==> !IsWitness(d, edges[j])
    {
      if IsWitness(d, edges[k]) {
        return true;
      }
    }
    found := false;
  }

  method CheckLoop(edges: seq<Dep>, pos: seq<nat>) returns (ok: bool)
    requires EdgesFit(|pos|, edges)
    ensures ok <==> LoopsOk(edges, pos)
  {
    for k := 0 to |edges|
      invariant forall j :: 0 <= j < k && edges[j].carried ==> LoopOk(edges, pos, edges[j])
    {
      var d := edges[k];
      assert d in edges;
      if d.carried {
        if d.kind != RAW {
          return false;
        }
        var found := HasWitness(edges, d);
        if !found || pos[d.to] >= pos[d.from] {
          return false;
        }
      }
    }
    ok := true;
  }

  predicate RetireMatches(fire: Op, ret: Op) {
    ret.kind == Retire && fire.group.Some? && ret.group == fire.group && (ret.sign < 0 <==> fire.sign < 0)
  }

  /** Every fire of a recursive component has a matching retire, and precedes all of them. */
  ghost predicate RetireOk(ops: seq<Op>, pos: seq<nat>, f: nat)
    requires |ops| == |pos| && f < |ops|
  {
    && (exists r :: 0 <= r < |ops| && RetireMatches(ops[f], ops[r]))
    && (forall r :: 0 <= r < |ops| && RetireMatches(ops[f], ops[r]) ==> pos[f] < pos[r])
  }

  predicate GroupedFire(op: Op) {
    op.kind == FixpointFire && op.group.Some?
  }

  method CheckRetire(ops: seq<Op>, pos: seq<nat>) returns (ok: bool)
    requires |ops| == |pos|
    ensures ok <==> forall f :: 0 <= f < |ops| && GroupedFire(ops[f]) ==> RetireOk(ops, pos, f)
  {
    for f := 0 to |ops|
      invariant forall g :: 0 <= g < f && GroupedFire(ops[g]) ==> RetireOk(ops, pos, g)
    {
      if GroupedFire(ops[f]) {
        var found := false;
        for r := 0 to |ops|
          invariant found <==> exists q :: 0 <= q < r && RetireMatches(ops[f], ops[q])
          invariant forall q :: 0 <= q < r && RetireMatches(ops[f], ops[q]) ==> pos[f] < pos[q]
        {
          if RetireMatches(ops[f], ops[r]) {
            found := true;
            if pos[f] >= pos[r] {
              return false;
            }
          }
        }
        if !found {
          return false;
        }
      }
    }
    ok := true;
  }

  /** The edge is no read of a value produced in a strictly higher stratum. */
  ghost predicate ReadBelow(ops: seq<Op>, e: Dep)
    requires e.from < |ops| && e.to < |ops|
  {
    e.kind == RAW && !e.carried && !OffLattice(ops[e.from]) && !OffLattice(ops[e.to]) ==> ops[e.from].stratum <= ops[e.to].stratum
  }

  method CheckReady(ops: seq<Op>, edges: seq<Dep>) returns (ok: bool)
    requires EdgesFit(|ops|, edges)
    ensures ok <==> forall e :: e in edges ==> ReadBelow(ops, e)
  {
    for k := 0 to |edges|
      invariant forall j :: 0 <= j < k ==> ReadBelow(ops, edges[j])
    {
      var e := edges[k];
      assert e in edges;
      if e.kind == RAW && !e.carried {
        if !OffLattice(ops[e.from]) && !OffLattice(ops[e.to]) && ops[e.from].stratum > ops[e.to].stratum {
          return false;
        }
      }
    }
    ok := true;
  }

  method CheckOrder(keys: seq<Key>, order: seq<nat>) returns (ok: bool)
    requires forall i :: 0 <= i < |order| ==> order[i] < |keys|
    ensures ok <==> forall i :: 0 < i < |order| ==> !KeyLess(keys[order[i]], keys[order[i - 1]])
  {
    var i := 1;
    while i < |order|
      invariant forall j :: 0 < j < i && j < |order| ==> !KeyLess(keys[order[j]], keys[order[j - 1]])
    {
      if KeyLess(keys[order[i]], keys[order[i - 1]]) {
        return false;
      }
      i := i + 1;
    }
    ok := true;
  }

  // ------------------------------------------------------------------
  // Why they pass.

  ghost predicate KeyOrdered(keys: seq<Key>, order: seq<nat>) {
    && |order| == |keys|
    && (forall i :: 0 <= i < |order| ==> order[i] < |keys|)
    && (forall i, j :: 0 <= i < j < |order| ==> KeyLess(keys[order[i]], keys[order[j]]))
    && (forall v: nat :: v in order <==> v < |keys|)
  }

  lemma EverythingOrdered(keys: seq<Key>, order: seq<nat>)
    requires KeysOf(keys) && SmallestFirst(keys, order) && forall v: nat :: v in order <==> v < |keys|
    ensures KeyOrdered(keys, order) && Distinct(order)
  {
    forall i, j | 0 <= i < j < |order| ensures order[i] != order[j] {
      KeysOrdered(keys[order[i]], keys[order[j]], keys[order[i]]);
    }
    DistinctSize(order);
    BelowSize(|keys|, Members(order));
  }

  /** In a key-ordered order, position and key say the same. */
  lemma PositionIsKey(keys: seq<Key>, order: seq<nat>, pos: seq<nat>, a: nat, b: nat)
    requires KeysOf(keys) && KeyOrdered(keys, order) && |pos| == |keys| && PositionsOf(order, pos)
    requires a < |keys| && b < |keys|
    ensures pos[a] < pos[b] <==> KeyLess(keys[a], keys[b])
  {
    assert a in order && b in order;
    var i: nat :| i < |order| && order[i] == a;
    var j: nat :| j < |order| && order[j] == b;
    KeysOrdered(keys[a], keys[b], keys[a]);
  }

  lemma EdgesPass(ops: seq<Op>, top: nat, keys: seq<Key>, edges: seq<Dep>, order: seq<nat>, pos: seq<nat>)
    requires KeyedBy(ops, keys, top)
    requires KeysOf(keys) && AllDirected(keys, edges) && KeyOrdered(keys, order) && |pos| == |keys| && PositionsOf(order, pos)
    ensures EdgesFit(|keys|, edges)
    ensures NoBandHazard(keys, edges) && Respected(edges, pos) && LoopsOk(edges, pos)
    ensures forall e :: e in edges ==> ReadBelow(ops, e)
    ensures forall i :: 0 < i < |order| ==> !KeyLess(keys[order[i]], keys[order[i - 1]])
  {
    hide KeyLess, PositionsOf;
    assert EdgesFit(|keys|, edges) by {
      assert forall e :: e in edges ==> Directed(keys, edges, e);
    }
    forall e | e in edges && !e.carried ensures !KeyLess(keys[e.to], keys[e.from]) && pos[e.from] < pos[e.to] {
      assert Directed(keys, edges, e);
      KeysOrdered(keys[e.from], keys[e.to], keys[e.from]);
      PositionIsKey(keys, order, pos, e.from, e.to);
    }
    forall d | d in edges && d.carried ensures LoopOk(edges, pos, d) {
      assert Directed(keys, edges, d);
      PositionIsKey(keys, order, pos, d.to, d.from);
    }
    forall e | e in edges ensures ReadBelow(ops, e) {
      assert Directed(keys, edges, e);
      if !e.carried && !OffLattice(ops[e.from]) && !OffLattice(ops[e.to]) {
        StrataAscend(ops[e.from], ops[e.to], e.from, e.to, top);
      }
    }
    forall i | 0 < i < |order| ensures !KeyLess(keys[order[i]], keys[order[i - 1]]) {
      KeysOrdered(keys[order[i - 1]], keys[order[i]], keys[order[i - 1]]);
    }
  }

  lemma StrataAscend(a: Op, b: Op, i: nat, j: nat, top: nat)
    requires KeyLess(KeyOf(a, i, top), KeyOf(b, j, top)) && !OffLattice(a) && !OffLattice(b)
    ensures a.stratum <= b.stratum
  {
  }

  /** What the caller has to bring: each fire of a recursive component has a retire, and none of
      its retires is in a lower stratum. */
  predicate RetireAbove(ops: seq<Op>, f: nat)
    requires f < |ops|
  {
    && (exists r :: 0 <= r < |ops| && RetireMatches(ops[f], ops[r]))
    && (forall r :: 0 <= r < |ops| && RetireMatches(ops[f], ops[r]) ==> ops[f].stratum <= ops[r].stratum)
  }

  lemma RetirePasses(ops: seq<Op>, top: nat, keys: seq<Key>, order: seq<nat>, pos: seq<nat>, f: nat)
    requires KeyedBy(ops, keys, top)
    requires KeysOf(keys) && KeyOrdered(keys, order) && |pos| == |keys| && PositionsOf(order, pos)
    requires f < |ops| && GroupedFire(ops[f])
    ensures RetireOk(ops, pos, f) <==> RetireAbove(ops, f)
  {
    forall r | 0 <= r < |ops| && RetireMatches(ops[f], ops[r]) ensures pos[f] < pos[r] <==> ops[f].stratum <= ops[r].stratum {
      PositionIsKey(keys, order, pos, f, r);
    }
  }

  // ------------------------------------------------------------------
  // The whole pass.

  lemma Covered(ops: seq<Op>, keys: seq<Key>, carries: bool, edges: seq<Dep>, more: seq<Dep>, first: bool, accesses: seq<Access>,
                x: Access, y: Access)
    requires |ops| == |keys| && AccessesFit(|ops|, accesses) && KeysOf(keys)
    requires CoversTo(ops, keys, carries, edges, accesses, |accesses|, 0) && x in accesses && y in accesses && Conflict(x, y)
    ensures Ordered(ops, keys, carries, if first then edges + more else more + edges, x, y)
  {
    hide Ordered, CoversTo, Conflict;
    OrderedIn(ops, keys, carries, edges, accesses, x, y);
    OrderedMore(ops, keys, carries, if first then edges else more, if first then more else edges, x, y);
  }

  lemma OrderedIn(ops: seq<Op>, keys: seq<Key>, carries: bool, edges: seq<Dep>, accesses: seq<Access>, x: Access, y: Access)
    requires |ops| == |keys| && AccessesFit(|ops|, accesses) && KeysOf(keys)
    requires CoversTo(ops, keys, carries, edges, accesses, |accesses|, 0) && x in accesses && y in accesses && Conflict(x, y)
    ensures Ordered(ops, keys, carries, edges, x, y)
  {
    hide Ordered;
    var i: nat :| i < |accesses| && accesses[i] == x;
    var j: nat :| j < |accesses| && accesses[j] == y;
    if i < j {
      assert Conflict(accesses[i], accesses[j]);
    } else {
      assert Conflict(accesses[j], accesses[i]);
      OrderedTurned(ops, keys, carries, edges, y, x);
    }
  }

  lemma OrderedTurned(ops: seq<Op>, keys: seq<Key>, carries: bool, edges: seq<Dep>, x: Access, y: Access)
    requires |ops| == |keys| && x.op < |ops| && y.op < |ops| && x.op != y.op && KeysOf(keys) && Ordered(ops, keys, carries, edges, x, y)
    ensures Ordered(ops, keys, carries, edges, y, x)
  {
    hide KeyLess;
    KeysOrdered(keys[x.op], keys[y.op], keys[x.op]);
  }

  lemma ForwardEdges(keys: seq<Key>, edges: seq<Dep>)
    requires AllDirected(keys, edges)
    ensures Forward(keys, edges) && EdgesFit(|keys|, edges)
  {
    assert forall e :: e in edges ==> Directed(keys, edges, e);
  }

  /** Linearization and validators over given edges. */
  method Validated(ops: seq<Op>, top: nat, keys: seq<Key>, edges: seq<Dep>) returns (r: Result<seq<nat>>)
    requires KeyedBy(ops, keys, top)
    requires KeysOf(keys) && AllDirected(keys, edges)
    ensures r.Success? <==> forall f :: 0 <= f < |ops| && GroupedFire(ops[f]) ==> RetireAbove(ops, f)
    ensures r.Failure? ==> r.error == "V-RETIRE-AFTER"
    ensures r.Success? ==> KeyOrdered(keys, r.value)
  {
    hide AllDirected, Forward, KeysOf, KeyLess, NoBandHazard, Respected, LoopsOk, ReadBelow, RetireAbove, RetireOk, SmallestFirst,
         PositionsOf;
    ForwardEdges(keys, edges);
    var safe := CheckBandHazard(keys, edges);
    var order := KahnOrder(|ops|, keys, edges);
    EverythingOrdered(keys, order);
    var pos := Positions(|ops|, order);
    EdgesPass(ops, top, keys, edges, order, pos);
    if !safe {
      return Failure("V-BAND-HAZARD");
    }
    if |order| != |ops| {
      return Failure("V-LINEAR");
    }
    var linear := CheckLinear(edges, pos);
    if !linear {
      return Failure("V-LINEAR");
    }
    var loops := CheckLoop(edges, pos);
    if !loops {
      return Failure("V-LOOP");
    }
    forall f | 0 <= f < |ops| && GroupedFire(ops[f]) ensures RetireOk(ops, pos, f) <==> RetireAbove(ops, f) {
      RetirePasses(ops, top, keys, order, pos, f);
    }
    var retired := CheckRetire(ops, pos);
    if !retired {
      return Failure("V-RETIRE-AFTER");
    }
    var ready := CheckReady(ops, edges);
    if !ready {
      return Failure("V-READY");
    }
    var ordered := CheckOrder(keys, order);
    if !ordered {
      return Failure("V-OLD-EQUIV(order)");
    }
    r := Success(order);
  }

  /** `r` retires what the fire `f` filled: it works in the same component, for the same sign. */
  ghost predicate Retires(ops: seq<Op>, f: nat, r: nat)
    requires f < |ops| && r < |ops|
  {
    && ops[r].kind == Retire && ops[r].group.Some? && ops[r].group == ops[f].group
    && ((ops[f].sign < 0 && ops[r].sign < 0) || (ops[f].sign >= 0 && ops[r].sign >= 0))
  }

  /** The grouped fire `f` has a retire, and none in a lower stratum. */
  ghost predicate HasRetires(ops: seq<Op>, f: nat)
    requires f < |ops|
  {
    && ops[f].kind == FixpointFire && ops[f].group.Some?
    && (exists r: nat :: r < |ops| && Retires(ops, f, r))
    && (forall r: nat :: r < |ops| && Retires(ops, f, r) ==> ops[f].stratum <= ops[r].stratum)
  }

  lemma RetiresAre(ops: seq<Op>, f: nat)
    requires f < |ops|
    ensures HasRetires(ops, f) <==> GroupedFire(ops[f]) && RetireAbove(ops, f)
  {
    if GroupedFire(ops[f]) {
      forall r: nat | r < |ops| ensures Retires(ops, f, r) <==> RetireMatches(ops[f], ops[r]) {
      }
      if RetireAbove(ops, f) {
        var r: nat :| r < |ops| && RetireMatches(ops[f], ops[r]);
        assert Retires(ops, f, r);
      }
    }
  }

  /** Every operation once, in the order their kinds, strata, tables and signs ask for. */
  ghost predicate Scheduled(ops: seq<Op>, order: seq<nat>) {
    && |order| == |ops| && (forall v: nat :: v in order <==> v < |ops|)
    && (forall i, j :: 0 <= i < |order| && 0 <= j < |order| && order[i] < |ops| && order[j] < |ops|
          ==> (i < j <==> MustPrecede(ops, order[i], order[j])))
  }

  lemma OrderIsPlaces(ops: seq<Op>, top: nat, keys: seq<Key>, order: seq<nat>)
    requires KeyedBy(ops, keys, top) && KeyOrdered(keys, order)
    ensures Scheduled(ops, order)
  {
    hide KeyLess, MustPrecede;
    forall i, j | 0 <= i < |order| && 0 <= j < |order| && order[i] < |ops| && order[j] < |ops|
      ensures i < j <==> MustPrecede(ops, order[i], order[j])
    {
      KeyIsPlace(ops, keys, top, order[i], order[j]);
      KeysOrdered(keys[order[i]], keys[order[j]], keys[order[i]]);
    }
  }

  /** A grouped fire stands before its retires. */
  lemma FireBeforeRetire(ops: seq<Op>, order: seq<nat>, i: nat, j: nat)
    requires Scheduled(ops, order) && i < |order| && j < |order| && order[i] in order && order[j] in order
    requires HasRetires(ops, order[i]) && Retires(ops, order[i], order[j])
    ensures i < j
  {
    FireIsSooner(ops, order[i], order[j]);
  }

  lemma FireIsSooner(ops: seq<Op>, f: nat, r: nat)
    requires f < |ops| && r < |ops| && HasRetires(ops, f) && Retires(ops, f, r)
    ensures MustPrecede(ops, f, r)
  {
    assert STAGES[4] == RoundFire && STAGES[6] == RoundRetire;
  }

  /** The hazard edges of the vectors and of the tables' flags, linearized and validated. The only
      check that can fail is the one that asks for the retires, and exactly when one is missing or
      lies in a lower stratum than its fire. */
  method LinearizeAndValidate(ops: seq<Op>, vectors: seq<Access>, flags: seq<Access>)
    returns (r: Result<seq<nat>>, ghost keys: seq<Key>, ghost edges: seq<Dep>)
    requires AccessesFit(|ops|, vectors) && AccessesFit(|ops|, flags)
    ensures r.Success? <==> forall f :: 0 <= f < |ops| && ops[f].kind == FixpointFire && ops[f].group.Some? ==> HasRetires(ops, f)
    ensures r.Failure? ==> r.error == "V-RETIRE-AFTER"
    ensures r.Success? ==> Scheduled(ops, r.value)
    ensures |keys| == |ops| && exists top :: KeyedBy(ops, keys, top)
    ensures r.Success? ==> KeyOrdered(keys, r.value)
    ensures AllDirected(keys, edges)
    ensures forall x, y :: x in vectors && y in vectors && Conflict(x, y) ==> Ordered(ops, keys, true, edges, x, y)
    ensures forall x, y :: x in flags && y in flags && Conflict(x, y) ==> Ordered(ops, keys, false, edges, x, y)
    ensures forall e :: e in edges ==> Justified(ops, true, vectors, e) || Justified(ops, false, flags, e)
  {
    hide AllDirected, Conflict, Ordered, KeysOf, KeyedBy, RetireAbove, HasRetires, Scheduled, KeyOrdered, CoversTo, Justified;
    var ks, top := Keys(ops);
    keys := ks;
    var vectorEdges := DeriveEdges(ops, ks, vectors, true);
    var flagEdges := DeriveEdges(ops, ks, flags, false);
    var es := vectorEdges + flagEdges;
    edges := es;
    DirectedMore(ks, vectorEdges, flagEdges);
    forall x, y | x in vectors && y in vectors && Conflict(x, y) ensures Ordered(ops, ks, true, es, x, y) {
      Covered(ops, ks, true, vectorEdges, flagEdges, true, vectors, x, y);
    }
    forall x, y | x in flags && y in flags && Conflict(x, y) ensures Ordered(ops, ks, false, es, x, y) {
      Covered(ops, ks, false, flagEdges, vectorEdges, false, flags, x, y);
    }
    r := Validated(ops, top, ks, es);
    forall f | 0 <= f < |ops| ensures HasRetires(ops, f) <==> GroupedFire(ops[f]) && RetireAbove(ops, f) {
      RetiresAre(ops, f);
    }
    if r.Success? {
      OrderIsPlaces(ops, top, ks, r.value);
    }
  }
}
