/** The compiler-side scheduler's hazard edges: the band key of an operation, and the edges between
    operations that access one vector or one table's flags. */
module Hazards {
  import opened Wrappers

  datatype Kind =
    Crossover | ProductArm | SeedFold | FixpointFire | ChainFold | ClaimDrain | Retire | Rederive |
    FrontierFilter | CommitSweep | NegateGate | PivotAssemble | IngestFold | GroupUpdate | StateSeal

  /** One operation: its kind and the attributes its key is made of. `eager` is the context of a
      gate, `inRound` the form of a claim drain, `immediate` the deferral of a frontier filter,
      `group` the recursive component the operation works in. */
  datatype Op = Op(
    kind: Kind, eager: bool, inRound: bool, immediate: bool, stratum: nat, table: nat, sign: int, ingestSign: int, group: Option<nat>)

  datatype Key = Key(lead: nat, stratum: nat, band: nat, table: nat, sign: int, ctor: nat)

  datatype Role = ClaimedDel | ClaimedAdd | NetRemoval | NetAddition | DeleteQueue | AddQueue | PlainRole

  /** One access of an operation to a vector or to a table's flag class. */
  datatype Access = Access(op: nat, resource: nat, role: Role, isWrite: bool)

  datatype DepKind = RAW | WAR | WAW

  datatype Scope = Round | Epoch

  datatype Dep = Dep(from: nat, to: nat, kind: DepKind, scope: Scope, carried: bool)

  // ------------------------------------------------------------------
  // The band key.

  /** The place of an operation within its stratum. */
  function Band(op: Op): nat {
    match op.kind
    case ClaimDrain => if op.inRound then 3 else 1
    case FrontierFilter => if op.immediate then 2 else 8
    case FixpointFire => 4
    case ChainFold => 5
    case Retire => 6
    case Rederive => 7
    case CommitSweep => 9
    case _ => 0
  }

  /** Operations off the stratum lattice: ingest-side ones lead, commit-side ones trail. */
  predicate OffLattice(op: Op) {
    (op.kind == NegateGate && op.eager) || op.kind == IngestFold || op.kind == CommitSweep || op.kind == StateSeal
  }

  function KeyOf(op: Op, oi: nat, top: nat): (k: Key)
    ensures k.ctor == oi && (k.lead == 1 <==> !OffLattice(op)) && (k.lead == 1 ==> k.stratum == op.stratum)
  {
    if op.kind == NegateGate && op.eager then Key(0, 0, 0, op.table, 0, oi)
    else if op.kind == IngestFold then Key(0, 0, 0, op.table, op.ingestSign, oi)
    else if op.kind == CommitSweep then Key(2, top + 1, 9, op.table, 0, oi)
    else if op.kind == StateSeal then Key(2, top + 1, 10, op.table, 0, oi)
    else Key(1, op.stratum, Band(op), op.table, op.sign, oi)
  }

  predicate KeyLess(a: Key, b: Key) {
    if a.lead != b.lead then a.lead < b.lead
    else if a.stratum != b.stratum then a.stratum < b.stratum
    else if a.band != b.band then a.band < b.band
    else if a.table != b.table then a.table < b.table
    else if a.sign != b.sign then a.sign < b.sign
    else a.ctor < b.ctor
  }

  /** The keys of distinct operations are strictly totally ordered. */
  lemma KeysOrdered(a: Key, b: Key, c: Key)
    ensures !KeyLess(a, a)
    ensures KeyLess(a, b) && KeyLess(b, c) ==> KeyLess(a, c)
    ensures a.ctor != b.ctor ==> KeyLess(a, b) || KeyLess(b, a)
  {
  }

  ghost predicate KeysOf(keys: seq<Key>) {
    forall i :: 0 <= i < |keys| ==> keys[i].ctor == i
  }

  ghost predicate KeyedBy(ops: seq<Op>, keys: seq<Key>, top: nat) {
    |keys| == |ops| && forall i :: 0 <= i < |ops| ==> ops[i].stratum <= top && keys[i] == KeyOf(ops[i], i, top)
  }

  method Keys(ops: seq<Op>) returns (keys: seq<Key>, top: nat)
    ensures |keys| == |ops| && KeysOf(keys) && KeyedBy(ops, keys, top)
  {
    top := 0;
    for i := 0 to |ops|
      invariant forall j :: 0 <= j < i ==> ops[j].stratum <= top
    {
      if ops[i].stratum > top {
        top := ops[i].stratum;
      }
    }
    keys := seq(|ops|, i requires 0 <= i < |ops| => KeyOf(ops[i], i, top));
  }

  // ------------------------------------------------------------------
  // What the keys mean, by kinds.

  /** The stages of a stratum, in the order in which they run. */
  datatype Stage =
    Opening | SinglePass | ImmediateFilter | RoundClaim | RoundFire | RoundFold | RoundRetire | Rederival | DeferredFilter

  const STAGES: seq<Stage> :=
    [Opening, SinglePass, ImmediateFilter, RoundClaim, RoundFire, RoundFold, RoundRetire, Rederival, DeferredFilter]

  ghost predicate AtStage(op: Op, s: Stage) {
    match s
    case Opening => op.kind in {SeedFold, Crossover, ProductArm, PivotAssemble, GroupUpdate} || (op.kind == NegateGate && !op.eager)
    case SinglePass => op.kind == ClaimDrain && !op.inRound
    case ImmediateFilter => op.kind == FrontierFilter && op.immediate
    case RoundClaim => op.kind == ClaimDrain && op.inRound
    case RoundFire => op.kind == FixpointFire
    case RoundFold => op.kind == ChainFold
    case RoundRetire => op.kind == Retire
    case Rederival => op.kind == Rederive
    case DeferredFilter => op.kind == FrontierFilter && !op.immediate
  }

  /** Ingest-side operations: eager gates and the folds of received messages. */
  ghost predicate Leads(op: Op) {
    op.kind == IngestFold || (op.kind == NegateGate && op.eager)
  }

  ghost predicate Trails(op: Op) {
    op.kind == CommitSweep || op.kind == StateSeal
  }

  ghost predicate EarlierStage(a: Op, b: Op) {
    exists i, j :: 0 <= i < j < |STAGES| && AtStage(a, STAGES[i]) && AtStage(b, STAGES[j])
  }

  /** What leads comes first and what trails last, sweeps before seals; in between the strata follow each
      other, and within a stratum the stages. */
  ghost predicate Sooner(a: Op, b: Op) {
    || (Leads(a) && !Leads(b))
    || (!Trails(a) && Trails(b))
    || (a.kind == CommitSweep && b.kind == StateSeal)
    || (!Leads(a) && !Leads(b) && !Trails(a) && !Trails(b)
        && (a.stratum < b.stratum || (a.stratum == b.stratum && EarlierStage(a, b))))
  }

  /** The sign that orders the operations of one table at one stage: removals first. */
  ghost function OrderSign(op: Op): int {
    if op.kind == IngestFold then op.ingestSign else if Leads(op) || Trails(op) then 0 else op.sign
  }

  /** Operations at one stage of one stratum follow tables, then signs, then the order of construction. */
  ghost predicate MustPrecede(ops: seq<Op>, x: nat, y: nat)
    requires x < |ops| && y < |ops|
  {
    var a, b := ops[x], ops[y];
    || Sooner(a, b)
    || (!Sooner(b, a)
        && (a.table < b.table
            || (a.table == b.table && (OrderSign(a) < OrderSign(b) || (OrderSign(a) == OrderSign(b) && x < y)))))
  }

  ghost predicate Lattice(op: Op) {
    !Leads(op) && !Trails(op)
  }

  lemma BandIsStage(op: Op)
    requires Lattice(op)
    ensures !OffLattice(op) && Band(op) < |STAGES| && AtStage(op, STAGES[Band(op)])
    ensures forall i :: 0 <= i < |STAGES| && AtStage(op, STAGES[i]) ==> i == Band(op)
  {
  }

  lemma BandIsEarlier(a: Op, b: Op)
    requires Lattice(a) && Lattice(b)
    ensures EarlierStage(a, b) <==> Band(a) < Band(b)
  {
    hide Band, AtStage, Lattice;
    BandIsStage(a);
    BandIsStage(b);
  }

  /** The key orders two operations by their kinds, strata, tables and signs. */
  lemma KeyIsPlace(ops: seq<Op>, keys: seq<Key>, top: nat, x: nat, y: nat)
    requires KeyedBy(ops, keys, top) && x < |ops| && y < |ops|
    ensures KeyLess(keys[x], keys[y]) <==> MustPrecede(ops, x, y)
  {
    hide Band, EarlierStage;
    if Lattice(ops[x]) && Lattice(ops[y]) {
      BandIsStage(ops[x]);
      BandIsStage(ops[y]);
      BandIsEarlier(ops[x], ops[y]);
      BandIsEarlier(ops[y], ops[x]);
    } else {
      OffPlaces(ops[x]);
      OffPlaces(ops[y]);
    }
  }

  lemma OffPlaces(op: Op)
    ensures OffLattice(op) <==> !Lattice(op)
  {
  }

  // ------------------------------------------------------------------
  // Hazard edges.

  predicate InRoundScope(op: Op) {
    op.kind == FixpointFire || op.kind == ChainFold || op.kind == Retire || (op.kind == ClaimDrain && op.inRound)
  }

  function ScopePair(a: Op, b: Op): Scope {
    if InRoundScope(a) && InRoundScope(b) then Round else Epoch
  }

  /** Two writers of one resource: the edge follows the key. */
  function WawEdges(ops: seq<Op>, keys: seq<Key>, a: nat, b: nat): (es: seq<Dep>)
    requires a < |ops| == |keys| && b < |ops|
  {
    if a == b then []
    else if KeyLess(keys[a], keys[b]) then [Dep(a, b, WAW, ScopePair(ops[a], ops[b]), false)]
    else [Dep(b, a, WAW, ScopePair(ops[a], ops[b]), false)]
  }

  /** A writer and a reader: a RAW edge when the writer's key is first, otherwise a WAR edge and,
      for a role carried around a loop, the loop-carried RAW it witnesses. */
  function RwEdges(ops: seq<Op>, keys: seq<Key>, writer: nat, reader: nat, role: Role): (es: seq<Dep>)
    requires writer < |ops| == |keys| && reader < |ops|
  {
    var scope := if writer < |ops| && reader < |ops| then ScopePair(ops[writer], ops[reader]) else Epoch;
    if writer == reader then []
    else if KeyLess(keys[writer], keys[reader]) then [Dep(writer, reader, RAW, scope, false)]
    else [Dep(reader, writer, WAR, scope, false)]
         + (if role.PlainRole? then [] else [Dep(writer, reader, RAW, scope, true)])
  }

  function PairEdges(ops: seq<Op>, keys: seq<Key>, x: Access, y: Access, carries: bool): (es: seq<Dep>)
    requires |ops| == |keys| && x.op < |ops| && y.op < |ops|
  {
    if x.resource != y.resource || x.op == y.op then []
    else if x.isWrite && y.isWrite then WawEdges(ops, keys, x.op, y.op)
    else if x.isWrite then RwEdges(ops, keys, x.op, y.op, if carries then x.role else PlainRole)
    else if y.isWrite then RwEdges(ops, keys, y.op, x.op, if carries then x.role else PlainRole)
    else []
  }

  ghost predicate AccessesFit(n: nat, accesses: seq<Access>) {
    forall a :: a in accesses ==> a.op < n
  }

  /** Every edge that is not carried ascends in the key; a carried one is a RAW against the key
      whose drain-before-refill witness, in the same scope, is an edge too. */
  ghost predicate Directed(keys: seq<Key>, edges: seq<Dep>, e: Dep) {
    && e.from < |keys| && e.to < |keys| && e.from != e.to
    && if e.carried then
         e.kind == RAW && KeyLess(keys[e.to], keys[e.from]) && Dep(e.to, e.from, WAR, e.scope, false) in edges
       else
         KeyLess(keys[e.from], keys[e.to])
  }

  ghost predicate AllDirected(keys: seq<Key>, edges: seq<Dep>) {
    forall e :: e in edges ==> Directed(keys, edges, e)
  }

  /** Two accesses of different operations to one resource, one of them a write. */
  ghost predicate Conflict(x: Access, y: Access) {
    x.resource == y.resource && x.op != y.op && (x.isWrite || y.isWrite)
  }

  /** The operations that a recursive component repeats round by round. */
  ghost predicate InRounds(op: Op) {
    AtStage(op, RoundClaim) || AtStage(op, RoundFire) || AtStage(op, RoundFold) || AtStage(op, RoundRetire)
  }

  /** The edge a conflict asks for when `x` is first in key order: the kind says which of the two
      accesses writes, and the scope whether both operations are repeated round by round. */
  ghost predicate Hazard(ops: seq<Op>, x: Access, y: Access, e: Dep)
    requires x.op < |ops| && y.op < |ops|
  {
    && e.from == x.op && e.to == y.op && !e.carried && (e.scope == Round <==> InRounds(ops[x.op]) && InRounds(ops[y.op]))
    && e.kind == (if x.isWrite && y.isWrite then WAW else if x.isWrite then RAW else WAR)
  }

  /** A carried role is refilled by `x` after `y` has drained it, to be read the next time around. */
  ghost predicate Refills(keys: seq<Key>, x: Access, y: Access)
    requires x.op < |keys| && y.op < |keys|
  {
    x.isWrite && !y.isWrite && !x.role.PlainRole? && !y.role.PlainRole? && KeyLess(keys[y.op], keys[x.op])
  }

  ghost predicate CarriedOver(keys: seq<Key>, edges: seq<Dep>, x: Access, y: Access)
    requires x.op < |keys| && y.op < |keys|
  {
    Refills(keys, x, y) ==> exists e :: e in edges && e.carried && e.kind == RAW && e.from == x.op && e.to == y.op
  }

  /** The conflict between the two accesses has its edge, and a refill its loop-carried one. */
  ghost predicate Ordered(ops: seq<Op>, keys: seq<Key>, carries: bool, edges: seq<Dep>, x: Access, y: Access)
    requires |ops| == |keys| && x.op < |ops| && y.op < |ops|
  {
    && (exists e :: e in edges && if KeyLess(keys[x.op], keys[y.op]) then Hazard(ops, x, y, e) else Hazard(ops, y, x, e))
    && (carries ==> CarriedOver(keys, edges, x, y) && CarriedOver(keys, edges, y, x))
  }

  ghost predicate CoversTo(ops: seq<Op>, keys: seq<Key>, carries: bool, edges: seq<Dep>, accesses: seq<Access>, i: nat, j: nat)
    requires |ops| == |keys| && AccessesFit(|ops|, accesses)
  {
    forall k, l :: 0 <= k < l < |accesses| && (k < i || (k == i && l < j)) && Conflict(accesses[k], accesses[l])
      ==> Ordered(ops, keys, carries, edges, accesses[k], accesses[l])
  }

  /** The edge comes from these two accesses. */
  ghost predicate From(ops: seq<Op>, carries: bool, x: Access, y: Access, e: Dep)
    requires x.op < |ops| && y.op < |ops|
  {
    && Conflict(x, y)
    && if e.carried then
         carries && !(x.role.PlainRole? && y.role.PlainRole?) && x.isWrite && !y.isWrite && e.from == x.op && e.to == y.op
       else
         Hazard(ops, x, y, e)
  }

  ghost predicate Justified(ops: seq<Op>, carries: bool, accesses: seq<Access>, e: Dep)
    requires AccessesFit(|ops|, accesses)
  {
    exists x, y :: x in accesses && y in accesses && From(ops, carries, x, y, e)
  }

  ghost predicate AllJustified(ops: seq<Op>, carries: bool, accesses: seq<Access>, edges: seq<Dep>)
    requires AccessesFit(|ops|, accesses)
  {
    forall e :: e in edges ==> Justified(ops, carries, accesses, e)
  }

  lemma ScopeIsRounds(a: Op, b: Op)
    ensures ScopePair(a, b) == Round <==> InRounds(a) && InRounds(b)
  {
  }

  lemma PairDirected(ops: seq<Op>, keys: seq<Key>, x: Access, y: Access, carries: bool)
    requires |ops| == |keys| && x.op < |ops| && y.op < |ops| && KeysOf(keys)
    ensures AllDirected(keys, PairEdges(ops, keys, x, y, carries))
    ensures Conflict(x, y) ==> Ordered(ops, keys, carries, PairEdges(ops, keys, x, y, carries), x, y)
    ensures forall e :: e in PairEdges(ops, keys, x, y, carries) ==> From(ops, carries, x, y, e) || From(ops, carries, y, x, e)
  {
    hide KeyLess, InRounds, ScopePair;
    var es := PairEdges(ops, keys, x, y, carries);
    if Conflict(x, y) {
      KeysOrdered(keys[x.op], keys[y.op], keys[x.op]);
      ScopeIsRounds(ops[x.op], ops[y.op]);
      ScopeIsRounds(ops[y.op], ops[x.op]);
      assert es[0] in es && (|es| > 1 ==> es[1] in es);
    }
  }

  lemma JustifiedMore(ops: seq<Op>, carries: bool, accesses: seq<Access>, edges: seq<Dep>, more: seq<Dep>, x: Access, y: Access)
    requires AccessesFit(|ops|, accesses) && AllJustified(ops, carries, accesses, edges) && x in accesses && y in accesses
    requires forall e :: e in more ==> From(ops, carries, x, y, e) || From(ops, carries, y, x, e)
    ensures AllJustified(ops, carries, accesses, edges + more)
  {
    hide From;
    forall e | e in edges + more ensures Justified(ops, carries, accesses, e) {
    }
  }

  lemma DirectedMore(keys: seq<Key>, edges: seq<Dep>, more: seq<Dep>)
    requires AllDirected(keys, edges) && AllDirected(keys, more)
    ensures AllDirected(keys, edges + more)
  {
    forall e | e in edges + more ensures Directed(keys, edges + more, e) {
      assert Directed(keys, edges, e) || Directed(keys, more, e);
    }
  }

  lemma OrderedMore(ops: seq<Op>, keys: seq<Key>, carries: bool, edges: seq<Dep>, more: seq<Dep>, x: Access, y: Access)
    requires |ops| == |keys| && x.op < |ops| && y.op < |ops|
    requires Ordered(ops, keys, carries, edges, x, y) || Ordered(ops, keys, carries, more, x, y)
    ensures Ordered(ops, keys, carries, edges + more, x, y)
  {
    hide KeyLess, Hazard;
    assert forall e :: e in edges || e in more ==> e in edges + more;
  }

  lemma CoversMore(ops: seq<Op>, keys: seq<Key>, carries: bool, edges: seq<Dep>, more: seq<Dep>, accesses: seq<Access>, i: nat, j: nat)
    requires |ops| == |keys| && AccessesFit(|ops|, accesses) && i < j < |accesses| && CoversTo(ops, keys, carries, edges, accesses, i, j)
    requires Conflict(accesses[i], accesses[j]) ==> Ordered(ops, keys, carries, more, accesses[i], accesses[j])
    ensures CoversTo(ops, keys, carries, edges + more, accesses, i, j + 1)
  {
    hide Ordered, Conflict;
    forall k, l | 0 <= k < l < |accesses| && (k < i || (k == i && l < j + 1)) && Conflict(accesses[k], accesses[l])
      ensures Ordered(ops, keys, carries, edges + more, accesses[k], accesses[l])
    {
      assert Ordered(ops, keys, carries, edges, accesses[k], accesses[l]) || (k == i && l == j);
      OrderedMore(ops, keys, carries, edges, more, accesses[k], accesses[l]);
    }
  }

  /** The hazard edges of one list of accesses: vectors, whose roles may be carried, or flags. */
  method DeriveEdges(ops: seq<Op>, keys: seq<Key>, accesses: seq<Access>, carries: bool) returns (edges: seq<Dep>)
    requires |ops| == |keys| && KeysOf(keys) && AccessesFit(|ops|, accesses)
    ensures AllDirected(keys, edges) && CoversTo(ops, keys, carries, edges, accesses, |accesses|, 0)
    ensures AllJustified(ops, carries, accesses, edges)
  {
    hide AllDirected, Conflict, Ordered, PairEdges, KeysOf, AllJustified, CoversTo, From;
    edges := [];
    NoEdges(ops, keys, carries, accesses);
    for i := 0 to |accesses|
      invariant AllDirected(keys, edges) && CoversTo(ops, keys, carries, edges, accesses, i, 0) && AllJustified(ops, carries, accesses, edges)
    {
      assert accesses[i] in accesses;
      NextRow(ops, keys, carries, edges, accesses, i);
      for j := i + 1 to |accesses|
        invariant AllDirected(keys, edges) && CoversTo(ops, keys, carries, edges, accesses, i, j)
        invariant AllJustified(ops, carries, accesses, edges)
      {
        assert accesses[j] in accesses;
        var more := PairEdges(ops, keys, accesses[i], accesses[j], carries);
        PairDirected(ops, keys, accesses[i], accesses[j], carries);
        DirectedMore(keys, edges, more);
        CoversMore(ops, keys, carries, edges, more, accesses, i, j);
        JustifiedMore(ops, carries, accesses, edges, more, accesses[i], accesses[j]);
        edges := edges + more;
      }
      RowDone(ops, keys, carries, edges, accesses, i);
    }
  }

  lemma NoEdges(ops: seq<Op>, keys: seq<Key>, carries: bool, accesses: seq<Access>)
    requires |ops| == |keys| && AccessesFit(|ops|, accesses)
    ensures AllDirected(keys, []) && CoversTo(ops, keys, carries, [], accesses, 0, 0) && AllJustified(ops, carries, accesses, [])
  {
  }

  lemma NextRow(ops: seq<Op>, keys: seq<Key>, carries: bool, edges: seq<Dep>, accesses: seq<Access>, i: nat)
    requires |ops| == |keys| && AccessesFit(|ops|, accesses) && CoversTo(ops, keys, carries, edges, accesses, i, 0)
    ensures CoversTo(ops, keys, carries, edges, accesses, i, i + 1)
  {
  }

  lemma RowDone(ops: seq<Op>, keys: seq<Key>, carries: bool, edges: seq<Dep>, accesses: seq<Access>, i: nat)
    requires |ops| == |keys| && AccessesFit(|ops|, accesses) && i < |accesses| && CoversTo(ops, keys, carries, edges, accesses, i, |accesses|)
    ensures CoversTo(ops, keys, carries, edges, accesses, i + 1, 0)
  {
  }
}
