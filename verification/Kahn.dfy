/** Kahn's algorithm with the band key as its tie-break emits the operations in key order. */
module Kahn {
  import opened Hazards
  import opened Sequences

  ghost predicate Forward(keys: seq<Key>, edges: seq<Dep>) {
    forall e :: e in edges && !e.carried ==> e.from < |keys| && e.to < |keys| && KeyLess(keys[e.from], keys[e.to])
  }

  /** How many edges that are not carried lead from `u` to `v`. */
  ghost function EdgeCount(edges: seq<Dep>, u: nat, v: nat): nat {
    if edges == [] then 0
    else
      var e := edges[|edges| - 1];
      EdgeCount(edges[..|edges| - 1], u, v) + (if !e.carried && e.from == u && e.to == v then 1 else 0)
  }

  /** How many of them lead to `v` from an operation that has not been emitted. */
  ghost function Waiting(edges: seq<Dep>, emitted: set<nat>, v: nat): nat {
    if edges == [] then 0
    else
      var e := edges[|edges| - 1];
      Waiting(edges[..|edges| - 1], emitted, v) + (if !e.carried && e.from !in emitted && e.to == v then 1 else 0)
  }

  lemma {:induction false} WaitingEmits(edges: seq<Dep>, emitted: set<nat>, u: nat, v: nat)
    requires u !in emitted
    ensures Waiting(edges, emitted, v) == Waiting(edges, emitted + {u}, v) + EdgeCount(edges, u, v)
  {
    if edges != [] {
      WaitingEmits(edges[..|edges| - 1], emitted, u, v);
    }
  }

  /** Nothing waits for `v` exactly when all its predecessors have been emitted. */
  lemma {:induction false} WaitingNone(edges: seq<Dep>, emitted: set<nat>, v: nat)
    ensures Waiting(edges, emitted, v) == 0 <==> forall e :: e in edges && !e.carried && e.to == v ==> e.from in emitted
  {
    if edges != [] {
      var n := |edges| - 1;
      WaitingNone(edges[..n], emitted, v);
      assert edges == edges[..n] + [edges[n]];
    }
  }

  /** The emitted operations are the smallest ones, in key order. */
  ghost predicate SmallestFirst(keys: seq<Key>, order: seq<nat>) {
    && (forall i :: 0 <= i < |order| ==> order[i] < |keys|)
    && (forall i, j :: 0 <= i < j < |order| ==> KeyLess(keys[order[i]], keys[order[j]]))
    && (forall i, v :: 0 <= i < |order| && 0 <= v < |keys| && v !in order ==> KeyLess(keys[order[i]], keys[v]))
  }

  /** The ready list holds exactly the operations that wait for nothing. */
  ghost predicate ReadyIs(edges: seq<Dep>, n: nat, emitted: set<nat>, ready: seq<nat>) {
    && Distinct(ready)
    && forall v: nat :: v in ready <==> v < n && v !in emitted && Waiting(edges, emitted, v) == 0
  }

  /** `v` is the operation with the smallest key that has not been emitted. */
  ghost predicate Smallest(keys: seq<Key>, emitted: set<nat>, v: nat) {
    v < |keys| && v !in emitted && forall u: nat :: u < |keys| && u !in emitted && u != v ==> KeyLess(keys[v], keys[u])
  }

  /** As long as something is left, something is smallest. */
  lemma {:induction false} SmallestExists(keys: seq<Key>, emitted: set<nat>, n: nat) returns (v: nat)
    requires KeysOf(keys) && n <= |keys| && exists u: nat :: u < n && u !in emitted
    ensures v < n && v !in emitted && forall u: nat :: u < n && u !in emitted && u != v ==> KeyLess(keys[v], keys[u])
  {
    if exists u: nat :: u < n - 1 && u !in emitted {
      v := SmallestExists(keys, emitted, n - 1);
      if n - 1 !in emitted {
        KeysOrdered(keys[v], keys[n - 1], keys[v]);
        if KeyLess(keys[n - 1], keys[v]) {
          forall u: nat | u < n - 1 && u !in emitted ensures KeyLess(keys[n - 1], keys[u]) {
            KeysOrdered(keys[n - 1], keys[v], keys[u]);
          }
          v := n - 1;
        }
      }
    } else {
      v := n - 1;
    }
  }

  /** The smallest operation left waits for nothing: every edge ascends in the key. */
  lemma SmallestIsReady(keys: seq<Key>, edges: seq<Dep>, order: seq<nat>, ready: seq<nat>, v: nat)
    requires Forward(keys, edges) && KeysOf(keys) && ReadyIs(edges, |keys|, Members(order), ready) && Smallest(keys, Members(order), v)
    ensures v in ready
  {
    WaitingNone(edges, Members(order), v);
    forall e | e in edges && !e.carried && e.to == v ensures e.from in Members(order) {
      KeysOrdered(keys[e.from], keys[v], keys[e.from]);
    }
  }

  // ------------------------------------------------------------------
  // The loop.

  /** Successor lists and in-degrees of the edges that are not carried. */
  ghost predicate GraphIs(edges: seq<Dep>, n: nat, adj: seq<seq<nat>>, indeg: seq<nat>, emitted: set<nat>) {
    && |adj| == |indeg| == n
    && (forall u, v: nat :: 0 <= u < n ==> multiset(adj[u])[v] == EdgeCount(edges, u, v))
    && (forall v :: 0 <= v < n ==> indeg[v] == Waiting(edges, emitted, v))
    && (forall u, v :: 0 <= u < n && v in adj[u] ==> v < n)
  }

  lemma GraphMore(edges: seq<Dep>, k: nat, n: nat, adj: seq<seq<nat>>, indeg: seq<nat>)
    requires k < |edges| && GraphIs(edges[..k], n, adj, indeg, {})
    requires !edges[k].carried ==> edges[k].from < n && edges[k].to < n
    ensures
      var e := edges[k];
      GraphIs(edges[..k + 1], n, if e.carried then adj else adj[e.from := adj[e.from] + [e.to]],
              if e.carried then indeg else indeg[e.to := indeg[e.to] + 1], {})
  {
    assert edges[..k + 1][..k] == edges[..k];
  }

  method BuildGraph(n: nat, keys: seq<Key>, edges: seq<Dep>) returns (adj: seq<seq<nat>>, indeg: seq<nat>)
    requires |keys| == n && Forward(keys, edges)
    ensures GraphIs(edges, n, adj, indeg, {})
  {
    hide GraphIs, KeyLess;
    adj := seq(n, _ => []);
    indeg := seq(n, _ => 0);
    EmptyGraph(edges, n);
    for k := 0 to |edges|
      invariant |adj| == |indeg| == n && GraphIs(edges[..k], n, adj, indeg, {})
    {
      var e := edges[k];
      assert e in edges;
      GraphMore(edges, k, n, adj, indeg);
      if !e.carried {
        adj := adj[e.from := adj[e.from] + [e.to]];
        indeg := indeg[e.to := indeg[e.to] + 1];
      }
    }
    assert edges[..|edges|] == edges;
  }

  lemma EmptyGraph(edges: seq<Dep>, n: nat)
    ensures GraphIs(edges[..0], n, seq(n, _ => []), seq(n, _ => 0), {})
  {
  }

  /** The in-degrees while the successors of `u`, just emitted, are being released: `rest` are
      the occurrences still to come. */
  ghost predicate Releasing(edges: seq<Dep>, n: nat, indeg: seq<nat>, emitted: set<nat>, ready: seq<nat>, rest: seq<nat>) {
    && |indeg| == n && Distinct(ready)
    && (forall v: nat :: v < n ==> indeg[v] == Waiting(edges, emitted, v) + multiset(rest)[v])
    && (forall v: nat :: v in ready <==> v < n && v !in emitted && indeg[v] == 0)
  }

  ghost predicate Taken(ready: seq<nat>, u: nat, rest: seq<nat>) {
    u in ready && Distinct(rest) && forall v :: v in rest <==> v in ready && v != u
  }

  lemma ReleaseStarts(keys: seq<Key>, edges: seq<Dep>, n: nat, adj: seq<seq<nat>>, indeg: seq<nat>, emitted: set<nat>,
                      ready: seq<nat>, u: nat, rest: seq<nat>)
    requires GraphIs(edges, n, adj, indeg, emitted) && ReadyIs(edges, n, emitted, ready)
    requires Taken(ready, u, rest)
    ensures u < n && u !in emitted && Releasing(edges, n, indeg, emitted + {u}, rest, adj[u])
  {
    forall v: nat | v < n ensures indeg[v] == Waiting(edges, emitted + {u}, v) + multiset(adj[u])[v] {
      WaitingEmits(edges, emitted, u, v);
    }
  }

  lemma ReleaseMore(edges: seq<Dep>, n: nat, indeg: seq<nat>, emitted: set<nat>, ready: seq<nat>, v: nat, rest: seq<nat>)
    requires Releasing(edges, n, indeg, emitted, ready, [v] + rest) && v < n && v !in emitted
    ensures indeg[v] > 0
    ensures Releasing(edges, n, indeg[v := indeg[v] - 1], emitted, if indeg[v] == 1 then ready + [v] else ready, rest)
  {
    forall u: nat ensures multiset([v] + rest)[u] == multiset(rest)[u] + (if u == v then 1 else 0) {
    }
    hide Waiting;
    var indeg' := indeg[v := indeg[v] - 1];
    var ready' := if indeg[v] == 1 then ready + [v] else ready;
    assert v !in ready;
    forall u: nat ensures u in ready' <==> u < n && u !in emitted && indeg'[u] == 0 {
    }
  }

  lemma ReleaseEnds(edges: seq<Dep>, n: nat, adj: seq<seq<nat>>, indeg0: seq<nat>, indeg: seq<nat>, emitted0: set<nat>, emitted: set<nat>, ready: seq<nat>)
    requires GraphIs(edges, n, adj, indeg0, emitted0) && Releasing(edges, n, indeg, emitted, ready, [])
    ensures GraphIs(edges, n, adj, indeg, emitted) && ReadyIs(edges, n, emitted, ready)
  {
  }

  /** A successor's key is larger, so it has not been emitted. */
  lemma SuccessorLater(keys: seq<Key>, edges: seq<Dep>, n: nat, adj: seq<seq<nat>>, indeg: seq<nat>, order: seq<nat>, u: nat, v: nat)
    requires |keys| == n && KeysOf(keys) && Forward(keys, edges) && GraphIs(edges, n, adj, indeg, Members(order))
    requires u < n && v in adj[u] && SmallestFirst(keys, order) && u !in order
    ensures v < n && v !in Members(order) + {u}
  {
    var e := EdgeOf(edges, u, v);
    KeysOrdered(keys[u], keys[v], keys[u]);
    forall i | 0 <= i < |order| ensures order[i] != v {
      KeysOrdered(keys[order[i]], keys[u], keys[order[i]]);
    }
  }

  lemma {:induction false} EdgeOf(edges: seq<Dep>, u: nat, v: nat) returns (e: Dep)
    requires EdgeCount(edges, u, v) > 0
    ensures e in edges && !e.carried && e.from == u && e.to == v
  {
    var n := |edges| - 1;
    if !edges[n].carried && edges[n].from == u && edges[n].to == v {
      e := edges[n];
    } else {
      e := EdgeOf(edges[..n], u, v);
    }
  }

  /** Emitting the smallest operation left keeps the order sorted and smallest first. */
  lemma EmitsSmallest(keys: seq<Key>, order: seq<nat>, v: nat)
    requires SmallestFirst(keys, order) && Smallest(keys, Members(order), v)
    ensures SmallestFirst(keys, order + [v]) && Members(order + [v]) == Members(order) + {v}
  {
  }

  /** Position of the ready operation with the smallest key. */
  method PickSmallest(keys: seq<Key>, ready: seq<nat>) returns (best: nat)
    requires ready != [] && KeysOf(keys) && Distinct(ready) && forall i :: 0 <= i < |ready| ==> ready[i] < |keys|
    ensures best < |ready|
    ensures forall i :: 0 <= i < |ready| && i != best ==> KeyLess(keys[ready[best]], keys[ready[i]])
  {
    best := 0;
    for i := 1 to |ready|
      invariant best < i
      invariant forall j :: 0 <= j < i && j != best ==> KeyLess(keys[ready[best]], keys[ready[j]])
    {
      KeysOrdered(keys[ready[i]], keys[ready[best]], keys[ready[i]]);
      if KeyLess(keys[ready[i]], keys[ready[best]]) {
        forall j | 0 <= j < i ensures KeyLess(keys[ready[i]], keys[ready[j]]) {
          KeysOrdered(keys[ready[i]], keys[ready[best]], keys[ready[j]]);
        }
        best := i;
      }
    }
  }

  /** The smallest ready operation is the smallest operation left. */
  lemma PickedIsSmallest(keys: seq<Key>, edges: seq<Dep>, order: seq<nat>, ready: seq<nat>, best: nat)
    requires KeysOf(keys) && Forward(keys, edges) && ReadyIs(edges, |keys|, Members(order), ready)
    requires best < |ready| && forall i :: 0 <= i < |ready| ==> ready[i] < |keys|
    requires forall i :: 0 <= i < |ready| && i != best ==> KeyLess(keys[ready[best]], keys[ready[i]])
    ensures Smallest(keys, Members(order), ready[best]) && ready[best] < |keys| && ready[best] !in order
  {
    assert ready[best] in ready;
    var least := SmallestExists(keys, Members(order), |keys|);
    SmallestIsReady(keys, edges, order, ready, least);
    var i: nat :| i < |ready| && ready[i] == least;
    KeysOrdered(keys[ready[best]], keys[least], keys[ready[best]]);
  }

  ghost function Remaining(n: nat, order: seq<nat>): set<nat> {
    set v: nat | v < n && v !in order
  }

  lemma RemainingShrinks(n: nat, order: seq<nat>, u: nat)
    requires u < n && u !in order
    ensures Remaining(n, order + [u]) < Remaining(n, order)
  {
    assert u in Remaining(n, order) && u !in Remaining(n, order + [u]);
  }

  ghost predicate ReadyBelow(edges: seq<Dep>, ready: seq<nat>, k: nat) {
    && Distinct(ready)
    && forall v: nat :: v in ready <==> v < k && Waiting(edges, {}, v) == 0
  }

  lemma ReadyMore(edges: seq<Dep>, n: nat, adj: seq<seq<nat>>, indeg: seq<nat>, ready: seq<nat>, k: nat)
    requires GraphIs(edges, n, adj, indeg, {}) && ReadyBelow(edges, ready, k) && k < n
    ensures |indeg| == n && ReadyBelow(edges, if indeg[k] == 0 then ready + [k] else ready, k + 1)
  {
  }

  lemma ScanStarts(edges: seq<Dep>, n: nat, adj: seq<seq<nat>>, indeg: seq<nat>)
    requires GraphIs(edges, n, adj, indeg, {})
    ensures |indeg| == n && ReadyBelow(edges, [], 0)
  {
  }

  lemma ScanEnds(keys: seq<Key>, edges: seq<Dep>, ready: seq<nat>)
    requires ReadyBelow(edges, ready, |keys|)
    ensures Members([]) == {} && ReadyIs(edges, |keys|, Members([]), ready) && SmallestFirst(keys, [])
  {
    assert Members([]) == {};
  }

  lemma ReadyFits(edges: seq<Dep>, n: nat, adj: seq<seq<nat>>, indeg: seq<nat>, emitted: set<nat>, ready: seq<nat>)
    requires GraphIs(edges, n, adj, indeg, emitted) && ReadyIs(edges, n, emitted, ready)
    ensures |adj| == n && Distinct(ready) && forall i :: 0 <= i < |ready| ==> ready[i] < n && ready[i] !in emitted
  {
    assert forall i :: 0 <= i < |ready| ==> ready[i] in ready;
  }

  /** Taking the picked operation out by moving the last one into its place. */
  lemma RestIs(ready: seq<nat>, best: nat, rest: seq<nat>)
    requires Distinct(ready) && best < |ready| && rest == ready[best := ready[|ready| - 1]][..|ready| - 1]
    ensures Taken(ready, ready[best], rest)
  {
    assert ready[best] in ready;
    var last := |ready| - 1;
    forall v | v in ready && v != ready[best] ensures v in rest {
      var i: nat :| i < |ready| && ready[i] == v;
      if i == last {
        assert rest[best] == v;
      } else {
        assert rest[i] == v;
      }
    }
  }

  /** As long as something is left, something is ready. */
  lemma ReadyWhileLeft(keys: seq<Key>, edges: seq<Dep>, order: seq<nat>, ready: seq<nat>)
    requires KeysOf(keys) && Forward(keys, edges) && ReadyIs(edges, |keys|, Members(order), ready) && SmallestFirst(keys, order)
    ensures ready == [] ==> forall v: nat :: v in order <==> v < |keys|
  {
    if u: nat :| u < |keys| && u !in Members(order) {
      var least := SmallestExists(keys, Members(order), |keys|);
      SmallestIsReady(keys, edges, order, ready, least);
    } else {
      assert forall v: nat :: v in order <==> v in Members(order);
    }
  }

  /** Kahn's algorithm over edges that ascend in the key emits every operation, in key order. */
  method KahnOrder(n: nat, keys: seq<Key>, edges: seq<Dep>) returns (order: seq<nat>)
    requires |keys| == n && KeysOf(keys) && Forward(keys, edges)
    ensures SmallestFirst(keys, order) && forall v: nat :: v in order <==> v < n
  {
    hide GraphIs, ReadyIs, KeyLess, SmallestFirst, Releasing, Forward, Smallest, Distinct, ReadyBelow, Members, Remaining, Taken;
    var adj, indeg := BuildGraph(n, keys, edges);
    var ready: seq<nat> := [];
    ScanStarts(edges, n, adj, indeg);
    for v := 0 to n
      invariant |indeg| == n && ReadyBelow(edges, ready, v)
    {
      ReadyMore(edges, n, adj, indeg, ready, v);
      if indeg[v] == 0 {
        ready := ready + [v];
      }
    }
    order := [];
    ScanEnds(keys, edges, ready);
    while ready != []
      invariant |indeg| == n && GraphIs(edges, n, adj, indeg, Members(order)) && ReadyIs(edges, n, Members(order), ready)
      invariant SmallestFirst(keys, order)
      decreases Remaining(n, order)
    {
      ReadyFits(edges, n, adj, indeg, Members(order), ready);
      var best := PickSmallest(keys, ready);
      PickedIsSmallest(keys, edges, order, ready, best);
      var u := ready[best];
      var rest := ready[best := ready[|ready| - 1]][..|ready| - 1];
      RestIs(ready, best, rest);
      ghost var order0, indeg0 := order, indeg;
      ReleaseStarts(keys, edges, n, adj, indeg, Members(order), ready, u, rest);
      EmitsSmallest(keys, order, u);
      order := order + [u];
      ready := rest;
      var list := adj[u];
      assert list[0..] == list;
      for k := 0 to |list|
        invariant |indeg| == n && Releasing(edges, n, indeg, Members(order), ready, list[k..])
      {
        assert list[k] in adj[u];
        SuccessorLater(keys, edges, n, adj, indeg0, order0, u, list[k]);
        assert list[k..] == [list[k]] + list[k + 1..];
        ReleaseMore(edges, n, indeg, Members(order), ready, list[k], list[k + 1..]);
        indeg := indeg[list[k] := indeg[list[k]] - 1];
        if indeg[list[k]] == 0 {
          ready := ready + [list[k]];
        }
      }
      assert list[|list|..] == [];
      ReleaseEnds(edges, n, adj, indeg0, indeg, Members(order0), Members(order), ready);
      RemainingShrinks(n, order0, u);
    }
    ReadyWhileLeft(keys, edges, order, ready);
  }
}
