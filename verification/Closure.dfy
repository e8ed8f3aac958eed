/** The hand-written incremental transitive closure: bit rows updated in place under edge adds and
    batches of edge deletes. */
module Closure {
  import opened Sequences

  type Edge = (nat, nat)

  // ------------------------------------------------------------------
  // Reachability by one or more edges.

  ghost predicate Walk(edges: set<Edge>, k: nat, s: nat, t: nat) {
    if k == 0 then (s, t) in edges else exists u: nat :: Walk(edges, k - 1, s, u) && (u, t) in edges
  }

  ghost predicate Reach(edges: set<Edge>, s: nat, t: nat) {
    exists k: nat :: Walk(edges, k, s, t)
  }

  ghost predicate ReachOrSame(edges: set<Edge>, s: nat, t: nat) {
    s == t || Reach(edges, s, t)
  }

  lemma ReachStep(edges: set<Edge>, s: nat, u: nat, t: nat)
    requires ReachOrSame(edges, s, u) && (u, t) in edges
    ensures Reach(edges, s, t)
  {
    if s == u {
      assert Walk(edges, 0, s, t);
    } else {
      var k: nat :| Walk(edges, k, s, u);
      assert Walk(edges, k + 1, s, t);
    }
  }

  lemma {:induction false} WalkJoins(edges: set<Edge>, s: nat, u: nat, k: nat, t: nat)
    requires ReachOrSame(edges, s, u) && Walk(edges, k, u, t)
    ensures Reach(edges, s, t)
  {
    if k == 0 {
      ReachStep(edges, s, u, t);
    } else {
      var v: nat :| Walk(edges, k - 1, u, v) && (v, t) in edges;
      WalkJoins(edges, s, u, k - 1, v);
      ReachStep(edges, s, v, t);
    }
  }

  lemma {:induction false} WalkMore(less: set<Edge>, more: set<Edge>, k: nat, s: nat, t: nat)
    requires less <= more && Walk(less, k, s, t)
    ensures Walk(more, k, s, t)
  {
    if k > 0 {
      var u: nat :| Walk(less, k - 1, s, u) && (u, t) in less;
      WalkMore(less, more, k - 1, s, u);
    }
  }

  lemma ReachMore(less: set<Edge>, more: set<Edge>, s: nat, t: nat)
    requires less <= more && Reach(less, s, t)
    ensures Reach(more, s, t)
  {
    var k: nat :| Walk(less, k, s, t);
    WalkMore(less, more, k, s, t);
  }

  // ------------------------------------------------------------------
  // One edge more.

  /** What a new edge adds: pairs that pass through it. */
  ghost predicate Through(edges: set<Edge>, a: nat, b: nat, s: nat, t: nat) {
    ReachOrSame(edges, s, a) && ReachOrSame(edges, b, t)
  }

  lemma {:induction false} WalkWithEdge(edges: set<Edge>, a: nat, b: nat, k: nat, s: nat, t: nat)
    requires Walk(edges + {(a, b)}, k, s, t)
    ensures Reach(edges, s, t) || Through(edges, a, b, s, t)
  {
    if k == 0 {
      if (s, t) in edges {
        ReachStep(edges, s, s, t);
      }
    } else {
      var u: nat :| Walk(edges + {(a, b)}, k - 1, s, u) && (u, t) in edges + {(a, b)};
      WalkWithEdge(edges, a, b, k - 1, s, u);
      if (u, t) in edges {
        if Reach(edges, s, u) {
          ReachStep(edges, s, u, t);
        } else {
          ReachStep(edges, b, u, t);
        }
      }
    }
  }

  /** The exact closure update for one inserted edge. */
  lemma ReachWithEdge(edges: set<Edge>, a: nat, b: nat, s: nat, t: nat)
    ensures Reach(edges + {(a, b)}, s, t) <==> Reach(edges, s, t) || Through(edges, a, b, s, t)
  {
    var more := edges + {(a, b)};
    if Reach(more, s, t) {
      var k: nat :| Walk(more, k, s, t);
      WalkWithEdge(edges, a, b, k, s, t);
    }
    if Reach(edges, s, t) {
      ReachMore(edges, more, s, t);
    }
    if Through(edges, a, b, s, t) {
      if s != a {
        ReachMore(edges, more, s, a);
      }
      ReachStep(more, s, a, b);
      if b != t {
        ReachMore(edges, more, b, t);
        var k: nat :| Walk(more, k, b, t);
        WalkJoins(more, s, b, k, t);
      }
    }
  }

  // ------------------------------------------------------------------
  // Edges less.

  /** The row of `s` may change: `s` is or reaches the tail of a removed edge. */
  ghost predicate Affected(edges: set<Edge>, removes: seq<Edge>, s: nat) {
    exists e :: e in removes && ReachOrSame(edges, s, e.0)
  }

  lemma {:induction false} WalkWithout(edges: set<Edge>, less: set<Edge>, removes: seq<Edge>, k: nat, s: nat, t: nat)
    requires less <= edges && (forall e :: e in edges && e !in less ==> e in removes)
    requires !Affected(edges, removes, s) && Walk(edges, k, s, t)
    ensures Walk(less, k, s, t) && Reach(edges, s, t)
  {
    if k == 0 {
      assert (s, t) in less;
    } else {
      var u: nat :| Walk(edges, k - 1, s, u) && (u, t) in edges;
      WalkWithout(edges, less, removes, k - 1, s, u);
      assert (u, t) in less;
    }
  }

  /** A row that is not affected keeps its contents. */
  lemma ReachWithout(edges: set<Edge>, less: set<Edge>, removes: seq<Edge>, s: nat, t: nat)
    requires less <= edges && (forall e :: e in edges && e !in less ==> e in removes)
    requires !Affected(edges, removes, s)
    ensures Reach(less, s, t) <==> Reach(edges, s, t)
  {
    if Reach(edges, s, t) {
      var k: nat :| Walk(edges, k, s, t);
      WalkWithout(edges, less, removes, k, s, t);
    }
    if Reach(less, s, t) {
      ReachMore(less, edges, s, t);
    }
  }

  /** A set that holds the successors of `s` and is closed under edges holds all that `s` reaches. */
  lemma {:induction false} WalkInside(edges: set<Edge>, inside: set<nat>, k: nat, s: nat, t: nat)
    requires forall v: nat :: (s, v) in edges ==> v in inside
    requires forall u: nat, v: nat :: u in inside && (u, v) in edges ==> v in inside
    requires Walk(edges, k, s, t)
    ensures t in inside
  {
    if k > 0 {
      var u: nat :| Walk(edges, k - 1, s, u) && (u, t) in edges;
      WalkInside(edges, inside, k - 1, s, u);
    }
  }

  /** One epoch of the churn: its removes are applied before its adds. */
  datatype Batch = Batch(removes: seq<Edge>, adds: seq<Edge>)

  /** The edges alive after the batches, with their copies: a remove takes one copy away, if there is one. */
  ghost function Replayed(bag: multiset<Edge>, batches: seq<Batch>): multiset<Edge> {
    if batches == [] then bag
    else
      var last := batches[|batches| - 1];
      Replayed(bag, batches[..|batches| - 1]) - multiset(last.removes) + multiset(last.adds)
  }

  // ------------------------------------------------------------------
  // Adjacency lists.

  /** The lists hold these edges, each as often as it was added and not removed. */
  ghost predicate ListsHold(lists: seq<seq<nat>>, bag: multiset<Edge>) {
    && (forall u: nat, v: nat :: u < |lists| ==> multiset(lists[u])[v] == bag[(u, v)])
    && forall e :: e in bag ==> e.0 < |lists|
  }

  ghost function EdgesOf(lists: seq<seq<nat>>): set<Edge> {
    set u: nat, v | u < |lists| && v in lists[u] :: (u, v)
  }

  /** One list's copies of one number change with the edge's. */
  lemma ListChanges(lists: seq<seq<nat>>, bag: multiset<Edge>, more: multiset<Edge>, a: nat, b: nat, list: seq<nat>)
    requires ListsHold(lists, bag) && a < |lists|
    requires multiset(list)[b] == more[(a, b)] && forall v: nat :: v != b ==> multiset(list)[v] == multiset(lists[a])[v]
    requires forall e: Edge :: e != (a, b) ==> more[e] == bag[e]
    ensures ListsHold(lists[a := list], more)
  {
    forall u: nat, v: nat | u < |lists| ensures multiset(lists[a := list][u])[v] == more[(u, v)] {
      assert multiset(lists[u])[v] == bag[(u, v)];
      assert u == a && v == b ==> (u, v) == (a, b);
    }
    forall e | e in more ensures e.0 < |lists| {
      assert e != (a, b) ==> e in bag;
    }
  }

  lemma ListAdds(lists: seq<seq<nat>>, bag: multiset<Edge>, a: nat, b: nat)
    requires ListsHold(lists, bag) && a < |lists|
    ensures ListsHold(lists[a := lists[a] + [b]], bag + multiset{(a, b)})
    ensures EdgesOf(lists[a := lists[a] + [b]]) == EdgesOf(lists) + {(a, b)}
  {
    var more := lists[a := lists[a] + [b]];
    assert multiset(lists[a])[b] == bag[(a, b)];
    ListChanges(lists, bag, bag + multiset{(a, b)}, a, b, lists[a] + [b]);
    EdgesHeld(lists, bag);
    EdgesHeld(more, bag + multiset{(a, b)});
  }

  lemma ListDrops(lists: seq<seq<nat>>, bag: multiset<Edge>, a: nat, b: nat, i: nat)
    requires ListsHold(lists, bag) && a < |lists| && i < |lists[a]| && lists[a][i] == b
    ensures ListsHold(lists[a := lists[a][i := lists[a][|lists[a]| - 1]][..|lists[a]| - 1]], bag - multiset{(a, b)})
  {
    var list := SwapPop(lists[a], i);
    assert multiset(lists[a])[b] == bag[(a, b)];
    ListChanges(lists, bag, bag - multiset{(a, b)}, a, b, list);
  }

  lemma NothingDrops(lists: seq<seq<nat>>, bag: multiset<Edge>, a: nat, b: nat)
    requires ListsHold(lists, bag) && a < |lists| && b !in lists[a]
    ensures bag - multiset{(a, b)} == bag
  {
    assert multiset(lists[a])[b] == bag[(a, b)];
  }

  lemma EdgesHeld(lists: seq<seq<nat>>, bag: multiset<Edge>)
    requires ListsHold(lists, bag)
    ensures forall e :: e in EdgesOf(lists) <==> e in bag
  {
    forall e: Edge ensures e in EdgesOf(lists) <==> e in bag {
      assert e == (e.0, e.1);
      if e.0 < |lists| {
        assert multiset(lists[e.0])[e.1] == bag[(e.0, e.1)];
        assert e.1 in lists[e.0] <==> e.1 in multiset(lists[e.0]);
      }
    }
  }

  // ------------------------------------------------------------------
  // The baseline's state: adjacency lists, closure rows, and the walk's visited bits.

  class Baseline {
    const nodes: nat
    const out: array<seq<nat>>
    const bits: array2<bool>
    const visited: array<bool>

    ghost predicate Shaped()
      reads out
    {
      && out.Length == nodes == bits.Length0 == bits.Length1 == visited.Length
      && forall u, v :: 0 <= u < nodes && v in out[u] ==> v < nodes
    }

    ghost predicate Valid()
      reads out, visited
    {
      Shaped() && forall t :: 0 <= t < nodes ==> !visited[t]
    }

    /** The adjacency lists hold these edges. */
    ghost predicate Holds(bag: multiset<Edge>)
      reads out
    {
      ListsHold(out[..], bag)
    }

    ghost function Edges(): set<Edge>
      reads out
    {
      EdgesOf(out[..])
    }

    ghost predicate RowIs(edges: set<Edge>, s: nat)
      requires bits.Length0 == bits.Length1 == nodes && s < nodes
      reads bits
    {
      forall t :: 0 <= t < nodes ==> (bits[s, t] <==> Reach(edges, s, t))
    }

    /** The rows hold the transitive closure of the edges. */
    ghost predicate Exact(edges: set<Edge>)
      requires bits.Length0 == bits.Length1 == nodes
      reads bits
    {
      forall s :: 0 <= s < nodes ==> RowIs(edges, s)
    }

    constructor (n: nat)
      ensures Valid() && nodes == n && Holds(multiset{}) && Exact({})
      ensures fresh(out) && fresh(bits) && fresh(visited)
    {
      nodes := n;
      out := new seq<nat>[n](_ => []);
      bits := new bool[n, n]((_, _) => false);
      visited := new bool[n](_ => false);
      new;
      forall s, t | 0 <= s < n && 0 <= t < n ensures !Reach({}, s, t) {
        NothingReaches(s, t);
      }
    }

    /** One edge more in the adjacency. */
    method Add(a: nat, b: nat, ghost bag: multiset<Edge>)
      requires Valid() && Holds(bag) && a < nodes && b < nodes
      modifies out
      ensures Valid() && Holds(bag + multiset{(a, b)}) && Edges() == old(Edges()) + {(a, b)}
    {
      hide ListsHold;
      ListAdds(out[..], bag, a, b);
      out[a] := out[a] + [b];
      assert out[..] == old(out[..])[a := old(out[a]) + [b]];
    }

    /** One copy of an edge less, if there is one: the last entry takes its place. */
    method Remove(a: nat, b: nat, ghost bag: multiset<Edge>)
      requires Valid() && Holds(bag) && a < nodes
      modifies out
      ensures Valid() && Holds(bag - multiset{(a, b)})
    {
      hide ListsHold;
      ghost var lists := out[..];
      var v := out[a];
      for i := 0 to |v|
        invariant b !in v[..i] && out[..] == lists && v == lists[a] && Valid()
      {
        if v[i] == b {
          ListDrops(lists, bag, a, b, i);
          var list := v[i := v[|v| - 1]][..|v| - 1];
          DroppedFit(v, i);
          assert forall x :: x in list ==> x in v && x < nodes;
          out[a] := list;
          assert out[..] == lists[a := list];
          assert forall u, x :: 0 <= u < nodes && x in out[u] ==> x in if u == a then list else lists[u];
          return;
        }
        assert v[..i + 1] == v[..i] + [v[i]];
      }
      assert v[..|v|] == v;
      NothingDrops(lists, bag, a, b);
    }

    /** Exact closure update for one inserted edge: row `b` and `b` itself are copied first, since
        row `b` may be among the rows they are joined to. */
    method AddEdgeIncremental(a: nat, b: nat, ghost edges: set<Edge>)
      requires bits.Length0 == bits.Length1 == nodes && a < nodes && b < nodes && Exact(edges)
      modifies bits
      ensures Exact(edges + {(a, b)})
    {
      var scratch := new bool[nodes];
      for t := 0 to nodes
        invariant forall v :: 0 <= v < t ==> scratch[v] == bits[b, v]
        invariant Exact(edges)
      {
        scratch[t] := bits[b, t];
      }
      scratch[b] := true;
      assert forall t: nat :: t < nodes ==> (scratch[t] <==> ReachOrSame(edges, b, t)) by {
        assert RowIs(edges, b);
      }
      for s := 0 to nodes
        invariant forall v :: 0 <= v < s ==> RowIs(edges + {(a, b)}, v)
        invariant forall v :: s <= v < nodes ==> RowIs(edges, v)
        invariant forall t: nat :: t < nodes ==> (scratch[t] <==> ReachOrSame(edges, b, t))
      {
        assert RowIs(edges, s);
        var joins := s == a || bits[s, a];
        label before:
        if joins {
          JoinRow(s, scratch);
        }
        forall v | 0 <= v < s ensures RowIs(edges + {(a, b)}, v) {
          assert old@before(RowIs(edges + {(a, b)}, v));
        }
        forall v | s < v < nodes ensures RowIs(edges, v) {
          assert old@before(RowIs(edges, v));
        }
        forall t: nat | t < nodes ensures bits[s, t] <==> Reach(edges + {(a, b)}, s, t) {
          ReachWithEdge(edges, a, b, s, t);
        }
      }
    }

    /** Every row but `s` is as it was. */
    twostate predicate OthersKept(s: nat)
      requires bits.Length0 == bits.Length1 == nodes
      reads bits
    {
      forall v, t :: 0 <= v < nodes && 0 <= t < nodes && v != s ==> bits[v, t] == old(bits[v, t])
    }

    /** Row `s` computed anew: the nodes reachable from `s` by one or more edges, found by a walk
        whose worklist grows while it is read. The visited bits are clear before and after. */
    method RecomputeRow(s: nat)
      requires Valid() && s < nodes
      modifies bits, visited
      ensures Valid() && RowIs(Edges(), s) && OthersKept(s)
    {
      ClearRow(s);
      var worklist := Reached(s);
      MarkRow(s, worklist);
      Forget(worklist);
    }

    /** The visited bits cleared again, where they were touched. */
    method Forget(worklist: seq<nat>)
      requires Shaped() && (forall t :: t in worklist ==> t < nodes) && forall t: nat :: t < nodes && visited[t] ==> t in worklist
      modifies visited
      ensures Valid()
    {
      assert worklist[0..] == worklist;
      for k := 0 to |worklist|
        invariant Shaped() && forall t: nat :: t < nodes && visited[t] ==> t in worklist[k..]
      {
        assert worklist[k] in worklist;
        assert worklist[k..] == [worklist[k]] + worklist[k + 1..];
        visited[worklist[k]] := false;
      }
    }

    /** The nodes reachable from `s`, each once, and visited. */
    method Reached(s: nat) returns (worklist: seq<nat>)
      requires Valid() && s < nodes
      modifies visited
      ensures Shaped() && Visited(s, worklist, Edges())
      ensures forall t: nat :: t in worklist <==> t < nodes && Reach(Edges(), s, t)
    {
      hide Visited, Explored, Edges, Reach;
      ghost var edges := Edges();
      NoneVisited(s, edges);
      worklist := [];
      worklist := Visit(s, s, worklist, edges);
      ghost var done := [s];
      var i := 0;
      while i < |worklist|
        invariant 0 <= i <= |worklist| && Visited(s, worklist, edges)
        invariant done == [s] + worklist[..i] && Explored(done, worklist)
        decreases nodes - |worklist|, |worklist| - i
      {
        var u := worklist[i];
        VisitedFits(s, worklist, edges, i);
        ghost var before := worklist;
        worklist := Visit(s, u, worklist, edges);
        VisitedFits(s, worklist, edges, i);
        ExploredMore(done, u, before, worklist);
        done := done + [u];
        i := i + 1;
      }
      assert done == [s] + worklist;
      WalkDone(s, worklist);
    }

    lemma NoneVisited(s: nat, edges: set<Edge>)
      requires Valid() && s < nodes
      ensures Visited(s, [], edges)
    {
    }

    lemma VisitedFits(s: nat, worklist: seq<nat>, edges: set<Edge>, i: nat)
      requires Shaped() && s < nodes && Visited(s, worklist, edges) && i < |worklist|
      ensures |worklist| <= nodes && worklist[i] < nodes && Reach(edges, s, worklist[i])
    {
      assert worklist[i] in worklist;
    }

    lemma ExploredMore(done: seq<nat>, u: nat, before: seq<nat>, worklist: seq<nat>)
      requires Shaped() && Explored(done, before) && before <= worklist && Explored([u], worklist)
      ensures Explored(done + [u], worklist)
    {
      forall v | v in before ensures v in worklist {
        var i :| 0 <= i < |before| && before[i] == v;
        assert worklist[i] == v;
      }
    }

    lemma WalkDone(s: nat, worklist: seq<nat>)
      requires Shaped() && s < nodes && Visited(s, worklist, Edges()) && Explored([s] + worklist, worklist)
      ensures forall t: nat :: t in worklist <==> t < nodes && Reach(Edges(), s, t)
    {
      forall t: nat | t < nodes && Reach(Edges(), s, t) ensures t in worklist {
        var k: nat :| Walk(Edges(), k, s, t);
        WalkInside(Edges(), (set v | v in worklist), k, s, t);
      }
    }

    method ClearRow(s: nat)
      requires Shaped() && s < nodes
      modifies bits
      ensures OthersKept(s) && forall t :: 0 <= t < nodes ==> !bits[s, t]
    {
      for t := 0 to nodes
        invariant OthersKept(s) && forall v :: 0 <= v < t ==> !bits[s, v]
      {
        bits[s, t] := false;
      }
    }

    method MarkRow(s: nat, worklist: seq<nat>)
      requires Shaped() && s < nodes && (forall t :: t in worklist ==> t < nodes) && forall t :: 0 <= t < nodes ==> !bits[s, t]
      modifies bits
      ensures OthersKept(s) && forall t: nat :: t < nodes ==> (bits[s, t] <==> t in worklist)
    {
      for k := 0 to |worklist|
        invariant OthersKept(s) && forall t: nat :: t < nodes ==> (bits[s, t] <==> t in worklist[..k])
      {
        assert worklist[k] in worklist;
        assert worklist[..k + 1] == worklist[..k] + [worklist[k]];
        bits[s, worklist[k]] := true;
      }
      assert worklist[..|worklist|] == worklist;
    }

    /** The visited nodes are the worklist, and everything on it is reachable from `s`. */
    ghost predicate Visited(s: nat, worklist: seq<nat>, edges: set<Edge>)
      requires Shaped() && s < nodes
      reads out, visited
    {
      && |worklist| <= nodes && Distinct(worklist)
      && (forall t: nat :: t < nodes ==> (visited[t] <==> t in worklist))
      && (forall t: nat :: t in worklist ==> t < nodes && Reach(edges, s, t))
    }

    /** The successors of the nodes done are on the worklist. */
    ghost predicate Explored(done: seq<nat>, worklist: seq<nat>)
      requires Shaped()
      reads out
    {
      forall u: nat, v :: u in done && u < nodes && v in out[u] ==> v in worklist
    }

    /** The successors of `u` not visited yet, appended to the worklist. */
    method Visit(s: nat, u: nat, worklist0: seq<nat>, ghost edges: set<Edge>) returns (worklist: seq<nat>)
      requires Shaped() && s < nodes && u < nodes && edges == Edges() && Visited(s, worklist0, edges) && ReachOrSame(edges, s, u)
      modifies visited
      ensures Visited(s, worklist, edges) && worklist0 <= worklist && Explored([u], worklist)
    {
      worklist := worklist0;
      for k := 0 to |out[u]|
        invariant Visited(s, worklist, edges) && worklist0 <= worklist
        invariant forall j :: 0 <= j < k ==> out[u][j] in worklist
      {
        var v := out[u][k];
        assert v in out[u];
        if !visited[v] {
          assert (u, v) in edges;
          ReachStep(edges, s, u, v);
          DistinctFit(worklist + [v], nodes);
          visited[v] := true;
          worklist := worklist + [v];
        }
      }
    }

    /** Row `s` with the scratch row joined to it. */
    method JoinRow(s: nat, scratch: array<bool>)
      requires bits.Length0 == bits.Length1 == nodes == scratch.Length && s < nodes
      modifies bits
      ensures forall t :: 0 <= t < nodes ==> bits[s, t] == (old(bits[s, t]) || scratch[t])
      ensures forall v, t :: 0 <= v < nodes && 0 <= t < nodes && v != s ==> bits[v, t] == old(bits[v, t])
    {
      for w := 0 to nodes
        invariant forall t :: 0 <= t < w ==> bits[s, t] == (old(bits[s, t]) || scratch[t])
        invariant forall t :: w <= t < nodes ==> bits[s, t] == old(bits[s, t])
        invariant forall v, t :: 0 <= v < nodes && 0 <= t < nodes && v != s ==> bits[v, t] == old(bits[v, t])
      {
        bits[s, w] := bits[s, w] || scratch[w];
      }
    }

    lemma FitOne(e: Edge)
      requires e.0 < nodes && e.1 < nodes
      ensures Fit([e])
    {
    }

    ghost predicate Fit(edges: seq<Edge>) {
      forall e :: e in edges ==> e.0 < nodes && e.1 < nodes
    }

    method IsAffected(s: nat, removes: seq<Edge>, ghost edges: set<Edge>) returns (hit: bool)
      requires bits.Length0 == bits.Length1 == nodes && s < nodes && Exact(edges) && Fit(removes)
      ensures hit <==> Affected(edges, removes, s)
    {
      assert RowIs(edges, s);
      for k := 0 to |removes|
        invariant forall j :: 0 <= j < k ==> !ReachOrSame(edges, s, removes[j].0)
      {
        assert removes[k] in removes;
        if s == removes[k].0 || bits[s, removes[k].0] {
          return true;
        }
      }
      hit := false;
    }

    method RemoveAll(removes: seq<Edge>, ghost bag: multiset<Edge>)
      requires Valid() && Holds(bag) && Fit(removes)
      modifies out
      ensures Valid() && Holds(bag - multiset(removes))
    {
      hide Holds;
      assert bag - multiset(removes[..0]) == bag;
      for k := 0 to |removes|
        invariant Valid() && Holds(bag - multiset(removes[..k]))
      {
        assert removes[k] in removes;
        Remove(removes[k].0, removes[k].1, bag - multiset(removes[..k]));
        OneLess(bag, removes, k);
      }
      assert removes[..|removes|] == removes;
    }

    ghost predicate RowsDone(done: set<nat>)
      requires Shaped()
      reads out, bits
    {
      forall v: nat :: v in done && v < nodes ==> RowIs(Edges(), v)
    }

    /** A row recomputed, and the others' meaning kept. */
    method Refresh(s: nat, ghost done: set<nat>)
      requires Valid() && s < nodes && RowsDone(done)
      modifies bits, visited
      ensures Valid() && RowsDone(done + {s})
    {
      RecomputeRow(s);
      forall v: nat | v in done && v < nodes && v != s ensures RowIs(Edges(), v) {
        assert old(RowIs(Edges(), v));
      }
    }

    /** A batch of deletes that recomputes only the rows that are, or reach, the tail of a removed edge. */
    method DeleteAffected(removes: seq<Edge>, ghost bag: multiset<Edge>)
      requires Valid() && Holds(bag) && Exact(Edges()) && Fit(removes)
      modifies out, bits, visited
      ensures Valid() && Holds(bag - multiset(removes)) && Exact(Edges())
    {
      hide Holds, Edges, Affected, ListsHold;
      ghost var edges := Edges();
      HeldEdges(bag);
      var affected: seq<nat> := [];
      for s := 0 to nodes
        invariant Valid() && Holds(bag) && Edges() == edges && Exact(edges)
        invariant forall v: nat :: v in affected ==> v < nodes
        invariant forall v: nat :: v < s && v !in affected ==> !Affected(edges, removes, v)
      {
        var hit := IsAffected(s, removes, edges);
        if hit {
          affected := affected + [s];
        }
      }
      RemoveAll(removes, bag);
      HeldEdges(bag - multiset(removes));
      ghost var less := Edges();
      OnlyRemoved(edges, less, removes, bag);
      ghost var done := set v: nat | v < nodes && v !in affected;
      forall v: nat | v in done ensures RowIs(less, v) {
        UnaffectedRow(edges, less, removes, v);
      }
      for k := 0 to |affected|
        invariant Valid() && Holds(bag - multiset(removes)) && Edges() == less && RowsDone(done)
        invariant forall v: nat :: v < nodes && v !in affected[k..] ==> v in done
      {
        assert affected[k] in affected;
        Refresh(affected[k], done);
        done := done + {affected[k]};
        assert affected[k..] == [affected[k]] + affected[k + 1..];
      }
    }

    lemma HeldEdges(bag: multiset<Edge>)
      requires Holds(bag)
      ensures forall e :: e in Edges() <==> e in bag
    {
      EdgesHeld(out[..], bag);
    }

    lemma UnaffectedRow(edges: set<Edge>, less: set<Edge>, removes: seq<Edge>, s: nat)
      requires Shaped() && s < nodes && RowIs(edges, s) && !Affected(edges, removes, s)
      requires less <= edges && forall e :: e in edges && e !in less ==> e in removes
      ensures RowIs(less, s)
    {
      forall t: nat | t < nodes ensures Reach(less, s, t) <==> Reach(edges, s, t) {
        ReachWithout(edges, less, removes, s, t);
      }
    }

    /** The upper-bound control: every row from scratch. */
    method DeleteFull(removes: seq<Edge>, ghost bag: multiset<Edge>)
      requires Valid() && Holds(bag) && Fit(removes)
      modifies out, bits, visited
      ensures Valid() && Holds(bag - multiset(removes)) && Exact(Edges())
    {
      RemoveAll(removes, bag);
      ghost var done: set<nat> := {};
      for s := 0 to nodes
        invariant Valid() && Holds(bag - multiset(removes))
        invariant RowsDone(done) && forall v: nat :: v < s ==> v in done
      {
        Refresh(s, done);
        done := done + {s};
      }
    }

    method AddAll(adds: seq<Edge>, ghost bag: multiset<Edge>)
      requires Valid() && Holds(bag) && Exact(Edges()) && Fit(adds)
      modifies out, bits
      ensures Valid() && Holds(bag + multiset(adds)) && Exact(Edges())
    {
      hide Holds, Edges;
      assert bag + multiset(adds[..0]) == bag;
      for k := 0 to |adds|
        invariant Valid() && Holds(bag + multiset(adds[..k])) && Exact(Edges())
      {
        assert adds[k] in adds;
        AddEdge(adds[k].0, adds[k].1, bag + multiset(adds[..k]));
        OneMore(bag, adds, k);
      }
      assert adds[..|adds|] == adds;
    }

    method AddEdge(a: nat, b: nat, ghost bag: multiset<Edge>)
      requires Valid() && Holds(bag) && Exact(Edges()) && a < nodes && b < nodes
      modifies out, bits
      ensures Valid() && Holds(bag + multiset{(a, b)}) && Exact(Edges()) && Edges() == old(Edges()) + {(a, b)}
    {
      ghost var edges := Edges();
      Add(a, b, bag);
      AddEdgeIncremental(a, b, edges);
    }

    /** One epoch: the removes by either strategy, then the adds one edge at a time. */
    method RunBatch(batch: Batch, full: bool, ghost bag: multiset<Edge>)
      requires Valid() && Holds(bag) && Exact(Edges()) && Fit(batch.removes) && Fit(batch.adds)
      modifies out, bits, visited
      ensures Valid() && Holds(bag - multiset(batch.removes) + multiset(batch.adds)) && Exact(Edges())
    {
      if batch.removes != [] {
        if full {
          DeleteFull(batch.removes, bag);
        } else {
          DeleteAffected(batch.removes, bag);
        }
      } else {
        assert bag - multiset(batch.removes) == bag;
      }
      AddAll(batch.adds, bag - multiset(batch.removes));
    }

    /** After any epochs the lists hold the edges then alive, and the rows are exactly their closure. */
    method RunBatches(batches: seq<Batch>, full: bool, ghost bag: multiset<Edge>)
      requires Valid() && Holds(bag) && Exact(Edges()) && forall b :: b in batches ==> Fit(b.removes) && Fit(b.adds)
      modifies out, bits, visited
      ensures Valid() && Holds(Replayed(bag, batches)) && Exact(Edges())
      ensures forall e :: e in Edges() <==> e in Replayed(bag, batches)
    {
      for k := 0 to |batches|
        invariant Valid() && Holds(Replayed(bag, batches[..k])) && Exact(Edges())
      {
        assert batches[k] in batches;
        RunBatch(batches[k], full, Replayed(bag, batches[..k]));
        assert batches[..k + 1][..k] == batches[..k];
      }
      assert batches[..|batches|] == batches;
      HeldEdges(Replayed(bag, batches));
    }

    /** A fresh edge added and deleted again leaves every bit as it was. */
    method MatchedPair(e: Edge, full: bool, ghost bag: multiset<Edge>)
      requires Valid() && Holds(bag) && Exact(Edges()) && e.0 < nodes && e.1 < nodes && e !in bag
      modifies out, bits, visited
      ensures Valid() && Holds(bag) && Exact(Edges())
      ensures forall s, t :: 0 <= s < nodes && 0 <= t < nodes ==> bits[s, t] == old(bits[s, t])
    {
      hide Holds, Edges, ListsHold;
      ghost var edges := Edges();
      HeldEdges(bag);
      AddEdge(e.0, e.1, bag);
      ghost var more := bag + multiset{(e.0, e.1)};
      AddedAndRemoved(bag, e);
      FitOne(e);
      if full {
        DeleteFull([e], more);
      } else {
        DeleteAffected([e], more);
      }
      HeldEdges(bag);
      assert Edges() == edges;
      forall s, t | 0 <= s < nodes && 0 <= t < nodes ensures bits[s, t] == old(bits[s, t]) {
        assert RowIs(Edges(), s) && old(RowIs(Edges(), s));
      }
    }
  }

  lemma OnlyRemoved(edges: set<Edge>, less: set<Edge>, removes: seq<Edge>, bag: multiset<Edge>)
    requires (forall e :: e in edges <==> e in bag) && forall e :: e in less <==> e in bag - multiset(removes)
    ensures less <= edges && forall e :: e in edges && e !in less ==> e in removes
  {
    forall e | e in edges && e !in less ensures e in removes {
      assert multiset(removes)[e] > 0;
    }
  }

  lemma OneLess(bag: multiset<Edge>, removes: seq<Edge>, k: nat)
    requires k < |removes|
    ensures bag - multiset(removes[..k + 1]) == bag - multiset(removes[..k]) - multiset{(removes[k].0, removes[k].1)}
  {
    assert removes[..k + 1] == removes[..k] + [removes[k]];
    assert removes[k] == (removes[k].0, removes[k].1);
    assert multiset(removes[..k + 1]) == multiset(removes[..k]) + multiset{removes[k]};
  }

  lemma OneMore(bag: multiset<Edge>, adds: seq<Edge>, k: nat)
    requires k < |adds|
    ensures bag + multiset(adds[..k + 1]) == bag + multiset(adds[..k]) + multiset{(adds[k].0, adds[k].1)}
  {
    assert adds[..k + 1] == adds[..k] + [adds[k]];
    assert adds[k] == (adds[k].0, adds[k].1);
    assert multiset(adds[..k + 1]) == multiset(adds[..k]) + multiset{adds[k]};
  }

  lemma AddedAndRemoved(bag: multiset<Edge>, e: Edge)
    ensures bag + multiset{(e.0, e.1)} - multiset([e]) == bag
  {
    assert e == (e.0, e.1) && multiset([e]) == multiset{e};
  }

  lemma DroppedFit(v: seq<nat>, i: nat)
    requires i < |v|
    ensures forall x :: x in v[i := v[|v| - 1]][..|v| - 1] ==> x in v
  {
  }

  /** Overwriting an entry with the last one and dropping the last takes one copy away. */
  lemma SwapPop(v: seq<nat>, i: nat) returns (list: seq<nat>)
    requires i < |v|
    ensures list == v[i := v[|v| - 1]][..|v| - 1]
    ensures forall x: nat :: multiset(list)[x] == multiset(v)[x] - (if x == v[i] then 1 else 0)
  {
    var n := |v| - 1;
    list := v[i := v[n]][..n];
    assert v == v[..n] + [v[n]];
    if i < n {
      assert list == v[..n][i := v[n]];
    } else {
      assert list == v[..n];
    }
  }

  lemma NothingReaches(s: nat, t: nat)
    ensures !Reach({}, s, t)
  {
    if k: nat :| Walk({}, k, s, t) {
      assert false;
    }
  }
}
