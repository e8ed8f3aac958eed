/** The lift rules of the compiler-side scheduler as a dependence graph over stratum slots and tables:
    strata that respect every rule exist exactly when no path leads back to its start through a read
    across recursive components. */
module Dependences {
  import opened Sequences

  /** A table a unit reads. A strict read has no exemption for the reader's own component. */
  datatype Read = Read(table: nat, strict: bool)

  /** One lift rule: a branch, join, crossover, product arm or group update. It raises `slot` to
      `base` and above the drains of what it reads, then the drains of its targets to `slot`. */
  datatype Unit = Unit(slot: nat, base: nat, head: nat, inputs: seq<Read>, targets: seq<nat>)

  /** The rules in sweep order, the recursive component of each table, and the strata to start from:
      those of the slots, and of the drains of the tables that own a phase. */
  datatype Graph = Graph(tables: nat, units: seq<Unit>, scc: map<nat, nat>, slots: seq<nat>, drains: map<nat, nat>)

  datatype State = State(slots: seq<nat>, drains: map<nat, nat>)

  function Initial(g: Graph): State {
    State(g.slots, g.drains)
  }

  /** Every target owns a phase: its queues, which its writers append to, exist for such tables only. */
  ghost predicate UnitFits(g: Graph, u: Unit) {
    && u.slot < |g.slots| && u.head < g.tables
    && (forall r :: r in u.inputs ==> r.table < g.tables)
    && (forall t :: t in u.targets ==> t in g.drains)
  }

  ghost predicate Fits(g: Graph) {
    && (forall u :: u in g.units ==> UnitFits(g, u))
    && (forall t :: t in g.drains ==> t < g.tables)
    && (forall t :: t in g.scc ==> t < g.tables)
  }

  function Drain(drains: map<nat, nat>, t: nat): nat {
    if t in drains then drains[t] else 0
  }

  predicate SameScc(g: Graph, a: nat, b: nat) {
    a in g.scc && b in g.scc && g.scc[a] == g.scc[b]
  }

  /** A component's mutual reads do not lift each other. */
  predicate Exempt(g: Graph, u: Unit, r: Read) {
    !r.strict && SameScc(g, u.head, r.table)
  }

  /** The stratum a reader must reach: above the drain of what it reads, if that owns a phase. */
  function Ready(g: Graph, drains: map<nat, nat>, u: Unit, r: Read): nat {
    if Exempt(g, u, r) then 0 else if r.table in drains then drains[r.table] + 1 else 0
  }

  /** The rule of `u` has nothing left to raise. */
  ghost predicate UnitOk(g: Graph, s: State, u: Unit)
    requires u.slot < |s.slots|
  {
    && u.base <= s.slots[u.slot]
    && (forall r :: r in u.inputs ==> Ready(g, s.drains, u, r) <= s.slots[u.slot])
    && (forall t :: t in u.targets ==> s.slots[u.slot] <= Drain(s.drains, t))
  }

  /** Every component drains at one stratum. */
  ghost predicate Pinned(g: Graph, s: State) {
    forall a, b :: a in s.drains && b in s.drains && SameScc(g, a, b) ==> s.drains[a] == s.drains[b]
  }

  ghost predicate Above(a: State, b: State) {
    && |a.slots| == |b.slots| && a.drains.Keys == b.drains.Keys
    && (forall i :: 0 <= i < |a.slots| ==> b.slots[i] <= a.slots[i])
    && (forall t :: t in b.drains ==> b.drains[t] <= a.drains[t])
  }

  /** Strata that respect every rule and the strata to start from. */
  ghost predicate Solved(g: Graph, s: State)
    requires Fits(g)
  {
    && Above(s, Initial(g))
    && (forall u :: u in g.units ==> UnitOk(g, s, u))
    && Pinned(g, s)
  }

  /** What one unit asks for, in the terms of the graph alone: a slot no lower than its base, and strictly
      above the drain of everything it reads, unless the read is not strict and stays inside the head's
      component; and drains of its targets no lower than the slot. */
  ghost predicate UnitLifted(scc: map<nat, nat>, s: State, u: Unit) {
    && u.slot < |s.slots| && u.base <= s.slots[u.slot]
    && (forall r :: r in u.inputs && r.table in s.drains
          && (r.strict || u.head !in scc || r.table !in scc || scc[u.head] != scc[r.table])
          ==> s.drains[r.table] < s.slots[u.slot])
    && (forall t :: t in u.targets ==> t in s.drains && s.slots[u.slot] <= s.drains[t])
  }

  /** Strata no lower than those to start from, that every unit's demands and one drain for each
      component are met by. */
  ghost predicate Lifted(g: Graph, s: State) {
    && |s.slots| == |g.slots| && (forall i :: 0 <= i < |g.slots| ==> g.slots[i] <= s.slots[i])
    && s.drains.Keys == g.drains.Keys && (forall t :: t in g.drains ==> g.drains[t] <= s.drains[t])
    && (forall u :: u in g.units ==> UnitLifted(g.scc, s, u))
    && (forall a, b :: a in s.drains && b in s.drains && a in g.scc && b in g.scc && g.scc[a] == g.scc[b]
          ==> s.drains[a] == s.drains[b])
  }

  lemma UnitOkIsLifted(g: Graph, s: State, u: Unit)
    requires UnitFits(g, u) && |s.slots| == |g.slots| && s.drains.Keys == g.drains.Keys
    ensures UnitOk(g, s, u) <==> UnitLifted(g.scc, s, u)
  {
  }

  /** The sweeps' rules ask for exactly that. */
  lemma SolvedIsLifted(g: Graph, s: State)
    requires Fits(g)
    ensures Solved(g, s) <==> Lifted(g, s)
  {
    hide UnitFits, UnitLifted, UnitOk;
    if Above(s, Initial(g)) {
      forall u | u in g.units ensures u.slot < |s.slots| && (UnitOk(g, s, u) <==> UnitLifted(g.scc, s, u)) {
        UnitSlot(g, u);
        UnitOkIsLifted(g, s, u);
      }
    }
  }

  lemma UnitSlot(g: Graph, u: Unit)
    requires UnitFits(g, u)
    ensures u.slot < |g.slots|
  {
  }

  /** The graph without the `i`-th read of its `k`-th unit. */
  function WithoutRead(g: Graph, k: nat, i: nat): Graph
    requires k < |g.units| && i < |g.units[k].inputs|
  {
    var u := g.units[k];
    g.(units := g.units[k := u.(inputs := u.inputs[..i] + u.inputs[i + 1..])])
  }

  /** The pointwise least strata that meet all demands. */
  ghost predicate LeastLifted(g: Graph, s: State) {
    && Lifted(g, s)
    && forall x :: Lifted(g, x) ==>
         && (forall i :: 0 <= i < |s.slots| ==> s.slots[i] <= x.slots[i])
         && (forall t :: t in s.drains ==> s.drains[t] <= x.drains[t])
  }

  /** There is at most one such choice of strata. */
  lemma LeastOnce(g: Graph, s: State, x: State)
    requires LeastLifted(g, s) && LeastLifted(g, x)
    ensures s == x
  {
    assert s.slots == x.slots && s.drains == x.drains;
  }

  /** Taking out a read that is not strict and stays inside the head's component changes neither whether
      there are strata nor which are the least. */
  lemma InnerReadIsFree(g: Graph, k: nat, i: nat, s: State)
    requires Fits(g) && k < |g.units| && i < |g.units[k].inputs|
    requires !g.units[k].inputs[i].strict && g.units[k].head in g.scc && g.units[k].inputs[i].table in g.scc
    requires g.scc[g.units[k].head] == g.scc[g.units[k].inputs[i].table]
    ensures Fits(WithoutRead(g, k, i)) && (Acyclic(WithoutRead(g, k, i)) <==> Acyclic(g))
    ensures LeastLifted(WithoutRead(g, k, i), s) <==> LeastLifted(g, s)
  {
    hide Lifted, Acyclic, Solved;
    var h := WithoutRead(g, k, i);
    WithoutFits(g, k, i);
    forall x ensures (Lifted(h, x) <==> Lifted(g, x)) && (Solved(h, x) <==> Lifted(h, x)) && (Solved(g, x) <==> Lifted(g, x)) {
      LiftedWithout(g, k, i, x);
      SolvedIsLifted(g, x);
      SolvedIsLifted(h, x);
    }
    SolvedIffAcyclic(g);
    SolvedIffAcyclic(h);
    assert h.slots == g.slots && h.drains == g.drains;
    SameLeast(g, h, s);
  }

  lemma SameLeast(g: Graph, h: Graph, s: State)
    requires forall x :: Lifted(h, x) <==> Lifted(g, x)
    ensures LeastLifted(h, s) <==> LeastLifted(g, s)
  {
  }

  lemma UnitsWithout(g: Graph, k: nat, i: nat)
    requires k < |g.units| && i < |g.units[k].inputs|
    ensures
      var h := WithoutRead(g, k, i);
      && |h.units| == |g.units| && (forall j :: 0 <= j < |g.units| && j != k ==> h.units[j] == g.units[j])
      && (forall r :: r in g.units[k].inputs <==> r in h.units[k].inputs || r == g.units[k].inputs[i])
  {
    var inputs := g.units[k].inputs;
    assert inputs == inputs[..i] + [inputs[i]] + inputs[i + 1..];
  }

  lemma WithoutFits(g: Graph, k: nat, i: nat)
    requires Fits(g) && k < |g.units| && i < |g.units[k].inputs|
    ensures Fits(WithoutRead(g, k, i))
  {
    var h := WithoutRead(g, k, i);
    UnitsWithout(g, k, i);
    forall u | u in h.units ensures UnitFits(h, u) {
      var j: nat :| j < |h.units| && h.units[j] == u;
      assert g.units[j] in g.units && UnitFits(g, g.units[j]);
    }
  }

  lemma LiftedWithout(g: Graph, k: nat, i: nat, s: State)
    requires k < |g.units| && i < |g.units[k].inputs|
    requires !g.units[k].inputs[i].strict && g.units[k].head in g.scc && g.units[k].inputs[i].table in g.scc
    requires g.scc[g.units[k].head] == g.scc[g.units[k].inputs[i].table]
    ensures Lifted(WithoutRead(g, k, i), s) <==> Lifted(g, s)
  {
    hide UnitLifted;
    var h := WithoutRead(g, k, i);
    UnitsWithout(g, k, i);
    UnitWithout(g, k, i, s);
    if Lifted(g, s) {
      forall u | u in h.units ensures UnitLifted(h.scc, s, u) {
        var j: nat :| j < |h.units| && h.units[j] == u;
        assert g.units[j] in g.units;
      }
    }
    if Lifted(h, s) {
      forall u | u in g.units ensures UnitLifted(g.scc, s, u) {
        var j: nat :| j < |g.units| && g.units[j] == u;
        assert h.units[j] in h.units;
      }
    }
  }

  lemma UnitWithout(g: Graph, k: nat, i: nat, s: State)
    requires k < |g.units| && i < |g.units[k].inputs|
    requires !g.units[k].inputs[i].strict && g.units[k].head in g.scc && g.units[k].inputs[i].table in g.scc
    requires g.scc[g.units[k].head] == g.scc[g.units[k].inputs[i].table]
    ensures UnitLifted(g.scc, s, WithoutRead(g, k, i).units[k]) <==> UnitLifted(g.scc, s, g.units[k])
  {
    UnitsWithout(g, k, i);
  }

  // ------------------------------------------------------------------
  // The dependence graph.

  datatype Place = Slot(index: nat) | Table(id: nat)

  /** A unit waits for what it reads across components, a target for its unit, and the tables of a
      component for each other. Units that share a slot are joined through it. */
  ghost predicate Feeds(g: Graph, a: Place, b: Place) {
    match (a, b)
    case (Table(t), Slot(s)) =>
      t in g.drains && exists u, r :: u in g.units && u.slot == s && r in u.inputs && r.table == t && !Exempt(g, u, r)
    case (Slot(s), Table(t)) => exists u :: u in g.units && u.slot == s && t in u.targets
    case (Table(t), Table(v)) => t in g.drains && v in g.drains && SameScc(g, t, v)
    case (Slot(_), Slot(_)) => false
  }

  ghost predicate StepAt(g: Graph, path: seq<Place>, i: nat)
    requires i + 1 < |path|
  {
    Feeds(g, path[i], path[i + 1])
  }

  ghost predicate IsPath(g: Graph, path: seq<Place>) {
    path != [] && forall i: nat :: i + 1 < |path| ==> StepAt(g, path, i)
  }

  /** The step reads across components. */
  predicate Crosses(a: Place, b: Place) {
    a.Table? && b.Slot?
  }

  /** The slots a path enters by reads across components, in order. */
  ghost function Entered(path: seq<Place>): seq<nat> {
    if |path| < 2 then []
    else
      var n := |path| - 1;
      Entered(path[..n]) + (if Crosses(path[n - 1], path[n]) then [path[n].index] else [])
  }

  /** No path leads back to its start through a read across components. */
  ghost predicate Acyclic(g: Graph) {
    forall path: seq<Place> :: IsPath(g, path) && path[0] == path[|path| - 1] ==> Entered(path) == []
  }

  lemma FrontIsPath(g: Graph, path: seq<Place>)
    requires IsPath(g, path) && |path| >= 2
    ensures IsPath(g, path[..|path| - 1]) && StepAt(g, path, |path| - 2)
  {
    var front := path[..|path| - 1];
    forall i: nat | i + 1 < |front| ensures StepAt(g, front, i) {
      assert StepAt(g, path, i);
    }
  }

  lemma TailIsPath(g: Graph, path: seq<Place>, k: nat)
    requires IsPath(g, path) && k < |path|
    ensures IsPath(g, path[k..])
  {
    var tail := path[k..];
    forall i: nat | i + 1 < |tail| ensures StepAt(g, tail, i) {
      assert StepAt(g, path, k + i);
    }
  }

  lemma MoreIsPath(g: Graph, path: seq<Place>, b: Place)
    requires IsPath(g, path) && Feeds(g, path[|path| - 1], b)
    ensures IsPath(g, path + [b])
    ensures Entered(path + [b]) == Entered(path) + (if Crosses(path[|path| - 1], b) then [b.index] else [])
  {
    hide Feeds, Crosses;
    var more := path + [b];
    assert more[..|path|] == path;
    hide Entered;
    forall i: nat | i + 1 < |more| ensures StepAt(g, more, i) {
      if i + 1 < |path| {
        assert StepAt(g, path, i) && more[i] == path[i] && more[i + 1] == path[i + 1];
      } else {
        assert more[i] == path[|path| - 1] && more[i + 1] == b;
      }
    }
  }

  lemma {:induction false} EnteredAt(path: seq<Place>, s: nat) returns (i: nat)
    requires s in Entered(path)
    ensures i < |path| && path[i] == Slot(s)
  {
    var n := |path| - 1;
    if s in Entered(path[..n]) {
      i := EnteredAt(path[..n], s);
    } else {
      i := n;
    }
  }

  /** Without cycles a path enters no slot twice. */
  lemma {:induction false} EnteredOnce(g: Graph, path: seq<Place>)
    requires Fits(g) && Acyclic(g) && IsPath(g, path)
    ensures Distinct(Entered(path)) && forall s :: s in Entered(path) ==> s < |g.slots|
  {
    if |path| >= 2 {
      var n := |path| - 1;
      FrontIsPath(g, path);
      EnteredOnce(g, path[..n]);
      if Crosses(path[n - 1], path[n]) {
        EntersFresh(g, path);
      }
    }
  }

  lemma EntersFresh(g: Graph, path: seq<Place>)
    requires Fits(g) && Acyclic(g) && IsPath(g, path) && |path| >= 2 && Crosses(path[|path| - 2], path[|path| - 1])
    ensures path[|path| - 1].index !in Entered(path[..|path| - 1]) && path[|path| - 1].index < |g.slots|
  {
    var n := |path| - 1;
    assert StepAt(g, path, n - 1);
    if path[n].index in Entered(path[..n]) {
      var i := EnteredAt(path[..n], path[n].index);
      TailEnters(path, i);
      TailIsPath(g, path, i);
    }
  }

  lemma TailEnters(path: seq<Place>, k: nat)
    requires |path| >= 2 && k < |path| - 1 && Crosses(path[|path| - 2], path[|path| - 1])
    ensures Entered(path[k..]) != []
  {
    var tail := path[k..];
    assert tail[|tail| - 2] == path[|path| - 2] && tail[|tail| - 1] == path[|path| - 1];
  }

  // ------------------------------------------------------------------
  // Acyclic dependences have strata: the most slots a path to a place enters.

  ghost predicate Attains(g: Graph, v: Place, k: nat) {
    exists path :: IsPath(g, path) && path[|path| - 1] == v && |Entered(path)| == k
  }

  /** The greatest number up to `k` that some path to `v` attains. */
  ghost function Height(g: Graph, v: Place, k: nat): (h: nat)
    ensures h <= k && (h > 0 ==> Attains(g, v, h)) && forall j :: h < j <= k ==> !Attains(g, v, j)
  {
    if k == 0 then 0 else if Attains(g, v, k) then k else Height(g, v, k - 1)
  }

  lemma HeightAttained(g: Graph, v: Place, k: nat)
    ensures Attains(g, v, Height(g, v, k))
  {
    assert IsPath(g, [v]) && Entered([v]) == [];
    assert Attains(g, v, 0);
  }

  /** A step never leads down, and up where it reads across components. */
  lemma HeightRises(g: Graph, a: Place, b: Place)
    requires Fits(g) && Acyclic(g) && Feeds(g, a, b)
    ensures Height(g, a, |g.slots|) + (if Crosses(a, b) then 1 else 0) <= Height(g, b, |g.slots|)
  {
    var n := |g.slots|;
    HeightAttained(g, a, n);
    var path :| IsPath(g, path) && path[|path| - 1] == a && |Entered(path)| == Height(g, a, n);
    MoreIsPath(g, path, b);
    EnteredOnce(g, path + [b]);
    DistinctFit(Entered(path + [b]), n);
    assert Attains(g, b, |Entered(path + [b])|);
  }

  ghost function Highest(s: seq<nat>, k: nat): (m: nat)
    requires k <= |s|
    ensures forall i :: 0 <= i < k ==> s[i] <= m
  {
    if k == 0 then 0 else if s[k - 1] > Highest(s, k - 1) then s[k - 1] else Highest(s, k - 1)
  }

  ghost function HighestDrain(drains: map<nat, nat>, k: nat): (m: nat)
    ensures forall t :: t in drains && t < k ==> drains[t] <= m
  {
    if k == 0 then 0
    else if Drain(drains, k - 1) > HighestDrain(drains, k - 1) then Drain(drains, k - 1)
    else HighestDrain(drains, k - 1)
  }

  ghost function HighestBase(units: seq<Unit>, k: nat): (m: nat)
    requires k <= |units|
    ensures forall i :: 0 <= i < k ==> units[i].base <= m
  {
    if k == 0 then 0
    else if units[k - 1].base > HighestBase(units, k - 1) then units[k - 1].base
    else HighestBase(units, k - 1)
  }

  /** The heights, moved above the strata to start from. */
  ghost function HeightState(g: Graph, m: nat): State {
    State(seq(|g.slots|, i requires 0 <= i < |g.slots| => Height(g, Slot(i), |g.slots|) + m),
          map t | t in g.drains :: Height(g, Table(t), |g.slots|) + m)
  }

  lemma HeightUnit(g: Graph, m: nat, u: Unit)
    requires Fits(g) && Acyclic(g) && u in g.units && u.base <= m
    ensures u.slot < |g.slots| && UnitOk(g, HeightState(g, m), u)
  {
    hide Acyclic, Height;
    assert UnitFits(g, u);
    var s := HeightState(g, m);
    forall r | r in u.inputs && !Exempt(g, u, r) && r.table in g.drains
      ensures s.drains[r.table] + 1 <= s.slots[u.slot]
    {
      assert Feeds(g, Table(r.table), Slot(u.slot));
      HeightRises(g, Table(r.table), Slot(u.slot));
    }
    forall t | t in u.targets ensures s.slots[u.slot] <= Drain(s.drains, t) {
      assert Feeds(g, Slot(u.slot), Table(t));
      HeightRises(g, Slot(u.slot), Table(t));
    }
  }

  lemma AcyclicSolves(g: Graph) returns (s: State)
    requires Fits(g) && Acyclic(g)
    ensures Solved(g, s)
  {
    hide UnitOk, Acyclic, Height;
    var m := Highest(g.slots, |g.slots|) + HighestDrain(g.drains, g.tables) + HighestBase(g.units, |g.units|);
    s := HeightState(g, m);
    forall u | u in g.units ensures UnitOk(g, s, u) {
      HeightUnit(g, m, u);
    }
    forall a, b | a in s.drains && b in s.drains && SameScc(g, a, b) ensures s.drains[a] == s.drains[b] {
      assert Feeds(g, Table(a), Table(b)) && Feeds(g, Table(b), Table(a));
      HeightRises(g, Table(a), Table(b));
      HeightRises(g, Table(b), Table(a));
    }
  }

  // ------------------------------------------------------------------
  // Strata rise along paths, so a cycle has none.

  function Level(s: State, v: Place): nat {
    match v
    case Slot(i) => if i < |s.slots| then s.slots[i] else 0
    case Table(t) => Drain(s.drains, t)
  }

  lemma FeedsRises(g: Graph, s: State, a: Place, b: Place)
    requires Fits(g) && Solved(g, s) && Feeds(g, a, b)
    ensures Level(s, a) + (if Crosses(a, b) then 1 else 0) <= Level(s, b)
  {
    match (a, b)
    case (Table(t), Slot(i)) =>
      var u, r :| u in g.units && u.slot == i && r in u.inputs && r.table == t && !Exempt(g, u, r);
      assert UnitFits(g, u) && UnitOk(g, s, u) && Ready(g, s.drains, u, r) <= s.slots[u.slot];
    case (Slot(i), Table(t)) =>
      var u :| u in g.units && u.slot == i && t in u.targets;
      assert UnitFits(g, u) && UnitOk(g, s, u);
    case _ =>
  }

  /** Along every path strata never fall, and rise by one at least at each read across components. */
  lemma {:induction false} LevelsAscend(g: Graph, s: State, path: seq<Place>)
    requires Fits(g) && Solved(g, s) && IsPath(g, path)
    ensures Level(s, path[0]) + |Entered(path)| <= Level(s, path[|path| - 1])
  {
    hide Solved, Feeds;
    if |path| >= 2 {
      var n := |path| - 1;
      FrontIsPath(g, path);
      LevelsAscend(g, s, path[..n]);
      FeedsRises(g, s, path[n - 1], path[n]);
    }
  }

  /** Strata exist exactly when the dependences are acyclic. */
  lemma SolvedIffAcyclic(g: Graph)
    requires Fits(g)
    ensures (exists s :: Solved(g, s)) <==> Acyclic(g)
  {
    hide Solved;
    if Acyclic(g) {
      var s := AcyclicSolves(g);
    }
    if s :| Solved(g, s) {
      forall path: seq<Place> | IsPath(g, path) && path[0] == path[|path| - 1] ensures Entered(path) == [] {
        LevelsAscend(g, s, path);
      }
    }
  }
}
