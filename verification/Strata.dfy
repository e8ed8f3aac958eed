/** The stratum lift of the compiler-side scheduler: strata of scheduling units and drain strata of
    tables are raised in sweeps until a sweep changes nothing. */
module Strata {
  import opened Dependences
  import opened Hazards
  import opened Linearize
  import opened Wrappers

  ghost predicate Shaped(g: Graph, s: State) {
    |s.slots| == |g.slots| && s.drains.Keys == g.drains.Keys
  }

  // ------------------------------------------------------------------
  // The measure of progress.

  ghost function SlotSum(slots: seq<nat>, k: nat): nat
    requires k <= |slots|
  {
    if k == 0 then 0 else SlotSum(slots, k - 1) + slots[k - 1]
  }

  ghost function DrainSum(drains: map<nat, nat>, k: nat): nat {
    if k == 0 then 0 else DrainSum(drains, k - 1) + Drain(drains, k - 1)
  }

  ghost function Total(g: Graph, s: State): nat {
    SlotSum(s.slots, |s.slots|) + DrainSum(s.drains, g.tables)
  }

  lemma {:induction false} SlotSumGrows(a: seq<nat>, b: seq<nat>, k: nat)
    requires |a| == |b| && k <= |a| && forall i :: 0 <= i < |a| ==> a[i] <= b[i]
    ensures SlotSum(a, k) <= SlotSum(b, k)
    ensures (exists i :: 0 <= i < k && a[i] < b[i]) ==> SlotSum(a, k) < SlotSum(b, k)
  {
    if k > 0 {
      SlotSumGrows(a, b, k - 1);
    }
  }

  lemma {:induction false} DrainSumGrows(a: map<nat, nat>, b: map<nat, nat>, k: nat)
    requires a.Keys == b.Keys && forall t :: t in a ==> a[t] <= b[t]
    ensures DrainSum(a, k) <= DrainSum(b, k)
    ensures (exists t :: t in a && t < k && a[t] < b[t]) ==> DrainSum(a, k) < DrainSum(b, k)
  {
    if k > 0 {
      DrainSumGrows(a, b, k - 1);
    }
  }

  lemma TotalGrows(g: Graph, a: State, b: State)
    requires Above(b, a)
    ensures Total(g, a) <= Total(g, b)
    ensures (exists i :: 0 <= i < |a.slots| && a.slots[i] < b.slots[i]) ==> Total(g, a) < Total(g, b)
    ensures (exists t :: t in a.drains && t < g.tables && a.drains[t] < b.drains[t]) ==> Total(g, a) < Total(g, b)
  {
    SlotSumGrows(a.slots, b.slots, |a.slots|);
    DrainSumGrows(a.drains, b.drains, g.tables);
  }

  // ------------------------------------------------------------------
  // One rule.

  /** `stratum` is the least one the rule of `u` asks for, given the first `k` inputs. */
  ghost predicate Asked(g: Graph, s: State, u: Unit, k: nat, stratum: nat)
    requires u.slot < |s.slots| && k <= |u.inputs|
  {
    && s.slots[u.slot] <= stratum && u.base <= stratum
    && (forall i :: 0 <= i < k ==> Ready(g, s.drains, u, u.inputs[i]) <= stratum)
    && (stratum == s.slots[u.slot] || stratum == u.base
        || exists i :: 0 <= i < k && stratum == Ready(g, s.drains, u, u.inputs[i]))
  }

  /** No solution above the state lies below what the rule asks for. */
  lemma AskedIsLeast(g: Graph, s: State, u: Unit, stratum: nat, x: State)
    requires Fits(g) && Solved(g, x) && Above(x, s) && u in g.units && UnitFits(g, u)
    requires u.slot < |s.slots| && Asked(g, s, u, |u.inputs|, stratum)
    ensures |x.slots| == |s.slots| && stratum <= x.slots[u.slot]
    ensures forall t :: t in u.targets ==> t in x.drains && stratum <= x.drains[t]
  {
    assert UnitOk(g, x, u);
    forall r | r in u.inputs ensures Ready(g, s.drains, u, r) <= x.slots[u.slot] {
      assert Ready(g, s.drains, u, r) <= Ready(g, x.drains, u, r);
    }
  }

  ghost function Elements(tables: seq<nat>): set<nat> {
    set t | t in tables
  }

  /** The drains once the targets among `done` have been lifted to `stratum`. */
  ghost predicate TargetsLifted(drains0: map<nat, nat>, done: set<nat>, stratum: nat, drains: map<nat, nat>) {
    && drains.Keys == drains0.Keys
    && forall t :: t in drains ==> drains[t] == (if t in done && drains0[t] < stratum then stratum else drains0[t])
  }

  ghost predicate AnyBelow(drains: map<nat, nat>, tables: set<nat>, stratum: nat) {
    exists t :: t in tables && Drain(drains, t) < stratum
  }

  lemma LiftMore(drains0: map<nat, nat>, done: set<nat>, stratum: nat, drains: map<nat, nat>, t: nat)
    requires TargetsLifted(drains0, done, stratum, drains) && t in drains0
    ensures t in drains
    ensures TargetsLifted(drains0, done + {t}, stratum, if drains[t] < stratum then drains[t := stratum] else drains)
    ensures AnyBelow(drains0, done + {t}, stratum) <==> AnyBelow(drains0, done, stratum) || drains[t] < stratum
  {
    if drains0[t] < stratum {
      assert t in done + {t};
    }
    forall v | v in done && Drain(drains0, v) < stratum ensures v in done + {t} {
    }
  }

  method LiftTargets(targets: seq<nat>, drains0: map<nat, nat>, stratum: nat) returns (drains: map<nat, nat>, changed: bool)
    requires forall t :: t in targets ==> t in drains0
    ensures TargetsLifted(drains0, Elements(targets), stratum, drains)
    ensures changed <==> AnyBelow(drains0, Elements(targets), stratum)
  {
    hide TargetsLifted, AnyBelow;
    drains, changed := drains0, false;
    LiftNone(drains0, stratum);
    for k := 0 to |targets|
      invariant TargetsLifted(drains0, Elements(targets[..k]), stratum, drains)
      invariant changed <==> AnyBelow(drains0, Elements(targets[..k]), stratum)
    {
      var t := targets[k];
      assert t in targets;
      assert Elements(targets[..k + 1]) == Elements(targets[..k]) + {t};
      LiftMore(drains0, Elements(targets[..k]), stratum, drains, t);
      if drains[t] < stratum {
        drains := drains[t := stratum];
        changed := true;
      }
    }
    assert targets[..|targets|] == targets;
  }

  lemma LiftNone(drains0: map<nat, nat>, stratum: nat)
    ensures TargetsLifted(drains0, Elements([]), stratum, drains0) && !AnyBelow(drains0, Elements([]), stratum)
  {
  }

  method LiftUnit(g: Graph, u: Unit, s0: State) returns (s: State, changed: bool)
    requires Fits(g) && u in g.units && Shaped(g, s0)
    ensures Above(s, s0) && u.slot < |s0.slots| && (changed <==> !UnitOk(g, s0, u))
    ensures if changed then Total(g, s0) < Total(g, s) else s == s0
    ensures forall x :: Solved(g, x) && Above(x, s0) ==> Above(x, s)
  {
    hide UnitOk, Solved, Above, Total, TargetsLifted, AnyBelow;
    assert UnitFits(g, u);
    var stratum: nat := if s0.slots[u.slot] < u.base then u.base else s0.slots[u.slot];
    for k := 0 to |u.inputs|
      invariant Asked(g, s0, u, k, stratum)
    {
      var ready := Ready(g, s0.drains, u, u.inputs[k]);
      if stratum < ready {
        stratum := ready;
      }
    }
    var drains, lifted := LiftTargets(u.targets, s0.drains, stratum);
    changed := s0.slots[u.slot] < stratum || lifted;
    s := State(s0.slots[u.slot := stratum], drains);
    LiftUnitDone(g, u, s0, s, stratum, changed);
  }

  lemma LiftUnitDone(g: Graph, u: Unit, s0: State, s: State, stratum: nat, changed: bool)
    requires Fits(g) && u in g.units && Shaped(g, s0) && UnitFits(g, u) && Asked(g, s0, u, |u.inputs|, stratum)
    requires s.slots == s0.slots[u.slot := stratum] && TargetsLifted(s0.drains, Elements(u.targets), stratum, s.drains)
    requires changed <==> s0.slots[u.slot] < stratum || AnyBelow(s0.drains, Elements(u.targets), stratum)
    ensures Above(s, s0) && (changed <==> !UnitOk(g, s0, u))
    ensures if changed then Total(g, s0) < Total(g, s) else s == s0
    ensures forall x :: Solved(g, x) && Above(x, s0) ==> Above(x, s)
  {
    hide Total, Solved, Ready;
    TotalGrows(g, s0, s);
    if t :| t in u.targets && Drain(s0.drains, t) < stratum {
      assert s0.drains[t] < s.drains[t];
    }
    forall x | Solved(g, x) && Above(x, s0) ensures Above(x, s) {
      AskedIsLeast(g, s0, u, stratum, x);
    }
  }

  // ------------------------------------------------------------------
  // Pinning.

  /** `highest` holds, for the components of the tables looked at, the highest of their drains. */
  ghost predicate HighestOf(g: Graph, drains: map<nat, nat>, todo: set<nat>, highest: map<nat, nat>) {
    && (forall t :: t in g.scc && t !in todo && t in drains ==> g.scc[t] in highest && drains[t] <= highest[g.scc[t]])
    && (forall h :: h in highest ==> exists t :: t in g.scc && t in drains && g.scc[t] == h && drains[t] == highest[h])
  }

  ghost predicate PartlyPinned(g: Graph, drains0: map<nat, nat>, highest: map<nat, nat>, todo: set<nat>, drains: map<nat, nat>) {
    && drains.Keys == drains0.Keys
    && (forall t :: t in drains && t in g.scc && t !in todo ==> g.scc[t] in highest && drains[t] == highest[g.scc[t]])
    && (forall t :: t in drains && !(t in g.scc && t !in todo) ==> drains[t] == drains0[t])
  }

  method PinSccs(g: Graph, s0: State) returns (s: State, changed: bool)
    requires forall t :: t in s0.drains ==> t < g.tables
    ensures s.slots == s0.slots && Above(s, s0) && Pinned(g, s)
    ensures changed <==> !Pinned(g, s0)
    ensures if changed then Total(g, s0) < Total(g, s) else s == s0
    ensures forall x :: Fits(g) && Solved(g, x) && Above(x, s0) ==> Above(x, s)
  {
    var highest: map<nat, nat> := map[];
    var todo := g.scc.Keys;
    while todo != {}
      invariant todo <= g.scc.Keys && HighestOf(g, s0.drains, todo, highest)
      decreases |todo|
    {
      var t :| t in todo;
      if t in s0.drains {
        var h := Drain(highest, g.scc[t]);
        highest := highest[g.scc[t] := if h < s0.drains[t] then s0.drains[t] else h];
      }
      todo := todo - {t};
    }
    var drains;
    drains, changed := RaiseLow(g, s0.drains, highest);
    s := State(s0.slots, drains);
    PinDone(g, s0, highest, s, changed);
  }

  /** The table lies below the highest drain of its component. */
  ghost predicate Low(g: Graph, drains: map<nat, nat>, highest: map<nat, nat>, t: nat) {
    t in g.scc && t in drains && drains[t] < Drain(highest, g.scc[t])
  }

  lemma RaiseMore(g: Graph, drains0: map<nat, nat>, highest: map<nat, nat>, todo: set<nat>, drains: map<nat, nat>, t: nat)
    requires HighestOf(g, drains0, {}, highest) && PartlyPinned(g, drains0, highest, todo, drains) && t in todo && t in g.scc && t in drains
    ensures g.scc[t] in highest && drains[t] <= highest[g.scc[t]]
    ensures PartlyPinned(g, drains0, highest, todo - {t}, drains[t := highest[g.scc[t]]])
    ensures Low(g, drains0, highest, t) <==> drains[t] < highest[g.scc[t]]
  {
  }

  method RaiseLow(g: Graph, drains0: map<nat, nat>, highest: map<nat, nat>) returns (drains: map<nat, nat>, changed: bool)
    requires HighestOf(g, drains0, {}, highest)
    ensures PartlyPinned(g, drains0, highest, {}, drains)
    ensures changed <==> exists t :: Low(g, drains0, highest, t)
  {
    hide HighestOf;
    var todo := g.scc.Keys;
    drains, changed := drains0, false;
    while todo != {}
      invariant todo <= g.scc.Keys && PartlyPinned(g, drains0, highest, todo, drains)
      invariant changed <==> exists t :: t !in todo && Low(g, drains0, highest, t)
      decreases |todo|
    {
      var t :| t in todo;
      if t in drains {
        RaiseMore(g, drains0, highest, todo, drains, t);
        if drains[t] < highest[g.scc[t]] {
          drains := drains[t := highest[g.scc[t]]];
          changed := true;
        }
      }
      todo := todo - {t};
    }
  }

  lemma MostOf(g: Graph, drains: map<nat, nat>, highest: map<nat, nat>, t: nat) returns (m: nat)
    requires HighestOf(g, drains, {}, highest) && t in g.scc && t in drains
    ensures m in drains && SameScc(g, t, m) && g.scc[t] in highest && drains[t] <= drains[m] == highest[g.scc[t]]
  {
    m :| m in g.scc && m in drains && g.scc[m] == g.scc[t] && drains[m] == highest[g.scc[t]];
  }

  lemma PinDone(g: Graph, s0: State, highest: map<nat, nat>, s: State, changed: bool)
    requires HighestOf(g, s0.drains, {}, highest) && PartlyPinned(g, s0.drains, highest, {}, s.drains) && s.slots == s0.slots
    requires forall t :: t in s0.drains ==> t < g.tables
    requires changed <==> exists t :: Low(g, s0.drains, highest, t)
    ensures Above(s, s0) && Pinned(g, s)
    ensures changed <==> !Pinned(g, s0)
    ensures if changed then Total(g, s0) < Total(g, s) else s == s0
    ensures forall x :: Fits(g) && Solved(g, x) && Above(x, s0) ==> Above(x, s)
  {
    hide HighestOf, Total;
    forall t | t in s0.drains ensures s0.drains[t] <= s.drains[t] {
      if t in g.scc {
        var m := MostOf(g, s0.drains, highest, t);
      }
    }
    TotalGrows(g, s0, s);
    if t :| Low(g, s0.drains, highest, t) {
      var m := MostOf(g, s0.drains, highest, t);
      assert s0.drains[t] < s.drains[t];
    } else {
      forall t | t in s0.drains ensures s0.drains[t] == s.drains[t] {
        if t in g.scc {
          var m := MostOf(g, s0.drains, highest, t);
          assert !Low(g, s0.drains, highest, t);
        }
      }
    }
    forall x | Fits(g) && Solved(g, x) && Above(x, s0) ensures Above(x, s) {
      PinBelow(g, s0, highest, s, x);
    }
  }

  lemma PinBelow(g: Graph, s0: State, highest: map<nat, nat>, s: State, x: State)
    requires HighestOf(g, s0.drains, {}, highest) && PartlyPinned(g, s0.drains, highest, {}, s.drains) && s.slots == s0.slots
    requires Fits(g) && Solved(g, x) && Above(x, s0)
    ensures Above(x, s)
  {
    hide HighestOf;
    forall t | t in s.drains ensures s.drains[t] <= x.drains[t] {
      if t in g.scc {
        var m := MostOf(g, s0.drains, highest, t);
        assert s0.drains[m] <= x.drains[m] && x.drains[m] == x.drains[t];
      }
    }
  }

  // ------------------------------------------------------------------
  // One sweep over every rule.

  /** Every rule holds, and every component drains at one stratum. */
  ghost predicate Quiet(g: Graph, s: State)
    requires Fits(g) && Shaped(g, s)
  {
    QuietTo(g, s, |g.units|) && Pinned(g, s)
  }

  ghost predicate QuietTo(g: Graph, s: State, k: nat)
    requires Fits(g) && Shaped(g, s) && k <= |g.units|
  {
    forall i :: 0 <= i < k ==> g.units[i].slot < |s.slots| && UnitOk(g, s, g.units[i])
  }

  lemma AboveTrans(a: State, b: State, c: State)
    requires Above(b, a) && Above(c, b)
    ensures Above(c, a)
  {
  }

  lemma AboveShaped(g: Graph, a: State, b: State)
    requires Above(b, a)
    ensures Shaped(g, a) <==> Shaped(g, b)
  {
  }

  /** What a sweep has done after `k` rules. */
  ghost predicate Swept(g: Graph, s0: State, k: nat, s: State, changed: bool)
    requires Fits(g) && Shaped(g, s0) && k <= |g.units|
  {
    && Above(s, s0) && (changed <==> !QuietTo(g, s0, k))
    && (if changed then Total(g, s0) < Total(g, s) else s == s0)
    && (forall x :: Solved(g, x) && Above(x, s0) ==> Above(x, s))
  }

  lemma SweepMore(g: Graph, s0: State, k: nat, s: State, changed: bool, s1: State, raised: bool)
    requires Fits(g) && Shaped(g, s0) && k < |g.units| && Swept(g, s0, k, s, changed) && g.units[k].slot < |s.slots|
    requires Above(s1, s) && (raised <==> !UnitOk(g, s, g.units[k]))
    requires if raised then Total(g, s) < Total(g, s1) else s1 == s
    requires forall x :: Solved(g, x) && Above(x, s) ==> Above(x, s1)
    ensures Swept(g, s0, k + 1, s1, changed || raised)
  {
    hide UnitOk, Total, Solved, Above;
    AboveTrans(s0, s, s1);
    TotalGrows(g, s0, s);
    TotalGrows(g, s, s1);
  }

  method Sweep(g: Graph, s0: State) returns (s: State, changed: bool)
    requires Fits(g) && Shaped(g, s0)
    ensures Above(s, s0) && (changed <==> !Quiet(g, s0))
    ensures if changed then Total(g, s0) < Total(g, s) else s == s0
    ensures forall x :: Solved(g, x) && Above(x, s0) ==> Above(x, s)
  {
    hide UnitOk, Total, Solved, Above, QuietTo, Swept, Pinned;
    s, changed := s0, false;
    SweepStarts(g, s0);
    for k := 0 to |g.units|
      invariant Shaped(g, s) && Swept(g, s0, k, s, changed)
    {
      assert UnitFits(g, g.units[k]);
      var s1, raised := LiftUnit(g, g.units[k], s);
      SweepMore(g, s0, k, s, changed, s1, raised);
      AboveShaped(g, s, s1);
      s, changed := s1, changed || raised;
    }
    var s1, raised := PinSccs(g, s);
    SweepEnds(g, s0, s, changed, s1, raised);
    s, changed := s1, changed || raised;
  }

  lemma SweepStarts(g: Graph, s0: State)
    requires Fits(g) && Shaped(g, s0)
    ensures Swept(g, s0, 0, s0, false)
  {
  }

  lemma SweepEnds(g: Graph, s0: State, s: State, changed: bool, s1: State, raised: bool)
    requires Fits(g) && Shaped(g, s0) && Swept(g, s0, |g.units|, s, changed)
    requires Above(s1, s) && (raised <==> !Pinned(g, s))
    requires if raised then Total(g, s) < Total(g, s1) else s1 == s
    requires forall x :: Fits(g) && Solved(g, x) && Above(x, s) ==> Above(x, s1)
    ensures Above(s1, s0) && (changed || raised <==> !Quiet(g, s0))
    ensures if changed || raised then Total(g, s0) < Total(g, s1) else s1 == s0
    ensures forall x :: Solved(g, x) && Above(x, s0) ==> Above(x, s1)
  {
    hide Total, Solved, QuietTo;
    AboveTrans(s0, s, s1);
    TotalGrows(g, s0, s);
    TotalGrows(g, s, s1);
  }

  // ------------------------------------------------------------------
  // The fixpoint.

  /** A sweep raises nothing exactly when the strata respect every rule. */
  lemma QuietIsSolved(g: Graph, s: State)
    requires Fits(g) && Shaped(g, s) && Above(s, Initial(g))
    ensures Quiet(g, s) <==> Solved(g, s)
  {
    hide UnitOk;
    if Quiet(g, s) {
      forall u | u in g.units ensures UnitOk(g, s, u) {
        var k: nat :| k < |g.units| && g.units[k] == u;
      }
    }
    if Solved(g, s) {
      forall k | 0 <= k < |g.units| ensures g.units[k].slot < |s.slots| && UnitOk(g, s, g.units[k]) {
        assert g.units[k] in g.units && UnitFits(g, g.units[k]);
      }
    }
  }

  /** On cyclic dependences every sweep raises something, so the lift never ends. */
  lemma CyclicNeverQuiet(g: Graph, s: State)
    requires Fits(g) && !Acyclic(g) && Shaped(g, s) && Above(s, Initial(g))
    ensures !Quiet(g, s)
  {
    QuietIsSolved(g, s);
    SolvedIffAcyclic(g);
  }

  /** On acyclic dependences the sweeps end, in the pointwise least strata that respect every rule. */
  method DeriveStrata(g: Graph) returns (s: State)
    requires Fits(g) && Acyclic(g)
    ensures Solved(g, s) && forall x :: Solved(g, x) ==> Above(x, s)
    ensures LeastLifted(g, s)
  {
    hide LeastLifted, Solved, Above, Total, Quiet, Acyclic;
    SolvedIffAcyclic(g);
    ghost var top :| Solved(g, top);
    s := Initial(g);
    StartsBelow(g);
    var changed := true;
    while changed
      invariant Shaped(g, s) && Above(s, Initial(g)) && forall x :: Solved(g, x) ==> Above(x, s)
      invariant !changed ==> Solved(g, s)
      decreases Total(g, top) - Total(g, s), changed
    {
      TotalGrows(g, s, top);
      QuietIsSolved(g, s);
      var s1, raised := Sweep(g, s);
      AboveTrans(Initial(g), s, s1);
      AboveShaped(g, s, s1);
      TotalGrows(g, s1, top);
      s, changed := s1, raised;
    }
    LeastIsLifted(g, s);
  }

  lemma LeastIsLifted(g: Graph, s: State)
    requires Fits(g) && Solved(g, s) && forall x :: Solved(g, x) ==> Above(x, s)
    ensures LeastLifted(g, s)
  {
    hide Solved, Lifted;
    SolvedIsLifted(g, s);
    forall x | Lifted(g, x) ensures Above(x, s) {
      SolvedIsLifted(g, x);
    }
  }

  lemma StartsBelow(g: Graph)
    requires Fits(g)
    ensures Above(Initial(g), Initial(g)) && forall x :: Solved(g, x) ==> Above(x, Initial(g))
  {
  }

  // ------------------------------------------------------------------
  // What the strata are for.

  /** Fires take their stratum from a unit with a target in their component, and retires theirs from
      the drain of a table of the component. */
  ghost predicate FireAt(g: Graph, s: State, fire: Op)
    requires Fits(g) && Shaped(g, s)
  {
    exists u, t :: u in g.units && t in u.targets && UnitFits(g, u) && t in g.scc && fire.group == Some(g.scc[t])
                   && fire.stratum == s.slots[u.slot]
  }

  ghost predicate RetireAt(g: Graph, s: State, ret: Op)
    requires Fits(g)
  {
    exists t :: t in g.drains && t in g.scc && ret.group == Some(g.scc[t]) && ret.stratum == Drain(s.drains, t)
  }

  /** With such strata the linearizer's check of the retires passes. */
  lemma RetiresAboveFires(g: Graph, s: State, ops: seq<Op>, f: nat)
    requires Fits(g) && Solved(g, s) && f < |ops| && GroupedFire(ops[f]) && FireAt(g, s, ops[f])
    requires exists r :: 0 <= r < |ops| && RetireMatches(ops[f], ops[r])
    requires forall r :: 0 <= r < |ops| && ops[r].kind == Retire && ops[r].group.Some? ==> RetireAt(g, s, ops[r])
    ensures RetireAbove(ops, f)
  {
    var u, t :| u in g.units && t in u.targets && UnitFits(g, u) && t in g.scc && ops[f].group == Some(g.scc[t])
                && ops[f].stratum == s.slots[u.slot];
    assert UnitOk(g, s, u);
    forall r | 0 <= r < |ops| && RetireMatches(ops[f], ops[r]) ensures ops[f].stratum <= ops[r].stratum {
      var m :| m in g.drains && m in g.scc && ops[r].group == Some(g.scc[m]) && ops[r].stratum == Drain(s.drains, m);
      assert SameScc(g, t, m);
    }
  }
}
