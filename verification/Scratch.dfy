/** The independent from-scratch path: stratified set evaluation driven by a LIFO worklist. */
module Scratch {
  import opened Wrappers
  import opened Ground
  import opened Model
  import opened Firings
  import opened RowStore
  import opened Rules
  import opened Grounding
  import opened Binding
  import opened Sources
  import opened Enumerate
  import opened Meaning
  import opened Deltas
  import opened Reads
  import opened Rounds
  import opened Steps
  import opened Supports
  import opened Fixpoint
  import A = Aggregates

  /** One empty view per view of the program. */
  method NewViews(n: nat) returns (vs: seq<ScratchView>, ixs: seq<IndexTable>)
    ensures |vs| == |ixs| == n
    ensures forall v :: 0 <= v < n ==> fresh(vs[v]) && fresh(ixs[v]) && vs[v].index == ixs[v]
    ensures forall v :: 0 <= v < n ==> vs[v].Valid() && vs[v].Set() == {} && vs[v].rows == [] && ixs[v].Valid([])
    ensures forall u, v :: 0 <= u < v < n ==> vs[u] != vs[v] && ixs[u] != ixs[v]
  {
    vs, ixs := [], [];
    for k := 0 to n
      invariant |vs| == |ixs| == k
      invariant forall v :: 0 <= v < k ==> fresh(vs[v]) && fresh(ixs[v]) && vs[v].index == ixs[v]
      invariant forall v :: 0 <= v < k ==> vs[v].Valid() && vs[v].Set() == {} && vs[v].rows == [] && ixs[v].Valid([])
      invariant forall u, v :: 0 <= u < v < k ==> vs[u] != vs[v] && ixs[u] != ixs[v]
    {
      var view := new ScratchView();
      vs, ixs := vs + [view], ixs + [view.index];
    }
  }

  class Evaluator {
    const prog: Program
    const views: seq<ScratchView>
    const indexes: seq<IndexTable>
    ghost const g: GroundProgram
    ghost var x: set<Fact>

    ghost predicate Grounded() {
      GoodProgram(prog) && g == GroundOf(prog) && WellFormed(g)
    }

    ghost predicate Linked() {
      && |views| == |indexes| == |prog.views| && g.facts == AllFacts(prog)
      && (forall u, v :: 0 <= u < v < |views| ==> views[u] != views[v])
      && (forall u, v :: 0 <= u < v < |indexes| ==> indexes[u] != indexes[v])
      && (forall v :: 0 <= v < |views| ==> views[v].index == indexes[v])
    }

    /** `x` is the set of facts whose rows the views hold. */
    ghost predicate Mirrored()
      reads this`x, views
    {
      && x <= g.facts
      && forall v :: 0 <= v < |views| ==>
           views[v].Valid() && views[v].Set() == RowsIn(x, v)
    }

    ghost predicate Indexed()
      reads views, indexes
    {
      |views| == |indexes| && forall v :: 0 <= v < |indexes| ==> indexes[v].Valid(views[v].rows)
    }

    ghost predicate Valid()
      reads this`x, views, indexes
    {
      Linked() && Mirrored() && Indexed()
    }

    constructor (p: Program, ghost ground: GroundProgram)
      requires GoodProgram(p) && ground == GroundOf(p) && WellFormed(ground)
      ensures prog == p && g == ground && Grounded() && Valid() && x == {}
      ensures forall v :: 0 <= v < |views| ==> fresh(views[v])
      ensures forall v :: 0 <= v < |indexes| ==> fresh(indexes[v])
    {
      hide GoodProgram, GroundOf, WellFormed, ScratchView.Valid, IndexTable.Valid;
      var vs, ixs := NewViews(|p.views|);
      prog, views, indexes := p, vs, ixs;
      g, x := ground, {};
      new;
      FactsOf(p, ground);
    }

    static lemma FactsOf(p: Program, ground: GroundProgram)
      requires GoodProgram(p) && ground == GroundOf(p)
      ensures ground.facts == AllFacts(p)
    {
    }

    /** Add a fact's row to its view. */
    method AddRow(v: nat, row: Row) returns (added: bool)
      requires Valid() && v < |views| && Fact(v, row) in g.facts
      modifies views, this`x
      ensures Valid() && x == old(x) + {Fact(v, row)} && added == (Fact(v, row) !in old(x))
    {
      hide IndexTable.Valid, RowsIn, ScratchView.Valid, ScratchView.Set, AllFacts;
      ghost var rows0 := views[v].rows;
      RowsInMore(x, v, row);
      added := views[v].Add(row);
      x := x + {Fact(v, row)};
      IndexesGrow(indexes[v], rows0, views[v].rows);
    }

    lemma RowsInMore(s: set<Fact>, v: nat, row: Row)
      ensures row in RowsIn(s, v) <==> Fact(v, row) in s
      ensures RowsIn(s + {Fact(v, row)}, v) == RowsIn(s, v) + {row}
      ensures forall u: nat :: u != v ==> RowsIn(s + {Fact(v, row)}, u) == RowsIn(s, u)
    {
      assert row in RowsIn(s, v) ==> exists f :: f in s && f.view == v && f.row == row;
      assert Fact(v, row) in s ==> Fact(v, row).row in RowsIn(s, v);
    }

    lemma RowsInIs(s: set<Fact>, v: nat)
      ensures forall row :: row in RowsIn(s, v) <==> Fact(v, row) in s
    {
      forall row | Fact(v, row) in s ensures row in RowsIn(s, v) {
        assert Fact(v, row).row == row;
      }
    }

    // ----------------------------------------------------------------
    // Enumerating a rule over the sets as they are.

    function Rows(): Source {
      Source(false, [], [], views, indexes)
    }

    ghost function RowSets(r: Rule): (rd: seq<set<Row>>)
      requires forall q :: 0 <= q < |r.pos2atom| ==> r.pos2atom[q] < |r.atoms| && r.atoms[r.pos2atom[q]].view < |views|
      reads views
      ensures |rd| == |r.pos2atom|
    {
      seq(|r.pos2atom|, q requires 0 <= q < |r.pos2atom| reads views => views[r.atoms[r.pos2atom[q]].view].Set())
    }

    lemma SourceReady()
      requires Valid()
      ensures Rows().Valid()
    {
    }

    lemma SourceLeaves()
      requires Linked() && Rows().Valid()
      ensures Indexed()
    {
    }

    lemma RuleShape(ri: nat)
      requires Grounded() && Linked() && ri < |prog.rules|
      ensures GoodRule(prog, prog.rules[ri]) && prog.rules[ri].head < |views|
      ensures forall q :: 0 <= q < |prog.rules[ri].pos2atom| ==>
        && prog.rules[ri].pos2atom[q] < |prog.rules[ri].atoms|
        && prog.rules[ri].atoms[prog.rules[ri].pos2atom[q]].view < |views|
    {
    }

    lemma RowSetsRead(r: Rule)
      requires Valid() && GoodRule(prog, r)
      ensures TableReads(r, RowSets(r), Uniformly(|r.pos2atom|, x)) && Serves(Rows(), r, RowSets(r))
      ensures forall q, row :: 0 <= q < |r.pos2atom| && row in RowSets(r)[q] ==> |row| == Arity(prog, r, r.pos2atom[q])
    {
      forall q | 0 <= q < |r.pos2atom|
        ensures forall row :: row in RowSets(r)[q] <==> Fact(r.atoms[r.pos2atom[q]].view, row) in x
      {
        RowsInIs(x, r.atoms[r.pos2atom[q]].view);
      }
    }

    lemma UniformIs(k: nat)
      ensures |Uniformly(k, x)| == k && Uniform(Uniformly(k, x), x)
    {
    }

    /** Enumerate every instance of a rule over the sets. */
    method EnumerateAll(ri: nat) returns (heads: seq<Row>, ghost ds: seq<Deriv>)
      requires Valid() && Grounded() && ri < |prog.rules|
      modifies indexes
      ensures Valid() && ActiveListed(prog, g, ri, x, heads, ds)
    {
      hide Mirrored, Indexed, GoodProgram, WellFormed, GroundOf, Source.Valid, Serves, ListsAll, DerivesFrom, FilterHolds, TableReads, ActiveListed, Uniform, Uniformly;
      UniformIs(|prog.rules[ri].pos2atom|);
      RuleShape(ri);
      var r := prog.rules[ri];
      SourceReady();
      RowSetsRead(r);
      ghost var rd := RowSets(r);
      ghost var found;
      heads, found := EnumerateRule(prog, r, Rows(), -1, [], rd);
      ds := EnumeratedActive(prog, g, ri, rd, Uniformly(|r.pos2atom|, x), x, heads, found);
      SourceLeaves();
    }

    /** Enumerate the instances of a rule that hold one row at position `q`. */
    method EnumerateAt(ri: nat, q: nat, row: Row) returns (heads: seq<Row>, ghost ds: seq<Deriv>)
      requires Valid() && Grounded() && ri < |prog.rules| && ReadsView(prog, ri, q)
      requires |row| == prog.views[prog.rules[ri].atoms[prog.rules[ri].pos2atom[q]].view].arity
      modifies indexes
      ensures Valid()
      ensures
        var r := prog.rules[ri];
        DeltaListed(prog, g, ri, q, Fact(r.atoms[r.pos2atom[q]].view, row), Uniformly(|r.pos2atom|, x), heads, ds)
    {
      hide Mirrored, Indexed, GoodProgram, WellFormed, GroundOf, Source.Valid, Serves, ListsAll, DerivesFrom, FilterHolds, TableReads, DeltaListed;
      RuleShape(ri);
      var r := prog.rules[ri];
      SourceReady();
      RowSetsRead(r);
      ghost var rd := RowSets(r);
      ghost var found;
      heads, found := EnumerateRule(prog, r, Rows(), q, row, rd);
      ds := EnumeratedDelta(prog, g, ri, rd, Uniformly(|r.pos2atom|, x), q, row, heads, found);
      SourceLeaves();
    }

    // ----------------------------------------------------------------
    // One stratum.

    ghost predicate WorkState(n: nat, ext: set<Fact>, done: set<Fact>, popped: set<Fact>, work: seq<Fact>)
      reads this`x, views, indexes
    {
      Valid() && Underway(g, n, ext, x, done, popped, work)
    }

    /** Add rows of the stratum's least model; new ones go on the worklist. */
    method AddHeads(v: nat, heads: seq<Row>, work: seq<Fact>, ghost n: nat, ghost ext: set<Fact>, ghost done: set<Fact>, ghost popped: set<Fact>)
      returns (work': seq<Fact>)
      requires WorkState(n, ext, done, popped, work) && v < |views|
      requires forall row :: row in heads ==> Fact(v, row) in Least(g, n, Below(g, x, n), ext)
      modifies views, this`x
      ensures WorkState(n, ext, done, popped, work')
      ensures old(x) <= x && Below(g, x, n) == Below(g, old(x), n)
      ensures forall row :: row in heads ==> Fact(v, row) in x
    {
      hide Mirrored, Indexed, Underway, Least;
      work' := work;
      ghost var goal := Least(g, n, Below(g, x, n), ext);
      for k := 0 to |heads|
        invariant WorkState(n, ext, done, popped, work')
        invariant old(x) <= x && Below(g, x, n) == Below(g, old(x), n)
        invariant forall row :: row in heads[..k] ==> Fact(v, row) in x
      {
        assert heads[k] in heads && heads[..k + 1] == heads[..k] + [heads[k]];
        ghost var f := Fact(v, heads[k]);
        LeastIn(g, n, Below(g, x, n), ext, f);
        UnderwayAdds(g, n, ext, x, done, popped, work', f);
        var added := AddRow(v, heads[k]);
        if added {
          work' := work' + [Fact(v, heads[k])];
        }
      }
      assert heads[..|heads|] == heads;
    }

    /** Fire the popped row at one position of one rule. */
    method FireAt(ri: nat, q: nat, f: Fact, work: seq<Fact>, n: nat, ghost ext: set<Fact>, ghost done: set<Fact>, ghost x0: set<Fact>)
      returns (work': seq<Fact>)
      requires Grounded() && WorkState(n, ext, done, {f}, work)
      requires ri < |prog.rules| && HeadStratum(prog, ri) == n && ReadsView(prog, ri, q) && SamePos(prog, prog.rules[ri], q)
      requires prog.rules[ri].atoms[prog.rules[ri].pos2atom[q]].view == f.view
      requires f in x && f in g.facts && x0 <= x && Below(g, x0, n) == Below(g, x, n)
      requires forall e :: e in x && e !in x0 ==> Stratum(g, e) == n
      modifies views, indexes, this`x
      ensures WorkState(n, ext, done, {f}, work')
      ensures old(x) <= x && Below(g, x, n) == Below(g, old(x), n)
      ensures PositionPopped(g, n, x0, x, f, ri, q)
    {
      hide Grounded, Mirrored, Indexed, Underway, Least, DeltaListed, PositionPopped, SamePos, HeadStratum, Uniformly, GoodRule, GoodProgram, GroundOf, WellFormed, DerivsShaped, Below, Stratum, AllFacts;
      FactArity(f);
      RuleShape(ri);
      var r := prog.rules[ri];
      var heads;
      ghost var ds;
      heads, ds := EnumerateAt(ri, q, f.row);
      GroundedShaped();
      PoppedHeads(prog, g, n, ext, x, done, work, f, ri, q, heads, ds);
      ghost var before := x;
      work' := AddHeads(r.head, heads, work, n, ext, done, {f});
      PositionIsPopped(prog, g, n, x0, before, x, f, ri, q, heads, ds);
    }

    lemma FactArity(f: Fact)
      requires Linked() && f in g.facts
      ensures f.view < |prog.views| && |f.row| == prog.views[f.view].arity
    {
    }

    lemma GroundedShaped()
      requires Grounded()
      ensures DerivsShaped(prog, g) && WellFormed(g) && GoodProgram(prog) && g == GroundOf(prog)
    {
      hide GoodProgram, DerivsShaped, WellFormed, GroundOf;
      GroundShaped(prog, g);
    }

    /** Fire the popped row at every position of its view in the stratum's rules. */
    method FireRow(f: Fact, work: seq<Fact>, n: nat, ghost ext: set<Fact>, ghost done: set<Fact>) returns (work': seq<Fact>)
      requires Grounded() && WorkState(n, ext, done, {f}, work)
      requires f in x && f in g.facts && Stratum(g, f) == n && done <= x
      modifies views, indexes, this`x
      ensures WorkState(n, ext, done + {f}, {}, work')
      ensures old(x) <= x && Below(g, x, n) == Below(g, old(x), n)
    {
      hide Grounded, Mirrored, Indexed, Underway, Least, PositionPopped, PoppedBelow, SamePos, HeadStratum, GoodRule, GoodProgram, GroundOf,
        WellFormed, DerivsShaped, Below, AllFacts, Popped;
      ghost var x0 := x;
      work' := work;
      GroundedShaped();
      NonePopped(g, n, x0, x, f);
      for ri := 0 to |prog.rules|
        invariant WorkState(n, ext, done, {f}, work') && x0 <= x && Below(g, x, n) == Below(g, x0, n)
        invariant PoppedBelow(g, n, x0, x, f, ri, 0)
      {
        var r := prog.rules[ri];
        for q := 0 to |r.pos2atom|
          invariant WorkState(n, ext, done, {f}, work') && x0 <= x && Below(g, x, n) == Below(g, x0, n)
          invariant PoppedBelow(g, n, x0, x, f, ri, q)
        {
          RuleReads(ri, q);
          NewIsHere(g, n, ext, x0, x, done, {f}, work');
          ghost var before := x;
          if HeadStratum(prog, ri) == n && SamePos(prog, r, q) && r.atoms[r.pos2atom[q]].view == f.view {
            work' := FireAt(ri, q, f, work', n, ext, done, x0);
          } else {
            PositionSkipped(prog, g, n, x0, x, f, ri, q);
          }
          PoppedMore(g, n, x0, before, x, f, ri, q);
        }
        PoppedRule(prog, g, n, x0, x, f, ri);
      }
      PoppedAll(prog, g, n, x0, x, f);
      UnderwayDone(g, n, ext, x0, x, done, work', f);
    }

    lemma RuleReads(ri: nat, q: nat)
      requires Grounded() && ri < |prog.rules| && q < |prog.rules[ri].pos2atom|
      ensures ReadsView(prog, ri, q)
    {
      hide WellFormed, GroundOf;
      assert GoodRule(prog, prog.rules[ri]);
    }

    /** Work the list off, last row first. */
    method Drain(n: nat, work: seq<Fact>, ghost ext: set<Fact>) returns (ghost done: set<Fact>)
      requires Grounded() && WorkState(n, ext, {}, {}, work)
      modifies views, indexes, this`x
      ensures WorkState(n, ext, done, {}, [])
      ensures old(x) <= x && Below(g, x, n) == Below(g, old(x), n)
    {
      hide Grounded, Mirrored, Indexed, Underway, Below, AllFacts;
      var list := work;
      done := {};
      while list != []
        invariant WorkState(n, ext, done, {}, list)
        invariant old(x) <= x && Below(g, x, n) == Below(g, old(x), n)
        decreases g.facts - done
      {
        var f := list[|list| - 1];
        UnderwayPops(g, n, ext, x, done, list);
        list := FireRow(f, list[..|list| - 1], n, ext, done);
        done := done + {f};
      }
    }

    /** Add the asserted rows of the stratum's receive views. */
    method SeedAsserted(n: nat, facts: seq<seq<Row>>, ghost asserted: set<Fact>, ghost ext: set<Fact>) returns (work: seq<Fact>)
      requires Grounded() && WorkState(n, ext, {}, {}, [])
      requires FactsAre(prog, facts, asserted) && asserted <= ext
      modifies views, this`x
      ensures WorkState(n, ext, {}, {}, work)
      ensures old(x) <= x && Below(g, x, n) == Below(g, old(x), n)
      ensures forall f :: f in asserted && Stratum(g, f) == n ==> f in x
    {
      hide Grounded, Mirrored, Indexed, Underway, Below, AllFacts, Least, Sound;
      GroundedShaped();
      HeadsTyped();
      work := [];
      for v := 0 to |views|
        invariant WorkState(n, ext, {}, {}, work)
        invariant old(x) <= x && Below(g, x, n) == Below(g, old(x), n)
        invariant forall f :: f in asserted && Stratum(g, f) == n && f.view < v ==> f in x
      {
        if prog.views[v].stratum == n && prog.views[v].receive {
          AssertedIsSound(prog, g, n, ext, x, {}, {}, work, facts, asserted, v);
          work := AddHeads(v, facts[v], work, n, ext, {}, {});
        }
        AssertedOf(prog, g, n, facts, asserted, v, x);
      }
      assert forall f :: f in asserted ==> f.view < |prog.views|;
    }

    lemma HeadsTyped()
      requires Grounded()
      ensures Typed(prog, g)
    {
      hide WellFormed;
      GroundTyped(prog, g);
    }

    /** Recompute the stratum's aggregates over their finished inputs. */
    method SeedAggregates(n: nat, work: seq<Fact>, ghost asserted: set<Fact>, ghost x0: set<Fact>) returns (work': seq<Fact>)
      requires Grounded() && WorkState(n, Support(prog, asserted, x0), {}, {}, work) && Below(g, x, n) == Below(g, x0, n)
      modifies views, this`x
      ensures WorkState(n, Support(prog, asserted, x0), {}, {}, work')
      ensures old(x) <= x && Below(g, x, n) == Below(g, x0, n)
      ensures forall i, out :: 0 <= i < |prog.aggs| && AggregateAt(prog, n, i) && out in Desired(prog.aggs[i], x0) ==> Fact(prog.aggs[i].head, out) in x
    {
      hide Grounded, Mirrored, Indexed, Underway, Below, AllFacts, Least, Sound, Support, Desired, A.IsDesired, NoRepeats;
      GroundedShaped();
      ghost var ext := Support(prog, asserted, x0);
      work' := work;
      for i := 0 to |prog.aggs|
        invariant WorkState(n, ext, {}, {}, work')
        invariant old(x) <= x && Below(g, x, n) == Below(g, x0, n)
        invariant forall j, out :: 0 <= j < i && AggregateAt(prog, n, j) && out in Desired(prog.aggs[j], x0) ==> Fact(prog.aggs[j].head, out) in x
      {
        var a := prog.aggs[i];
        AggregateViews(i);
        if prog.views[a.head].stratum == n {
          InputRows(a.input);
          var out := A.ReduceAggregate(a, views[a.input].rows);
          AggregateIsSound(prog, g, n, x0, x, {}, {}, work', asserted, i, views[a.input].rows, out);
          work' := AddHeads(a.head, out, work', n, ext, {}, {});
        }
      }
    }

    lemma AggregateViews(i: nat)
      requires Grounded() && i < |prog.aggs|
      ensures prog.aggs[i].head < |prog.views| && prog.aggs[i].input < |prog.views|
    {
      hide WellFormed, GroundOf, GoodProgram;
      AggregateIn(prog, i);
    }

    lemma InputRows(v: nat)
      requires Linked() && Mirrored() && v < |views|
      ensures NoRepeats(views[v].rows) && A.RowSet(views[v].rows) == RowsIn(x, v)
    {
      hide RowsIn;
    }

    /** Rules without atoms of the stratum fire once over the finished strata. */
    method SeedRules(n: nat, work: seq<Fact>, ghost ext: set<Fact>) returns (work': seq<Fact>)
      requires Grounded() && WorkState(n, ext, {}, {}, work)
      modifies views, indexes, this`x
      ensures WorkState(n, ext, {}, {}, work')
      ensures old(x) <= x && Below(g, x, n) == Below(g, old(x), n)
      ensures RulesSeeded(g, n, x, |prog.rules|)
    {
      hide Grounded, Mirrored, Indexed, Underway, Below, AllFacts, Least, Sound, RulesSeeded, ActiveListed, SamePos, HeadStratum,
        GoodRule, GoodProgram, GroundOf, WellFormed, DerivsShaped;
      GroundedShaped();
      NoneSeeded(g, n, x);
      work' := work;
      for ri := 0 to |prog.rules|
        invariant WorkState(n, ext, {}, {}, work')
        invariant old(x) <= x && Below(g, x, n) == Below(g, old(x), n)
        invariant RulesSeeded(g, n, x, ri)
      {
        var r := prog.rules[ri];
        ghost var before := x;
        if HeadStratum(prog, ri) == n && forall q :: 0 <= q < |r.pos2atom| ==> !SamePos(prog, r, q) {
          RuleShape(ri);
          var heads;
          ghost var ds;
          heads, ds := EnumerateAll(ri);
          ActiveHeads(prog, g, n, ext, x, {}, {}, work', ri, heads, ds);
          work' := AddHeads(r.head, heads, work', n, ext, {}, {});
          RuleSeeded(prog, g, n, before, x, ri, heads, ds);
        } else {
          RuleUnseeded(prog, g, n, x, ri);
        }
      }
    }

    /** One stratum: seed it, then work the list off. */
    method EvaluateStratum(n: nat, facts: seq<seq<Row>>, ghost asserted: set<Fact>)
      requires Grounded() && Valid() && FactsAre(prog, facts, asserted) && asserted <= g.facts
      requires Sound(g, n, Support(prog, asserted, x), x) && At(g, x, n) == {}
      modifies views, indexes, this`x
      ensures Valid() && Sound(g, n + 1, Support(prog, asserted, x), x) && At(g, x, n + 1) == {}
    {
      hide Grounded, Mirrored, Indexed, Underway, Below, AllFacts, Least, Sound, Support, Desired, RulesSeeded, GoodProgram, GroundOf, WellFormed,
        DerivsShaped, FactsAre, Seeded, Model.At;
      ghost var x0 := x;
      ghost var ext := Support(prog, asserted, x0);
      GroundedShaped();
      UnderwayStarts(g, n, ext, x);
      AssertedSupported(prog, asserted, x0);
      var work := SeedAsserted(n, facts, asserted, ext);
      work := SeedAggregates(n, work, asserted, x0);
      work := SeedRules(n, work, ext);
      AllSeeded(prog, g, n, x0, x, asserted);
      ghost var seeded := x;
      ghost var done := Drain(n, work, ext);
      SeededStays(g, n, ext, seeded, x);
      StratumEvaluated(prog, g, n, x0, x, asserted, done);
    }

    /** The from-scratch evaluation of the asserted facts: the stratified least model. */
    method Evaluate(facts: seq<seq<Row>>, ghost asserted: set<Fact>)
      requires Grounded() && Valid() && FactsAre(prog, facts, asserted) && asserted <= g.facts && x == {}
      modifies views, indexes, this`x
      ensures Valid() && IsProgramModel(prog, g, asserted, x)
    {
      hide Grounded, Mirrored, Indexed, Below, AllFacts, Least, Sound, Support, GoodProgram, GroundOf, WellFormed, DerivsShaped, FactsAre, Model.At, IsProgramModel;
      GroundedShaped();
      NothingIsSound(prog, g, asserted);
      for n := 0 to prog.numStrata
        invariant Valid() && Sound(g, n, Support(prog, asserted, x), x) && At(g, x, n) == {}
      {
        EvaluateStratum(n, facts, asserted);
      }
      SoundIsModel(prog, g, asserted, x);
    }
  }
}
