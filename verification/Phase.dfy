/** The logical state of a batch in progress and the elementary counter folds on it. */
module Phase {
  import opened Ground
  import opened Weights
  import opened Model

  /** One value of the engine's counters, flags and queues.
      `nr`/`rc`: the split signed counters.  `present`: in at batch start (frozen).
      `deleted`/`added`: the claimed sets D and A.  `pendDel`/`pendAdd`: queue contents.
      `w`: how often each derivation is currently counted.  `ext`: facts holding external support. */
  datatype State = State(
    nr: map<Fact, int>, rc: map<Fact, int>,
    present: set<Fact>, deleted: set<Fact>, added: set<Fact>,
    pendDel: set<Fact>, pendAdd: set<Fact>,
    w: Weight, ext: set<Fact>)
  {
    ghost function Current(): set<Fact> {
      (present - deleted) + added
    }

    ghost predicate Survives(f: Fact) {
      f in present && f !in deleted
    }
  }

  ghost predicate Shaped(g: GroundProgram, s: State) {
    && s.nr.Keys == g.facts && s.rc.Keys == g.facts && s.w.Keys == g.derivs
    && s.present <= g.facts && s.deleted <= s.present && s.added <= g.facts
    && s.pendDel <= g.facts && s.pendAdd <= g.facts && s.ext <= g.facts
    && (forall f :: f in s.ext ==> f.view in g.external)
  }

  ghost function Deriving(g: GroundProgram, f: Fact, recursive: bool): (r: set<Deriv>) {
    set d | d in g.derivs && d.head == f && d.recursive == recursive
  }

  /** The counters are the weighted number of derivations, plus one non-recursive
      count for external support. */
  ghost predicate CountedAt(g: GroundProgram, s: State, f: Fact)
    requires Shaped(g, s) && f in g.facts
  {
    && s.nr[f] == Bit(f in s.ext) + Sum(Deriving(g, f, false), s.w)
    && s.rc[f] == Sum(Deriving(g, f, true), s.w)
  }

  ghost predicate Counted(g: GroundProgram, s: State) {
    Shaped(g, s) && forall f :: f in g.facts ==> CountedAt(g, s, f)
  }

  function Total(s: State, f: Fact): int
    requires f in s.nr && f in s.rc
  {
    s.nr[f] + s.rc[f]
  }

  function Bump(m: map<Fact, int>, f: Fact, hit: bool, change: int): (r: map<Fact, int>)
    requires f in m
  {
    if hit then m[f := m[f] + change] else m
  }

  /** One counter fold of -1 for a derivation and the queue push its crossing test makes. */
  function SubFold(s: State, d: Deriv): (t: State)
    requires d.head in s.nr && d.head in s.rc && d in s.w
  {
    var f := d.head;
    var nr := Bump(s.nr, f, !d.recursive, -1);
    s.(nr := nr, rc := Bump(s.rc, f, d.recursive, -1), w := s.w[d := s.w[d] - 1],
       pendDel := if f in s.present && nr[f] <= 0 then s.pendDel + {f} else s.pendDel)
  }

  /** One counter fold of +1 for a derivation and the queue push its crossing test makes. */
  function AddFold(s: State, d: Deriv): (t: State)
    requires d.head in s.nr && d.head in s.rc && d in s.w
  {
    var f := d.head;
    s.(nr := Bump(s.nr, f, !d.recursive, 1), rc := Bump(s.rc, f, d.recursive, 1), w := s.w[d := s.w[d] + 1],
       pendAdd := if Total(s, f) <= 0 && Total(s, f) + 1 > 0 then s.pendAdd + {f} else s.pendAdd)
  }

  /** A fact gains or loses its external support. */
  function AddSupport(s: State, f: Fact): (t: State)
    requires f in s.nr && f in s.rc
  {
    s.(nr := s.nr[f := s.nr[f] + 1], ext := s.ext + {f},
       pendAdd := if Total(s, f) <= 0 && Total(s, f) + 1 > 0 then s.pendAdd + {f} else s.pendAdd)
  }

  function SubSupport(s: State, f: Fact): (t: State)
    requires f in s.nr && f in s.rc
  {
    s.(nr := s.nr[f := s.nr[f] - 1], ext := s.ext - {f},
       pendDel := if f in s.present && s.nr[f] - 1 <= 0 then s.pendDel + {f} else s.pendDel)
  }

  lemma FoldCounted(g: GroundProgram, s: State, t: State, d: Deriv, change: int)
    requires Counted(g, s) && d in g.derivs && d.head in g.facts
    requires Shaped(g, t) && t.ext == s.ext && t.w == s.w[d := s.w[d] + change]
    requires t.nr == Bump(s.nr, d.head, !d.recursive, change)
    requires t.rc == Bump(s.rc, d.head, d.recursive, change)
    ensures Counted(g, t)
  {
    forall f | f in g.facts ensures CountedAt(g, t, f) {
      assert CountedAt(g, s, f);
      SumUpdate(Deriving(g, f, false), s.w, d, s.w[d] + change);
      SumUpdate(Deriving(g, f, true), s.w, d, s.w[d] + change);
    }
  }

  lemma SubFoldCounted(g: GroundProgram, s: State, d: Deriv)
    requires Counted(g, s) && d in g.derivs && d.head in g.facts
    ensures Counted(g, SubFold(s, d))
  {
    FoldCounted(g, s, SubFold(s, d), d, -1);
  }

  lemma AddFoldCounted(g: GroundProgram, s: State, d: Deriv)
    requires Counted(g, s) && d in g.derivs && d.head in g.facts
    ensures Counted(g, AddFold(s, d))
  {
    FoldCounted(g, s, AddFold(s, d), d, 1);
  }

  lemma AddSupportCounted(g: GroundProgram, s: State, f: Fact)
    requires Counted(g, s) && f in g.facts && f !in s.ext && f.view in g.external
    ensures Counted(g, AddSupport(s, f))
  {
    forall e | e in g.facts ensures CountedAt(g, AddSupport(s, f), e) {
      assert CountedAt(g, s, e);
    }
  }

  lemma SubSupportCounted(g: GroundProgram, s: State, f: Fact)
    requires Counted(g, s) && f in s.ext
    ensures Counted(g, SubSupport(s, f))
  {
    forall e | e in g.facts ensures CountedAt(g, SubSupport(s, f), e) {
      assert CountedAt(g, s, e);
    }
  }

  /** A positive non-recursive counter is external support or a counted non-recursive derivation. */
  lemma NonRecursiveWitness(g: GroundProgram, s: State, f: Fact)
    requires Counted(g, s) && f in g.facts && s.nr[f] > 0
    ensures f in s.ext || exists d :: d in Deriving(g, f, false) && s.w[d] > 0
  {
    assert CountedAt(g, s, f);
    if f !in s.ext {
      var d := SumWitness(Deriving(g, f, false), s.w);
    }
  }

  lemma RecursiveWitness(g: GroundProgram, s: State, f: Fact)
    requires Counted(g, s) && f in g.facts && s.rc[f] > 0
    ensures exists d :: d in Deriving(g, f, true) && s.w[d] > 0
  {
    assert CountedAt(g, s, f);
    var d := SumWitness(Deriving(g, f, true), s.w);
  }

  lemma TotalWitness(g: GroundProgram, s: State, f: Fact)
    requires Counted(g, s) && f in g.facts && Total(s, f) > 0
    ensures f in s.ext || exists d :: d in g.derivs && d.head == f && s.w[d] > 0
  {
    if s.nr[f] > 0 {
      NonRecursiveWitness(g, s, f);
    } else {
      RecursiveWitness(g, s, f);
    }
  }

  /** Nonnegative weights: the total is at least the external support and every weight. */
  lemma TotalAtLeast(g: GroundProgram, s: State, f: Fact)
    requires Counted(g, s) && f in g.facts
    requires forall d :: d in g.derivs && d.head == f ==> 0 <= s.w[d]
    ensures 0 <= s.nr[f] && 0 <= s.rc[f] && Total(s, f) >= Bit(f in s.ext)
    ensures forall d :: d in g.derivs && d.head == f ==> s.w[d] <= Total(s, f)
  {
    assert CountedAt(g, s, f);
    SumAtLeast(Deriving(g, f, false), s.w);
    SumAtLeast(Deriving(g, f, true), s.w);
    forall d | d in g.derivs && d.head == f ensures s.w[d] <= Total(s, f) {
      assert d in Deriving(g, f, d.recursive);
    }
  }
}
