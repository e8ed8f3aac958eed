/** The compiler's join arms: one per side whose delta is looped over, with the membership predicate
    each other side is read through. Fired over every side, they make exactly the change of the join. */
module Arms {
  import opened Ground
  import opened Reads
  import opened RowStore
  import opened Rules

  /** Loop over the frontier of `side`, then read the other sides. */
  datatype Arm = Arm(side: nat, gained: bool, scans: seq<(nat, ReadK)>)

  type Flags = map<Fact, RowState>

  function FlagsOf(st: Flags, f: Fact): RowState {
    if f in st then st[f] else NEW_ROW
  }

  // ------------------------------------------------------------------
  // Product arms: reads keyed on position, the same for both signs.

  function ProductScans(sides: nat, i: nat): seq<(nat, ReadK)> {
    seq(sides, j => (j, if j < i then InNew else InI))
  }

  /** The arms of the first `i` sides: an adding arm each, a removing arm if the side can lose rows. */
  function ProductArmsTo(differential: seq<bool>, i: nat): seq<Arm>
    requires i <= |differential|
  {
    if i == 0 then []
    else
      ProductArmsTo(differential, i - 1)
      + [Arm(i - 1, true, ProductScans(|differential|, i - 1))]
      + (if differential[i - 1] then [Arm(i - 1, false, ProductScans(|differential|, i - 1))] else [])
  }

  method ProductArms(differential: seq<bool>) returns (arms: seq<Arm>)
    ensures arms == ProductArmsTo(differential, |differential|)
  {
    arms := [];
    for i := 0 to |differential|
      invariant arms == ProductArmsTo(differential, i)
    {
      var scans := ProductScans(|differential|, i);
      arms := arms + [Arm(i, true, scans)];
      if differential[i] {
        arms := arms + [Arm(i, false, scans)];
      }
    }
  }

  /** The frontiers of a finished table: rows that came in the batch, rows that went. */
  predicate Net(s: RowState, gained: bool) {
    if gained then s.add && !s.del && !s.inI else s.del && !s.add
  }

  predicate Scanned(d: Deriv, st: Flags, arm: Arm) {
    forall k :: 0 <= k < |arm.scans| && arm.scans[k].0 != arm.side && arm.scans[k].0 < |d.body|
      ==> Pass(FlagsOf(st, d.body[arm.scans[k].0].fact), arm.scans[k].1)
  }

  predicate ProductFires(d: Deriv, st: Flags, arm: Arm) {
    arm.side < |d.body| && Net(FlagsOf(st, d.body[arm.side].fact), arm.gained) && Scanned(d, st, arm)
  }

  /** The signed number of arms that produce the combination. */
  ghost function ProductNet(d: Deriv, st: Flags, arms: seq<Arm>): int {
    if arms == [] then 0
    else
      var arm := arms[|arms| - 1];
      ProductNet(d, st, arms[..|arms| - 1])
      + (if ProductFires(d, st, arm) then (if arm.gained then 1 else -1) else 0)
  }

  /** What the flags of a finished table say about a row of the combination: D is part of the rows at
      the start, A is apart from those that stayed, and `s` and `t` are the rows before and after. */
  ghost predicate Finished(st: Flags, f: Fact, s: set<Fact>, t: set<Fact>) {
    var x := FlagsOf(st, f);
    && (x.del ==> x.inI) && (x.add ==> !x.inI || x.del)
    && (f in s <==> x.inI) && (f in t <==> x.add || (x.inI && !x.del))
  }

  ghost predicate ProductReady(d: Deriv, differential: seq<bool>, st: Flags, s: set<Fact>, t: set<Fact>) {
    && |d.body| == |differential|
    && forall p :: 0 <= p < |d.body| ==>
        !d.body[p].negated && Finished(st, d.body[p].fact, s, t) && (!differential[p] ==> !FlagsOf(st, d.body[p].fact).del)
  }

  lemma ProductFiresAt(d: Deriv, differential: seq<bool>, st: Flags, s: set<Fact>, t: set<Fact>, i: nat, gained: bool)
    requires ProductReady(d, differential, st, s, t) && i < |d.body|
    ensures ProductFires(d, st, Arm(i, gained, ProductScans(|differential|, i))) <==> FiresAt(d, i, s, t, gained)
  {
    var scans := ProductScans(|differential|, i);
    assert forall j :: 0 <= j < |d.body| ==> scans[j] == (j, if j < i then InNew else InI);
    assert Net(FlagsOf(st, d.body[i].fact), gained) <==> Flips(d.body[i], s, t, gained);
    if ProductFires(d, st, Arm(i, gained, scans)) {
      forall q | 0 <= q < |d.body| && q != i ensures Holds(d.body[q], if q < i then t else s) {
        assert scans[q].0 == q && Pass(FlagsOf(st, d.body[q].fact), scans[q].1);
      }
    }
  }

  ghost predicate FiresBelow(d: Deriv, i: nat, s: set<Fact>, t: set<Fact>, gained: bool) {
    exists p: nat :: p < i && FiresAt(d, p, s, t, gained)
  }

  lemma FiresMore(d: Deriv, i: nat, s: set<Fact>, t: set<Fact>, gained: bool)
    ensures Bit(FiresBelow(d, i + 1, s, t, gained)) == Bit(FiresBelow(d, i, s, t, gained)) + Bit(FiresAt(d, i, s, t, gained))
  {
    forall p: nat | FiresAt(d, p, s, t, gained) && FiresAt(d, i, s, t, gained) ensures p == i {
      FiresOnce(d, p, i, s, t, gained);
    }
  }

  lemma NetMore(d: Deriv, st: Flags, arms: seq<Arm>, arm: Arm)
    ensures ProductNet(d, st, arms + [arm])
         == ProductNet(d, st, arms) + (if ProductFires(d, st, arm) then (if arm.gained then 1 else -1) else 0)
  {
    assert (arms + [arm])[..|arms|] == arms;
  }

  lemma {:induction false} ProductCounts(d: Deriv, differential: seq<bool>, st: Flags, s: set<Fact>, t: set<Fact>, i: nat)
    requires ProductReady(d, differential, st, s, t) && i <= |differential|
    ensures ProductNet(d, st, ProductArmsTo(differential, i)) == Bit(FiresBelow(d, i, s, t, true)) - Bit(FiresBelow(d, i, s, t, false))
  {
    hide ProductReady, FiresAt, ProductFires, FiresBelow, ProductScans;
    if i == 0 {
      assert !FiresBelow(d, 0, s, t, true) && !FiresBelow(d, 0, s, t, false) by {
        NoneBelow(d, s, t);
      }
    } else {
      var k := i - 1;
      ProductCounts(d, differential, st, s, t, k);
      FiresMore(d, k, s, t, true);
      FiresMore(d, k, s, t, false);
      SidesAre(d, differential, st, s, t);
      ProductFiresAt(d, differential, st, s, t, k, true);
      ProductFiresAt(d, differential, st, s, t, k, false);
      var before, scans := ProductArmsTo(differential, k), ProductScans(|differential|, k);
      var plus := before + [Arm(k, true, scans)];
      NetMore(d, st, before, Arm(k, true, scans));
      if differential[k] {
        NetMore(d, st, plus, Arm(k, false, scans));
      } else {
        assert ProductArmsTo(differential, i) == plus;
        NothingLost(d, differential, st, s, t, k);
      }
    }
  }

  lemma NoneBelow(d: Deriv, s: set<Fact>, t: set<Fact>)
    ensures !FiresBelow(d, 0, s, t, true) && !FiresBelow(d, 0, s, t, false)
  {
  }

  lemma SidesAre(d: Deriv, differential: seq<bool>, st: Flags, s: set<Fact>, t: set<Fact>)
    requires ProductReady(d, differential, st, s, t)
    ensures |d.body| == |differential|
  {
  }

  lemma NothingLost(d: Deriv, differential: seq<bool>, st: Flags, s: set<Fact>, t: set<Fact>, k: nat)
    requires ProductReady(d, differential, st, s, t) && k < |differential| && !differential[k]
    ensures !FiresAt(d, k, s, t, false)
  {
    assert Finished(st, d.body[k].fact, s, t);
  }

  /** For any number of sides, the product's arms add and remove each combination exactly as often as
      it comes and goes. */
  lemma ProductLaw(d: Deriv, differential: seq<bool>, st: Flags, s: set<Fact>, t: set<Fact>)
    requires ProductReady(d, differential, st, s, t)
    ensures Bit(Active(d, t)) == Bit(Active(d, s)) + ProductNet(d, st, ProductArmsTo(differential, |differential|))
  {
    var n := |differential|;
    ProductCounts(d, differential, st, s, t, n);
    assert Fires(d, s, t, true) <==> FiresBelow(d, n, s, t, true);
    assert Fires(d, s, t, false) <==> FiresBelow(d, n, s, t, false);
    DeltaLaw(d, s, t);
  }

  // ------------------------------------------------------------------
  // Fixpoint arms: reads of the recursive component relative to the claim.

  /** The predicate for side `j` of the component while side `p` is the delta. */
  function FixpointSamePred(j: nat, p: nat, isDel: bool): ReadK {
    if j < p then (if isDel then SurvivesSoFar else InNewWithFrontier)
    else (if isDel then AliveAtClaim else InNewSansFrontier)
  }

  /** The sides of the component other than `p`, then the lower sides. */
  function FixpointScans(same: seq<bool>, p: nat, isDel: bool): seq<(nat, ReadK)> {
    SameScans(same, p, isDel, |same|) + LowerScans(same, |same|)
  }

  function SameScans(same: seq<bool>, p: nat, isDel: bool, k: nat): seq<(nat, ReadK)>
    requires k <= |same|
  {
    if k == 0 then []
    else SameScans(same, p, isDel, k - 1) + (if same[k - 1] && k - 1 != p then [(k - 1, FixpointSamePred(k - 1, p, isDel))] else [])
  }

  function LowerScans(same: seq<bool>, k: nat): seq<(nat, ReadK)>
    requires k <= |same|
  {
    if k == 0 then [] else LowerScans(same, k - 1) + (if same[k - 1] then [] else [(k - 1, InNew)])
  }

  function FixpointArmsTo(same: seq<bool>, isDel: bool, i: nat): seq<Arm>
    requires i <= |same|
  {
    if i == 0 then []
    else FixpointArmsTo(same, isDel, i - 1) + (if same[i - 1] then [Arm(i - 1, !isDel, FixpointScans(same, i - 1, isDel))] else [])
  }

  method FixpointArms(same: seq<bool>, isDel: bool) returns (arms: seq<Arm>)
    ensures arms == FixpointArmsTo(same, isDel, |same|)
  {
    arms := [];
    for p := 0 to |same|
      invariant arms == FixpointArmsTo(same, isDel, p)
    {
      if same[p] {
        var scans := [];
        for j := 0 to |same|
          invariant scans == SameScans(same, p, isDel, j)
        {
          if same[j] && j != p {
            scans := scans + [(j, FixpointSamePred(j, p, isDel))];
          }
        }
        var lower := [];
        for j := 0 to |same|
          invariant lower == LowerScans(same, j)
        {
          if !same[j] {
            lower := lower + [(j, InNew)];
          }
        }
        arms := arms + [Arm(p, !isDel, scans + lower)];
      }
    }
  }

  predicate FixpointFires(d: Deriv, st: Flags, arm: Arm) {
    && arm.side < |d.body|
    && (var x := FlagsOf(st, d.body[arm.side].fact); if arm.gained then x.addNow else x.delNow)
    && Scanned(d, st, arm)
  }

  ghost function FixpointCount(d: Deriv, st: Flags, arms: seq<Arm>): int {
    if arms == [] then 0
    else FixpointCount(d, st, arms[..|arms| - 1]) + Bit(FixpointFires(d, st, arms[|arms| - 1]))
  }

  /** In a claim round that moves the rows from `s` to `t`, the flags of a row of the component tell
      both states apart, and the claimed rows are the difference. */
  ghost predicate Claiming(st: Flags, f: Fact, isDel: bool, s: set<Fact>, t: set<Fact>) {
    var x := FlagsOf(st, f);
    && (f in t <==> (x.inI && !x.del) || (!isDel && x.add))
    && (f in s <==> (x.inI && !x.del) || (if isDel then x.inI && x.delNow else x.add && !x.addNow))
    && (if isDel then x.delNow ==> x.inI && x.del else x.addNow ==> x.add && !(x.inI && !x.del))
  }

  /** A row of a finished table is in both states or in neither. */
  ghost predicate Standing(x: RowState, f: Fact, s: set<Fact>, t: set<Fact>) {
    (f in s <==> f in t) && (f in t <==> x.add || (x.inI && !x.del))
  }

  ghost predicate FixpointReady(d: Deriv, same: seq<bool>, st: Flags, isDel: bool, s: set<Fact>, t: set<Fact>) {
    && |d.body| == |same|
    && forall p :: 0 <= p < |d.body| ==>
        && !d.body[p].negated
        && if same[p] then Claiming(st, d.body[p].fact, isDel, s, t)
           else Standing(FlagsOf(st, d.body[p].fact), d.body[p].fact, s, t)
  }

  lemma {:induction false} SameScanned(same: seq<bool>, p: nat, isDel: bool, k: nat)
    requires k <= |same|
    ensures forall e :: e in SameScans(same, p, isDel, k) <==>
      e.0 < k && same[e.0] && e.0 != p && e.1 == FixpointSamePred(e.0, p, isDel)
  {
    if k > 0 {
      SameScanned(same, p, isDel, k - 1);
    }
  }

  lemma {:induction false} LowerScanned(same: seq<bool>, k: nat)
    requires k <= |same|
    ensures forall e :: e in LowerScans(same, k) <==> e.0 < k && !same[e.0] && e.1 == InNew
  {
    if k > 0 {
      LowerScanned(same, k - 1);
    }
  }

  lemma ScannedIs(d: Deriv, same: seq<bool>, st: Flags, isDel: bool, p: nat)
    requires |d.body| == |same| && p < |same|
    ensures Scanned(d, st, Arm(p, !isDel, FixpointScans(same, p, isDel))) <==>
      forall j: nat :: j < |same| && j != p
        ==> Pass(FlagsOf(st, d.body[j].fact), if same[j] then FixpointSamePred(j, p, isDel) else InNew)
  {
    var scans := FixpointScans(same, p, isDel);
    SameScanned(same, p, isDel, |same|);
    LowerScanned(same, |same|);
    if Scanned(d, st, Arm(p, !isDel, scans)) {
      forall j: nat | j < |same| && j != p
        ensures Pass(FlagsOf(st, d.body[j].fact), if same[j] then FixpointSamePred(j, p, isDel) else InNew)
      {
        var e := (j, if same[j] then FixpointSamePred(j, p, isDel) else InNew);
        assert e in scans;
        var k :| 0 <= k < |scans| && scans[k] == e;
      }
    } else {
      var k :| 0 <= k < |scans| && scans[k].0 != p && scans[k].0 < |d.body| && !Pass(FlagsOf(st, d.body[scans[k].0].fact), scans[k].1);
      assert scans[k] in scans;
    }
  }

  lemma FixpointFiresAt(d: Deriv, same: seq<bool>, st: Flags, isDel: bool, s: set<Fact>, t: set<Fact>, p: nat)
    requires FixpointReady(d, same, st, isDel, s, t) && p < |same|
    ensures same[p] ==> (FixpointFires(d, st, Arm(p, !isDel, FixpointScans(same, p, isDel))) <==> FiresAt(d, p, s, t, !isDel))
    ensures !same[p] ==> !FiresAt(d, p, s, t, !isDel)
  {
    if same[p] {
      ScannedIs(d, same, st, isDel, p);
      forall j: nat | j < |same| && j != p
        ensures Pass(FlagsOf(st, d.body[j].fact), if same[j] then FixpointSamePred(j, p, isDel) else InNew)
            <==> Holds(d.body[j], if j < p then t else s)
      {
        assert same[j] ==> Claiming(st, d.body[j].fact, isDel, s, t);
      }
      assert Claiming(st, d.body[p].fact, isDel, s, t);
    }
  }

  lemma CountMore(d: Deriv, st: Flags, arms: seq<Arm>, arm: Arm)
    ensures FixpointCount(d, st, arms + [arm]) == FixpointCount(d, st, arms) + Bit(FixpointFires(d, st, arm))
  {
    assert (arms + [arm])[..|arms|] == arms;
  }

  lemma {:induction false} FixpointCounts(d: Deriv, same: seq<bool>, st: Flags, isDel: bool, s: set<Fact>, t: set<Fact>, i: nat)
    requires FixpointReady(d, same, st, isDel, s, t) && i <= |same|
    ensures FixpointCount(d, st, FixpointArmsTo(same, isDel, i)) == Bit(FiresBelow(d, i, s, t, !isDel))
  {
    hide FixpointReady, FiresAt, FixpointFires, FiresBelow, FixpointScans;
    if i == 0 {
      NoneBelow(d, s, t);
    } else {
      var k := i - 1;
      FixpointCounts(d, same, st, isDel, s, t, k);
      FiresMore(d, k, s, t, !isDel);
      FixpointFiresAt(d, same, st, isDel, s, t, k);
      var before := FixpointArmsTo(same, isDel, k);
      if same[k] {
        CountMore(d, st, before, Arm(k, !isDel, FixpointScans(same, k, isDel)));
      } else {
        assert FixpointArmsTo(same, isDel, i) == before;
      }
    }
  }

  /** In a claim round the fire's arms make exactly the change of the join: a combination that touches
      claimed rows, at however many sides, is produced once. */
  lemma FixpointLaw(d: Deriv, same: seq<bool>, st: Flags, isDel: bool, s: set<Fact>, t: set<Fact>)
    requires FixpointReady(d, same, st, isDel, s, t)
    ensures
      var count := FixpointCount(d, st, FixpointArmsTo(same, isDel, |same|));
      0 <= count <= 1 && Bit(Active(d, t)) == Bit(Active(d, s)) + (if isDel then -count else count)
  {
    FixpointCounts(d, same, st, isDel, s, t, |same|);
    assert Fires(d, s, t, !isDel) <==> FiresBelow(d, |same|, s, t, !isDel);
    DeltaLaw(d, s, t);
    forall p: nat | p < |same| ensures !FiresAt(d, p, s, t, isDel) {
      assert same[p] ==> Claiming(st, d.body[p].fact, isDel, s, t);
    }
  }

  // ------------------------------------------------------------------
  // The executable specification's reads are the compiler's.

  /** The engine's own matrix for a claim round, position by position. */
  lemma FixReadsAgree(p: Program, r: Rule, same: seq<bool>, delta: nat, deleting: bool, q: nat, kind: ReadK)
    requires |same| == |r.pos2atom| && delta < |same| && q < |same| && q != delta
    requires forall j :: 0 <= j < |same| ==> (same[j] <==> SamePos(p, r, j))
    ensures (q, kind) in FixpointScans(same, delta, deleting) <==> kind == FixReads(p, r, delta, deleting)[q]
  {
    SameScanned(same, delta, deleting, |same|);
    LowerScanned(same, |same|);
  }

  /** And for a seed, product arms read as rules do. */
  lemma SeedReadsAgree(r: Rule, i: nat, q: nat, kind: ReadK)
    requires i < |r.pos2atom| && q < |r.pos2atom| && q != i
    ensures (q, kind) in ProductScans(|r.pos2atom|, i) <==> kind == SeedReads(r, i)[q]
  {
    var scans := ProductScans(|r.pos2atom|, i);
    assert scans[q] == (q, SeedReads(r, i)[q]);
    if (q, kind) in scans {
      var j :| 0 <= j < |scans| && scans[j] == (q, kind);
    }
  }
}
