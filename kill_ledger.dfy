// The kill ledger: which fish a stretch of combat killed, and what paying
// for them is worth to the kill counters.

module KillLedger {
  import opened GameState

  /** What one blow paid for, seen from fish `before` that it left as
      `after`: `before` itself when the blow took it from alive to 0 hp or
      below, nothing otherwise. */
  function Fallen(before: Fish, after: Fish): seq<Fish> {
    if before.hp > 0.0 && after.hp <= 0.0 then [before] else []
  }

  /** What one blow is worth: a kill, the fish's reward and, for a boss, a
      boss kill when it killed, nothing otherwise. */
  lemma CostFallen(before: Fish, after: Fish)
    ensures Cost(Fallen(before, after)) ==
      if before.hp > 0.0 && after.hp <= 0.0 then Tally(1, before.reward, if before.isBoss then 1 else 0)
      else Tally(0, 0, 0)
  {
    assert [before][..0] == [];
  }

  /** The fish at positions `lo` up to `hi` of `before` that were alive
      there and are at 0 hp or below at the same positions of `after`, in
      list order. */
  function FellIn(before: seq<Fish>, after: seq<Fish>, lo: nat, hi: nat): (r: seq<Fish>)
    requires lo <= hi <= |before| && hi <= |after|
    ensures |r| <= hi - lo
    decreases hi - lo
  {
    if hi == lo then [] else FellIn(before, after, lo, hi - 1) + Fallen(before[hi - 1], after[hi - 1])
  }

  /** The fish of `before` that were alive there and are dead in `after`. */
  function Fell(before: seq<Fish>, after: seq<Fish>): seq<Fish>
    requires |before| <= |after|
  {
    FellIn(before, after, 0, |before|)
  }

  /** `FellIn` holds exactly the fish of its range that were alive in
      `before` and are dead in `after`. */
  lemma {:induction false} FellMembers(before: seq<Fish>, after: seq<Fish>, lo: nat, hi: nat)
    requires lo <= hi <= |before| && hi <= |after|
    ensures forall f :: f in FellIn(before, after, lo, hi) ==>
      exists j :: lo <= j < hi && f == before[j] && before[j].hp > 0.0 && after[j].hp <= 0.0
    ensures forall j :: lo <= j < hi && before[j].hp > 0.0 && after[j].hp <= 0.0 ==> before[j] in FellIn(before, after, lo, hi)
    decreases hi - lo
  {
    if hi > lo {
      FellMembers(before, after, lo, hi - 1);
    }
  }

  /** Nothing fell where no hp changed. */
  lemma {:induction false} FellNone(before: seq<Fish>, after: seq<Fish>, lo: nat, hi: nat)
    requires lo <= hi <= |before| && hi <= |after|
    requires forall j :: lo <= j < hi ==> after[j].hp == before[j].hp
    ensures FellIn(before, after, lo, hi) == []
    decreases hi - lo
  {
    if hi > lo {
      FellNone(before, after, lo, hi - 1);
    }
  }

  /** Two fish are worth the same to the ledger: same hp, reward and boss flag. */
  predicate Alike(f: Fish, h: Fish) {
    f.hp == h.hp && f.reward == h.reward && f.isBoss == h.isBoss
  }

  /** Lists alike fish by fish over a range, seen against lists with the
      same hps there, lose fish worth the same. */
  lemma {:induction false} FellAlike(x: seq<Fish>, y: seq<Fish>, a: seq<Fish>, b: seq<Fish>, lo: nat, hi: nat)
    requires lo <= hi <= |x| && hi <= |y| && hi <= |a| && hi <= |b|
    requires forall j :: lo <= j < hi ==> Alike(x[j], y[j]) && a[j].hp == b[j].hp
    ensures Cost(FellIn(x, a, lo, hi)) == Cost(FellIn(y, b, lo, hi))
    decreases hi - lo
  {
    if hi > lo {
      FellAlike(x, y, a, b, lo, hi - 1);
      FellAlikeStep(x, y, a, b, lo, hi);
    }
  }

  /** One more alike position keeps the worths equal. */
  lemma FellAlikeStep(x: seq<Fish>, y: seq<Fish>, a: seq<Fish>, b: seq<Fish>, lo: nat, hi: nat)
    requires lo < hi <= |x| && hi <= |y| && hi <= |a| && hi <= |b|
    requires Alike(x[hi - 1], y[hi - 1]) && a[hi - 1].hp == b[hi - 1].hp
    requires Cost(FellIn(x, a, lo, hi - 1)) == Cost(FellIn(y, b, lo, hi - 1))
    ensures Cost(FellIn(x, a, lo, hi)) == Cost(FellIn(y, b, lo, hi))
  {
    var n := hi - 1;
    FallenAlike(FellIn(x, a, lo, n), FellIn(y, b, lo, n), x[n], a[n], y[n], b[n]);
  }

  /** Lists worth the same, each extended by what a blow on alike fish
      that left the same hp paid for, are still worth the same. */
  lemma FallenAlike(p: seq<Fish>, q: seq<Fish>, f: Fish, fa: Fish, h: Fish, hb: Fish)
    requires Cost(p) == Cost(q) && Alike(f, h) && fa.hp == hb.hp
    ensures Cost(p + Fallen(f, fa)) == Cost(q + Fallen(h, hb))
  {
    CostFallen(f, fa);
    CostFallen(h, hb);
    CostAppend(p, Fallen(f, fa));
    CostAppend(q, Fallen(h, hb));
  }

  /** A range split in two loses the fish of each part, in order. */
  lemma {:induction false} FellSplit(x: seq<Fish>, a: seq<Fish>, lo: nat, mid: nat, hi: nat)
    requires lo <= mid <= hi <= |x| && hi <= |a|
    ensures FellIn(x, a, lo, hi) == FellIn(x, a, lo, mid) + FellIn(x, a, mid, hi)
    decreases hi - mid
  {
    if hi > mid {
      FellSplit(x, a, lo, mid, hi - 1);
    }
  }

  /** One position of a range. */
  lemma FellOne(x: seq<Fish>, a: seq<Fish>, i: nat)
    requires i < |x| && i < |a|
    ensures FellIn(x, a, i, i + 1) == Fallen(x[i], a[i])
  {
    assert FellIn(x, a, i, i) == [];
  }

  /** `dead` is what a stretch of combat paid for while it took the fish
      list from `before` to `after`: first the fish of `before` that fell,
      in list order, then fish that joined the list during the stretch,
      were alive when they joined, and are dead in `after`. */
  ghost predicate Toll(before: seq<Fish>, after: seq<Fish>, dead: seq<Fish>) {
    |before| <= |after| &&
    var fell := Fell(before, after);
    |fell| <= |dead| && dead[..|fell|] == fell &&
    forall f :: f in dead[|fell|..] ==>
      f.hp > 0.0 && exists k :: |before| <= k < |after| && after[k].id == f.id && after[k].hp <= 0.0
  }

  /** The worth of a range is the worth of its part before `i`, fish `i`,
      and its part after `i`. */
  lemma CostAround(x: seq<Fish>, a: seq<Fish>, i: nat, n: nat)
    requires i < n <= |x| && n <= |a|
    ensures Cost(FellIn(x, a, 0, n)) ==
            Plus(Plus(Cost(FellIn(x, a, 0, i)), Cost(Fallen(x[i], a[i]))), Cost(FellIn(x, a, i + 1, n)))
  {
    FellSplit(x, a, 0, i, n);
    FellSplit(x, a, i, i + 1, n);
    FellOne(x, a, i);
    var p, q, r := FellIn(x, a, 0, i), Fallen(x[i], a[i]), FellIn(x, a, i + 1, n);
    assert FellIn(x, a, 0, n) == p + q + r;
    CostAppend(p, q);
    CostAppend(p + q, r);
  }

  /** A blow on fish `i` of `f0` that left `f1`, then blows that left
      `after` but did not touch fish `i` again, paid for the fish of `f0`
      that fell and for the fish that joined in `f1` and fell. */
  lemma TwoBlows(c0: Tally, f0: seq<Fish>, f1: seq<Fish>, after: seq<Fish>, i: nat)
    requires i < |f0| <= |f1| <= |after| && f0[i].hp > 0.0 && after[i].hp == f1[i].hp
    requires forall j :: 0 <= j < |f0| && j != i ==> Alike(f0[j], f1[j])
    ensures Paid(Paid(c0, Fallen(f0[i], f1[i])), Fell(f1, after)) ==
            Paid(c0, Fell(f0, after) + FellIn(f1, after, |f0|, |f1|))
  {
    var n := |f0|;
    var born := FellIn(f1, after, n, |f1|);
    FellSplit(f1, after, 0, n, |f1|);
    CostAppend(FellIn(f1, after, 0, n), born);
    CostAppend(Fell(f0, after), born);
    var cb := Cost(born);
    var a0, b0 := Cost(FellIn(f0, after, 0, i)), Cost(FellIn(f0, after, i + 1, n));
    var a1, b1 := Cost(FellIn(f1, after, 0, i)), Cost(FellIn(f1, after, i + 1, n));
    var hit, mid, whole := Cost(Fallen(f0[i], f1[i])), Cost(Fallen(f1[i], after[i])), Cost(Fallen(f0[i], after[i]));
    CostAround(f0, after, i, n);
    CostAround(f1, after, i, n);
    FellAlike(f0, f1, after, after, 0, i);
    FellAlike(f0, f1, after, after, i + 1, n);
    assert a0 == a1 && b0 == b1;
    BlowThenNone(f0[i], f1[i], after[i]);
    assert Cost(Fell(f1, after)) == Plus(Plus(Plus(a1, mid), b1), cb);
    assert Cost(Fell(f0, after) + born) == Plus(Plus(Plus(a0, whole), b0), cb);
    Shuffle(c0, hit, mid, whole, a0, b0, cb);
  }

  /** A blow on a live fish followed by nothing that changes its hp is
      worth what the blow alone is worth. */
  lemma BlowThenNone(f: Fish, f1: Fish, f2: Fish)
    requires f.hp > 0.0 && f2.hp == f1.hp
    ensures Plus(Cost(Fallen(f, f1)), Cost(Fallen(f1, f2))) == Cost(Fallen(f, f2))
  {
    CostFallen(f, f1);
    CostFallen(f1, f2);
    CostFallen(f, f2);
    var x, y, z := Cost(Fallen(f, f1)), Cost(Fallen(f1, f2)), Cost(Fallen(f, f2));
    if f1.hp <= 0.0 {
      assert y == Tally(0, 0, 0) && x == z;
      assert Plus(x, y) == x;
    } else {
      assert x == Tally(0, 0, 0) && y == x && z == x;
    }
  }

  lemma Shuffle(c0: Tally, hit: Tally, mid: Tally, whole: Tally, a: Tally, b: Tally, cb: Tally)
    requires Plus(hit, mid) == whole
    ensures Plus(Plus(c0, hit), Plus(Plus(Plus(a, mid), b), cb)) == Plus(c0, Plus(Plus(Plus(a, whole), b), cb))
  {
  }

  /** The fish the two blows paid for make up a `Toll`. */
  lemma TwoBlowsToll(f0: seq<Fish>, f1: seq<Fish>, after: seq<Fish>)
    requires |f0| <= |f1| <= |after|
    requires forall j :: 0 <= j < |f1| ==> after[j].id == f1[j].id
    ensures Toll(f0, after, Fell(f0, after) + FellIn(f1, after, |f0|, |f1|))
  {
    var fell, born := Fell(f0, after), FellIn(f1, after, |f0|, |f1|);
    FellMembers(f1, after, |f0|, |f1|);
    var dead := fell + born;
    assert dead[..|fell|] == fell && dead[|fell|..] == born;
  }
}
