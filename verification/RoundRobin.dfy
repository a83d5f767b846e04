/** The round-robin scans visit every slot exactly once before they come back. */
module RoundRobin {
  import opened Basics
  import opened DramTypes
  import opened CommandQueueSpec

  // Position of a slot in scheduling order: the fast-moving coordinate counts singly.
  function Position(P: Params, s: Slot): nat
  {
    if P.rankFirst then s.bank * P.ranks + s.rank else s.rank * P.banks + s.bank
  }

  lemma PairBelow(hi: nat, lo: nat, w: nat, h: nat)
    requires lo < w && hi < h
    ensures hi * w + lo < h * w
  {
    Gap(hi, h, w);
  }

  lemma PairUnique(hi: nat, lo: nat, hi2: nat, lo2: nat, w: nat)
    requires lo < w && lo2 < w && hi * w + lo == hi2 * w + lo2
    ensures hi == hi2 && lo == lo2
  {
    if hi < hi2 {
      PairBelow(hi, lo, w, hi2);
    } else if hi2 < hi {
      PairBelow(hi2, lo2, w, hi);
    }
  }

  lemma PositionNext(P: Params, s: Slot)
    requires ValidParams(P) && InRange(P, s)
    ensures Position(P, s) < P.ranks * P.banks
    ensures Position(P, NextRankAndBank(P, s)) == if Position(P, s) + 1 == P.ranks * P.banks then 0
      else Position(P, s) + 1
  {
    var (hi, lo, w, h) := if P.rankFirst then (s.bank, s.rank, P.ranks, P.banks)
      else (s.rank, s.bank, P.banks, P.ranks);
    PairBelow(hi, lo, w, h);
    assert w * h == h * w;
    if lo + 1 == w {
      assert hi * w + lo + 1 == (hi + 1) * w;
      if hi + 1 < h { PairBelow(hi + 1, 0, w, h); }
    } else {
      PairBelow(hi, lo + 1, w, h);
    }
  }

  lemma {:induction false} PositionWalk(P: Params, s: Slot, k: nat)
    requires ValidParams(P) && InRange(P, s) && k <= P.ranks * P.banks
    ensures Position(P, s) < P.ranks * P.banks
    ensures var n, p := P.ranks * P.banks, Position(P, s);
            Position(P, Walk(P, s, k)) == if p + k < n then p + k else p + k - n
  {
    PositionNext(P, s);
    if k > 0 {
      PositionWalk(P, s, k - 1);
      PositionNext(P, Walk(P, s, k - 1));
    }
  }

  // A full walk returns to its start, and no shorter one does.
  lemma WalkReturns(P: Params, s: Slot, k: nat)
    requires ValidParams(P) && InRange(P, s) && 1 <= k <= P.ranks * P.banks
    ensures Walk(P, s, k) == s <==> k == P.ranks * P.banks
  {
    PositionWalk(P, s, k);
    var e := Walk(P, s, k);
    if Position(P, e) == Position(P, s) {
      if P.rankFirst { PairUnique(e.bank, e.rank, s.bank, s.rank, P.ranks); }
      else { PairUnique(e.rank, e.bank, s.rank, s.bank, P.banks); }
    }
  }

  lemma {:induction false} ScanIsWalk(P: Params, s: Slot, k: nat)
    requires ValidParams(P) && InRange(P, s) && P.perBank
    ensures Scan(P, s, k) == Walk(P, s, k)
  {
    if k > 0 { ScanIsWalk(P, s, k - 1); }
  }

  lemma StepModulo(r: nat, n: nat)
    requires r < n
    ensures (r + 1) % n == if r + 1 == n then 0 else r + 1
  {
  }

  lemma {:induction false} ScanRanks(P: Params, s: Slot, k: nat)
    requires ValidParams(P) && InRange(P, s) && !P.perBank && k <= P.ranks
    ensures Scan(P, s, k) == Slot(if s.rank + k < P.ranks then s.rank + k else s.rank + k - P.ranks, s.bank)
  {
    if k > 0 {
      ScanRanks(P, s, k - 1);
      StepModulo(Scan(P, s, k - 1).rank, P.ranks);
    }
  }

  lemma ScanReturns(P: Params, s: Slot, k: nat)
    requires ValidParams(P) && InRange(P, s) && 1 <= k <= ScanLength(P)
    ensures Scan(P, s, k) == s <==> k == ScanLength(P)
  {
    if P.perBank {
      ScanIsWalk(P, s, k);
      WalkReturns(P, s, k);
    } else {
      ScanRanks(P, s, k);
    }
  }
}
