/** The folded branch histories of the predictor: rotating and cancelling one bit keeps the full fold. */
module FoldedHistory {
  import opened Basics

  // Words are written as their bits, the least significant first.
  type Bits = seq<bool>

  // The exclusive or of the history bits below n whose position is j modulo T.
  function FoldBit(history: Bits, n: nat, T: nat, j: nat): bool
    requires n <= |history| && T >= 1
  {
    if n == 0 then false else FoldBit(history, n - 1, T, j) != ((n - 1) % T == j && history[n - 1])
  }

  // The history folded onto T bits, written out.
  function Fold(history: Bits, n: nat, T: nat): Bits
    requires n <= |history| && T >= 1
  {
    seq(T, j requires 0 <= j < T => FoldBit(history, n, T, j))
  }

  function Previous(j: nat, T: nat): nat
    requires j < T
  {
    if j == 0 then T - 1 else j - 1
  }

  lemma NextModulo(k: nat, T: nat, j: nat)
    requires j < T
    ensures (k + 1) % T == j <==> k % T == Previous(j, T)
  {
    var q, r := k / T, k % T;
    assert k == q * T + r;
    if r + 1 < T {
      DivModUnique(k + 1, q, r + 1, T);
    } else {
      assert (q + 1) * T == q * T + T;
      DivModUnique(k + 1, q + 1, 0, T);
    }
  }

  // Shifting the history in by one outcome rotates every fold, adds the new bit at position 0 and
  // cancels the bit that leaves the window.
  lemma {:induction false} FoldShift(h: Bits, s: Bits, n: nat, T: nat, j: nat)
    requires j < T && n < |s| <= |h| + 1 && forall i :: 1 <= i < |s| ==> s[i] == h[i - 1]
    ensures FoldBit(s, n + 1, T, j) == ((j == 0 && s[0]) != FoldBit(h, n, T, Previous(j, T)))
    decreases n
  {
    if n == 0 {
      assert FoldBit(s, 1, T, j) == (FoldBit(s, 0, T, j) != (0 % T == j && s[0]));
      DivModUnique(0, 0, 0, T);
    } else {
      FoldShift(h, s, n - 1, T, j);
      NextModulo(n - 1, T, j);
    }
  }

  // What `updateCompHist` does to the word: shift the newest outcome in, fold the bit pushed out of
  // the word onto position 0, cancel the outcome that leaves the window, cut to T bits.
  function Rotated(comp: Bits, ghr: Bits, n: nat, T: nat): Bits
    requires T >= 1 && |comp| == T && n < |ghr|
  {
    var shifted := [ghr[0]] + comp;
    var folded := shifted[0 := shifted[0] != shifted[T]];
    folded[n % T := folded[n % T] != ghr[n]][..T]
  }

  lemma RotatedBit(comp: Bits, ghr: Bits, n: nat, T: nat, j: nat)
    requires T >= 1 && |comp| == T && n < |ghr| && j < T
    ensures |Rotated(comp, ghr, n, T)| == T
    ensures Rotated(comp, ghr, n, T)[j]
            == ((comp[Previous(j, T)] != (j == 0 && ghr[0])) != (n % T == j && ghr[n]))
  {
  }

  // The incremental update refines the full fold.
  lemma RotationFolds(h: Bits, s: Bits, n: nat, T: nat)
    requires T >= 1 && n < |s| <= |h| + 1 && n <= |h| && forall i :: 1 <= i < |s| ==> s[i] == h[i - 1]
    ensures Rotated(Fold(h, n, T), s, n, T) == Fold(s, n, T)
  {
    var comp := Fold(h, n, T);
    forall j | 0 <= j < T ensures |Rotated(comp, s, n, T)| == T && Rotated(comp, s, n, T)[j] == Fold(s, n, T)[j] {
      RotatedBit(comp, s, n, T, j);
      FoldShift(h, s, n, T, j);
    }
  }

  class CompressedHist {
    const geomLength: nat
    const targetLength: nat
    var compHist: Bits

    constructor (geomLength: nat, targetLength: nat)
      ensures this.geomLength == geomLength && this.targetLength == targetLength
      ensures compHist == seq(targetLength, j => false)
    {
      this.geomLength, this.targetLength := geomLength, targetLength;
      compHist := seq(targetLength, j => false);
    }

    // `ghr` is the history with the newest outcome already shifted in.
    method UpdateCompHist(ghr: Bits, ghost before: Bits)
      requires targetLength >= 1 && geomLength < |ghr| == |before|
      requires forall i :: 1 <= i < |ghr| ==> ghr[i] == before[i - 1]
      requires compHist == Fold(before, geomLength, targetLength)
      modifies this
      ensures compHist == Fold(ghr, geomLength, targetLength)
    {
      RotationFolds(before, ghr, geomLength, targetLength);
      var position := geomLength % targetLength;
      compHist := [ghr[0]] + compHist;
      compHist := compHist[0 := compHist[0] != compHist[targetLength]];
      compHist := compHist[position := compHist[position] != ghr[geomLength]];
      compHist := compHist[..targetLength];
    }
  }

  const HISTORY_BITS := 131
  const NUM_TAG_TABLES := 4
  const TAG_PRED_LOG := 12

  function GeometricLength(i: nat): nat
    requires i < NUM_TAG_TABLES
  {
    [130, 44, 15, 5][i]
  }

  lemma EmptyFold(n: nat, T: nat, j: nat)
    requires n <= HISTORY_BITS && T >= 1
    ensures !FoldBit(seq(HISTORY_BITS, i => false), n, T, j)
  {
    if n > 0 { EmptyFold(n - 1, T, j); }
  }

  // The last outcomes, newest first, before the first branch all not taken.
  function LastOutcomes(outcomes: seq<bool>): (h: Bits)
    ensures |h| == HISTORY_BITS
  {
    seq(HISTORY_BITS, i requires 0 <= i < HISTORY_BITS => i < |outcomes| && outcomes[|outcomes| - 1 - i])
  }

  function TargetLength(t: nat): nat
    requires t < 3
  {
    [TAG_PRED_LOG, 9, 8][t]
  }

  /** The history part of the predictor: the register and its folds for every table. */
  class Predictor {
    var GHR: Bits
    const comps: seq<CompressedHist>  // the index folds of the four tables, then their two tag folds
    ghost var outcomes: seq<bool>

    ghost predicate Arranged()
    {
      && |comps| == 3 * NUM_TAG_TABLES && (forall k, l :: 0 <= k < l < |comps| ==> comps[k] != comps[l])
      && forall k :: 0 <= k < |comps| ==>
           comps[k].geomLength == GeometricLength(k % NUM_TAG_TABLES)
             && comps[k].targetLength == TargetLength(k / NUM_TAG_TABLES)
    }

    // Every fold is the full fold of the last outcomes it looks at.
    ghost predicate Valid()
      reads this, comps
    {
      && Arranged() && GHR == LastOutcomes(outcomes)
      && forall k :: 0 <= k < |comps| ==> Folded(comps[k], GHR)
    }

    static ghost predicate Folded(c: CompressedHist, h: Bits)
      reads c
    {
      c.geomLength <= |h| && c.targetLength >= 1 && c.compHist == Fold(h, c.geomLength, c.targetLength)
    }

    constructor ()
      ensures Valid() && outcomes == [] && fresh(comps)
    {
      var all: seq<CompressedHist> := [];
      for k := 0 to 3 * NUM_TAG_TABLES
        invariant |all| == k && fresh(all) && forall i, j :: 0 <= i < j < k ==> all[i] != all[j]
        invariant forall i :: 0 <= i < k ==>
          all[i].geomLength == GeometricLength(i % NUM_TAG_TABLES)
            && all[i].targetLength == TargetLength(i / NUM_TAG_TABLES)
        invariant forall i :: 0 <= i < k ==> all[i].compHist == seq(all[i].targetLength, j => false)
      {
        var c := new CompressedHist(GeometricLength(k % NUM_TAG_TABLES), TargetLength(k / NUM_TAG_TABLES));
        all := all + [c];
      }
      comps := all;
      GHR := seq(HISTORY_BITS, i => false);
      outcomes := [];
      new;
      assert GHR == LastOutcomes([]);
      forall k | 0 <= k < |comps| ensures Folded(comps[k], GHR) {
        EmptyFolds(comps[k].geomLength, comps[k].targetLength);
      }
    }

    // The end of `UpdatePredictor`: the outcome shifted in, then every fold brought up to date.
    method UpdateHistory(taken: bool)
      requires Valid()
      modifies this, comps
      ensures Valid() && outcomes == old(outcomes) + [taken]
    {
      ghost var before := GHR;
      GHR := ([false] + GHR)[..HISTORY_BITS];
      if taken { GHR := GHR[0 := true]; }
      outcomes := outcomes + [taken];
      assert GHR == LastOutcomes(outcomes);
      for i := 0 to NUM_TAG_TABLES
        invariant UpdatedTo(before, i)
        modifies comps
      {
        UpdateTable(i, before);
      }
    }

    // The folds of the first i tables belong to the new history, the others still to the old one.
    ghost predicate UpdatedTo(before: Bits, i: nat)
      reads this, comps
    {
      forall k :: 0 <= k < |comps| ==> Folded(comps[k], if k % NUM_TAG_TABLES < i then GHR else before)
    }

    method UpdateTable(i: nat, ghost before: Bits)
      requires Arranged() && i < NUM_TAG_TABLES && UpdatedTo(before, i) && |GHR| == |before| == HISTORY_BITS
      requires forall i :: 1 <= i < |GHR| ==> GHR[i] == before[i - 1]
      modifies comps
      ensures UpdatedTo(before, i + 1)
    {
      UpdateOne(i, before);
      UpdateOne(NUM_TAG_TABLES + i, before);
      UpdateOne(2 * NUM_TAG_TABLES + i, before);
    }

    method UpdateOne(k: nat, ghost before: Bits)
      requires Arranged() && k < |comps| && Folded(comps[k], before) && |GHR| == |before| == HISTORY_BITS
      requires forall i :: 1 <= i < |GHR| ==> GHR[i] == before[i - 1]
      modifies comps[k]
      ensures Folded(comps[k], GHR)
    {
      comps[k].UpdateCompHist(GHR, before);
    }
  }

  lemma EmptyFolds(n: nat, T: nat)
    requires n <= HISTORY_BITS && T >= 1
    ensures Fold(seq(HISTORY_BITS, i => false), n, T) == seq(T, j => false)
  {
    var none := seq(HISTORY_BITS, i => false);
    forall j | 0 <= j < T ensures !FoldBit(none, n, T, j) { EmptyFold(n, T, j); }
  }
}
