/** Cutting an address into fields with masks and shifts, and putting it together again. */
module AddressBits {
  import opened Basics

  function Pow2(n: nat): (p: nat)
    ensures p >= 1
  {
    if n == 0 then 1 else 2 * Pow2(n - 1)
  }

  lemma {:induction false} Pow2Sum(m: nat, n: nat)
    ensures Pow2(m + n) == Pow2(m) * Pow2(n)
  {
    if m > 0 {
      Pow2Sum(m - 1, n);
      assert Pow2(m + n) == 2 * Pow2(m - 1 + n);
    }
  }

  lemma {:induction false} Pow2Grows(m: nat, n: nat)
    requires m <= n
    ensures Pow2(m) <= Pow2(n)
    decreases n
  {
    if m < n { Pow2Grows(m, n - 1); }
  }

  // The bitwise and of two words.
  function And(x: nat, y: nat): nat
  {
    if x == 0 || y == 0 then 0 else 2 * And(x / 2, y / 2) + (if x % 2 == 1 && y % 2 == 1 then 1 else 0)
  }

  // Division and remainder as repeated subtraction.
  function Quotient(a: nat, b: nat): nat
    requires b >= 1
  {
    if a < b then 0 else 1 + Quotient(a - b, b)
  }

  function Remainder(a: nat, b: nat): nat
    requires b >= 1
  {
    if a < b then a else Remainder(a - b, b)
  }

  lemma {:induction false} Division(a: nat, b: nat)
    requires b >= 1
    ensures a == Quotient(a, b) * b + Remainder(a, b) && Remainder(a, b) < b
    ensures Quotient(a, b) == a / b && Remainder(a, b) == a % b
    decreases a
  {
    if a >= b {
      Division(a - b, b);
      var q := Quotient(a - b, b);
      assert (1 + q) * b == b + q * b;
    }
    DivModUnique(a, Quotient(a, b), Remainder(a, b), b);
  }

  // `extract(hi - 1, lo, address)`: the bits lo..hi-1, by a mask and a shift.
  function Extract(hi: nat, lo: nat, address: nat): nat
    requires lo <= hi
  {
    Pow2Grows(lo, hi);
    Quotient(And(address, (Pow2(hi) - 1) - (Pow2(lo) - 1)), Pow2(lo))
  }

  // `extract(63, lo, address)` on words of w bits (64 in the source), whose mask needs one shifted by w.
  // The language leaves that undefined; machines make it 0, or wrap the count and make it 1.
  function ExtractTop(w: nat, shifted: nat, lo: nat, address: nat): nat
    requires shifted <= 1 && lo < w
  {
    Pow2Grows(lo, w);
    Quotient(And(address, if shifted >= Pow2(lo) then shifted - Pow2(lo) else Pow2(w) + shifted - Pow2(lo)), Pow2(lo))
  }

  // What `insert` puts together of an evicted line.
  function Recomposed(lineBits: nat, setBits: nat, tag: nat, setid: nat, offset: nat): nat
  {
    tag * Pow2(lineBits + setBits) + setid * Pow2(lineBits) + offset
  }

  // ---------- a mask and a shift are a remainder and a quotient

  lemma {:induction false} HalfQuotient(x: nat, b: nat, y: nat, z: nat)
    requires b <= 1 && y >= 1 && z == 2 * y
    ensures Quotient(2 * x + b, z) == Quotient(x, y)
    decreases x
  {
    if x >= y { HalfQuotient(x - y, b, y, z); }
  }

  lemma {:induction false} HalfRemainder(a: nat, m: nat, n: nat)
    requires m >= 1 && n == 2 * m
    ensures Remainder(a, n) == 2 * Remainder(a / 2, m) + a % 2
    decreases a
  {
    if a >= n {
      HalfRemainder(a - n, m, n);
      assert (a - n) / 2 == a / 2 - m;
    }
  }

  lemma AndDouble(a: nat, m: nat, b: nat, n: nat)
    requires b <= 1 && n == 2 * m + b
    ensures And(a, n) == 2 * And(a / 2, m) + (if b == 1 then a % 2 else 0)
  {
  }

  lemma {:induction false} AndOnes(a: nat, n: nat)
    ensures And(a, Pow2(n) - 1) == Remainder(a, Pow2(n))
    decreases n
  {
    if n == 0 {
      Division(a, 1);
    } else {
      var m := Pow2(n - 1);
      AndOnes(a / 2, n - 1);
      HalfRemainder(a, m, Pow2(n));
      AndDouble(a, m - 1, 1, Pow2(n) - 1);
    }
  }

  lemma {:induction false} ExtractIs(hi: nat, lo: nat, a: nat)
    requires lo <= hi
    ensures Extract(hi, lo, a) == Quotient(Remainder(a, Pow2(hi)), Pow2(lo))
    decreases lo
  {
    if lo == 0 {
      AndOnes(a, hi);
    } else {
      ExtractHalf(hi, lo, a);
      ExtractIs(hi - 1, lo - 1, a / 2);
      HalvedField(a, Pow2(hi - 1), Pow2(hi), Pow2(lo - 1), Pow2(lo));
    }
  }

  lemma ExtractHalf(hi: nat, lo: nat, a: nat)
    requires 1 <= lo <= hi
    ensures Extract(hi, lo, a) == Extract(hi - 1, lo - 1, a / 2)
  {
    Pow2Grows(lo - 1, hi - 1);
    HalfMask(a, Pow2(hi - 1), Pow2(lo - 1), 0, Pow2(hi) - Pow2(lo), Pow2(lo));
  }

  lemma HalvedField(a: nat, m: nat, n: nat, y: nat, z: nat)
    requires m >= 1 && y >= 1 && n == 2 * m && z == 2 * y
    ensures Quotient(Remainder(a, n), z) == Quotient(Remainder(a / 2, m), y)
  {
    HalfRemainder(a, m, n);
    HalfQuotient(Remainder(a / 2, m), a % 2, y, z);
  }

  // A mask that ends in a doubled one, and a shift by one more, is the smaller mask and shift on half the word.
  lemma HalfMask(a: nat, m: nat, k: nat, b: nat, mask: nat, z: nat)
    requires 1 <= k <= m && b <= 1 && mask == 2 * (m - k) + b && z == 2 * k
    ensures Quotient(And(a, mask), z) == Quotient(And(a / 2, m - k), k)
  {
    AndDouble(a, m - k, b, mask);
    HalfQuotient(And(a / 2, m - k), if b == 1 then a % 2 else 0, k, z);
  }

  // Whatever the shift gives, the tag is the quotient, as long as an index or an offset has a bit.
  lemma ExtractTopIs(w: nat, shifted: nat, lo: nat, a: nat)
    requires shifted <= 1 && 1 <= lo < w && a < Pow2(w)
    ensures ExtractTop(w, shifted, lo, a) == Quotient(a, Pow2(lo))
  {
    TopHalf(w, shifted, lo, a, a / 2);
    HalvedQuotient(a, Pow2(lo - 1), Pow2(lo));
  }

  lemma ExtractAll(hi: nat, lo: nat, a: nat)
    requires lo <= hi && a < Pow2(hi)
    ensures Extract(hi, lo, a) == Quotient(a, Pow2(lo))
  {
    ExtractIs(hi, lo, a);
    WholeWord(a, Pow2(hi));
  }

  lemma HalvedQuotient(a: nat, y: nat, z: nat)
    requires y >= 1 && z == 2 * y
    ensures Quotient(a, z) == Quotient(a / 2, y)
  {
    HalfQuotient(a / 2, a % 2, y, z);
  }

  lemma TopHalf(w: nat, shifted: nat, lo: nat, a: nat, h: nat)
    requires shifted <= 1 && 1 <= lo < w && a < Pow2(w) && h == a / 2
    ensures ExtractTop(w, shifted, lo, a) == Quotient(h, Pow2(lo - 1))
  {
    Pow2Grows(lo - 1, w - 1);
    HalfMask(a, Pow2(w - 1), Pow2(lo - 1), shifted, Pow2(w) + shifted - Pow2(lo), Pow2(lo));
    ExtractAll(w - 1, lo - 1, h);
  }

  lemma ByOne(a: nat)
    ensures Quotient(a, Pow2(0)) == a
  {
    Division(a, 1);
  }

  lemma WholeWord(a: nat, m: nat)
    requires a < m
    ensures Remainder(a, m) == a
  {
  }

  // With one-byte lines and one set the tag is the whole address, or nothing.
  lemma NoBits(w: nat, a: nat)
    requires 1 <= w && a < Pow2(w)
    ensures ExtractTop(w, 0, 0, a) == a && ExtractTop(w, 1, 0, a) == 0
  {
    AndOnes(a, w);
    WholeWord(a, Pow2(w));
    ByOne(a);
    ByOne(0);
  }

  // The tag does not depend on the undefined shift exactly when an index or an offset has a bit.
  lemma TagIsDefined(w: nat, lo: nat)
    requires lo < w
    ensures (forall a: nat :: a < Pow2(w) ==> ExtractTop(w, 0, lo, a) == ExtractTop(w, 1, lo, a)) <==> lo >= 1
  {
    if lo >= 1 {
      forall a: nat | a < Pow2(w) ensures ExtractTop(w, 0, lo, a) == ExtractTop(w, 1, lo, a) {
        ExtractTopIs(w, 0, lo, a);
        ExtractTopIs(w, 1, lo, a);
      }
    } else {
      Pow2Grows(1, w);
      NoBits(w, 1);
    }
  }

  // ---------- fields and the whole

  lemma OneFactor(q: nat, t: nat, m: nat, n: nat, k: nat)
    requires k == m * n
    ensures (q * n + t) * m == q * k + t * m
  {
    assert q * n * m == q * (n * m);
  }

  lemma DivisionParts(a: nat, m: nat, n: nat, k: nat)
    requires m >= 1 && n >= 1 && k == m * n >= 1
    ensures a == Quotient(a, k) * k + Quotient(Remainder(a, k), m) * m + Remainder(a, m)
  {
    var q, b := Quotient(a, k), Remainder(a, k);
    Division(a, k);
    Division(b, m);
    var t, o := Quotient(b, m), Remainder(b, m);
    OneFactor(q, t, m, n, k);
    DivModUnique(a, q * n + t, o, m);
    Division(a, m);
  }

  lemma QuotientBelow(b: nat, m: nat, n: nat)
    requires m >= 1 && b < n * m
    ensures Quotient(b, m) < n
  {
    Division(b, m);
    var t := Quotient(b, m);
    if n < t { Gap(n, t, m); }
  }

  // The set index is below the number of sets.
  lemma MiddleInRange(lineBits: nat, setBits: nat, a: nat)
    ensures Extract(setBits + lineBits, lineBits, a) < Pow2(setBits)
  {
    var m, n, k := Pow2(lineBits), Pow2(setBits), Pow2(setBits + lineBits);
    Pow2Sum(setBits, lineBits);
    ExtractIs(setBits + lineBits, lineBits, a);
    Division(a, k);
    QuotientBelow(Remainder(a, k), m, n);
  }

  lemma AllMiddlesInRange(lineBits: nat, setBits: nat, hi: nat)
    requires hi == setBits + lineBits
    ensures forall a: nat :: Extract(hi, lineBits, a) < Pow2(setBits)
  {
    forall a: nat ensures Extract(hi, lineBits, a) < Pow2(setBits) { MiddleInRange(lineBits, setBits, a); }
  }

  // Tag, set and offset determine the address.
  lemma RecomposedAddress(w: nat, shifted: nat, lineBits: nat, setBits: nat, a: nat)
    requires shifted <= 1 && 1 <= lineBits + setBits < w && a < Pow2(w)
    ensures Recomposed(lineBits, setBits, ExtractTop(w, shifted, setBits + lineBits, a),
                       Extract(setBits + lineBits, lineBits, a), Extract(lineBits, 0, a)) == a
  {
    ExtractTopIs(w, shifted, setBits + lineBits, a);
    ExtractIs(setBits + lineBits, lineBits, a);
    ExtractIs(lineBits, 0, a);
    ByOne(Remainder(a, Pow2(lineBits)));
    FieldsRecompose(lineBits, setBits, setBits + lineBits, a);
  }

  lemma FieldsRecompose(lineBits: nat, setBits: nat, both: nat, a: nat)
    requires both == setBits + lineBits
    ensures Recomposed(lineBits, setBits, Quotient(a, Pow2(both)), Quotient(Remainder(a, Pow2(both)), Pow2(lineBits)),
                       Remainder(a, Pow2(lineBits))) == a
  {
    Pow2Sum(lineBits, setBits);
    DivisionParts(a, Pow2(lineBits), Pow2(setBits), Pow2(both));
  }
}
