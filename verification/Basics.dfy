/** Small things every part of the model uses. */
module Basics {

  datatype Option<+T> = None | Some(value: T)

  predicate Distinct<T(==)>(s: seq<T>)
  {
    forall i, j :: 0 <= i < j < |s| ==> s[i] != s[j]
  }

  function RemoveAt<T>(s: seq<T>, i: nat): (r: seq<T>)
    requires i < |s|
    ensures |r| == |s| - 1
    ensures forall k :: 0 <= k < i ==> r[k] == s[k]
    ensures forall k :: i <= k < |r| ==> r[k] == s[k + 1]
  {
    s[..i] + s[i + 1..]
  }

  lemma Gap(q: nat, r: nat, m: nat)
    requires q < r
    ensures q * m + m <= r * m
  {
    var d := r - q - 1;
    assert (q + 1 + d) * m == q * m + m + d * m;
    assert d * m >= 0;
  }

  lemma DivModUnique(a: nat, q: nat, r: nat, m: nat)
    requires m >= 1 && r < m && a == q * m + r
    ensures a / m == q && a % m == r
  {
    var q2, r2 := a / m, a % m;
    assert a == q2 * m + r2;
    if q < q2 {
      Gap(q, q2, m);
    } else if q2 < q {
      Gap(q2, q, m);
    }
  }
}
