/** Multiset totals over sequences, used to state that nothing is lost or duplicated. */
module Totals {

  // The sum of f over the elements of s.
  function Total<A, B>(f: A -> multiset<B>, s: seq<A>): multiset<B>
  {
    if s == [] then multiset{} else Total(f, s[..|s| - 1]) + f(s[|s| - 1])
  }

  lemma TotalOne<A, B>(f: A -> multiset<B>, a: A)
    ensures Total(f, [a]) == f(a)
  {
    assert [a][..0] == [];
  }

  lemma {:induction false} TotalConcat<A, B>(f: A -> multiset<B>, s: seq<A>, t: seq<A>)
    ensures Total(f, s + t) == Total(f, s) + Total(f, t)
  {
    if t == [] {
      assert s + t == s;
    } else {
      assert (s + t)[..|s + t| - 1] == s + t[..|t| - 1];
      TotalConcat(f, s, t[..|t| - 1]);
    }
  }

  lemma TotalRemove<A, B>(f: A -> multiset<B>, s: seq<A>, i: nat)
    requires i < |s|
    ensures Total(f, s) == Total(f, s[..i] + s[i + 1..]) + f(s[i])
  {
    assert s == s[..i] + ([s[i]] + s[i + 1..]);
    TotalConcat(f, s[..i], [s[i]] + s[i + 1..]);
    TotalConcat(f, [s[i]], s[i + 1..]);
    TotalConcat(f, s[..i], s[i + 1..]);
    TotalOne(f, s[i]);
  }

  function Flatten<A>(ss: seq<seq<A>>): seq<A>
  {
    if ss == [] then [] else Flatten(ss[..|ss| - 1]) + ss[|ss| - 1]
  }

  // Replacing one inner sequence replaces one stretch of the flattening.
  lemma {:induction false} FlattenUpdate<A>(ss: seq<seq<A>>, i: nat, v: seq<A>) returns (a: seq<A>, b: seq<A>)
    requires i < |ss|
    ensures Flatten(ss) == a + ss[i] + b && Flatten(ss[i := v]) == a + v + b
  {
    var n := |ss| - 1;
    var us := ss[i := v];
    if i == n {
      assert us[..n] == ss[..n];
      a, b := Flatten(ss[..n]), [];
    } else {
      assert us[..n] == ss[..n][i := v];
      var a1, b1 := FlattenUpdate(ss[..n], i, v);
      a, b := a1, b1 + ss[n];
      assert a1 + ss[i] + b1 + ss[n] == a + ss[i] + b;
      assert a1 + v + b1 + ss[n] == a + v + b;
    }
  }

  lemma {:induction false} FlattenMember<A>(ss: seq<seq<A>>, p: A)
    ensures p in Flatten(ss) <==> exists i :: 0 <= i < |ss| && p in ss[i]
  {
    if ss != [] {
      var n := |ss| - 1;
      assert Flatten(ss) == Flatten(ss[..n]) + ss[n];
      FlattenMember(ss[..n], p);
      if i :| 0 <= i < |ss| && p in ss[i] {
        if i < n { assert ss[..n][i] == ss[i]; }
      }
      if i :| 0 <= i < n && p in ss[..n][i] {
        assert ss[..n][i] == ss[i];
      }
    }
  }

  lemma {:induction false} FlattenConcat<A>(ss: seq<seq<A>>, ts: seq<seq<A>>)
    ensures Flatten(ss + ts) == Flatten(ss) + Flatten(ts)
  {
    if ts == [] {
      assert ss + ts == ss;
    } else {
      var m := |ts| - 1;
      assert (ss + ts)[..|ss + ts| - 1] == ss + ts[..m] && (ss + ts)[|ss + ts| - 1] == ts[m];
      FlattenConcat(ss, ts[..m]);
      assert Flatten(ss) + Flatten(ts[..m]) + ts[m] == Flatten(ss) + (Flatten(ts[..m]) + ts[m]);
    }
  }

  lemma AddSwap<B>(a: multiset<B>, b: multiset<B>, c: multiset<B>, d: multiset<B>)
    ensures (a + b) + (c + d) == (a + c) + (b + d)
  {
  }

  // From the total after an edit to the total before it.
  lemma Cancel<B>(after: multiset<B>, removed: multiset<B>, before: multiset<B>, inserted: multiset<B>,
          taken: multiset<B>)
    requires after + removed == before + inserted && removed == inserted + taken
    ensures before == after + taken
  {
    forall x ensures before[x] == (after + taken)[x] {
      assert (after + removed)[x] == (before + inserted)[x];
    }
  }

  // If every inner sequence splits in two, so does the total.
  lemma {:induction false} FlattenSplit<A, B>(f: A -> multiset<B>, ls: seq<seq<A>>, gs: seq<seq<A>>, rs: seq<seq<A>>)
    requires |ls| == |gs| == |rs| && forall i :: 0 <= i < |ls| ==> ls[i] == gs[i] + rs[i]
    ensures Total(f, Flatten(ls)) == Total(f, Flatten(gs)) + Total(f, Flatten(rs))
  {
    if ls != [] {
      var n := |ls| - 1;
      FlattenSplit(f, ls[..n], gs[..n], rs[..n]);
      TotalConcat(f, Flatten(ls[..n]), ls[n]);
      TotalConcat(f, gs[n], rs[n]);
      TotalConcat(f, Flatten(gs[..n]), gs[n]);
      TotalConcat(f, Flatten(rs[..n]), rs[n]);
      AddSwap(Total(f, Flatten(gs[..n])), Total(f, Flatten(rs[..n])), Total(f, gs[n]), Total(f, rs[n]));
    }
  }

  // Appending to one inner sequence adds the appended part to the total.
  lemma FlattenAppend<A, B>(f: A -> multiset<B>, ss: seq<seq<A>>, i: nat, p: seq<A>)
    requires i < |ss|
    ensures Total(f, Flatten(ss[i := ss[i] + p])) == Total(f, Flatten(ss)) + Total(f, p)
  {
    var a, b := FlattenUpdate(ss, i, ss[i] + p);
    TotalInsert(f, a + ss[i], p, b);
    assert a + (ss[i] + p) == (a + ss[i]) + p;
  }

  lemma TotalInsert<A, B>(f: A -> multiset<B>, a: seq<A>, p: seq<A>, b: seq<A>)
    ensures Total(f, a + p + b) == Total(f, a + b) + Total(f, p)
  {
    TotalConcat(f, a + p, b);
    TotalConcat(f, a, p);
    TotalConcat(f, a, b);
  }

  lemma Regroup<A>(x: seq<A>, a: seq<A>, q: seq<A>, b: seq<A>, y: seq<A>)
    ensures x + (a + q + b) + y == (x + a) + q + (b + y)
  {
  }
}
