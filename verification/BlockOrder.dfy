/** The instruction list of one basic block, and the list surgery the rewriter does on it. */
module BlockOrder {
  import opened Basics

  type Id = nat

  // Where an instruction stands in the block.
  function Pos(B: seq<Id>, x: Id): (p: nat)
    requires x in B
    ensures p < |B| && B[p] == x
  {
    if B[0] == x then 0 else 1 + Pos(B[1..], x)
  }

  function Last(B: seq<Id>): Id
    requires B != []
  {
    B[|B| - 1]
  }

  predicate Before(B: seq<Id>, x: Id, y: Id)
  {
    x in B && y in B && Pos(B, x) < Pos(B, y)
  }

  lemma PosAt(B: seq<Id>, i: nat)
    requires Distinct(B) && i < |B|
    ensures Pos(B, B[i]) == i
  {
  }

  lemma InsertedIndex(B: seq<Id>, p: nat, x: Id)
    requires Distinct(B) && p <= |B| && x !in B
    ensures var D := B[..p] + [x] + B[p..];
            && Distinct(D) && |D| == |B| + 1 && D[p] == x
            && forall k :: 0 <= k < |B| ==> B[k] == D[if k < p then k else k + 1]
  {
    var D := B[..p] + [x] + B[p..];
    assert forall k :: 0 <= k < |D| ==> D[k] == if k < p then B[k] else if k == p then x else B[k - 1];
  }

  lemma InsertedAt(B: seq<Id>, p: nat, x: Id)
    requires Distinct(B) && p <= |B| && x !in B
    ensures var D := B[..p] + [x] + B[p..];
            && Distinct(D) && (forall y :: y in D <==> y in B || y == x) && Pos(D, x) == p
            && forall y :: y in B ==> Pos(D, y) == if Pos(B, y) < p then Pos(B, y) else Pos(B, y) + 1
  {
    var D := B[..p] + [x] + B[p..];
    InsertedIndex(B, p, x);
    PosAt(D, p);
    forall y | y in B ensures Pos(D, y) == if Pos(B, y) < p then Pos(B, y) else Pos(B, y) + 1 {
      var k := Pos(B, y);
      PosAt(D, if k < p then k else k + 1);
    }
  }

  function InsertBefore(B: seq<Id>, n: Id, x: Id): seq<Id>
    requires n in B
  {
    B[..Pos(B, n)] + [x] + B[Pos(B, n)..]
  }

  lemma Inserted(B: seq<Id>, n: Id, x: Id)
    requires Distinct(B) && n in B && x !in B
    ensures var D, p := InsertBefore(B, n, x), Pos(B, n);
            && Distinct(D) && (forall y :: y in D <==> y in B || y == x) && Pos(D, x) == p
            && forall y :: y in B ==> Pos(D, y) == if Pos(B, y) < p then Pos(B, y) else Pos(B, y) + 1
  {
    InsertedAt(B, Pos(B, n), x);
  }

  function Remove(B: seq<Id>, x: Id): seq<Id>
    requires x in B
  {
    B[..Pos(B, x)] + B[Pos(B, x) + 1..]
  }

  lemma RemovedIndex(B: seq<Id>, p: nat)
    requires Distinct(B) && p < |B|
    ensures var D := B[..p] + B[p + 1..];
            && Distinct(D) && |D| == |B| - 1 && B[p] !in D
            && forall k :: 0 <= k < |B| && k != p ==> B[k] == D[if k < p then k else k - 1]
  {
    var D := B[..p] + B[p + 1..];
    assert forall k :: 0 <= k < |D| ==> D[k] == if k < p then B[k] else B[k + 1];
  }

  lemma Removed(B: seq<Id>, x: Id)
    requires Distinct(B) && x in B
    ensures var D, p := Remove(B, x), Pos(B, x);
            && Distinct(D) && (forall y :: y in D <==> y in B && y != x)
            && forall y :: y in D ==> Pos(D, y) == if Pos(B, y) < p then Pos(B, y) else Pos(B, y) - 1
  {
    var D, p := Remove(B, x), Pos(B, x);
    RemovedIndex(B, p);
    forall y | y in B && y != x ensures y in D && Pos(D, y) == if Pos(B, y) < p then Pos(B, y) else Pos(B, y) - 1 {
      var k := Pos(B, y);
      PosAt(D, if k < p then k else k - 1);
    }
  }

  function InsertAfter(B: seq<Id>, t: Id, x: Id): seq<Id>
    requires t in B
  {
    B[..Pos(B, t) + 1] + [x] + B[Pos(B, t) + 1..]
  }

  lemma InsertedAfter(B: seq<Id>, t: Id, x: Id)
    requires Distinct(B) && t in B && x !in B
    ensures var D, p := InsertAfter(B, t, x), Pos(B, t) + 1;
            && Distinct(D) && (forall y :: y in D <==> y in B || y == x) && Pos(D, x) == p
            && forall y :: y in B ==> Pos(D, y) == if Pos(B, y) < p then Pos(B, y) else Pos(B, y) + 1
  {
    InsertedAt(B, Pos(B, t) + 1, x);
  }

  // Taking x out and putting it back directly after t.
  function MoveRight(B: seq<Id>, x: Id, t: Id): seq<Id>
    requires x in B && t in B && t != x && t in Remove(B, x)
  {
    InsertAfter(Remove(B, x), t, x)
  }

  lemma MovedRight(B: seq<Id>, x: Id, t: Id)
    requires Distinct(B) && Before(B, x, t)
    ensures t in Remove(B, x) && x !in Remove(B, x)
    ensures var D, p, q := MoveRight(B, x, t), Pos(B, x), Pos(B, t);
            && Distinct(D) && (forall y :: y in D <==> y in B) && Pos(D, x) == q
            && forall y :: y in B && y != x ==> Pos(D, y) == if p < Pos(B, y) <= q then Pos(B, y) - 1 else Pos(B, y)
  {
    Removed(B, x);
    InsertedAfter(Remove(B, x), t, x);
  }
}
