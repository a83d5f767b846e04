/** What every command queue keeps: activate/access pairs, and accesses whose row is open. */
module DramQueues {
  import opened Basics
  import opened DramTypes
  import opened CommandQueueSpec
  import opened MemorySystemSpec

  // Every activate is directly followed by the column access it was queued with.
  ghost predicate Paired(q: seq<Packet>)
  {
    forall i :: 0 <= i < |q| && q[i].kind == ACTIVATE ==>
      i + 1 < |q| && IsColumn(q[i + 1].kind) && q[i + 1].(kind := ACTIVATE) == q[i]
  }

  // A column access whose activate has already gone out.
  predicate Lone(q: seq<Packet>, i: int)
  {
    0 <= i < |q| && IsColumn(q[i].kind) && (i == 0 || q[i - 1].kind != ACTIVATE)
  }

  predicate SameRow(p: Packet, o: Packet) { p.bank == o.bank && p.row == o.row }

  predicate FirstOfRow(q: seq<Packet>, i: nat)
    requires i < |q|
  {
    forall j :: 0 <= j < i && IsColumn(q[j].kind) ==> !SameRow(q[j], q[i])
  }

  ghost predicate LoneFirst(q: seq<Packet>)
  {
    forall i :: Lone(q, i) ==> FirstOfRow(q, i)
  }

  // Accesses to one bank and row stand in acceptance order.
  ghost predicate Ordered(q: seq<Packet>)
  {
    forall i, j :: 0 <= i < j < |q| && IsColumn(q[i].kind) && IsColumn(q[j].kind) && SameRow(q[i], q[j]) ==>
      q[i].seqno < q[j].seqno
  }

  // The row a lone access needs is open and not about to be closed on it.
  predicate Served(P: Params, T: Table, Q: QueueState, r: nat, p: Packet)
    requires TableShape(P, T) && QueueShape(P, Q) && r < P.ranks
  {
    p.bank < P.banks &&
    var b := T[r][p.bank];
    b.status == RowActive && b.countdown == 0 && b.openRow == p.row && Q.rowAccess[r][p.bank] == 0
  }

  ghost predicate GoodQueue(P: Params, T: Table, Q: QueueState, r: nat, q: seq<Packet>)
    requires TableShape(P, T) && QueueShape(P, Q) && r < P.ranks
  {
    && |q| <= P.queueDepth && Paired(q) && LoneFirst(q) && Ordered(q)
    && forall i :: Lone(q, i) ==> Served(P, T, Q, r, q[i])
  }

  ghost predicate GoodQueues(P: Params, T: Table, Q: QueueState)
    requires TableShape(P, T) && QueueShape(P, Q)
  {
    && Routed(P, Q)
    && (forall r, x :: 0 <= r < P.ranks && 0 <= x < |Q.queues[r]| ==> GoodQueue(P, T, Q, r, Q.queues[r][x]))
    && (forall r, b :: 0 <= r < P.ranks && 0 <= b < P.banks ==>
          Q.rowAccess[r][b] <= P.totalRowAccesses
          && (P.closePage || T[r][b].status != RowActive ==> Q.rowAccess[r][b] == 0))
  }

  // ---------- taking entries out of one queue

  lemma TakeActivate(q: seq<Packet>, i: nat)
    requires i < |q| && q[i].kind == ACTIVATE && FirstOfRow(q, i)
    requires Paired(q) && LoneFirst(q) && Ordered(q)
    ensures var u := RemoveAt(q, i);
            && Paired(u) && LoneFirst(u) && Ordered(u)
            && (forall k :: Lone(u, k) ==>
                  if k == i then SameRow(u[k], q[i]) else Lone(q, if k < i then k else k + 1))
  {
    var u := RemoveAt(q, i);
    assert i > 0 ==> q[i - 1].kind != ACTIVATE;
    forall k | 0 <= k < |u| ensures u[k] == q[if k < i then k else k + 1] {}
    forall k | Lone(u, k)
      ensures if k == i then SameRow(u[k], q[i]) else Lone(q, if k < i then k else k + 1)
      ensures FirstOfRow(u, k)
    {
      if k > i { assert u[k - 1] == q[k]; }
      var o := if k < i then k else k + 1;
      forall j | 0 <= j < k && IsColumn(u[j].kind) ensures !SameRow(u[j], u[k]) {
        if k == i { assert u[j] == q[j]; } else { assert Lone(q, o); assert u[j] == q[if j < i then j else j + 1]; }
      }
    }
    forall a, b | 0 <= a < b < |u| && IsColumn(u[a].kind) && IsColumn(u[b].kind) && SameRow(u[a], u[b])
      ensures u[a].seqno < u[b].seqno
    {
      assert u[a] == q[if a < i then a else a + 1] && u[b] == q[if b < i then b else b + 1];
    }
    forall k | 0 <= k < |u| && u[k].kind == ACTIVATE
      ensures k + 1 < |u| && IsColumn(u[k + 1].kind) && u[k + 1].(kind := ACTIVATE) == u[k]
    {
      var o := if k < i then k else k + 1;
      assert u[k] == q[o] && o + 1 < |q| && IsColumn(q[o + 1].kind);
      assert k + 1 != i;
    }
  }

  lemma TakeLone(q: seq<Packet>, i: nat)
    requires Lone(q, i) && Paired(q) && LoneFirst(q) && Ordered(q)
    ensures var u := RemoveAt(q, i);
            && Paired(u) && LoneFirst(u) && Ordered(u)
            && (forall k :: Lone(u, k) ==> Lone(q, if k < i then k else k + 1))
  {
    var u := RemoveAt(q, i);
    forall k | 0 <= k < |u| ensures u[k] == q[if k < i then k else k + 1] {}
    forall k | Lone(u, k)
      ensures Lone(q, if k < i then k else k + 1) && FirstOfRow(u, k)
    {
      var o := if k < i then k else k + 1;
      assert Lone(q, o);
      forall j | 0 <= j < k && IsColumn(u[j].kind) ensures !SameRow(u[j], u[k]) {
        assert u[j] == q[if j < i then j else j + 1];
      }
    }
    forall a, b | 0 <= a < b < |u| && IsColumn(u[a].kind) && IsColumn(u[b].kind) && SameRow(u[a], u[b])
      ensures u[a].seqno < u[b].seqno
    {
      assert u[a] == q[if a < i then a else a + 1] && u[b] == q[if b < i then b else b + 1];
    }
    forall k | 0 <= k < |u| && u[k].kind == ACTIVATE
      ensures k + 1 < |u| && IsColumn(u[k + 1].kind) && u[k + 1].(kind := ACTIVATE) == u[k]
    {
      var o := if k < i then k else k + 1;
      assert u[k] == q[o] && o + 1 < |q| && IsColumn(q[o + 1].kind);
      assert k + 1 != i;
    }
  }

  lemma TakePair(q: seq<Packet>, i: nat)
    requires 0 < i < |q| && q[i - 1].kind == ACTIVATE && Paired(q) && LoneFirst(q) && Ordered(q)
    ensures var u := q[..i - 1] + q[i + 1..];
            && Paired(u) && LoneFirst(u) && Ordered(u)
            && (forall k :: Lone(u, k) ==> Lone(q, if k < i - 1 then k else k + 2))
  {
    var u := q[..i - 1] + q[i + 1..];
    assert i > 1 ==> q[i - 2].kind != ACTIVATE;
    assert q[i].kind != ACTIVATE;
    forall k | 0 <= k < |u| ensures u[k] == q[if k < i - 1 then k else k + 2] {}
    forall k | Lone(u, k)
      ensures Lone(q, if k < i - 1 then k else k + 2) && FirstOfRow(u, k)
    {
      var o := if k < i - 1 then k else k + 2;
      if k > 0 { assert u[k - 1] == q[if k - 1 < i - 1 then k - 1 else k + 1]; }
      assert Lone(q, o);
      forall j | 0 <= j < k && IsColumn(u[j].kind) ensures !SameRow(u[j], u[k]) {
        assert u[j] == q[if j < i - 1 then j else j + 2];
      }
    }
    forall a, b | 0 <= a < b < |u| && IsColumn(u[a].kind) && IsColumn(u[b].kind) && SameRow(u[a], u[b])
      ensures u[a].seqno < u[b].seqno
    {
      assert u[a] == q[if a < i - 1 then a else a + 2] && u[b] == q[if b < i - 1 then b else b + 2];
    }
    forall k | 0 <= k < |u| && u[k].kind == ACTIVATE
      ensures k + 1 < |u| && IsColumn(u[k + 1].kind) && u[k + 1].(kind := ACTIVATE) == u[k]
    {
      var o := if k < i - 1 then k else k + 2;
      assert u[k] == q[o] && o + 1 < |q| && IsColumn(q[o + 1].kind);
      assert k + 1 < |u| && u[k + 1] == q[o + 1];
    }
  }

  lemma AppendPair(q: seq<Packet>, a: Packet, c: Packet)
    requires Paired(q) && LoneFirst(q) && Ordered(q)
    requires a.kind == ACTIVATE && IsColumn(c.kind) && c.(kind := ACTIVATE) == a
    requires forall i :: 0 <= i < |q| && IsColumn(q[i].kind) && SameRow(q[i], c) ==> q[i].seqno < c.seqno
    ensures var u := q + [a, c];
            && Paired(u) && LoneFirst(u) && Ordered(u)
            && (forall k :: Lone(u, k) ==> Lone(q, k))
  {
    var u := q + [a, c];
    assert |q| > 0 ==> q[|q| - 1].kind != ACTIVATE;
    forall k | Lone(u, k) ensures Lone(q, k) && FirstOfRow(u, k) {
      assert u[|q|] == a && u[|q| + 1] == c;
      assert k < |q|;
      if k > 0 { assert u[k - 1] == q[k - 1]; }
      assert Lone(q, k);
    }
  }
}
