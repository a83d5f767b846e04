/** Each edit of a command queue, with the table update it causes, keeps the queues good. */
module DramEdits {
  import opened Basics
  import opened DramTypes
  import opened CommandQueueSpec
  import opened MemorySystemSpec
  import opened DramSafety
  import opened DramQueues
  import opened DramPop

  lemma ExplainedIsGood(P: Params, T: Table, Q: QueueState, now: nat, e: Edit, c: Popped)
    requires ValidParams(P) && TableShape(P, T) && QueueShape(P, Q) && QueueShape(P, c.queue)
    requires GoodQueues(P, T, Q) && SteadyTable(P, T, now) && Explains(P, T, Q, now, e, c) && c.packet.Some?
    ensures GoodPop(P, T, c.packet.value, now)
  {
    if e.Activate? || e.Column? || e.Pair? {
      assert QueuedKind(P, GetQueue(P, Q, e.slot)[e.index].kind);
    }
  }

  // U is the table after the command of c, if any, was issued.
  ghost predicate After(P: Params, T: Table, c: Popped, now: nat, U: Table)
    requires ValidParams(P) && TableShape(P, T) && TableShape(P, U)
  {
    forall r, b :: 0 <= r < P.ranks && 0 <= b < P.banks ==>
      U[r][b] == if c.packet.Some? then IssueBank(P, c.packet.value, r, b, T[r][b], now) else T[r][b]
  }

  predicate SameRowState(m: BankState, u: BankState)
  {
    u.status == m.status && u.openRow == m.openRow && u.countdown == m.countdown
  }

  lemma IssueElsewhere(P: Params, p: Packet, r: nat, i: nat, m: BankState, now: nat)
    requires ValidParams(P) && (r != p.rank || (i != p.bank && p.kind != REFRESH))
    ensures SameRowState(m, IssueBank(P, p, r, i, m, now))
  {
  }

  lemma IssueHere(P: Params, p: Packet, m: BankState, now: nat)
    requires ValidParams(P) && Steady(P, m, now) && MayIssue(P, p, m, now)
    ensures var u := IssueBank(P, p, p.rank, p.bank, m, now);
            match p.kind
            case ACTIVATE => u.status == RowActive && u.countdown == 0 && u.openRow == p.row
            case READ | WRITE => SameRowState(m, u)
            case READ_P | WRITE_P => u.status == RowActive
            case _ => u.status != RowActive
  {
  }

  // A lone access to another bank is served as before.
  lemma ServedElsewhere(P: Params, T: Table, Q: QueueState, c: Popped, now: nat, U: Table, r: nat, o: Packet)
    requires ValidParams(P) && TableShape(P, T) && TableShape(P, U) && QueueShape(P, Q) && QueueShape(P, c.queue)
    requires After(P, T, c, now, U) && r < P.ranks && Served(P, T, Q, r, o)
    requires c.packet.Some? ==>
      r != c.packet.value.rank || (o.bank != c.packet.value.bank && c.packet.value.kind != REFRESH)
    requires c.queue.rowAccess[r][o.bank] == Q.rowAccess[r][o.bank]
    ensures Served(P, U, c.queue, r, o)
  {
    if c.packet.Some? {
      IssueElsewhere(P, c.packet.value, r, o.bank, T[r][o.bank], now);
    }
  }

  // Two lone accesses in one queue never address the same bank.
  lemma LoneAlone(P: Params, T: Table, Q: QueueState, r: nat, q: seq<Packet>, i: int, k: int)
    requires TableShape(P, T) && QueueShape(P, Q) && r < P.ranks && GoodQueue(P, T, Q, r, q)
    requires Lone(q, i) && Lone(q, k) && i != k
    ensures q[i].bank != q[k].bank
  {
    assert Served(P, T, Q, r, q[i]) && Served(P, T, Q, r, q[k]);
    assert FirstOfRow(q, i) && FirstOfRow(q, k);
  }

  lemma ActivateKeeps(P: Params, T: Table, Q: QueueState, now: nat, e: Edit, c: Popped, U: Table)
    requires ValidParams(P) && TableShape(P, T) && TableShape(P, U) && QueueShape(P, Q) && QueueShape(P, c.queue)
    requires GoodQueues(P, T, Q) && SteadyTable(P, T, now) && Explains(P, T, Q, now, e, c) && After(P, T, c, now, U)
    requires e.Activate?
    ensures var u := GetQueue(P, c.queue, e.slot);
            GoodQueue(P, U, c.queue, e.slot.rank, u)
  {
    var q, i, r := GetQueue(P, Q, e.slot), e.index, e.slot.rank;
    var p, u := q[i], GetQueue(P, c.queue, e.slot);
    assert u == RemoveAt(q, i);
    TakeActivate(q, i);
    ExplainedIsGood(P, T, Q, now, e, c);
    IssueHere(P, p, T[r][p.bank], now);
    forall k | Lone(u, k) ensures Served(P, U, c.queue, r, u[k]) {
      if k != i {
        var o := if k < i then k else k + 1;
        assert Served(P, T, Q, r, q[o]);
        ServedElsewhere(P, T, Q, c, now, U, r, q[o]);
      }
    }
  }

  lemma ColumnKeeps(P: Params, T: Table, Q: QueueState, now: nat, e: Edit, c: Popped, U: Table)
    requires ValidParams(P) && TableShape(P, T) && TableShape(P, U) && QueueShape(P, Q) && QueueShape(P, c.queue)
    requires GoodQueues(P, T, Q) && SteadyTable(P, T, now) && Explains(P, T, Q, now, e, c) && After(P, T, c, now, U)
    requires e.Column?
    ensures var u := GetQueue(P, c.queue, e.slot);
            GoodQueue(P, U, c.queue, e.slot.rank, u)
  {
    var q, i, r := GetQueue(P, Q, e.slot), e.index, e.slot.rank;
    var p, u := q[i], GetQueue(P, c.queue, e.slot);
    assert u == RemoveAt(q, i);
    TakeLone(q, i);
    forall k | Lone(u, k) ensures Served(P, U, c.queue, r, u[k]) {
      var o := if k < i then k else k + 1;
      LoneAlone(P, T, Q, r, q, i, o);
      ServedElsewhere(P, T, Q, c, now, U, r, q[o]);
    }
  }

  lemma PairKeeps(P: Params, T: Table, Q: QueueState, now: nat, e: Edit, c: Popped, U: Table)
    requires ValidParams(P) && TableShape(P, T) && TableShape(P, U) && QueueShape(P, Q) && QueueShape(P, c.queue)
    requires GoodQueues(P, T, Q) && SteadyTable(P, T, now) && Explains(P, T, Q, now, e, c) && After(P, T, c, now, U)
    requires e.Pair?
    ensures var u := GetQueue(P, c.queue, e.slot);
            GoodQueue(P, U, c.queue, e.slot.rank, u)
  {
    var q, i, r := GetQueue(P, Q, e.slot), e.index, e.slot.rank;
    var p, u := q[i], GetQueue(P, c.queue, e.slot);
    assert u == q[..i - 1] + q[i + 1..];
    TakePair(q, i);
    forall k | Lone(u, k) ensures Served(P, U, c.queue, r, u[k]) {
      var o := if k < i - 1 then k else k + 2;
      assert u[k] == q[o];
      LoneOtherBank(P, T, Q, r, q, i, o, now);
      ServedElsewhere(P, T, Q, c, now, U, r, q[o]);
    }
  }

  // While a row hit is taken together with its activate, no access that already lost its own waits for that bank.
  lemma LoneOtherBank(P: Params, T: Table, Q: QueueState, r: nat, q: seq<Packet>, i: nat, k: int, now: nat)
    requires TableShape(P, T) && QueueShape(P, Q) && r < P.ranks && GoodQueue(P, T, Q, r, q)
    requires i < |q| && IsColumn(q[i].kind) && !HasEarlierAccess(q, i) && q[i].rank == r
    requires IsIssuable(P, T, Q, q[i], now)
    requires Lone(q, k) && k != i
    ensures q[k].bank != q[i].bank
  {
    assert Served(P, T, Q, r, q[k]) && FirstOfRow(q, k);
  }

  ghost predicate EntriesFrom(u: seq<Packet>, q: seq<Packet>)
  {
    forall k :: 0 <= k < |u| ==> u[k] in q
  }

  predicate Edited(P: Params, e: Edit, r: nat, x: nat)
  {
    (e.Activate? || e.Column? || e.Pair?) && e.slot.rank == r && QueueIndex(P, e.slot.bank) == x
  }

  lemma EditedEntries(P: Params, T: Table, Q: QueueState, now: nat, e: Edit, c: Popped, r: nat, x: nat)
    requires ValidParams(P) && TableShape(P, T) && QueueShape(P, Q) && QueueShape(P, c.queue)
    requires Explains(P, T, Q, now, e, c) && r < P.ranks && x < |Q.queues[r]|
    ensures |c.queue.queues[r]| == |Q.queues[r]| && EntriesFrom(c.queue.queues[r][x], Q.queues[r][x])
    ensures !Edited(P, e, r, x) ==> c.queue.queues[r][x] == Q.queues[r][x]
  {
  }

  lemma EditedKeeps(P: Params, T: Table, Q: QueueState, now: nat, e: Edit, c: Popped, U: Table)
    requires ValidParams(P) && TableShape(P, T) && TableShape(P, U) && QueueShape(P, Q) && QueueShape(P, c.queue)
    requires GoodQueues(P, T, Q) && SteadyTable(P, T, now) && Explains(P, T, Q, now, e, c) && After(P, T, c, now, U)
    requires e.Activate? || e.Column? || e.Pair?
    ensures GoodQueue(P, U, c.queue, e.slot.rank, GetQueue(P, c.queue, e.slot))
  {
    if e.Activate? {
      ActivateKeeps(P, T, Q, now, e, c, U);
    } else if e.Column? {
      ColumnKeeps(P, T, Q, now, e, c, U);
    } else {
      PairKeeps(P, T, Q, now, e, c, U);
    }
  }

  lemma EditKeepsQueue(P: Params, T: Table, Q: QueueState, now: nat, e: Edit, c: Popped, U: Table, r: nat, x: nat)
    requires ValidParams(P) && TableShape(P, T) && TableShape(P, U) && QueueShape(P, Q) && QueueShape(P, c.queue)
    requires GoodQueues(P, T, Q) && SteadyTable(P, T, now) && Explains(P, T, Q, now, e, c) && After(P, T, c, now, U)
    requires r < P.ranks && x < |Q.queues[r]|
    ensures |c.queue.queues[r]| == |Q.queues[r]|
    ensures GoodQueue(P, U, c.queue, r, c.queue.queues[r][x]) && EntriesFrom(c.queue.queues[r][x], Q.queues[r][x])
  {
    EditedEntries(P, T, Q, now, e, c, r, x);
    if Edited(P, e, r, x) {
      EditedKeeps(P, T, Q, now, e, c, U);
    } else {
      UneditedKeeps(P, T, Q, now, e, c, U, r, x);
    }
  }

  lemma UneditedKeeps(P: Params, T: Table, Q: QueueState, now: nat, e: Edit, c: Popped, U: Table, r: nat, x: nat)
    requires ValidParams(P) && TableShape(P, T) && TableShape(P, U) && QueueShape(P, Q) && QueueShape(P, c.queue)
    requires GoodQueues(P, T, Q) && SteadyTable(P, T, now) && Explains(P, T, Q, now, e, c) && After(P, T, c, now, U)
    requires r < P.ranks && x < |Q.queues[r]| && !Edited(P, e, r, x)
    ensures GoodQueue(P, U, c.queue, r, Q.queues[r][x])
  {
    var q := Q.queues[r][x];
    forall k | Lone(q, k) ensures Served(P, U, c.queue, r, q[k]) {
      assert Served(P, T, Q, r, q[k]);
      UneditedServed(P, T, Q, now, e, c, r, x, k);
      ServedElsewhere(P, T, Q, c, now, U, r, q[k]);
    }
  }

  lemma UneditedServed(P: Params, T: Table, Q: QueueState, now: nat, e: Edit, c: Popped, r: nat, x: nat, k: int)
    requires ValidParams(P) && TableShape(P, T) && QueueShape(P, Q) && QueueShape(P, c.queue)
    requires GoodQueues(P, T, Q) && Explains(P, T, Q, now, e, c)
    requires r < P.ranks && x < |Q.queues[r]| && Lone(Q.queues[r][x], k) && Served(P, T, Q, r, Q.queues[r][x][k])
    requires !Edited(P, e, r, x)
    ensures var o := Q.queues[r][x][k];
            && (c.packet.Some? ==>
                 r != c.packet.value.rank || (o.bank != c.packet.value.bank && c.packet.value.kind != REFRESH))
            && c.queue.rowAccess[r][o.bank] == Q.rowAccess[r][o.bank]
  {
    var o := Q.queues[r][x][k];
    assert o.rank == r && x == QueueIndex(P, o.bank);
    match e
    case NoEdit =>
    case Activate(s, i) => assert GetQueue(P, Q, s)[i].rank == s.rank
      && QueueIndex(P, GetQueue(P, Q, s)[i].bank) == QueueIndex(P, s.bank);
    case Column(s, i) => assert GetQueue(P, Q, s)[i].rank == s.rank
      && QueueIndex(P, GetQueue(P, Q, s)[i].bank) == QueueIndex(P, s.bank);
    case Pair(s, i) => assert GetQueue(P, Q, s)[i].rank == s.rank
      && QueueIndex(P, GetQueue(P, Q, s)[i].bank) == QueueIndex(P, s.bank);
    case Close(s) =>
    case RefreshRank(rr) =>
  }

  lemma EditKeepsCounters(P: Params, T: Table, Q: QueueState, now: nat, e: Edit, c: Popped, U: Table, r: nat, b: nat)
    requires ValidParams(P) && TableShape(P, T) && TableShape(P, U) && QueueShape(P, Q) && QueueShape(P, c.queue)
    requires GoodQueues(P, T, Q) && SteadyTable(P, T, now) && Explains(P, T, Q, now, e, c) && After(P, T, c, now, U)
    requires r < P.ranks && b < P.banks
    ensures c.queue.rowAccess[r][b] <= P.totalRowAccesses
    ensures P.closePage || U[r][b].status != RowActive ==> c.queue.rowAccess[r][b] == 0
  {
    if c.packet.Some? {
      ExplainedIsGood(P, T, Q, now, e, c);
      var p := c.packet.value;
      if r == p.rank && b == p.bank {
        IssueHere(P, p, T[r][b], now);
      } else if r != p.rank || p.kind != REFRESH {
        IssueElsewhere(P, p, r, b, T[r][b], now);
      }
    }
  }

  // The queues stay good across any pop and the table update that goes with it.
  lemma EditKeeps(P: Params, T: Table, Q: QueueState, now: nat, e: Edit, c: Popped, U: Table)
    requires ValidParams(P) && TableShape(P, T) && TableShape(P, U) && QueueShape(P, Q) && QueueShape(P, c.queue)
    requires GoodQueues(P, T, Q) && SteadyTable(P, T, now) && Explains(P, T, Q, now, e, c) && After(P, T, c, now, U)
    ensures GoodQueues(P, U, c.queue)
  {
    forall r | 0 <= r < P.ranks ensures |c.queue.queues[r]| == |Q.queues[r]| {
      EditKeepsQueue(P, T, Q, now, e, c, U, r, 0);
    }
    forall r, x | 0 <= r < P.ranks && 0 <= x < |c.queue.queues[r]|
      ensures GoodQueue(P, U, c.queue, r, c.queue.queues[r][x])
      ensures EntriesFrom(c.queue.queues[r][x], Q.queues[r][x])
    {
      EditKeepsQueue(P, T, Q, now, e, c, U, r, x);
    }
    forall r, b | 0 <= r < P.ranks && 0 <= b < P.banks
      ensures c.queue.rowAccess[r][b] <= P.totalRowAccesses
      ensures P.closePage || U[r][b].status != RowActive ==> c.queue.rowAccess[r][b] == 0
    {
      EditKeepsCounters(P, T, Q, now, e, c, U, r, b);
    }
  }
}
