/** Which transaction a cycle splits into its two commands: the first whose queue has room. */
module DramSplit {
  import opened DramTypes
  import opened CommandQueueSpec
  import opened MemorySystemSpec
  import opened DramQueues
  import opened DramTheorems
  import opened DramPhases

  // The queue that holds the commands for an address.
  function QueueFor(P: Params, Q: QueueState, address: nat): seq<Packet>
    requires ValidParams(P) && QueueShape(P, Q)
  {
    var l := P.locate(address);
    Q.queues[l.rank][if P.perBank then l.bank else 0]
  }

  predicate Full(P: Params, Q: QueueState, address: nat)
    requires ValidParams(P) && QueueShape(P, Q)
  {
    P.queueDepth < |QueueFor(P, Q, address)| + 2
  }

  // The activate and the access a transaction becomes.
  function Commands(P: Params, t: Transaction): seq<Packet>
  {
    var l := P.locate(t.address);
    var access := if t.isRead then (if P.closePage then READ_P else READ) else (if P.closePage then WRITE_P else WRITE);
    [Packet(ACTIVATE, t.address, l.row, l.rank, l.bank, t.seqno),
     Packet(access, t.address, l.row, l.rank, l.bank, t.seqno)]
  }

  // The first transaction with room went behind everything in its queue, and if it reads it is owed.
  ghost predicate SplitAt(P: Params, s: System, u: System, i: nat)
    requires ValidParams(P) && Shape(P, s) && Shape(P, u) && i < |s.mc.transactions|
  {
    var ts, Q := s.mc.transactions, s.mc.queue;
    var t := ts[i];
    && !Full(P, Q, t.address) && (forall j: nat :: j < i ==> Full(P, Q, ts[j].address))
    && u.mc.transactions == ts[..i] + ts[i + 1..]
    && QueueFor(P, u.mc.queue, t.address) == QueueFor(P, Q, t.address) + Commands(P, t)
    && u.mc.pendingReads == s.mc.pendingReads + (if t.isRead then [t] else [])
  }

  // Nothing had room, or the first that had is split.
  ghost predicate SplitsFirst(P: Params, s: System, u: System)
    requires ValidParams(P) && Shape(P, s) && Shape(P, u)
  {
    || (exists i: nat :: i < |s.mc.transactions| && SplitAt(P, s, u, i))
    || (u == s && forall t :: t in s.mc.transactions ==> Full(P, s.mc.queue, t.address))
  }

  lemma RoomIsNotFull(P: Params, s: System, t: Transaction)
    requires ValidParams(P) && Shape(P, s) && GoodQueues(P, s.mc.table, s.mc.queue)
    ensures HasRoomFor(P, s.mc.queue, 2, SlotOf(P, t.address)) <==> !Full(P, s.mc.queue, t.address)
  {
    var slot := SlotOf(P, t.address);
    assert GoodQueue(P, s.mc.table, s.mc.queue, slot.rank, GetQueue(P, s.mc.queue, slot));
  }

  lemma SplitChooses(P: Params, s: System, u: System)
    requires ValidParams(P) && Shape(P, s) && Shape(P, u) && GoodQueues(P, s.mc.table, s.mc.queue)
    requires SplitTransaction(P, s) == Ok(u)
    ensures SplitsFirst(P, s, u)
  {
    var ts := s.mc.transactions;
    var i := NextToSplit(P, s.mc.queue, ts, 0);
    forall t | t in ts ensures HasRoomFor(P, s.mc.queue, 2, SlotOf(P, t.address)) <==> !Full(P, s.mc.queue, t.address) {
      RoomIsNotFull(P, s, t);
    }
    if i < |ts| {
      assert u.mc.transactions == ts[..i] + ts[i + 1..];
      assert SplitAt(P, s, u, i);
    }
  }

  // MAIN RESULT.  In every cycle of every run the transaction split is the first whose queue has room for its two
  // commands after the pop, and only if none has room nothing is split.
  lemma CycleSplits(P: Params, s: System, u: System) returns (v: System, w: System)
    requires ValidParams(P) && Shape(P, s) && Shape(P, u) && Inv(P, s) && Update(P, s) == Ok(u)
    ensures ThroughIssue(P, s) == Ok(v) && Shape(P, v) && v.mc.transactions == s.mc.transactions
    ensures Shape(P, w) && SplitsFirst(P, v, w)
    ensures u.mc.transactions == w.mc.transactions && u.mc.queue == w.mc.queue
  {
    var s1, s2, s3, s4, s5, s6 := CycleStates(P, s, u);
    v, w := s3, s4;
    QueuesAfterIssue(P, s, v);
    SplitChooses(P, v, w);
    SettleFrame(P, s, s1);
    RefreshFrame(P, s1);
    IssueFrame(P, s2, s3);
    PowerFrame(P, s4, s5);
    ReturnFrame(P, s5, s6);
  }

  lemma QueuesAfterIssue(P: Params, s: System, u: System)
    requires ValidParams(P) && Shape(P, s) && Inv(P, s) && ThroughIssue(P, s) == Ok(u) && Shape(P, u)
    ensures GoodQueues(P, u.mc.table, u.mc.queue)
  {
    var s1 := SettleHalf(P, s);
    var s2 := RefreshHalf(P, s1);
    var s3 := PopHalf(P, s2);
  }
}
