/** Column accesses to one row leave the controller in the order their transactions were accepted. */
module DramOrder {
  import opened Basics
  import opened DramTypes
  import opened CommandQueueSpec
  import opened MemorySystemSpec
  import opened DramQueues
  import opened DramPop
  import opened DramEdits

  // If both are accesses to one row of one bank, p was accepted before o.
  predicate Before(p: Packet, o: Packet)
  {
    IsColumn(p.kind) && IsColumn(o.kind) && p.rank == o.rank && SameRow(p, o) ==> p.seqno < o.seqno
  }

  predicate FromAccepted(P: Params, accepted: seq<Transaction>, p: Packet)
  {
    p.seqno < |accepted|
      && p == (if p.kind == ACTIVATE then ActivateFor(P, accepted[p.seqno]) else ColumnFor(P, accepted[p.seqno]))
  }

  ghost predicate Numbered(accepted: seq<Transaction>, waiting: seq<Transaction>)
  {
    && (forall k :: 0 <= k < |accepted| ==> accepted[k].seqno == k)
    && (forall j :: 0 <= j < |waiting| ==> waiting[j].seqno < |accepted| && waiting[j] == accepted[waiting[j].seqno])
    && (forall i, j :: 0 <= i < j < |waiting| ==> waiting[i].seqno < waiting[j].seqno)
  }

  ghost predicate QueuesNumbered(P: Params, accepted: seq<Transaction>, waiting: seq<Transaction>,
          queues: seq<seq<seq<Packet>>>)
  {
    forall r, x, i :: 0 <= r < |queues| && 0 <= x < |queues[r]| && 0 <= i < |queues[r][x]| ==>
      && FromAccepted(P, accepted, queues[r][x][i])
      && forall j :: 0 <= j < |waiting| ==> Before(queues[r][x][i], ColumnFor(P, waiting[j]))
  }

  // One issued packet against everything not yet issued.
  ghost predicate Leads(P: Params, p: Packet, waiting: seq<Transaction>, queues: seq<seq<seq<Packet>>>)
  {
    && (forall j :: 0 <= j < |waiting| ==> Before(p, ColumnFor(P, waiting[j])))
    && (forall r, x, i :: 0 <= r < |queues| && 0 <= x < |queues[r]| && 0 <= i < |queues[r][x]| ==>
         Before(p, queues[r][x][i]))
  }

  ghost predicate IssuedInOrder(P: Params, accepted: seq<Transaction>, waiting: seq<Transaction>,
                                queues: seq<seq<seq<Packet>>>, issued: seq<Issue>)
  {
    && (forall k :: 0 <= k < |issued| ==>
          (IsColumn(issued[k].packet.kind) ==> FromAccepted(P, accepted, issued[k].packet))
          && Leads(P, issued[k].packet, waiting, queues))
    && (forall k, l :: 0 <= k < l < |issued| ==> Before(issued[k].packet, issued[l].packet))
  }

  ghost predicate Orderly(P: Params, s: System)
  {
    && Numbered(s.log.accepted, s.mc.transactions)
    && QueuesNumbered(P, s.log.accepted, s.mc.transactions, s.mc.queue.queues)
    && IssuedInOrder(P, s.log.accepted, s.mc.transactions, s.mc.queue.queues, s.log.issued)
  }

  // What a pop leaves behind in the queues was accepted after what it takes.
  lemma PopLeads(P: Params, T: Table, Q: QueueState, now: nat, e: Edit, c: Popped, r: nat, x: nat, i: nat)
    requires ValidParams(P) && TableShape(P, T) && QueueShape(P, Q) && QueueShape(P, c.queue)
    requires GoodQueues(P, T, Q) && Explains(P, T, Q, now, e, c) && c.packet.Some?
    requires r < P.ranks && x < |c.queue.queues[r]| && i < |c.queue.queues[r][x]|
    ensures Before(c.packet.value, c.queue.queues[r][x][i])
  {
    var p, o := c.packet.value, c.queue.queues[r][x][i];
    if (e.Column? || e.Pair?) && p.rank == o.rank && SameRow(p, o) && IsColumn(o.kind) {
      SameRowSameQueue(P, T, Q, now, e, c, r, x, i);
      RestIsLater(P, GetQueue(P, Q, e.slot), e, c.queue.queues[r][x], i);
    }
  }

  // Entries for one bank share one queue.
  lemma SameRowSameQueue(P: Params, T: Table, Q: QueueState, now: nat, e: Edit, c: Popped, r: nat, x: nat, i: nat)
    requires ValidParams(P) && TableShape(P, T) && QueueShape(P, Q) && QueueShape(P, c.queue)
    requires GoodQueues(P, T, Q) && Explains(P, T, Q, now, e, c) && (e.Column? || e.Pair?)
    requires r < P.ranks && x < |c.queue.queues[r]| && i < |c.queue.queues[r][x]|
    requires c.packet.value.rank == c.queue.queues[r][x][i].rank && SameRow(c.packet.value, c.queue.queues[r][x][i])
    ensures r == e.slot.rank && x == QueueIndex(P, e.slot.bank)
  {
    var q, o := GetQueue(P, Q, e.slot), c.queue.queues[r][x][i];
    EditedEntries(P, T, Q, now, e, c, r, x);
    assert o in Q.queues[r][x];
    var k :| 0 <= k < |Q.queues[r][x]| && Q.queues[r][x][k] == o;
    assert o.rank == r && x == QueueIndex(P, o.bank);
    assert q[e.index].rank == e.slot.rank && QueueIndex(P, q[e.index].bank) == QueueIndex(P, e.slot.bank);
  }

  lemma RestIsLater(P: Params, q: seq<Packet>, e: Edit, u: seq<Packet>, i: nat)
    requires (e.Column? || e.Pair?) && e.index < |q| && Paired(q) && LoneFirst(q) && Ordered(q)
    requires IsColumn(q[e.index].kind)
    requires if e.Column? then Lone(q, e.index) && u == RemoveAt(q, e.index)
             else 0 < e.index && !HasEarlierAccess(q, e.index) && u == q[..e.index - 1] + q[e.index + 1..]
    requires i < |u| && IsColumn(u[i].kind) && SameRow(q[e.index], u[i])
    ensures q[e.index].seqno < u[i].seqno
  {
    var k := if e.Column? then (if i < e.index then i else i + 1) else (if i < e.index - 1 then i else i + 2);
    assert u[i] == q[k];
    if e.Column? {
      assert FirstOfRow(q, e.index);
    }
    assert k > e.index;
  }

  lemma DispatchOrder(P: Params, s: System, Q: QueueState, e: Edit, d: Popped, c: Popped)
    requires ValidParams(P) && Shape(P, s) && QueueShape(P, c.queue) && s.mc.cmd.None? && Orderly(P, s)
    requires QueueShape(P, Q) && Q.queues == s.mc.queue.queues && GoodQueues(P, s.mc.table, Q)
    requires QueueShape(P, d.queue) && Explains(P, s.mc.table, Q, s.now, e, d)
    requires c.packet == d.packet && c.queue.queues == d.queue.queues
    requires c.packet.Some? ==> InRange(P, Slot(c.packet.value.rank, c.packet.value.bank))
    ensures Dispatch(P, s, c).Ok? && Orderly(P, Dispatch(P, s, c).value)
  {
    var u := Dispatch(P, s, c).value;
    var issued := if c.packet.Some? then s.log.issued + [Issue(s.now, c.packet.value)] else s.log.issued;
    assert u.log == s.log.(issued := issued) && u.mc.transactions == s.mc.transactions
      && u.mc.queue.queues == c.queue.queues;
    PopNumbers(P, s.mc.table, Q, s.now, e, d, s.log.accepted, s.mc.transactions, s.log.issued);
  }

  // Every entry of a new queue comes from the old queue in its place, or is one of extra.
  ghost predicate DrawnFrom(old0: seq<seq<seq<Packet>>>, new0: seq<seq<seq<Packet>>>, extra: seq<Packet>)
  {
    && |new0| == |old0| && (forall r :: 0 <= r < |old0| ==> |new0[r]| == |old0[r]|)
    && forall r, x, i :: 0 <= r < |new0| && 0 <= x < |new0[r]| && 0 <= i < |new0[r][x]| ==>
         new0[r][x][i] in old0[r][x] || new0[r][x][i] in extra
  }

  lemma DrawnNumbered(P: Params, accepted: seq<Transaction>, waiting: seq<Transaction>, rest: seq<Transaction>,
                       old0: seq<seq<seq<Packet>>>, new0: seq<seq<seq<Packet>>>, extra: seq<Packet>)
    requires QueuesNumbered(P, accepted, waiting, old0) && DrawnFrom(old0, new0, extra)
    requires forall j :: 0 <= j < |rest| ==> rest[j] in waiting
    requires forall k :: 0 <= k < |extra| ==>
      FromAccepted(P, accepted, extra[k]) && forall j :: 0 <= j < |rest| ==> Before(extra[k], ColumnFor(P, rest[j]))
    ensures QueuesNumbered(P, accepted, rest, new0)
  {
    forall r, x, i | 0 <= r < |new0| && 0 <= x < |new0[r]| && 0 <= i < |new0[r][x]|
      ensures FromAccepted(P, accepted, new0[r][x][i])
      ensures forall j :: 0 <= j < |rest| ==> Before(new0[r][x][i], ColumnFor(P, rest[j]))
    {
      if new0[r][x][i] in old0[r][x] {
        var k :| 0 <= k < |old0[r][x]| && old0[r][x][k] == new0[r][x][i];
        forall j | 0 <= j < |rest| ensures Before(new0[r][x][i], ColumnFor(P, rest[j])) {
          var l :| 0 <= l < |waiting| && waiting[l] == rest[j];
          assert Before(old0[r][x][k], ColumnFor(P, waiting[l]));
        }
      }
    }
  }

  lemma DrawnLeads(P: Params, p: Packet, waiting: seq<Transaction>, rest: seq<Transaction>,
                    old0: seq<seq<seq<Packet>>>, new0: seq<seq<seq<Packet>>>, extra: seq<Packet>)
    requires Leads(P, p, waiting, old0) && DrawnFrom(old0, new0, extra)
    requires forall j :: 0 <= j < |rest| ==> rest[j] in waiting
    requires forall k :: 0 <= k < |extra| ==> Before(p, extra[k])
    ensures Leads(P, p, rest, new0)
  {
    forall j | 0 <= j < |rest| ensures Before(p, ColumnFor(P, rest[j])) {
      var l :| 0 <= l < |waiting| && waiting[l] == rest[j];
      assert Before(p, ColumnFor(P, waiting[l]));
    }
    forall r, x, i | 0 <= r < |new0| && 0 <= x < |new0[r]| && 0 <= i < |new0[r][x]| ensures Before(p, new0[r][x][i]) {
      if new0[r][x][i] in old0[r][x] {
        var k :| 0 <= k < |old0[r][x]| && old0[r][x][k] == new0[r][x][i];
        assert Before(p, old0[r][x][k]);
      }
    }
  }

  lemma EditDraws(P: Params, T: Table, Q: QueueState, now: nat, e: Edit, d: Popped)
    requires ValidParams(P) && TableShape(P, T) && QueueShape(P, Q) && QueueShape(P, d.queue)
    requires Explains(P, T, Q, now, e, d)
    ensures DrawnFrom(Q.queues, d.queue.queues, [])
  {
    forall r | 0 <= r < P.ranks ensures |d.queue.queues[r]| == |Q.queues[r]| {
      EditedEntries(P, T, Q, now, e, d, r, 0);
    }
    forall r, x, i | 0 <= r < P.ranks && 0 <= x < |d.queue.queues[r]| && 0 <= i < |d.queue.queues[r][x]|
      ensures d.queue.queues[r][x][i] in Q.queues[r][x]
    {
      EditedEntries(P, T, Q, now, e, d, r, x);
    }
  }

  lemma PopNumbers(P: Params, T: Table, Q: QueueState, now: nat, e: Edit, d: Popped,
                   accepted: seq<Transaction>, waiting: seq<Transaction>, issued: seq<Issue>)
    requires ValidParams(P) && TableShape(P, T) && QueueShape(P, Q) && QueueShape(P, d.queue)
    requires GoodQueues(P, T, Q) && Explains(P, T, Q, now, e, d)
    requires QueuesNumbered(P, accepted, waiting, Q.queues) && IssuedInOrder(P, accepted, waiting, Q.queues, issued)
    ensures QueuesNumbered(P, accepted, waiting, d.queue.queues)
    ensures IssuedInOrder(P, accepted, waiting, d.queue.queues,
                          if d.packet.Some? then issued + [Issue(now, d.packet.value)] else issued)
  {
    EditDraws(P, T, Q, now, e, d);
    DrawnNumbered(P, accepted, waiting, waiting, Q.queues, d.queue.queues, []);
    IssuedStillLead(P, accepted, waiting, Q.queues, d.queue.queues, issued);
    if d.packet.Some? {
      PoppedLeads(P, T, Q, now, e, d, accepted, waiting);
      PoppedIsNext(P, T, Q, now, e, d, accepted, waiting, issued);
    }
  }

  lemma IssuedStillLead(P: Params, accepted: seq<Transaction>, waiting: seq<Transaction>,
                        old0: seq<seq<seq<Packet>>>, new0: seq<seq<seq<Packet>>>, issued: seq<Issue>)
    requires IssuedInOrder(P, accepted, waiting, old0, issued) && DrawnFrom(old0, new0, [])
    ensures IssuedInOrder(P, accepted, waiting, new0, issued)
  {
    forall k | 0 <= k < |issued| ensures Leads(P, issued[k].packet, waiting, new0) {
      DrawnLeads(P, issued[k].packet, waiting, waiting, old0, new0, []);
    }
  }

  lemma PoppedIsNext(P: Params, T: Table, Q: QueueState, now: nat, e: Edit, d: Popped,
                     accepted: seq<Transaction>, waiting: seq<Transaction>, issued: seq<Issue>)
    requires ValidParams(P) && TableShape(P, T) && QueueShape(P, Q) && QueueShape(P, d.queue)
    requires Explains(P, T, Q, now, e, d) && d.packet.Some? && IssuedInOrder(P, accepted, waiting, Q.queues, issued)
    ensures forall k :: 0 <= k < |issued| ==> Before(issued[k].packet, d.packet.value)
  {
    forall k | 0 <= k < |issued| ensures Before(issued[k].packet, d.packet.value) {
      assert Leads(P, issued[k].packet, waiting, Q.queues);
      if IsColumn(d.packet.value.kind) {
        assert Q.queues[e.slot.rank][QueueIndex(P, e.slot.bank)][e.index] == d.packet.value;
      }
    }
  }

  lemma PoppedLeads(P: Params, T: Table, Q: QueueState, now: nat, e: Edit, d: Popped,
                    accepted: seq<Transaction>, waiting: seq<Transaction>)
    requires ValidParams(P) && TableShape(P, T) && QueueShape(P, Q) && QueueShape(P, d.queue)
    requires GoodQueues(P, T, Q) && Explains(P, T, Q, now, e, d) && d.packet.Some?
    requires QueuesNumbered(P, accepted, waiting, Q.queues)
    ensures Leads(P, d.packet.value, waiting, d.queue.queues)
    ensures IsColumn(d.packet.value.kind) ==> FromAccepted(P, accepted, d.packet.value)
  {
    var p, queues := d.packet.value, d.queue.queues;
    if IsColumn(p.kind) {
      assert Q.queues[e.slot.rank][QueueIndex(P, e.slot.bank)][e.index] == p;
    }
    forall r, x, i | 0 <= r < |queues| && 0 <= x < |queues[r]| && 0 <= i < |queues[r][x]|
      ensures Before(p, queues[r][x][i])
    {
      PopLeads(P, T, Q, now, e, d, r, x, i);
    }
  }

  // The transaction being split is the first one waiting for its queue.
  lemma SplitIsFirst(P: Params, s: System, i: nat, j: nat)
    requires ValidParams(P) && Shape(P, s) && Orderly(P, s)
    requires i == NextToSplit(P, s.mc.queue, s.mc.transactions, 0) && i < |s.mc.transactions|
    requires j < |s.mc.transactions| - 1
    ensures Before(ColumnFor(P, s.mc.transactions[i]), ColumnFor(P, RemoveAt(s.mc.transactions, i)[j]))
  {
    var ts := s.mc.transactions;
    if j < i {
      assert !HasRoomFor(P, s.mc.queue, 2, SlotOf(P, ts[j].address));
    }
  }

  lemma SplitOrder(P: Params, s: System, u: System, i: nat)
    requires ValidParams(P) && Shape(P, s) && Orderly(P, s) && Shape(P, u)
    requires i == NextToSplit(P, s.mc.queue, s.mc.transactions, 0) && i < |s.mc.transactions|
    requires u.log == s.log && u.mc.transactions == RemoveAt(s.mc.transactions, i)
    requires var t := s.mc.transactions[i];
             u.mc.queue == SetQueue(P, s.mc.queue, SlotOf(P, t.address),
               GetQueue(P, s.mc.queue, SlotOf(P, t.address)) + [ActivateFor(P, t), ColumnFor(P, t)])
    ensures Orderly(P, u)
  {
    var t, ts, rest := s.mc.transactions[i], s.mc.transactions, u.mc.transactions;
    var extra := [ActivateFor(P, t), ColumnFor(P, t)];
    forall j | 0 <= j < |rest| ensures rest[j] in ts && Before(ColumnFor(P, t), ColumnFor(P, rest[j])) {
      SplitIsFirst(P, s, i, j);
    }
    assert DrawnFrom(s.mc.queue.queues, u.mc.queue.queues, extra);
    DrawnNumbered(P, s.log.accepted, ts, rest, s.mc.queue.queues, u.mc.queue.queues, extra);
    forall k | 0 <= k < |s.log.issued| ensures Leads(P, s.log.issued[k].packet, rest, u.mc.queue.queues) {
      assert Leads(P, s.log.issued[k].packet, ts, s.mc.queue.queues);
      DrawnLeads(P, s.log.issued[k].packet, ts, rest, s.mc.queue.queues, u.mc.queue.queues, extra);
    }
    assert Numbered(s.log.accepted, rest);
  }

  lemma AcceptOrder(P: Params, s: System, isRead: bool, address: nat)
    requires ValidParams(P) && Shape(P, s) && Orderly(P, s)
    ensures Orderly(P, Accept(P, s, isRead, address))
  {
  }
}
