/** Each phase of a cycle keeps the accounts. */
module DramLedgerSteps {
  import opened Basics
  import opened DramTypes
  import opened RankModel
  import opened CommandQueueSpec
  import opened MemorySystemSpec
  import opened DramPop
  import opened DramBus
  import opened DramLedger
  import opened Totals

  ghost predicate Accounted(P: Params, s: System)
  {
    Balanced(BooksOf(P, s)) && forall i :: 0 <= i < |s.mc.pendingReads| ==> s.mc.pendingReads[i].isRead
  }

  // s and u agree on everything the books mention.
  ghost predicate SameBooks(s: System, u: System)
  {
    && u.log == s.log && u.mc.transactions == s.mc.transactions && u.mc.pendingReads == s.mc.pendingReads
    && u.mc.queue.queues == s.mc.queue.queues && u.mc.cmd == s.mc.cmd && u.mc.readData == s.mc.readData
    && |u.ranks| == |s.ranks| && forall r :: 0 <= r < |s.ranks| ==> Owed(u.ranks[r]) == Owed(s.ranks[r])
  }

  lemma SameBooksKeeps(P: Params, s: System, u: System)
    requires Accounted(P, s) && SameBooks(s, u)
    ensures Accounted(P, u)
  {
    SameOwed(s.ranks, u.ranks);
  }

  // u differs from s only in its ranks and in data newly received.
  lemma TickBooks(P: Params, s: System, u: System, out: seq<Packet>)
    requires Accounted(P, s) && u.log == s.log && u.mc == s.mc.(readData := s.mc.readData + Addresses(out))
    requires Total(AddressOf, AllOwed(s.ranks)) == Total(AddressOf, out) + Total(AddressOf, AllOwed(u.ranks))
    ensures Accounted(P, u)
  {
    AddressesTotal(out);
    var b := BooksOf(P, s);
    HandOver(b, Total(AddressOf, out), Total(AddressOf, AllOwed(u.ranks)));
    assert multiset(s.mc.readData + Addresses(out)) == multiset(s.mc.readData) + multiset(Addresses(out));
    assert BooksOf(P, u) == b.(owed := Total(AddressOf, AllOwed(u.ranks)), data := b.data + Total(AddressOf, out));
  }

  lemma TickRanksAccounts(P: Params, s: System)
    requires ValidParams(P) && Shape(P, s) && Accounted(P, s) && GoodBuses(P, s, s.now - 1) && TickRanks(P, s).Ok?
    ensures Accounted(P, TickRanks(P, s).value)
  {
    var u := TickRanks(P, s).value;
    forall r | 0 <= r < P.ranks
      ensures !Overwrites(s.ranks[r]) && |s.ranks[r].returnPackets| == |s.ranks[r].returnCountdowns|
    {
      TickPipe(P, s.ranks[r]);
    }
    TickOwed(P, s.ranks, u.ranks);
    TickBooks(P, s, u, Delivered(P, s.ranks));
  }

  lemma DeliverBooks(P: Params, s: System, u: System, p: Packet, d: RankState)
    requires Accounted(P, s) && s.mc.cmd == Some(p) && p.rank < |s.ranks|
    requires u.log == s.log && u.mc == s.mc.(cmd := None, cmdCyclesLeft := u.mc.cmdCyclesLeft)
    requires u.ranks == s.ranks[p.rank := d]
    requires Owed(d) == Owed(s.ranks[p.rank]) + (if IsRead(p.kind) then [p.(kind := DATA)] else [])
    ensures Accounted(P, u)
  {
    var got := if IsRead(p.kind) then [p.(kind := DATA)] else [];
    ReceiveOwed(s.ranks, p.rank, d, got);
    TotalOne(ReadOf, p);
    if IsRead(p.kind) { TotalOne(AddressOf, p.(kind := DATA)); }
    var b := BooksOf(P, s);
    Deliver(b);
    assert BooksOf(P, u) == b.(busReads := multiset{}, owed := b.owed + b.busReads);
  }

  lemma ReceiveOwes(P: Params, d: RankState, p: Packet, now: nat)
    requires ValidParams(P)
    ensures Owed(Receive(P, d, p, now)) == Owed(d) + (if IsRead(p.kind) then [p.(kind := DATA)] else [])
  {
  }

  lemma CommandBusEffect(P: Params, s: System)
    requires ValidParams(P) && Shape(P, s) && CommandBus(P, s).Ok?
    ensures var u := CommandBus(P, s).value;
            if s.mc.cmd.Some? && u.mc.cmd.None? then
              && u.log == s.log && u.mc == s.mc.(cmd := None, cmdCyclesLeft := u.mc.cmdCyclesLeft)
              && u.ranks == s.ranks[s.mc.cmd.value.rank := Receive(P, s.ranks[s.mc.cmd.value.rank], s.mc.cmd.value,
                 s.now)]
            else SameBooks(s, u)
  {
  }

  lemma CommandBusAccounts(P: Params, s: System)
    requires ValidParams(P) && Shape(P, s) && Accounted(P, s) && CommandBus(P, s).Ok?
    ensures Accounted(P, CommandBus(P, s).value)
  {
    CommandBusEffect(P, s);
    var u := CommandBus(P, s).value;
    if s.mc.cmd.Some? && u.mc.cmd.None? {
      var p := s.mc.cmd.value;
      ReceiveOwes(P, s.ranks[p.rank], p, s.now);
      DeliverBooks(P, s, u, p, Receive(P, s.ranks[p.rank], p, s.now));
    } else {
      SameBooksKeeps(P, s, u);
    }
  }

  lemma SettleAccounts(P: Params, s: System)
    requires ValidParams(P) && Shape(P, s) && Accounted(P, s) && GoodBuses(P, s, s.now - 1) && Settle(P, s).Ok?
    ensures Accounted(P, Settle(P, s).value)
  {
    var s0 := TickRanks(P, s).value;
    TickRanksAccounts(P, s);
    var c := CountDown(P, s0);
    SameBooksKeeps(P, s0, c);
    var s1 := CommandBus(P, c).value;
    CommandBusAccounts(P, c);
    SendWriteSame(P, s1);
    SameBooksKeeps(P, s1, SendWriteData(P, DataBus(P, s1)).value);
  }

  lemma SendWriteSame(P: Params, s: System)
    requires Shape(P, s) && SendWriteData(P, DataBus(P, s)).Ok?
    ensures SameBooks(s, SendWriteData(P, DataBus(P, s)).value)
  {
  }

  lemma SendBooks(P: Params, s: System, u: System, p: Packet, queues: seq<seq<seq<Packet>>>)
    requires Accounted(P, s) && s.mc.cmd.None?
    requires Total(ColumnOf, AllPackets(s.mc.queue.queues)) == Total(ColumnOf, AllPackets(queues)) + ColumnOf(p)
    requires Total(ReadOf, AllPackets(s.mc.queue.queues)) == Total(ReadOf, AllPackets(queues)) + ReadOf(p)
    requires u.ranks == s.ranks && u.log == s.log.(issued := s.log.issued + [Issue(s.now, p)])
    requires u.mc.queue.queues == queues && u.mc.cmd == Some(p)
    requires u.mc.transactions == s.mc.transactions && u.mc.pendingReads == s.mc.pendingReads
    requires u.mc.readData == s.mc.readData
    ensures Accounted(P, u)
  {
    TotalConcat(IssuedColumn, s.log.issued, [Issue(s.now, p)]);
    TotalOne(IssuedColumn, Issue(s.now, p));
    TotalOne(ReadOf, p);
    var b := BooksOf(P, s);
    Send(b, Total(ColumnOf, AllPackets(queues)), ColumnOf(p), Total(ReadOf, AllPackets(queues)), ReadOf(p));
    assert BooksOf(P, u) == b.(queued := Total(ColumnOf, AllPackets(queues)), issued := b.issued + ColumnOf(p),
                               queuedReads := Total(ReadOf, AllPackets(queues)), busReads := ReadOf(p));
  }

  // c's packet left the queues Q.queues, which are those of s.
  lemma DispatchAccounts(P: Params, s: System, Q: QueueState, e: Edit, d: Popped, c: Popped)
    requires ValidParams(P) && Shape(P, s) && QueueShape(P, c.queue) && s.mc.cmd.None? && Accounted(P, s)
    requires QueueShape(P, Q) && Q.queues == s.mc.queue.queues
    requires QueueShape(P, d.queue) && Explains(P, s.mc.table, Q, s.now, e, d)
    requires c.packet == d.packet && c.queue.queues == d.queue.queues
    requires c.packet.Some? ==> InRange(P, Slot(c.packet.value.rank, c.packet.value.bank))
    ensures Dispatch(P, s, c).Ok? && Accounted(P, Dispatch(P, s, c).value)
  {
    PopTotal(ColumnOf, P, s.mc.table, Q, s.now, e, d);
    PopTotal(ReadOf, P, s.mc.table, Q, s.now, e, d);
    DispatchBooks(P, s, c);
    if c.packet.Some? {
      SendBooks(P, s, Dispatch(P, s, c).value, c.packet.value, c.queue.queues);
    } else {
      EmptyPop(P, s, Dispatch(P, s, c).value);
    }
  }

  lemma DispatchBooks(P: Params, s: System, c: Popped)
    requires ValidParams(P) && Shape(P, s) && QueueShape(P, c.queue) && s.mc.cmd.None?
    requires c.packet.Some? ==> InRange(P, Slot(c.packet.value.rank, c.packet.value.bank))
    ensures Dispatch(P, s, c).Ok?
    ensures var u := Dispatch(P, s, c).value;
            && u.ranks == s.ranks && u.mc.transactions == s.mc.transactions && u.mc.pendingReads == s.mc.pendingReads
            && u.mc.readData == s.mc.readData && u.mc.queue == c.queue
            && (if c.packet.Some? then
                  u.log == s.log.(issued := s.log.issued + [Issue(s.now, c.packet.value)]) && u.mc.cmd == c.packet
                else u.log == s.log && u.mc == s.mc.(queue := c.queue))
  {
  }

  lemma EmptyPop(P: Params, s: System, u: System)
    requires Accounted(P, s) && u.ranks == s.ranks && u.log == s.log && u.mc == s.mc.(queue := u.mc.queue)
    requires Total(ColumnOf, AllPackets(u.mc.queue.queues)) == Total(ColumnOf, AllPackets(s.mc.queue.queues))
    requires Total(ReadOf, AllPackets(u.mc.queue.queues)) == Total(ReadOf, AllPackets(s.mc.queue.queues))
    ensures Accounted(P, u)
  {
    assert BooksOf(P, u) == BooksOf(P, s);
  }

  lemma SplitTotal<B>(f: Packet -> multiset<B>, P: Params, Q: QueueState, slot: Slot, a: Packet, c: Packet)
    requires ValidParams(P) && QueueShape(P, Q) && InRange(P, slot) && f(a) == multiset{}
    ensures Total(f, AllPackets(SetQueue(P, Q, slot, GetQueue(P, Q, slot) + [a, c]).queues))
      == Total(f, AllPackets(Q.queues)) + f(c)
  {
    var q := GetQueue(P, Q, slot);
    EditTotal(f, Q.queues, slot.rank, QueueIndex(P, slot.bank), q + [a, c]);
    TotalConcat(f, q, [a, c]);
    assert [a, c] == [a] + [c];
    TotalConcat(f, [a], [c]);
    TotalOne(f, a);
    TotalOne(f, c);
    Grow(Total(f, AllPackets(SetQueue(P, Q, slot, q + [a, c]).queues)), Total(f, q), Total(f, AllPackets(Q.queues)),
      Total(f, q + [a, c]), f(c));
  }

  lemma Grow<B>(after: multiset<B>, q: multiset<B>, before: multiset<B>, u: multiset<B>, added: multiset<B>)
    requires after + q == before + u && u == q + added
    ensures after == before + added
  {
    forall x ensures after[x] == (before + added)[x] {
      assert (after + q)[x] == (before + u)[x];
    }
  }

  lemma SplitBooks(P: Params, s: System, u: System, i: nat, t: Transaction)
    requires Accounted(P, s) && i < |s.mc.transactions| && t == s.mc.transactions[i]
    requires Total(ColumnOf, AllPackets(u.mc.queue.queues)) == Total(ColumnOf, AllPackets(s.mc.queue.queues))
      + multiset{ColumnFor(P, t)}
    requires Total(ReadOf, AllPackets(u.mc.queue.queues)) == Total(ReadOf, AllPackets(s.mc.queue.queues))
      + ReadAddress(t)
    requires u.ranks == s.ranks && u.log == s.log && u.mc.cmd == s.mc.cmd && u.mc.readData == s.mc.readData
    requires u.mc.transactions == RemoveAt(s.mc.transactions, i)
    requires u.mc.pendingReads == s.mc.pendingReads + (if t.isRead then [t] else [])
    ensures Accounted(P, u)
  {
    TotalRemove(WholeColumn(P), s.mc.transactions, i);
    TotalRemove(ReadAddress, s.mc.transactions, i);
    PendingGrows(s.mc.pendingReads, t);
    var b := BooksOf(P, s);
    Break(b, Total(WholeColumn(P), u.mc.transactions), multiset{ColumnFor(P, t)},
      Total(ReadAddress, u.mc.transactions), ReadAddress(t));
    assert BooksOf(P, u)
      == b.(whole := Total(WholeColumn(P), u.mc.transactions), queued := b.queued + multiset{ColumnFor(P, t)},
                               wholeReads := Total(ReadAddress, u.mc.transactions),
                               pending := b.pending + ReadAddress(t), queuedReads := b.queuedReads + ReadAddress(t));
  }

  lemma PendingGrows(pend: seq<Transaction>, t: Transaction)
    ensures Total(ReadAddress, pend + (if t.isRead then [t] else [])) == Total(ReadAddress, pend) + ReadAddress(t)
  {
    if t.isRead {
      TotalConcat(ReadAddress, pend, [t]);
      TotalOne(ReadAddress, t);
    } else {
      assert pend + [] == pend;
    }
  }

  lemma SplitEffect(P: Params, s: System)
    requires ValidParams(P) && Shape(P, s) && SplitTransaction(P, s).Ok?
    requires NextToSplit(P, s.mc.queue, s.mc.transactions, 0) < |s.mc.transactions|
    ensures var i := NextToSplit(P, s.mc.queue, s.mc.transactions, 0);
            var u, t := SplitTransaction(P, s).value, s.mc.transactions[i];
            && u == s.(mc := s.mc.(transactions := u.mc.transactions, queue := u.mc.queue,
               pendingReads := u.mc.pendingReads))
            && u.mc.transactions == RemoveAt(s.mc.transactions, i)
            && u.mc.queue == SetQueue(P, s.mc.queue, SlotOf(P, t.address),
                 GetQueue(P, s.mc.queue, SlotOf(P, t.address)) + [ActivateFor(P, t), ColumnFor(P, t)])
            && u.mc.pendingReads == s.mc.pendingReads + (if t.isRead then [t] else [])
  {
  }

  lemma SplitKeeps(P: Params, s: System, u: System, i: nat, t: Transaction)
    requires ValidParams(P) && Shape(P, s) && Accounted(P, s) && i < |s.mc.transactions| && t == s.mc.transactions[i]
    requires u.ranks == s.ranks && u.log == s.log && u.mc.cmd == s.mc.cmd && u.mc.readData == s.mc.readData
    requires u.mc.transactions == RemoveAt(s.mc.transactions, i)
    requires u.mc.queue == SetQueue(P, s.mc.queue, SlotOf(P, t.address),
               GetQueue(P, s.mc.queue, SlotOf(P, t.address)) + [ActivateFor(P, t), ColumnFor(P, t)])
    requires u.mc.pendingReads == s.mc.pendingReads + (if t.isRead then [t] else [])
    ensures Accounted(P, u)
  {
    SplitTotals(P, s.mc.queue, t);
    SplitBooks(P, s, u, i, t);
  }

  lemma SplitTotals(P: Params, Q: QueueState, t: Transaction)
    requires ValidParams(P) && QueueShape(P, Q)
    ensures var R := SetQueue(P, Q, SlotOf(P, t.address),
      GetQueue(P, Q, SlotOf(P, t.address)) + [ActivateFor(P, t), ColumnFor(P, t)]);
            && Total(ColumnOf, AllPackets(R.queues)) == Total(ColumnOf, AllPackets(Q.queues))
               + multiset{ColumnFor(P, t)}
            && Total(ReadOf, AllPackets(R.queues)) == Total(ReadOf, AllPackets(Q.queues)) + ReadAddress(t)
  {
    SplitTotal(ColumnOf, P, Q, SlotOf(P, t.address), ActivateFor(P, t), ColumnFor(P, t));
    SplitTotal(ReadOf, P, Q, SlotOf(P, t.address), ActivateFor(P, t), ColumnFor(P, t));
  }

  lemma SplitAccounts(P: Params, s: System)
    requires ValidParams(P) && Shape(P, s) && Accounted(P, s) && SplitTransaction(P, s).Ok?
    ensures Accounted(P, SplitTransaction(P, s).value)
  {
    var i := NextToSplit(P, s.mc.queue, s.mc.transactions, 0);
    if i < |s.mc.transactions| {
      SplitEffect(P, s);
      SplitKeeps(P, s, SplitTransaction(P, s).value, i, s.mc.transactions[i]);
    }
  }

  lemma AnswerBooks(P: Params, s: System, u: System, i: nat)
    requires Accounted(P, s) && i < |s.mc.pendingReads| && s.mc.readData != []
    requires s.mc.pendingReads[i].address == s.mc.readData[0]
    requires u.ranks == s.ranks && u.log == s.log.(returned := s.log.returned + [s.mc.readData[0]])
    requires u.mc == s.mc.(pendingReads := RemoveAt(s.mc.pendingReads, i), readData := s.mc.readData[1..])
    ensures Accounted(P, u)
  {
    var a := s.mc.readData[0];
    TotalRemove(ReadAddress, s.mc.pendingReads, i);
    HeadOut(s.mc.readData);
    LastIn(s.log.returned, a);
    var b := BooksOf(P, s);
    Answer(b, Total(ReadAddress, u.mc.pendingReads), multiset(u.mc.readData), multiset{a});
    assert BooksOf(P, u) == b.(pending := Total(ReadAddress, u.mc.pendingReads), data := multiset(u.mc.readData),
                               returned := b.returned + multiset{a});
  }

  lemma HeadOut<B>(q: seq<B>)
    requires q != []
    ensures multiset(q) == multiset(q[1..]) + multiset{q[0]} && q[0] in multiset(q)
  {
    assert q == [q[0]] + q[1..];
  }

  lemma LastIn<B>(q: seq<B>, a: B)
    ensures multiset(q + [a]) == multiset(q) + multiset{a}
  {
  }

  lemma ReturnEffect(P: Params, s: System, i: nat)
    requires Shape(P, s) && s.mc.readData != []
    requires i == FirstPending(s.mc.pendingReads, s.mc.readData[0], 0) && i < |s.mc.pendingReads|
    ensures ReturnRead(P, s).Ok?
    ensures ReturnRead(P, s).value ==
            s.(mc := s.mc.(pendingReads := RemoveAt(s.mc.pendingReads, i), readData := s.mc.readData[1..]),
               log := s.log.(returned := s.log.returned + [s.mc.readData[0]]))
  {
  }

  lemma DataIsPending(b: Books, a: nat)
    requires Balanced(b) && a in b.data
    ensures a in b.pending
  {
  }

  // A finished read always finds the transaction it answers.
  lemma ReturnReadAccounts(P: Params, s: System)
    requires Shape(P, s) && Accounted(P, s)
    ensures ReturnRead(P, s).Ok? && Accounted(P, ReturnRead(P, s).value)
  {
    if s.mc.readData != [] {
      HeadOut(s.mc.readData);
      DataIsPending(BooksOf(P, s), s.mc.readData[0]);
      PendingMember(s.mc.pendingReads, s.mc.readData[0]);
      var i := FirstPending(s.mc.pendingReads, s.mc.readData[0], 0);
      ReturnEffect(P, s, i);
      AnswerBooks(P, s, ReturnRead(P, s).value, i);
    }
  }

  lemma AcceptAccounts(P: Params, s: System, isRead: bool, address: nat)
    requires Shape(P, s) && Accounted(P, s)
    ensures Accounted(P, Accept(P, s, isRead, address))
  {
    var u := Accept(P, s, isRead, address);
    if |s.mc.transactions| < P.transDepth {
      var t := Transaction(isRead, address, |s.log.accepted|);
      TotalConcat(WholeColumn(P), s.log.accepted, [t]);
      TotalConcat(WholeColumn(P), s.mc.transactions, [t]);
      TotalOne(WholeColumn(P), t);
      TotalConcat(ReadAddress, s.log.accepted, [t]);
      TotalConcat(ReadAddress, s.mc.transactions, [t]);
      TotalOne(ReadAddress, t);
      var b := BooksOf(P, s);
      Admit(b, multiset{ColumnFor(P, t)}, ReadAddress(t));
      assert BooksOf(P, u)
        == b.(accepted := b.accepted + multiset{ColumnFor(P, t)}, whole := b.whole + multiset{ColumnFor(P, t)},
                                 acceptedReads := b.acceptedReads + ReadAddress(t),
                                   wholeReads := b.wholeReads + ReadAddress(t));
    }
  }
}
