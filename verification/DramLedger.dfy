/** Where every accepted transaction is: nothing is lost, duplicated or reordered within a row. */
module DramLedger {
  import opened Basics
  import opened DramTypes
  import opened RankModel
  import opened CommandQueueSpec
  import opened MemorySystemSpec
  import opened DramPop
  import opened Totals

  function AllPackets(queues: seq<seq<seq<Packet>>>): seq<Packet> { Flatten(Flatten(queues)) }

  function ColumnOf(p: Packet): multiset<Packet> { if IsColumn(p.kind) then multiset{p} else multiset{} }

  function ReadOf(p: Packet): multiset<nat> { if IsRead(p.kind) then multiset{p.address} else multiset{} }

  function IssuedColumn(e: Issue): multiset<Packet> { ColumnOf(e.packet) }

  function ReadAddress(t: Transaction): multiset<nat> { if t.isRead then multiset{t.address} else multiset{} }

  function AddressOf(p: Packet): multiset<nat> { multiset{p.address} }

  // Data a rank still owes the controller, in the order it will leave.
  function Owed(d: RankState): seq<Packet>
  {
    (if d.outgoing.Some? then [d.outgoing.value] else []) + d.returnPackets
  }

  function OwedBy(ranks: seq<RankState>): (o: seq<seq<Packet>>)
    ensures |o| == |ranks| && forall r :: 0 <= r < |ranks| ==> o[r] == Owed(ranks[r])
  {
    seq(|ranks|, r requires 0 <= r < |ranks| => Owed(ranks[r]))
  }

  function AllOwed(ranks: seq<RankState>): seq<Packet> { Flatten(OwedBy(ranks)) }

  function OnBus(cmd: Option<Packet>): seq<Packet> { if cmd.Some? then [cmd.value] else [] }

  function WholeColumn(P: Params): Transaction -> multiset<Packet> { (t: Transaction) => multiset{ColumnFor(P, t)} }

  // The books: column accesses by packet, reads by address.
  datatype Books = Books(
    accepted: multiset<Packet>, whole: multiset<Packet>, queued: multiset<Packet>, issued: multiset<Packet>,
    acceptedReads: multiset<nat>, wholeReads: multiset<nat>, pending: multiset<nat>, returned: multiset<nat>,
    queuedReads: multiset<nat>, busReads: multiset<nat>, owed: multiset<nat>, data: multiset<nat>)

  ghost function BooksOf(P: Params, s: System): Books
  {
    Books(Total(WholeColumn(P), s.log.accepted), Total(WholeColumn(P), s.mc.transactions),
          Total(ColumnOf, AllPackets(s.mc.queue.queues)), Total(IssuedColumn, s.log.issued),
          Total(ReadAddress, s.log.accepted), Total(ReadAddress, s.mc.transactions),
          Total(ReadAddress, s.mc.pendingReads), multiset(s.log.returned),
          Total(ReadOf, AllPackets(s.mc.queue.queues)), Total(ReadOf, OnBus(s.mc.cmd)),
          Total(AddressOf, AllOwed(s.ranks)), multiset(s.mc.readData))
  }

  // Every accepted column access is still whole, queued or issued.  Every read split from its
  // transaction and not yet answered is queued, on the command bus, in a rank, or on its way up.
  // Every accepted read is whole, pending or answered.
  ghost predicate Balanced(b: Books)
  {
    && b.accepted == b.whole + b.queued + b.issued
    && b.pending == b.queuedReads + b.busReads + b.owed + b.data
    && b.acceptedReads == b.wholeReads + b.pending + b.returned
  }

  lemma HandOver(b: Books, gone: multiset<nat>, owed: multiset<nat>)
    requires Balanced(b) && b.owed == gone + owed
    ensures Balanced(b.(owed := owed, data := b.data + gone))
  {
  }

  lemma Deliver(b: Books)
    requires Balanced(b)
    ensures Balanced(b.(busReads := multiset{}, owed := b.owed + b.busReads))
  {
  }

  lemma Send(b: Books, queued: multiset<Packet>, p: multiset<Packet>, queuedReads: multiset<nat>, r: multiset<nat>)
    requires Balanced(b) && b.queued == queued + p && b.queuedReads == queuedReads + r && b.busReads == multiset{}
    ensures Balanced(b.(queued := queued, issued := b.issued + p, queuedReads := queuedReads, busReads := r))
  {
  }

  lemma Break(b: Books, whole: multiset<Packet>, p: multiset<Packet>, wholeReads: multiset<nat>, r: multiset<nat>)
    requires Balanced(b) && b.whole == whole + p && b.wholeReads == wholeReads + r
    ensures Balanced(b.(whole := whole, queued := b.queued + p, wholeReads := wholeReads,
                        pending := b.pending + r, queuedReads := b.queuedReads + r))
  {
  }

  lemma Answer(b: Books, pending: multiset<nat>, data: multiset<nat>, a: multiset<nat>)
    requires Balanced(b) && b.pending == pending + a && b.data == data + a
    ensures Balanced(b.(pending := pending, data := data, returned := b.returned + a))
  {
    assert forall x :: b.pending[x] == pending[x] + a[x];
  }

  lemma Admit(b: Books, p: multiset<Packet>, r: multiset<nat>)
    requires Balanced(b)
    ensures Balanced(b.(accepted := b.accepted + p, whole := b.whole + p,
                        acceptedReads := b.acceptedReads + r, wholeReads := b.wholeReads + r))
  {
  }

  // ---------- sequence bookkeeping

  lemma FlattenThree<A>(c: seq<seq<A>>, row: seq<seq<A>>, d: seq<seq<A>>)
    ensures Flatten(c + row + d) == Flatten(c) + Flatten(row) + Flatten(d)
  {
    FlattenConcat(c + row, d);
    FlattenConcat(c, row);
  }

  lemma EditPackets(queues: seq<seq<seq<Packet>>>, r: nat, x: nat, u: seq<Packet>)
    returns (a: seq<Packet>, b: seq<Packet>)
    requires r < |queues| && x < |queues[r]|
    ensures AllPackets(queues) == a + queues[r][x] + b
    ensures AllPackets(queues[r := queues[r][x := u]]) == a + u + b
  {
    var row := queues[r][x := u];
    var c, d := FlattenUpdate(queues, r, row);
    var a1, b1 := FlattenUpdate(queues[r], x, u);
    FlattenThree(c, queues[r], d);
    FlattenThree(c, row, d);
    a, b := Flatten(c) + a1, b1 + Flatten(d);
    Regroup(Flatten(c), a1, queues[r][x], b1, Flatten(d));
    Regroup(Flatten(c), a1, u, b1, Flatten(d));
  }

  // Replacing one queue changes a total by the difference of that queue's totals.
  lemma EditTotal<B>(f: Packet -> multiset<B>, queues: seq<seq<seq<Packet>>>, r: nat, x: nat, u: seq<Packet>)
    requires r < |queues| && x < |queues[r]|
    ensures Total(f, AllPackets(queues[r := queues[r][x := u]])) + Total(f, queues[r][x])
            == Total(f, AllPackets(queues)) + Total(f, u)
  {
    var q := queues[r][x];
    var a, b := EditPackets(queues, r, x, u);
    TotalConcat(f, a + q, b);
    TotalConcat(f, a, q);
    TotalConcat(f, a + u, b);
    TotalConcat(f, a, u);
  }

  lemma PairTotal<B>(f: Packet -> multiset<B>, q: seq<Packet>, i: nat)
    requires 0 < i < |q| && f(q[i - 1]) == multiset{}
    ensures Total(f, q) == Total(f, q[..i - 1] + q[i + 1..]) + f(q[i])
  {
    var x, y := q[..i - 1], q[i + 1..];
    assert q == x + [q[i - 1], q[i]] + y;
    TotalInsert(f, x, [q[i - 1], q[i]], y);
    assert [q[i - 1], q[i]] == [q[i - 1]] + [q[i]];
    TotalConcat(f, [q[i - 1]], [q[i]]);
    TotalOne(f, q[i - 1]);
    TotalOne(f, q[i]);
  }

  // A pop takes exactly its own column access out of the queues; a discarded activate counts for nothing.
  lemma PopTotal<B>(f: Packet -> multiset<B>, P: Params, T: Table, Q: QueueState, now: nat, e: Edit, c: Popped)
    requires ValidParams(P) && TableShape(P, T) && QueueShape(P, Q) && QueueShape(P, c.queue)
    requires Explains(P, T, Q, now, e, c)
    requires forall p: Packet :: !IsColumn(p.kind) ==> f(p) == multiset{}
    ensures Total(f, AllPackets(Q.queues))
            == Total(f, AllPackets(c.queue.queues)) + (if c.packet.Some? then f(c.packet.value) else multiset{})
  {
    if e.Activate? || e.Column? || e.Pair? {
      var q, i := GetQueue(P, Q, e.slot), e.index;
      var u := if e.Pair? then q[..i - 1] + q[i + 1..] else RemoveAt(q, i);
      EditTotal(f, Q.queues, e.slot.rank, QueueIndex(P, e.slot.bank), u);
      if e.Pair? { PairTotal(f, q, i); } else { TotalRemove(f, q, i); }
      Cancel(Total(f, AllPackets(c.queue.queues)), Total(f, q), Total(f, AllPackets(Q.queues)), Total(f, u), f(q[i]));
    }
  }

  lemma TickSplits(P: Params, d: RankState)
    requires !Overwrites(d) && |d.returnPackets| == |d.returnCountdowns|
    ensures Owed(d) == Handed(P, d) + Owed(Tick(P, d).0)
  {
  }

  lemma TickOwed(P: Params, ranks: seq<RankState>, ticked: seq<RankState>)
    requires |ticked| == |ranks| && forall r :: 0 <= r < |ranks| ==> ticked[r] == Tick(P, ranks[r]).0
    requires forall r :: 0 <= r < |ranks| ==>
      !Overwrites(ranks[r]) && |ranks[r].returnPackets| == |ranks[r].returnCountdowns|
    ensures Total(AddressOf, AllOwed(ranks)) == Total(AddressOf, Delivered(P, ranks))
      + Total(AddressOf, AllOwed(ticked))
  {
    var handed := seq(|ranks|, r requires 0 <= r < |ranks| => Handed(P, ranks[r]));
    forall r | 0 <= r < |ranks| ensures OwedBy(ranks)[r] == handed[r] + OwedBy(ticked)[r] {
      TickSplits(P, ranks[r]);
    }
    FlattenSplit(AddressOf, OwedBy(ranks), handed, OwedBy(ticked));
  }

  lemma {:induction false} AddressesTotal(ps: seq<Packet>)
    ensures multiset(Addresses(ps)) == Total(AddressOf, ps)
  {
    if ps != [] {
      var n := |ps| - 1;
      AddressesTotal(ps[..n]);
      assert Addresses(ps) == Addresses(ps[..n]) + [ps[n].address];
    }
  }

  lemma ReceiveOwed(ranks: seq<RankState>, r: nat, d: RankState, p: seq<Packet>)
    requires r < |ranks| && Owed(d) == Owed(ranks[r]) + p
    ensures Total(AddressOf, AllOwed(ranks[r := d])) == Total(AddressOf, AllOwed(ranks)) + Total(AddressOf, p)
  {
    FlattenAppend(AddressOf, OwedBy(ranks), r, p);
    assert OwedBy(ranks[r := d]) == OwedBy(ranks)[r := OwedBy(ranks)[r] + p];
  }

  lemma SameOwed(ranks: seq<RankState>, us: seq<RankState>)
    requires |us| == |ranks| && forall r :: 0 <= r < |ranks| ==> Owed(us[r]) == Owed(ranks[r])
    ensures AllOwed(us) == AllOwed(ranks)
  {
    assert OwedBy(us) == OwedBy(ranks);
  }

  lemma {:induction false} PendingMember(pend: seq<Transaction>, a: nat)
    requires a in Total(ReadAddress, pend)
    ensures exists i :: 0 <= i < |pend| && pend[i].address == a
  {
    var n := |pend| - 1;
    if a in Total(ReadAddress, pend[..n]) {
      PendingMember(pend[..n], a);
      var i :| 0 <= i < n && pend[..n][i].address == a;
      assert pend[i].address == a;
    } else {
      assert a in ReadAddress(pend[n]);
    }
  }
}
