/** What a user of the memory system may rely on, read off the invariant of every run. */
module DramResults {
  import opened DramTypes
  import opened RankModel
  import opened CommandQueueSpec
  import opened MemorySystemSpec
  import opened DramQueues
  import opened DramBus
  import opened DramLedger
  import opened DramLedgerSteps
  import opened DramOrder
  import opened DramTimers
  import opened DramRuns
  import opened DramTheorems
  import opened Totals

  // The state a run ends in.
  function Reached(P: Params, actions: seq<Action>): (s: System)
    requires ValidParams(P)
    ensures Run(P, actions) == Ok(s) && Shape(P, s) && Inv(P, s)
  {
    EveryRunIsSafe(P, actions);
    Run(P, actions).value
  }

  // Reads are neither lost nor answered twice: the accepted reads are, address by address, the
  // answered ones, the ones not yet split, and the ones in the queues, on the command bus, in the
  // ranks' pipelines or about to go up.
  lemma ReadsConserved(P: Params, actions: seq<Action>)
    requires ValidParams(P)
    ensures var s := Reached(P, actions);
            Total(ReadAddress, s.log.accepted)
            == multiset(s.log.returned) + Total(ReadAddress, s.mc.transactions)
               + Total(ReadOf, AllPackets(s.mc.queue.queues)) + Total(ReadOf, OnBus(s.mc.cmd))
               + Total(AddressOf, AllOwed(s.ranks)) + multiset(s.mc.readData)
  {
    var s := Reached(P, actions);
    assert Accounted(P, s);
    BalancedReads(BooksOf(P, s));
  }

  lemma BalancedReads(b: Books)
    requires Balanced(b)
    ensures b.acceptedReads == b.returned + b.wholeReads + b.queuedReads + b.busReads + b.owed + b.data
  {
  }

  // No column access is dropped, whatever activates the open-page path throws away.
  lemma ColumnsConserved(P: Params, actions: seq<Action>)
    requires ValidParams(P)
    ensures var s := Reached(P, actions);
            Total(WholeColumn(P), s.log.accepted)
            == Total(WholeColumn(P), s.mc.transactions) + Total(ColumnOf, AllPackets(s.mc.queue.queues))
               + Total(IssuedColumn, s.log.issued)
  {
    assert Accounted(P, Reached(P, actions));
  }

  // Accepted transactions to one address issue their column commands in acceptance order.
  lemma SameAddressInOrder(P: Params, actions: seq<Action>, k: nat, l: nat)
    requires ValidParams(P) && k < l < |Reached(P, actions).log.issued|
    requires var e := Reached(P, actions).log.issued;
             IsColumn(e[k].packet.kind) && IsColumn(e[l].packet.kind) && e[k].packet.address == e[l].packet.address
    ensures var e := Reached(P, actions).log.issued;
            e[k].packet.seqno < e[l].packet.seqno
  {
    IssuedByAddress(P, Reached(P, actions), k, l);
  }

  lemma IssuedByAddress(P: Params, s: System, k: nat, l: nat)
    requires Orderly(P, s) && k < l < |s.log.issued|
    requires IsColumn(s.log.issued[k].packet.kind) && IsColumn(s.log.issued[l].packet.kind)
    requires s.log.issued[k].packet.address == s.log.issued[l].packet.address
    ensures s.log.issued[k].packet.seqno < s.log.issued[l].packet.seqno
  {
    assert Before(s.log.issued[k].packet, s.log.issued[l].packet);
  }

  // At most four activates to one rank in any window of tFAW cycles.
  lemma FourActivateWindow(P: Params, actions: seq<Action>, r: nat, i: nat, j: nat)
    requires ValidParams(P) && r < P.ranks
    requires i + 4 <= j < |ActTimes(Reached(P, actions).log.issued, r)|
    ensures var times := ActTimes(Reached(P, actions).log.issued, r);
            times[j] - times[i] >= P.tFAW
  {
    var s := Reached(P, actions);
    ActivatesSpread(P, s, r);
  }

  lemma ActivatesSpread(P: Params, s: System, r: nat)
    requires Shape(P, s) && TimersBetween(P, s) && r < P.ranks
    ensures SpreadOut(P, ActTimes(s.log.issued, r))
  {
    assert WindowAt(P, ActTimes(s.log.issued, r), s.mc.queue.faw[r], s.now - 1);
  }

  // Rank i is asked to refresh in exactly the cycles q(i+1), q(i+1)+P, q(i+1)+2P, ...
  lemma RefreshSchedule(P: Params, actions: seq<Action>, i: nat)
    requires ValidParams(P) && ValidRefresh(P) && i < P.ranks
    ensures var s := Reached(P, actions);
            (s.mc.refreshRank == i && s.mc.refreshCountdown[i] == 0)
            <==> exists k: nat :: s.now == Due(P, i, k)
  {
    var s := Reached(P, actions);
    RequestedWhenDue(P, s, i);
  }

  lemma RequestedWhenDue(P: Params, s: System, i: nat)
    requires ValidParams(P) && ValidRefresh(P) && Shape(P, s) && TimersBetween(P, s) && i < P.ranks
    ensures (s.mc.refreshRank == i && s.mc.refreshCountdown[i] == 0)
            <==> exists k: nat :: s.now == Due(P, i, k)
  {
    RequestIffDue(P, s.mc.refreshCountdown, s.mc.refreshRank, s.now, i);
  }

  // A queued column access still has its own activate directly before it, or the row it needs is
  // open with its access budget untouched: it is never stranded.
  lemma NeverStranded(P: Params, actions: seq<Action>, r: nat, x: nat, i: nat)
    requires ValidParams(P) && r < P.ranks && x < |Reached(P, actions).mc.queue.queues[r]|
    requires i < |Reached(P, actions).mc.queue.queues[r][x]|
    ensures NotStranded(P, Reached(P, actions), r, Reached(P, actions).mc.queue.queues[r][x], i)
    ensures |Reached(P, actions).mc.queue.queues[r][x]| <= P.queueDepth
  {
    QueuedNotStranded(P, Reached(P, actions), r, x, i);
  }

  predicate NotStranded(P: Params, s: System, r: nat, q: seq<Packet>, i: nat)
    requires Shape(P, s) && r < P.ranks && i < |q|
  {
    || q[i].kind == ACTIVATE
    || (i > 0 && q[i - 1] == q[i].(kind := ACTIVATE))
    || (q[i].bank < P.banks
        && var b := s.mc.table[r][q[i].bank];
        b.status == RowActive && b.openRow == q[i].row && b.countdown == 0 && s.mc.queue.rowAccess[r][q[i].bank] == 0)
  }

  lemma QueuedNotStranded(P: Params, s: System, r: nat, x: nat, i: nat)
    requires ValidParams(P) && Shape(P, s) && GoodQueues(P, s.mc.table, s.mc.queue) && r < P.ranks
    requires x < |s.mc.queue.queues[r]| && i < |s.mc.queue.queues[r][x]|
    ensures NotStranded(P, s, r, s.mc.queue.queues[r][x], i) && |s.mc.queue.queues[r][x]| <= P.queueDepth
  {
    var q := s.mc.queue.queues[r][x];
    assert GoodQueue(P, s.mc.table, s.mc.queue, r, q);
    assert QueuedKind(P, q[i].kind);
    if Lone(q, i) {
      assert Served(P, s.mc.table, s.mc.queue, r, q[i]);
    }
  }

  // No rank ever replaces a burst still on its read bus.
  lemma NoBurstOverwritten(P: Params, actions: seq<Action>, r: nat)
    requires ValidParams(P) && r < P.ranks
    ensures !Overwrites(Reached(P, actions).ranks[r])
  {
    var s := Reached(P, actions);
    BetweenMeans(P, s);
    TickPipe(P, s.ranks[r]);
  }
}
