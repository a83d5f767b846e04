/** Everything the memory system keeps, over every run of requests and cycles. */
module DramRuns {
  import opened DramTypes
  import opened RankModel
  import opened CommandQueueSpec
  import opened MemorySystemSpec
  import opened DramSafety
  import opened DramQueues
  import opened DramPop
  import opened DramEdits
  import opened DramBus
  import opened DramLedgerSteps
  import opened DramOrder
  import opened DramTimers

  ghost predicate Core(P: Params, s: System)
    requires ValidParams(P) && Shape(P, s)
  {
    GoodQueues(P, s.mc.table, s.mc.queue) && Accounted(P, s) && Orderly(P, s)
  }

  // The simulation and the buses as of cycle t: its command chosen, the next cycle not begun.
  ghost predicate AsOf(P: Params, s: System, t: int)
    requires ValidParams(P) && Shape(P, s) && -1 <= t
  {
    Sim(P, s, t) && GoodBuses(P, s, t)
  }

  ghost predicate Between(P: Params, s: System)
    requires ValidParams(P) && Shape(P, s)
  {
    AsOf(P, s, s.now - 1)
  }

  ghost predicate Within(P: Params, s: System)
    requires ValidParams(P) && Shape(P, s)
  {
    AsOf(P, s, s.now)
  }

  lemma BetweenMeans(P: Params, s: System)
    requires ValidParams(P) && Shape(P, s) && Between(P, s)
    ensures Sim(P, s, s.now - 1) && GoodBuses(P, s, s.now - 1)
  {
  }

  lemma StillWithin(P: Params, u: System, now: nat)
    requires ValidParams(P) && Shape(P, u) && u.now == now && Sim(P, u, now) && GoodBuses(P, u, now)
    ensures Within(P, u)
  {
  }

  lemma StillBetween(P: Params, u: System, t: int)
    requires ValidParams(P) && Shape(P, u) && -1 <= t && u.now - 1 == t && Sim(P, u, t) && GoodBuses(P, u, t)
    ensures Between(P, u)
  {
  }

  // ---------- what the table-only phases do to the queues

  lemma SameQueues(P: Params, T: Table, Q: QueueState, R: QueueState)
    requires ValidParams(P) && TableShape(P, T) && QueueShape(P, Q) && QueueShape(P, R) && GoodQueues(P, T, Q)
    requires R.queues == Q.queues && R.rowAccess == Q.rowAccess
    ensures GoodQueues(P, T, R)
  {
    forall r, x | 0 <= r < P.ranks && 0 <= x < |R.queues[r]| ensures GoodQueue(P, T, R, r, R.queues[r][x]) {
      assert GoodQueue(P, T, Q, r, Q.queues[r][x]);
      forall i | Lone(Q.queues[r][x], i) ensures Served(P, T, R, r, Q.queues[r][x][i]) {
        assert Served(P, T, Q, r, Q.queues[r][x][i]);
      }
    }
  }

  // A table change that leaves every usable bank alone and opens none keeps the queues good.
  lemma TableKeepsQueues(P: Params, T: Table, U: Table, Q: QueueState)
    requires ValidParams(P) && TableShape(P, T) && TableShape(P, U) && QueueShape(P, Q) && GoodQueues(P, T, Q)
    requires forall r, b :: 0 <= r < P.ranks && 0 <= b < P.banks ==>
      && (T[r][b].status == RowActive && T[r][b].countdown == 0 ==> SameRowState(T[r][b], U[r][b]))
      && (P.closePage || U[r][b].status == RowActive || T[r][b].status != RowActive)
    ensures GoodQueues(P, U, Q)
  {
    forall r, x | 0 <= r < P.ranks && 0 <= x < |Q.queues[r]| ensures GoodQueue(P, U, Q, r, Q.queues[r][x]) {
      assert GoodQueue(P, T, Q, r, Q.queues[r][x]);
      forall i | Lone(Q.queues[r][x], i) ensures Served(P, U, Q, r, Q.queues[r][x][i]) {
        assert Served(P, T, Q, r, Q.queues[r][x][i]);
      }
    }
  }

  lemma CountDownQueues(P: Params, s: System)
    requires ValidParams(P) && Shape(P, s) && Sim(P, s, s.now - 1) && GoodQueues(P, s.mc.table, s.mc.queue)
    ensures GoodQueues(P, CountDownTable(P, s.mc.table), s.mc.queue)
  {
    var T: Table, U: Table := s.mc.table, CountDownTable(P, s.mc.table);
    forall r, b | 0 <= r < P.ranks && 0 <= b < P.banks
      ensures T[r][b].status == RowActive && T[r][b].countdown == 0 ==> SameRowState(T[r][b], U[r][b])
      ensures P.closePage || U[r][b].status == RowActive || T[r][b].status != RowActive
    {
      assert SimBank(P, T[r][b], Eff(P, s.mc.cmd, r, b, s.ranks[r].banks[b], s.now), s.now - 1);
    }
    TableKeepsQueues(P, T, U, s.mc.queue);
  }

  lemma SimIsSteady(P: Params, s: System)
    requires ValidParams(P) && Shape(P, s) && Sim(P, s, s.now)
    ensures SteadyTable(P, s.mc.table, s.now)
  {
    forall r, b | 0 <= r < P.ranks && 0 <= b < P.banks ensures Steady(P, s.mc.table[r][b], s.now) {
      assert SimBank(P, s.mc.table[r][b], Eff(P, s.mc.cmd, r, b, s.ranks[r].banks[b], s.now + 1), s.now);
    }
  }

  // ---------- the phases

  lemma SettleKeeps(P: Params, s: System)
    requires ValidParams(P) && Shape(P, s) && Sim(P, s, s.now - 1) && GoodBuses(P, s, s.now - 1) && Core(P, s)
    ensures Settle(P, s).Ok?
    ensures var u := Settle(P, s).value;
            && Settled(P, s, u) && Within(P, u)
            && WriteHorizon(P, u.mc) < WriteLatency(P) + Burst(P) && Core(P, u)
  {
    SettleEffect(P, s);
    var u := Settle(P, s).value;
    SettledClears(P, s, u);
    SettleAccounts(P, s);
    SettleCore(P, s, u);
    StillWithin(P, u, s.now);
  }

  lemma SettleCore(P: Params, s: System, u: System)
    requires ValidParams(P) && Shape(P, s) && Shape(P, u) && Sim(P, s, s.now - 1) && Core(P, s)
    requires Settled(P, s, u) && Accounted(P, u)
    ensures Core(P, u)
  {
    CountDownQueues(P, s);
  }

  // u differs from s in nothing the simulation and the buses mention.
  ghost predicate SameDevices(P: Params, s: System, u: System)
    requires Shape(P, s) && Shape(P, u)
  {
    && u.mc.table == s.mc.table && u.mc.cmd == s.mc.cmd && u.mc.cmdCyclesLeft == s.mc.cmdCyclesLeft
    && u.mc.powerDown == s.mc.powerDown && u.mc.data == s.mc.data && u.mc.dataCyclesLeft == s.mc.dataCyclesLeft
    && u.mc.writeCountdowns == s.mc.writeCountdowns
    && forall r :: 0 <= r < P.ranks ==> SameDevice(s.ranks[r], u.ranks[r])
  }

  predicate SameDevice(d: RankState, e: RankState)
  {
    && e.banks == d.banks && e.isPowerDown == d.isPowerDown && e.outgoing == d.outgoing
       && e.dataCyclesLeft == d.dataCyclesLeft
    && e.returnPackets == d.returnPackets && e.returnCountdowns == d.returnCountdowns
  }

  lemma SameDevicesKeeps(P: Params, s: System, u: System, t: int)
    requires -1 <= t && ValidParams(P) && Shape(P, s) && Shape(P, u) && SameDevices(P, s, u)
    requires Sim(P, s, t) && GoodBuses(P, s, t)
    ensures Sim(P, u, t) && GoodBuses(P, u, t)
  {
    forall r | 0 <= r < P.ranks
      ensures GoodPipe(P, u.ranks[r]) && ReadHorizon(P, u.ranks[r]) == ReadHorizon(P, s.ranks[r])
    {
      assert GoodPipe(P, s.ranks[r]);
    }
  }

  lemma RefreshTimerEffect(P: Params, s: System)
    requires ValidParams(P) && Shape(P, s)
    ensures var u := RefreshTimer(P, s);
            && u.now == s.now && u.log == s.log && SameDevices(P, s, u) && SameBooks(s, u)
            && u.mc.queue == s.mc.queue.(refreshRank := u.mc.queue.refreshRank,
               refreshWaiting := u.mc.queue.refreshWaiting)
            && (DecAll(u.mc.refreshCountdown), u.mc.refreshRank) == RefreshCycle(P, s.mc.refreshCountdown,
                 s.mc.refreshRank)
  {
  }

  // Only refresh flags and counters change.
  lemma RefreshTimerKeeps(P: Params, s: System)
    requires ValidParams(P) && Shape(P, s) && Within(P, s) && Core(P, s)
    ensures var u := RefreshTimer(P, s);
            && WriteHorizon(P, u.mc) == WriteHorizon(P, s.mc)
            && Within(P, u) && Core(P, u)
  {
    var u := RefreshTimer(P, s);
    RefreshTimerEffect(P, s);
    SameDevicesKeeps(P, s, u, s.now);
    CoreFrame(P, s, u);
    StillWithin(P, u, s.now);
  }

  lemma CoreFrame(P: Params, s: System, u: System)
    requires ValidParams(P) && Shape(P, s) && Shape(P, u) && Core(P, s) && SameBooks(s, u)
    requires u.mc.table == s.mc.table && u.mc.queue.rowAccess == s.mc.queue.rowAccess
    ensures Core(P, u)
  {
    SameQueues(P, s.mc.table, s.mc.queue, u.mc.queue);
    SameBooksKeeps(P, s, u);
  }

  lemma PopKeeps(P: Params, s: System)
    requires ValidParams(P) && Shape(P, s) && s.mc.cmd.None?
    requires Within(P, s) && WriteHorizon(P, s.mc) < WriteLatency(P) + Burst(P) && Core(P, s)
    ensures IssueCommand(P, s).Ok?
    ensures var u := IssueCommand(P, s).value;
            Within(P, u) && Busy(P, u) && Core(P, u)
  {
    PopKeepsDevices(P, s);
    PopKeepsCore(P, s);
  }

  // What the pop chooses, and why it may.
  lemma PopExplained(P: Params, s: System) returns (e: Edit)
    requires ValidParams(P) && Shape(P, s) && Sim(P, s, s.now) && GoodQueues(P, s.mc.table, s.mc.queue)
    ensures GoodQueues(P, s.mc.table, Ticked(s.mc.queue)) && SteadyTable(P, s.mc.table, s.now)
    ensures Explains(P, s.mc.table, Ticked(s.mc.queue), s.now, e, Choose(P, s.mc.table, Ticked(s.mc.queue), s.now))
    ensures var c := Pop(P, s.mc.table, s.mc.queue, s.now);
            c.packet.Some? ==> GoodPop(P, s.mc.table, c.packet.value, s.now)
  {
    var T, Q := s.mc.table, s.mc.queue;
    SimIsSteady(P, s);
    SameQueues(P, T, Q, Ticked(Q));
    e := ChooseExplained(P, T, Ticked(Q), s.now);
    PopIsChoose(P, T, Q, s.now);
    var d := Choose(P, T, Ticked(Q), s.now);
    if d.packet.Some? { ExplainedIsGood(P, T, Ticked(Q), s.now, e, d); }
  }

  lemma PopKeepsDevices(P: Params, s: System)
    requires ValidParams(P) && Shape(P, s) && s.mc.cmd.None?
    requires Within(P, s) && WriteHorizon(P, s.mc) < WriteLatency(P) + Burst(P) && GoodQueues(P, s.mc.table, s.mc.queue)
    ensures IssueCommand(P, s).Ok?
    ensures Within(P, IssueCommand(P, s).value) && Busy(P, IssueCommand(P, s).value)
  {
    var e := PopExplained(P, s);
    var c := Pop(P, s.mc.table, s.mc.queue, s.now);
    DispatchSim(P, s, c);
    DispatchBuses(P, s, c);
    StillWithin(P, IssueCommand(P, s).value, s.now);
  }

  lemma PopKeepsCore(P: Params, s: System)
    requires ValidParams(P) && Shape(P, s) && s.mc.cmd.None? && Sim(P, s, s.now) && Core(P, s)
    ensures IssueCommand(P, s).Ok? && Core(P, IssueCommand(P, s).value)
  {
    var e := PopExplained(P, s);
    var T, Q, Q0 := s.mc.table, s.mc.queue, Ticked(s.mc.queue);
    var d, c := Choose(P, T, Q0, s.now), Pop(P, T, Q, s.now);
    PopIsChoose(P, T, Q, s.now);
    DispatchAccounts(P, s, Q0, e, d, c);
    DispatchOrder(P, s, Q0, e, d, c);
    DispatchQueues(P, s, Q0, e, d, c);
  }

  function Ticked(Q: QueueState): QueueState
  {
    Q.(faw := seq(|Q.faw|, i requires 0 <= i < |Q.faw| => TickFaw(Q.faw[i])))
  }

  lemma PopIsChoose(P: Params, T: Table, Q: QueueState, now: nat)
    requires ValidParams(P) && TableShape(P, T) && QueueShape(P, Q)
    ensures var d, c := Choose(P, T, Ticked(Q), now), Pop(P, T, Q, now);
            && c.packet == d.packet && c.queue.queues == d.queue.queues && c.queue.rowAccess == d.queue.rowAccess
            && c.queue.faw == if d.packet.Some? && d.packet.value.kind == ACTIVATE
                              then d.queue.faw[d.packet.value.rank := d.queue.faw[d.packet.value.rank] + [P.tFAW]]
                                else d.queue.faw
  {
  }

  lemma DispatchQueues(P: Params, s: System, Q: QueueState, e: Edit, d: Popped, c: Popped)
    requires ValidParams(P) && Shape(P, s) && QueueShape(P, c.queue) && s.mc.cmd.None?
    requires QueueShape(P, Q) && GoodQueues(P, s.mc.table, Q) && SteadyTable(P, s.mc.table, s.now)
    requires QueueShape(P, d.queue) && Explains(P, s.mc.table, Q, s.now, e, d)
    requires c.packet == d.packet && c.queue.queues == d.queue.queues && c.queue.rowAccess == d.queue.rowAccess
    requires c.packet.Some? ==> InRange(P, Slot(c.packet.value.rank, c.packet.value.bank))
    ensures Dispatch(P, s, c).Ok?
    ensures var u := Dispatch(P, s, c).value; GoodQueues(P, u.mc.table, u.mc.queue)
  {
    var u := Dispatch(P, s, c).value;
    if c.packet.Some? { DispatchIssued(P, s, c); }
    EditKeeps(P, s.mc.table, Q, s.now, e, d, u.mc.table);
    SameQueues(P, u.mc.table, d.queue, c.queue);
  }

  // Splitting never overflows a queue.
  lemma SplitFits(P: Params, s: System)
    requires ValidParams(P) && Shape(P, s) && GoodQueues(P, s.mc.table, s.mc.queue)
    ensures SplitTransaction(P, s).Ok?
    ensures var i := NextToSplit(P, s.mc.queue, s.mc.transactions, 0);
            && (i == |s.mc.transactions| ==> SplitTransaction(P, s).value == s)
            && (i < |s.mc.transactions| ==>
                  |GetQueue(P, s.mc.queue, SlotOf(P, s.mc.transactions[i].address))| + 2 <= P.queueDepth)
  {
    var i := NextToSplit(P, s.mc.queue, s.mc.transactions, 0);
    if i < |s.mc.transactions| {
      var slot := SlotOf(P, s.mc.transactions[i].address);
      assert GoodQueue(P, s.mc.table, s.mc.queue, slot.rank, GetQueue(P, s.mc.queue, slot));
    }
  }

  // u is s with one transaction moved into a command queue.
  lemma SplitFrame(P: Params, s: System, u: System, t: Transaction)
    requires ValidParams(P) && Shape(P, s) && Shape(P, u) && Within(P, s) && Busy(P, s) && Core(P, s)
    requires t in s.mc.transactions && |GetQueue(P, s.mc.queue, SlotOf(P, t.address))| + 2 <= P.queueDepth
    requires u.now == s.now && u.ranks == s.ranks && u.log == s.log
    requires u.mc == s.mc.(transactions := u.mc.transactions, queue := u.mc.queue, pendingReads := u.mc.pendingReads)
    requires u.mc.queue == SetQueue(P, s.mc.queue, SlotOf(P, t.address),
               GetQueue(P, s.mc.queue, SlotOf(P, t.address)) + [ActivateFor(P, t), ColumnFor(P, t)])
    requires Accounted(P, u) && Orderly(P, u)
    ensures Within(P, u) && Busy(P, u) && Core(P, u)
  {
    SplitQueues(P, s, SlotOf(P, t.address), t);
    SplitSameDevices(P, s, u);
    SameDevicesKeeps(P, s, u, s.now);
    StillWithin(P, u, s.now);
  }

  lemma SplitSameDevices(P: Params, s: System, u: System)
    requires Shape(P, s) && Shape(P, u) && u.ranks == s.ranks
    requires u.mc == s.mc.(transactions := u.mc.transactions, queue := u.mc.queue, pendingReads := u.mc.pendingReads)
    ensures SameDevices(P, s, u)
  {
  }

  lemma SplitKeepsAll(P: Params, s: System)
    requires ValidParams(P) && Shape(P, s) && Within(P, s) && Busy(P, s) && Core(P, s)
    ensures SplitTransaction(P, s).Ok?
    ensures var u := SplitTransaction(P, s).value;
            && u.now == s.now && u.ranks == s.ranks && u.log == s.log
            && u.mc.refreshCountdown == s.mc.refreshCountdown && u.mc.refreshRank == s.mc.refreshRank
               && u.mc.queue.faw == s.mc.queue.faw
            && Within(P, u) && Busy(P, u) && Core(P, u)
  {
    SplitFits(P, s);
    var i := NextToSplit(P, s.mc.queue, s.mc.transactions, 0);
    if i < |s.mc.transactions| {
      SplitEffect(P, s);
      SplitAccounts(P, s);
      var u := SplitTransaction(P, s).value;
      SplitOrder(P, s, u, i);
      SplitFrame(P, s, u, s.mc.transactions[i]);
    }
  }

  lemma SplitQueues(P: Params, s: System, slot: Slot, t: Transaction)
    requires ValidParams(P) && Shape(P, s) && GoodQueues(P, s.mc.table, s.mc.queue) && Orderly(P, s)
    requires t in s.mc.transactions && slot == SlotOf(P, t.address)
    requires |GetQueue(P, s.mc.queue, slot)| + 2 <= P.queueDepth
    ensures GoodQueues(P, s.mc.table,
      SetQueue(P, s.mc.queue, slot, GetQueue(P, s.mc.queue, slot) + [ActivateFor(P, t), ColumnFor(P, t)]))
  {
    var T, Q, q := s.mc.table, s.mc.queue, GetQueue(P, s.mc.queue, slot);
    var a, c := ActivateFor(P, t), ColumnFor(P, t);
    var R := SetQueue(P, Q, slot, q + [a, c]);
    var x0 := QueueIndex(P, slot.bank);
    assert GoodQueue(P, T, Q, slot.rank, q);
    forall i | 0 <= i < |q| && IsColumn(q[i].kind) && SameRow(q[i], c) ensures q[i].seqno < c.seqno {
      assert Q.queues[slot.rank][x0][i] == q[i] && q[i].rank == slot.rank;
      var j :| 0 <= j < |s.mc.transactions| && s.mc.transactions[j] == t;
      assert Before(q[i], ColumnFor(P, s.mc.transactions[j]));
    }
    AppendPair(q, a, c);
    forall r, x | 0 <= r < P.ranks && 0 <= x < |R.queues[r]| ensures GoodQueue(P, T, R, r, R.queues[r][x]) {
      assert GoodQueue(P, T, Q, r, Q.queues[r][x]);
      forall i | Lone(R.queues[r][x], i) ensures Served(P, T, R, r, R.queues[r][x][i]) {
        assert Lone(Q.queues[r][x], i) && R.queues[r][x][i] == Q.queues[r][x][i];
        assert Served(P, T, Q, r, Q.queues[r][x][i]);
      }
    }
    SplitRouted(P, Q, slot, t);
  }

  lemma SplitRouted(P: Params, Q: QueueState, slot: Slot, t: Transaction)
    requires ValidParams(P) && QueueShape(P, Q) && Routed(P, Q) && slot == SlotOf(P, t.address)
    ensures Routed(P, SetQueue(P, Q, slot, GetQueue(P, Q, slot) + [ActivateFor(P, t), ColumnFor(P, t)]))
  {
    var q := GetQueue(P, Q, slot);
    var R := SetQueue(P, Q, slot, q + [ActivateFor(P, t), ColumnFor(P, t)]);
    forall r, x, i | 0 <= r < P.ranks && 0 <= x < |R.queues[r]| && 0 <= i < |R.queues[r][x]|
      ensures var p := R.queues[r][x][i];
              p.rank == r && p.bank < P.banks && x == QueueIndex(P, p.bank) && QueuedKind(P, p.kind)
    {
      if !(r == slot.rank && x == QueueIndex(P, slot.bank) && i >= |q|) {
        assert R.queues[r][x][i] == Q.queues[r][x][i];
      }
    }
  }

  lemma PowerQueues(P: Params, s: System)
    requires ValidParams(P) && Shape(P, s) && Sim(P, s, s.now) && ManagePower(P, s).Ok?
    requires GoodQueues(P, s.mc.table, s.mc.queue)
    ensures GoodQueues(P, ManagePower(P, s).value.mc.table, s.mc.queue)
  {
    var T: Table, U: Table := s.mc.table, ManagePower(P, s).value.mc.table;
    forall r, b | 0 <= r < P.ranks && 0 <= b < P.banks
      ensures T[r][b].status == RowActive ==> U[r][b] == T[r][b]
    {
      assert s.mc.powerDown[r] <==> T[r][b].status == PowerDown;
    }
    TableKeepsQueues(P, T, U, s.mc.queue);
  }

  lemma PowerBuses(P: Params, s: System)
    requires ValidParams(P) && Shape(P, s) && Sim(P, s, s.now) && ManagePower(P, s).Ok? && GoodBuses(P, s, s.now)
    ensures GoodBuses(P, ManagePower(P, s).value, s.now)
  {
    var u := ManagePower(P, s).value;
    forall r, b | 0 <= r < P.ranks && 0 <= b < P.banks
      ensures u.mc.table[r][b] == s.mc.table[r][b] || u.mc.table[r][b].status != RowActive
      ensures ReadHorizon(P, u.ranks[r]) == ReadHorizon(P, s.ranks[r])
    {
    }
    forall r | 0 <= r < P.ranks
      ensures GoodPipe(P, u.ranks[r]) && ReadHorizon(P, u.ranks[r]) == ReadHorizon(P, s.ranks[r])
    {
      assert GoodPipe(P, s.ranks[r]);
    }
  }

  lemma PowerEffect(P: Params, s: System)
    requires ValidParams(P) && Shape(P, s) && ManagePower(P, s).Ok?
    ensures var u := ManagePower(P, s).value;
            && SameBooks(s, u) && u.now == s.now
            && u.mc == s.mc.(table := u.mc.table, powerDown := u.mc.powerDown)
  {
  }

  lemma PowerKeeps(P: Params, s: System)
    requires ValidParams(P) && Shape(P, s) && Within(P, s) && Busy(P, s) && Core(P, s)
    ensures ManagePower(P, s).Ok?
    ensures var u := ManagePower(P, s).value;
            Within(P, u) && Core(P, u)
  {
    ManagePowerSim(P, s);
    PowerQueues(P, s);
    PowerBuses(P, s);
    PowerEffect(P, s);
    SameBooksKeeps(P, s, ManagePower(P, s).value);
    StillWithin(P, ManagePower(P, s).value, s.now);
  }

  // u differs from s in answered reads only.
  lemma AnswerFrame(P: Params, s: System, u: System)
    requires ValidParams(P) && Shape(P, s) && Shape(P, u) && Within(P, s) && Core(P, s)
    requires u == s.(mc := u.mc, log := u.log) && u.log == s.log.(returned := u.log.returned)
    requires u.mc == s.mc.(pendingReads := u.mc.pendingReads, readData := u.mc.readData) && Accounted(P, u)
    ensures Within(P, u) && Core(P, u)
  {
    SameDevicesKeeps(P, s, u, s.now);
    StillWithin(P, u, s.now);
  }

  lemma ReturnKeeps(P: Params, s: System)
    requires ValidParams(P) && Shape(P, s) && Within(P, s) && Core(P, s)
    ensures ReturnRead(P, s).Ok?
    ensures var u := ReturnRead(P, s).value;
            && Within(P, u) && Core(P, u) && u.now == s.now
            && u.mc == s.mc.(pendingReads := u.mc.pendingReads, readData := u.mc.readData)
               && u.log.issued == s.log.issued
  {
    ReturnReadAccounts(P, s);
    ReturnReadFrame(P, s);
    AnswerFrame(P, s, ReturnRead(P, s).value);
  }

  lemma ReturnReadFrame(P: Params, s: System)
    requires ValidParams(P) && Shape(P, s) && ReturnRead(P, s).Ok?
    ensures var u := ReturnRead(P, s).value;
            && u == s.(mc := u.mc, log := u.log) && u.log == s.log.(returned := u.log.returned)
            && u.mc == s.mc.(pendingReads := u.mc.pendingReads, readData := u.mc.readData)
  {
  }

  // u is s one clock tick later, with its refresh counters changed.
  lemma TickFrame(P: Params, s: System, u: System)
    requires ValidParams(P) && Shape(P, s) && Shape(P, u) && Within(P, s) && Core(P, s)
    requires u.mc == s.mc.(refreshCountdown := u.mc.refreshCountdown) && u.ranks == s.ranks && u.log == s.log
    requires u.now == s.now + 1
    ensures Between(P, u) && Core(P, u)
  {
    TickSameDevices(P, s, u);
    SameDevicesKeeps(P, s, u, s.now);
    TickSameBooks(P, s, u);
    CoreFrame(P, s, u);
    StillBetween(P, u, s.now);
  }

  lemma TickSameDevices(P: Params, s: System, u: System)
    requires Shape(P, s) && Shape(P, u)
    requires u.mc == s.mc.(refreshCountdown := u.mc.refreshCountdown) && u.ranks == s.ranks && u.log == s.log
    requires u.now == s.now + 1
    ensures SameDevices(P, s, u)
  {
  }

  lemma TickSameBooks(P: Params, s: System, u: System)
    requires u.mc == s.mc.(refreshCountdown := u.mc.refreshCountdown) && u.ranks == s.ranks && u.log == s.log
    requires u.now == s.now + 1
    ensures SameBooks(s, u)
  {
  }

  lemma EndCycleKeeps(P: Params, s: System)
    requires ValidParams(P) && Shape(P, s) && Within(P, s) && Core(P, s)
    ensures var u := EndCycle(P, s); Between(P, u) && Core(P, u)
  {
    TickFrame(P, s, EndCycle(P, s));
  }
}
