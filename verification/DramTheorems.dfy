/** The main results about the memory system, for every run. */
module DramTheorems {
  import opened Basics
  import opened DramTypes
  import opened RankModel
  import opened CommandQueueSpec
  import opened MemorySystemSpec
  import opened DramSafety
  import opened DramQueues
  import opened DramPop
  import opened DramBus
  import opened DramLedger
  import opened DramLedgerSteps
  import opened DramOrder
  import opened DramTimers
  import opened DramRuns
  import opened Totals

  lemma ChooseKeepsWindows(P: Params, T: Table, Q: QueueState, now: nat)
    requires ValidParams(P) && TableShape(P, T) && QueueShape(P, Q)
    ensures Choose(P, T, Q, now).queue.faw == Q.faw
  {
  }

  lemma DispatchFrame(P: Params, s: System, c: Popped)
    requires ValidParams(P) && Shape(P, s) && QueueShape(P, c.queue) && s.mc.cmd.None?
    requires c.packet.Some? ==> InRange(P, Slot(c.packet.value.rank, c.packet.value.bank))
    ensures Dispatch(P, s, c).Ok?
    ensures var u := Dispatch(P, s, c).value;
            && u.now == s.now && u.mc.queue == c.queue
            && u.log.issued == (if c.packet.Some? then s.log.issued + [Issue(s.now, c.packet.value)] else s.log.issued)
            && u.mc.refreshCountdown == s.mc.refreshCountdown && u.mc.refreshRank == s.mc.refreshRank
  {
  }

  // The activation windows across one pop.
  lemma PopWindowsKept(P: Params, T: Table, Q: QueueState, issued: seq<Issue>, now: nat, t: int)
    requires ValidParams(P) && TableShape(P, T) && QueueShape(P, Q) && GoodQueues(P, T, Q)
    requires t == now - 1 && WindowsKept(P, Q.faw, issued, t)
    requires forall i :: 0 <= i < |issued| ==> issued[i].time < now
    ensures var c := Pop(P, T, Q, now);
            WindowsKept(P, c.queue.faw, if c.packet.Some? then issued + [Issue(now, c.packet.value)] else issued, now)
  {
    var Q0 := Ticked(Q);
    TickedWindows(P, Q, issued, now, t);
    SameQueues(P, T, Q, Q0);
    var e := ChooseExplained(P, T, Q0, now);
    var d := Choose(P, T, Q0, now);
    ChooseKeepsWindows(P, T, Q0, now);
    PopIsChoose(P, T, Q, now);
    if d.packet.Some? {
      ActivateHasRoom(P, T, Q0, now, e, d);
      PopWindows(P, Q0.faw, issued, now, d.packet.value);
    }
  }

  lemma TickedWindows(P: Params, Q: QueueState, issued: seq<Issue>, now: nat, t: int)
    requires ValidParams(P) && t == now - 1 && WindowsKept(P, Q.faw, issued, t)
    ensures WindowsKept(P, Ticked(Q).faw, issued, now)
  {
    forall r | 0 <= r < |Q.faw| ensures WindowAt(P, ActTimes(issued, r), Ticked(Q).faw[r], now) {
      WindowTick(P, ActTimes(issued, r), Q.faw[r], t);
    }
  }

  lemma ActivateHasRoom(P: Params, T: Table, Q: QueueState, now: nat, e: Edit, c: Popped)
    requires ValidParams(P) && TableShape(P, T) && QueueShape(P, Q) && QueueShape(P, c.queue)
    requires Explains(P, T, Q, now, e, c) && c.packet.Some? && GoodQueues(P, T, Q)
    ensures c.packet.value.kind == ACTIVATE ==> |Q.faw[c.packet.value.rank]| < 4
    ensures c.packet.value.rank < P.ranks
  {
  }

  // ---------- one cycle

  ghost predicate TimersBetween(P: Params, s: System)
    requires Shape(P, s)
  {
    && (ValidRefresh(P) ==> RefreshOnTime(P, s.mc.refreshCountdown, s.mc.refreshRank, s.now))
    && WindowsKept(P, s.mc.queue.faw, s.log.issued, s.now - 1)
    && forall i :: 0 <= i < |s.log.issued| ==> s.log.issued[i].time < s.now
  }

  // What every state between two cycles satisfies.
  ghost predicate Inv(P: Params, s: System)
    requires ValidParams(P) && Shape(P, s)
  {
    Between(P, s) && Core(P, s) && TimersBetween(P, s)
  }

  predicate SameTimers(s: System, u: System)
  {
    && u.now == s.now && u.mc.queue.faw == s.mc.queue.faw && u.log.issued == s.log.issued
    && u.mc.refreshCountdown == s.mc.refreshCountdown && u.mc.refreshRank == s.mc.refreshRank
  }

  lemma SettleHalf(P: Params, s: System) returns (u: System)
    requires ValidParams(P) && Shape(P, s) && Between(P, s) && Core(P, s)
    ensures Settle(P, s) == Ok(u) && Shape(P, u) && Within(P, u) && Core(P, u) && SameTimers(s, u)
    ensures u.mc.cmd.None? && WriteHorizon(P, u.mc) < WriteLatency(P) + Burst(P)
  {
    BetweenMeans(P, s);
    SettleKeeps(P, s);
    u := Settle(P, s).value;
  }

  lemma RefreshHalf(P: Params, s: System) returns (u: System)
    requires ValidParams(P) && Shape(P, s) && Within(P, s) && Core(P, s)
    requires s.mc.cmd.None? && WriteHorizon(P, s.mc) < WriteLatency(P) + Burst(P)
    ensures u == RefreshTimer(P, s) && Shape(P, u) && Within(P, u) && Core(P, u)
    ensures u.mc.cmd.None? && WriteHorizon(P, u.mc) < WriteLatency(P) + Burst(P)
    ensures u.now == s.now && u.mc.queue.faw == s.mc.queue.faw && u.log.issued == s.log.issued
    ensures (DecAll(u.mc.refreshCountdown), u.mc.refreshRank)
      == RefreshCycle(P, s.mc.refreshCountdown, s.mc.refreshRank)
  {
    RefreshTimerKeeps(P, s);
    RefreshTimerEffect(P, s);
    u := RefreshTimer(P, s);
  }

  lemma PopHalf(P: Params, s: System) returns (u: System)
    requires ValidParams(P) && Shape(P, s) && Within(P, s) && Core(P, s)
    requires s.mc.cmd.None? && WriteHorizon(P, s.mc) < WriteLatency(P) + Burst(P)
    ensures IssueCommand(P, s) == Ok(u) && Shape(P, u) && Within(P, u) && Core(P, u) && Busy(P, u)
  {
    PopKeeps(P, s);
    u := IssueCommand(P, s).value;
  }

  lemma PopTimers(P: Params, s: System, u: System, t: int)
    requires ValidParams(P) && Shape(P, s) && Shape(P, u) && GoodQueues(P, s.mc.table, s.mc.queue) && s.mc.cmd.None?
    requires IssueCommand(P, s) == Ok(u) && t == s.now - 1 && WindowsKept(P, s.mc.queue.faw, s.log.issued, t)
    requires forall i :: 0 <= i < |s.log.issued| ==> s.log.issued[i].time < s.now
    ensures WindowsKept(P, u.mc.queue.faw, u.log.issued, s.now)
    ensures forall i :: 0 <= i < |u.log.issued| ==> u.log.issued[i].time <= s.now
    ensures u.now == s.now && u.mc.refreshCountdown == s.mc.refreshCountdown && u.mc.refreshRank == s.mc.refreshRank
  {
    PopWindowsKept(P, s.mc.table, s.mc.queue, s.log.issued, s.now, t);
    DispatchFrame(P, s, Pop(P, s.mc.table, s.mc.queue, s.now));
  }

  lemma SplitHalf(P: Params, s: System) returns (u: System)
    requires ValidParams(P) && Shape(P, s) && Within(P, s) && Core(P, s) && Busy(P, s)
    ensures SplitTransaction(P, s) == Ok(u) && Shape(P, u) && Within(P, u) && Core(P, u) && Busy(P, u)
    ensures SameTimers(s, u)
  {
    SplitKeepsAll(P, s);
    u := SplitTransaction(P, s).value;
  }

  lemma PowerHalf(P: Params, s: System) returns (u: System)
    requires ValidParams(P) && Shape(P, s) && Within(P, s) && Core(P, s) && Busy(P, s)
    ensures ManagePower(P, s) == Ok(u) && Shape(P, u) && Within(P, u) && Core(P, u) && SameTimers(s, u)
  {
    PowerKeeps(P, s);
    PowerEffect(P, s);
    u := ManagePower(P, s).value;
  }

  lemma ReturnHalf(P: Params, s: System) returns (u: System)
    requires ValidParams(P) && Shape(P, s) && Within(P, s) && Core(P, s)
    ensures ReturnRead(P, s) == Ok(u) && Shape(P, u) && Within(P, u) && Core(P, u) && SameTimers(s, u)
  {
    ReturnKeeps(P, s);
    u := ReturnRead(P, s).value;
  }

  lemma EndHalf(P: Params, s: System) returns (u: System)
    requires ValidParams(P) && Shape(P, s) && Within(P, s) && Core(P, s)
    ensures u == EndCycle(P, s) && Shape(P, u) && Between(P, u) && Core(P, u)
    ensures u.now == s.now + 1 && u.mc.refreshCountdown == DecAll(s.mc.refreshCountdown)
    ensures u.mc.refreshRank == s.mc.refreshRank
    ensures u.mc.queue.faw == s.mc.queue.faw && u.log.issued == s.log.issued
  {
    EndCycleKeeps(P, s);
    u := EndCycle(P, s);
  }

  lemma TimersTurn(P: Params, s: System, s1: System, s2: System, s3: System, s6: System, s7: System)
    requires ValidParams(P) && Shape(P, s) && Shape(P, s2) && Shape(P, s3) && Shape(P, s7)
    requires TimersBetween(P, s) && SameTimers(s, s1) && Core(P, s2) && s2.mc.cmd.None?
    requires s2.now == s1.now && s2.mc.queue.faw == s1.mc.queue.faw && s2.log.issued == s1.log.issued
    requires (DecAll(s2.mc.refreshCountdown), s2.mc.refreshRank)
      == RefreshCycle(P, s1.mc.refreshCountdown, s1.mc.refreshRank)
    requires IssueCommand(P, s2) == Ok(s3) && SameTimers(s3, s6)
    requires s7.now == s6.now + 1 && s7.mc.refreshCountdown == DecAll(s6.mc.refreshCountdown)
    requires s7.mc.refreshRank == s6.mc.refreshRank
    requires s7.mc.queue.faw == s6.mc.queue.faw && s7.log.issued == s6.log.issued
    ensures TimersBetween(P, s7)
  {
    PopTimers(P, s2, s3, s.now - 1);
    RefreshKept(P, s, s2, s7);
    TimersAt(P, s7, s.now);
  }

  lemma RefreshKept(P: Params, s: System, u: System, v: System)
    requires ValidParams(P) && Shape(P, s) && Shape(P, v) && v.now == s.now + 1
    requires ValidRefresh(P) ==> RefreshOnTime(P, s.mc.refreshCountdown, s.mc.refreshRank, s.now)
    requires (DecAll(u.mc.refreshCountdown), u.mc.refreshRank)
      == RefreshCycle(P, s.mc.refreshCountdown, s.mc.refreshRank)
    requires v.mc.refreshCountdown == DecAll(u.mc.refreshCountdown) && v.mc.refreshRank == u.mc.refreshRank
    ensures ValidRefresh(P) ==> RefreshOnTime(P, v.mc.refreshCountdown, v.mc.refreshRank, v.now)
  {
    if ValidRefresh(P) { RefreshTurn(P, s.mc.refreshCountdown, s.mc.refreshRank, s.now); }
  }

  lemma TimersAt(P: Params, s: System, t: nat)
    requires Shape(P, s) && s.now == t + 1
    requires ValidRefresh(P) ==> RefreshOnTime(P, s.mc.refreshCountdown, s.mc.refreshRank, s.now)
    requires WindowsKept(P, s.mc.queue.faw, s.log.issued, t)
    requires forall i :: 0 <= i < |s.log.issued| ==> s.log.issued[i].time <= t
    ensures TimersBetween(P, s)
  {
  }

  // One cycle never reaches an error exit and keeps everything.
  lemma UpdateKeeps(P: Params, s: System)
    requires ValidParams(P) && Shape(P, s) && Inv(P, s)
    ensures Update(P, s).Ok? && Inv(P, Update(P, s).value)
  {
    var s1 := SettleHalf(P, s);
    var s2 := RefreshHalf(P, s1);
    var s3 := PopHalf(P, s2);
    var s4 := SplitHalf(P, s3);
    var s5 := PowerHalf(P, s4);
    var s6 := ReturnHalf(P, s5);
    var s7 := EndHalf(P, s6);
    TimersTurn(P, s, s1, s2, s3, s6, s7);
  }

  lemma AcceptKeeps(P: Params, s: System, isRead: bool, address: nat)
    requires ValidParams(P) && Shape(P, s) && Inv(P, s)
    ensures Inv(P, Accept(P, s, isRead, address))
  {
    AcceptAccounts(P, s, isRead, address);
    AcceptOrder(P, s, isRead, address);
    AcceptFrame(P, s, Accept(P, s, isRead, address));
  }

  lemma AcceptFrame(P: Params, s: System, u: System)
    requires ValidParams(P) && Shape(P, s) && Shape(P, u) && Inv(P, s)
    requires u.ranks == s.ranks && u.now == s.now && u.mc == s.mc.(transactions := u.mc.transactions)
    requires u.log == s.log.(accepted := u.log.accepted) && Accounted(P, u) && Orderly(P, u)
    ensures Inv(P, u)
  {
    AcceptBetween(P, s, u);
    AcceptTimers(P, s, u);
  }

  lemma AcceptBetween(P: Params, s: System, u: System)
    requires ValidParams(P) && Shape(P, s) && Shape(P, u) && Between(P, s)
    requires u.ranks == s.ranks && u.now == s.now && u.mc == s.mc.(transactions := u.mc.transactions)
    ensures Between(P, u)
  {
    SplitSameDevices(P, s, u);
    BetweenMeans(P, s);
    SameDevicesKeeps(P, s, u, s.now - 1);
    StillBetween(P, u, s.now - 1);
  }

  lemma AcceptTimers(P: Params, s: System, u: System)
    requires Shape(P, s) && Shape(P, u) && TimersBetween(P, s) && SameTimers(s, u)
    ensures TimersBetween(P, u)
  {
  }

  lemma FlattenEmpty<A>(ss: seq<seq<A>>)
    requires forall i :: 0 <= i < |ss| ==> ss[i] == []
    ensures Flatten(ss) == []
  {
  }

  lemma FlattenTwiceEmpty<A>(qs: seq<seq<seq<A>>>)
    requires forall r, x :: 0 <= r < |qs| && 0 <= x < |qs[r]| ==> qs[r][x] == []
    ensures Flatten(Flatten(qs)) == []
  {
    forall i | 0 <= i < |Flatten(qs)| ensures Flatten(qs)[i] == [] {
      FlattenMember(qs, Flatten(qs)[i]);
      var r :| 0 <= r < |qs| && Flatten(qs)[i] in qs[r];
    }
    FlattenEmpty(Flatten(qs));
  }

  lemma InitQueuesEmpty(P: Params)
    requires ValidParams(P)
    ensures AllPackets(InitQueue(P).queues) == []
    ensures forall r, x :: 0 <= r < P.ranks && 0 <= x < |InitQueue(P).queues[r]| ==> InitQueue(P).queues[r][x] == []
  {
    FlattenTwiceEmpty(InitQueue(P).queues);
  }

  lemma InitOwesNothing(P: Params)
    requires ValidParams(P)
    ensures AllOwed(Init(P).ranks) == []
  {
    FlattenEmpty(OwedBy(Init(P).ranks));
  }

  lemma InitSim(P: Params)
    requires ValidParams(P) && Shape(P, Init(P))
    ensures Sim(P, Init(P), -1)
  {
  }

  lemma InitBuses(P: Params)
    requires ValidParams(P) && Shape(P, Init(P))
    ensures GoodBuses(P, Init(P), -1)
  {
  }

  lemma InitGoodQueues(P: Params)
    requires ValidParams(P) && Shape(P, Init(P))
    ensures GoodQueues(P, Init(P).mc.table, Init(P).mc.queue)
  {
    InitQueuesEmpty(P);
  }

  lemma InitAccounts(P: Params)
    requires ValidParams(P)
    ensures Accounted(P, Init(P))
  {
    InitQueuesEmpty(P);
    InitOwesNothing(P);
  }

  lemma InitOrder(P: Params)
    requires ValidParams(P)
    ensures Orderly(P, Init(P))
  {
    InitQueuesEmpty(P);
  }

  lemma InitTimers(P: Params)
    requires ValidParams(P) && Shape(P, Init(P))
    ensures TimersBetween(P, Init(P))
  {
    if ValidRefresh(P) { RefreshStart(P); }
  }

  lemma InitKeeps(P: Params)
    requires ValidParams(P)
    ensures Shape(P, Init(P)) && Inv(P, Init(P))
  {
    InitShape(P);
    InitSim(P);
    InitBuses(P);
    StillBetween(P, Init(P), -1);
    InitGoodQueues(P);
    InitAccounts(P);
    InitOrder(P);
    InitTimers(P);
  }

  lemma StepKeeps(P: Params, s: System, a: Action) returns (u: System)
    requires ValidParams(P) && Shape(P, s) && Inv(P, s)
    ensures Step(P, s, a) == Ok(u) && Shape(P, u) && Inv(P, u)
  {
    match a
    case Request(isRead, address) =>
      AcceptKeeps(P, s, isRead, address);
      u := Accept(P, s, isRead, address);
    case Cycle =>
      UpdateKeeps(P, s);
      u := Update(P, s).value;
  }

  lemma RunUnfold(P: Params, s: System, actions: seq<Action>, u: System)
    requires ValidParams(P) && Shape(P, s) && Shape(P, u) && actions != [] && Step(P, s, actions[0]) == Ok(u)
    ensures RunFrom(P, s, actions) == RunFrom(P, u, actions[1..])
  {
  }

  lemma {:induction false} RunKeeps(P: Params, s: System, actions: seq<Action>) returns (u: System)
    requires ValidParams(P) && Shape(P, s) && Inv(P, s)
    ensures RunFrom(P, s, actions) == Ok(u) && Shape(P, u) && Inv(P, u)
    decreases |actions|
  {
    if actions == [] {
      u := s;
    } else {
      var v := StepKeeps(P, s, actions[0]);
      RunUnfold(P, s, actions, v);
      u := RunKeeps(P, v, actions[1..]);
    }
  }

  // MAIN RESULT.  In every run, for both page policies and both queue structures, with refresh and
  // low-power mode, no error exit of the controller or of any rank is reached.
  lemma EveryRunIsSafe(P: Params, actions: seq<Action>)
    requires ValidParams(P)
    ensures Run(P, actions).Ok? && Inv(P, Run(P, actions).value)
  {
    InitKeeps(P);
    var u := RunKeeps(P, Init(P), actions);
  }
}
