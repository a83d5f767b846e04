/** Which ranks a cycle puts to sleep and which it wakes, in every run. */
module DramPower {
  import opened Basics
  import opened DramTypes
  import opened RankModel
  import opened CommandQueueSpec
  import opened MemorySystemSpec
  import opened DramSafety
  import opened DramRuns
  import opened DramTheorems
  import opened DramPhases
  import opened DramResults

  // No packet is queued for rank r.
  predicate Empty(Q: QueueState, r: nat)
    requires r < |Q.queues|
  {
    forall x :: 0 <= x < |Q.queues[r]| ==> Q.queues[r][x] == []
  }

  // Rank r is wanted: something is queued for it, or it has to refresh.
  predicate Wanted(s: System, r: nat)
    requires r < |s.mc.queue.queues| && r < |s.ranks|
  {
    !Empty(s.mc.queue, r) || s.ranks[r].refreshWaiting
  }

  predicate Sleepy(k: Status) { k == Idle || k == PowerDown }

  // What power management makes of rank r between states v and w.
  ghost predicate Managed(P: Params, v: System, w: System, r: nat)
    requires Shape(P, v) && Shape(P, w) && r < P.ranks
  {
    && (!P.lowPower ==> w.mc.powerDown[r] == v.mc.powerDown[r])
    && (P.lowPower && Wanted(w, r) ==>
          (w.mc.powerDown[r] <==> v.mc.powerDown[r] && v.now < v.mc.table[r][0].nextPowerUp))
    && (P.lowPower && !Wanted(w, r) ==>
          (w.mc.powerDown[r] <==> forall b :: 0 <= b < P.banks ==> Sleepy(w.mc.table[r][b].status)))
    && (w.mc.powerDown[r] && !v.mc.powerDown[r] ==> FellAsleep(P, w, r, v.now))
    && (!w.mc.powerDown[r] && v.mc.powerDown[r] ==> WokeUp(P, w, r, v.now))
  }

  // On both sides every bank stays down for tCKE cycles.
  ghost predicate FellAsleep(P: Params, w: System, r: nat, now: nat)
    requires Shape(P, w) && r < P.ranks
  {
    forall b :: 0 <= b < P.banks ==>
      var m, d := w.mc.table[r][b], w.ranks[r].banks[b];
      m.status == d.status == PowerDown && m.nextPowerUp == d.nextPowerUp == now + P.tCKE
  }

  // On both sides no bank is opened for tXP cycles.
  ghost predicate WokeUp(P: Params, w: System, r: nat, now: nat)
    requires Shape(P, w) && r < P.ranks
  {
    forall b :: 0 <= b < P.banks ==>
      var m, d := w.mc.table[r][b], w.ranks[r].banks[b];
      m.status == d.status == Idle && m.nextActivate == d.nextActivate == now + P.tXP
  }

  // What the decision for rank r does to its row, its device and its flag.
  lemma RowManaged(P: Params, v: System, w: System, r: nat)
    requires ValidParams(P) && Shape(P, v) && Shape(P, w) && ManagePower(P, v) == Ok(w) && r < P.ranks
    ensures w.mc.queue == v.mc.queue && w.ranks[r].refreshWaiting == v.ranks[r].refreshWaiting
    ensures var m := PowerDecision(P, v, r);
            && w.mc.powerDown[r] == (if m == Stay then v.mc.powerDown[r] else m == GoDown)
            && (m == Stay ==> w.mc.table[r] == v.mc.table[r])
            && (m == GoDown ==> FellAsleep(P, w, r, v.now))
            && (m == GoUp ==> WokeUp(P, w, r, v.now))
  {
  }

  lemma ManagedPower(P: Params, v: System, w: System, r: nat)
    requires ValidParams(P) && Shape(P, v) && Shape(P, w) && Sim(P, v, v.now) && Routed(P, v.mc.queue)
    requires ManagePower(P, v) == Ok(w) && r < P.ranks
    ensures Managed(P, v, w, r)
  {
    RowManaged(P, v, w, r);
    EmptyIsEmpty(P, v.mc.queue, r);
    forall b | 0 <= b < P.banks ensures v.mc.table[r][b].status == PowerDown <==> v.mc.powerDown[r] {}
  }

  lemma EmptyIsEmpty(P: Params, Q: QueueState, r: nat)
    requires ValidParams(P) && QueueShape(P, Q) && Routed(P, Q) && r < P.ranks
    ensures QueueEmpty(P, Q, r) <==> Empty(Q, r)
  {
    forall x | 0 <= x < |Q.queues[r]| && Q.queues[r][x] != [] ensures x < QueuesPerRank(P) {
      var p := Q.queues[r][x][0];
      assert x == QueueIndex(P, p.bank);
    }
  }

  // Nothing before power management changes what it reads of a sleeping rank.
  ghost predicate SleepKept(P: Params, v: System, w: System, r: nat)
    requires Shape(P, v) && Shape(P, w) && ValidParams(P) && r < P.ranks
  {
    && w.now == v.now && w.mc.powerDown == v.mc.powerDown
    && w.mc.table[r][0].nextPowerUp == v.mc.table[r][0].nextPowerUp
  }

  lemma SettleSleep(P: Params, s: System, u: System, r: nat)
    requires ValidParams(P) && Shape(P, s) && Shape(P, u) && Settle(P, s) == Ok(u) && r < P.ranks
    ensures SleepKept(P, s, u, r)
  {
    SettleFrame(P, s, u);
    assert u.mc.table[r][0] == CountDownBank(P, s.mc.table[r][0]);
  }

  lemma IssueSleep(P: Params, s: System, u: System, r: nat)
    requires ValidParams(P) && Shape(P, s) && Shape(P, u) && IssueCommand(P, s) == Ok(u) && r < P.ranks
    ensures SleepKept(P, s, u, r)
  {
    IssueFrame(P, s, u);
    var c := Pop(P, s.mc.table, s.mc.queue, s.now);
    if c.packet.Some? { BookedSleep(P, c.packet.value, s.mc.table, s.now, r); }
  }

  lemma BookedSleep(P: Params, p: Packet, T: Table, now: nat, r: nat)
    requires ValidParams(P) && TableShape(P, T) && r < P.ranks
    ensures IssueTable(P, p, T, now)[r][0].nextPowerUp == T[r][0].nextPowerUp
  {
  }

  lemma RefreshSleep(P: Params, s: System, u: System, r: nat)
    requires ValidParams(P) && Shape(P, s) && Shape(P, u) && u == RefreshTimer(P, s) && r < P.ranks
    ensures SleepKept(P, s, u, r)
  {
    RefreshFrame(P, s);
  }

  lemma SplitSleep(P: Params, s: System, u: System, r: nat)
    requires ValidParams(P) && Shape(P, s) && Shape(P, u) && SplitTransaction(P, s) == Ok(u) && r < P.ranks
    ensures SleepKept(P, s, u, r)
  {
    SplitFrames(P, s, u);
  }

  // The end of the cycle changes nothing of it either.
  lemma EndManages(P: Params, s: System, v: System, w: System, x: System, u: System, r: nat)
    requires ValidParams(P) && Shape(P, s) && Shape(P, v) && Shape(P, w) && Shape(P, x) && Shape(P, u) && r < P.ranks
    requires SleepKept(P, s, v, r) && Managed(P, v, w, r) && ReturnRead(P, w) == Ok(x) && u == EndCycle(P, x)
    ensures Managed(P, s, u, r)
  {
    ReturnFrame(P, w, x);
  }

  // One cycle.
  lemma CycleManages(P: Params, s: System, u: System, r: nat)
    requires ValidParams(P) && Shape(P, s) && Shape(P, u) && Inv(P, s) && Update(P, s) == Ok(u) && r < P.ranks
    ensures Managed(P, s, u, r)
  {
    var s1, s2, s3, s4, s5, s6 := CycleStates(P, s, u);
    var v := BeforePower(P, s);
    SettleSleep(P, s, s1, r);
    RefreshSleep(P, s1, s2, r);
    IssueSleep(P, s2, s3, r);
    SplitSleep(P, s3, s4, r);
    ManagedPower(P, s4, s5, r);
    EndManages(P, s, s4, s5, s6, u, r);
  }

  lemma BeforePower(P: Params, s: System) returns (v: System)
    requires ValidParams(P) && Shape(P, s) && Inv(P, s)
    ensures ThroughIssue(P, s).Ok? && SplitTransaction(P, ThroughIssue(P, s).value) == Ok(v)
    ensures Shape(P, v) && Sim(P, v, v.now) && Routed(P, v.mc.queue)
  {
    var s1 := SettleHalf(P, s);
    var s2 := RefreshHalf(P, s1);
    var s3 := PopHalf(P, s2);
    v := SplitHalf(P, s3);
  }

  // ---------- which ranks wait for a refresh

  // The timer asks rank r: its refresh is due, or it sleeps and would not be awake in time.
  predicate Asked(P: Params, s: System, r: nat)
    requires Shape(P, s) && r < P.ranks
  {
    r == s.mc.refreshRank
    && (s.mc.refreshCountdown[r] == 0 || (s.mc.powerDown[r] && s.mc.refreshCountdown[r] <= P.tXP))
  }

  predicate RefreshArrives(s: System, r: nat)
  {
    s.mc.cmd.Some? && s.mc.cmd.value.kind == REFRESH && s.mc.cmd.value.rank == r
  }

  lemma TickWaits(P: Params, s: System, u: System, r: nat)
    requires ValidParams(P) && Shape(P, s) && Shape(P, u) && TickRanks(P, s) == Ok(u) && r < P.ranks
    ensures u.ranks[r].refreshWaiting == s.ranks[r].refreshWaiting
  {
  }

  lemma ArriveWaits(P: Params, s: System, u: System, r: nat)
    requires ValidParams(P) && Shape(P, s) && Shape(P, u) && CommandBus(P, s) == Ok(u) && r < P.ranks
    requires s.mc.cmd.Some? ==> s.mc.cmdCyclesLeft == 1
    ensures u.ranks[r].refreshWaiting == (s.ranks[r].refreshWaiting && !RefreshArrives(s, r))
  {
  }

  lemma SettleWaits(P: Params, s: System, u: System, r: nat)
    requires ValidParams(P) && Shape(P, s) && Shape(P, u) && Settle(P, s) == Ok(u) && r < P.ranks
    requires s.mc.cmd.Some? ==> s.mc.cmdCyclesLeft == 1
    ensures u.ranks[r].refreshWaiting == (s.ranks[r].refreshWaiting && !RefreshArrives(s, r))
    ensures Asked(P, u, r) == Asked(P, s, r)
  {
    var s0, s1 := SettlePhases(P, s, u);
    TickWaits(P, s, s0, r);
    ArriveWaits(P, CountDown(P, s0), s1, r);
    SettleFrame(P, s, u);
  }

  lemma RefreshWaits(P: Params, s: System, u: System, r: nat)
    requires ValidParams(P) && Shape(P, s) && Shape(P, u) && u == RefreshTimer(P, s) && r < P.ranks
    ensures u.ranks[r].refreshWaiting == (Asked(P, s, r) || s.ranks[r].refreshWaiting)
  {
  }

  lemma RestWaits(P: Params, s: System, s3: System, s4: System, s5: System, s6: System, u: System, r: nat)
    requires ValidParams(P) && Shape(P, s) && Shape(P, s3) && Shape(P, s4) && Shape(P, s5) && Shape(P, s6)
    requires r < P.ranks
    requires IssueCommand(P, s) == Ok(s3) && SplitTransaction(P, s3) == Ok(s4) && ManagePower(P, s4) == Ok(s5)
    requires ReturnRead(P, s5) == Ok(s6) && u == EndCycle(P, s6)
    ensures u.ranks[r].refreshWaiting == s.ranks[r].refreshWaiting
  {
    IssueFrame(P, s, s3);
    SplitFrames(P, s3, s4);
    RowManaged(P, s4, s5, r);
    ReturnFrame(P, s5, s6);
  }

  // A rank waits from when it is asked until its refresh arrives.
  lemma CycleWaits(P: Params, s: System, u: System, r: nat)
    requires ValidParams(P) && Shape(P, s) && Shape(P, u) && Inv(P, s) && Update(P, s) == Ok(u) && r < P.ranks
    ensures u.ranks[r].refreshWaiting <==> Asked(P, s, r) || (s.ranks[r].refreshWaiting && !RefreshArrives(s, r))
  {
    BetweenMeans(P, s);
    var s1, s2, s3, s4, s5, s6 := CycleStates(P, s, u);
    SettleWaits(P, s, s1, r);
    RefreshWaits(P, s1, s2, r);
    RestWaits(P, s2, s3, s4, s5, s6, u, r);
  }

  lemma WaitsUntilRefreshed(P: Params, actions: seq<Action>, r: nat)
    requires ValidParams(P) && r < P.ranks
    ensures Update(P, Reached(P, actions)).Ok?
    ensures var s, u := Reached(P, actions), Update(P, Reached(P, actions)).value;
            u.ranks[r].refreshWaiting <==> Asked(P, s, r) || (s.ranks[r].refreshWaiting && !RefreshArrives(s, r))
  {
    UpdateKeeps(P, Reached(P, actions));
    CycleWaits(P, Reached(P, actions), Update(P, Reached(P, actions)).value, r);
  }

  // ---------- every run

  // In every cycle of every run: with low power off no rank changes; with it on, a rank that is wanted is down
  // only while its time down is not over, and one that is not is down exactly when all its banks are at rest.
  lemma PowerFollowsDemand(P: Params, actions: seq<Action>, r: nat)
    requires ValidParams(P) && r < P.ranks
    ensures Update(P, Reached(P, actions)).Ok?
    ensures Managed(P, Reached(P, actions), Update(P, Reached(P, actions)).value, r)
  {
    UpdateKeeps(P, Reached(P, actions));
    CycleManages(P, Reached(P, actions), Update(P, Reached(P, actions)).value, r);
  }
}
