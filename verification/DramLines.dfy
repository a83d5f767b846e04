/** The data lines shared by all ranks and the controller: never two bursts on them at once. */
module DramLines {
  import opened Basics
  import opened DramTypes
  import opened RankModel
  import opened CommandQueueSpec
  import opened MemorySystemSpec
  import opened DramSafety
  import opened DramBus
  import opened DramPhases
  import opened DramRuns
  import opened DramTheorems
  import opened DramResults

  // What sharing the lines asks of the timing: a turnaround cycle between bursts of different ranks, and a
  // row-to-column delay longer than a burst.
  ghost predicate ValidLines(P: Params)
  {
    1 <= P.tRTRS && Burst(P) < P.tRCD - P.AL
  }

  // The bursts one source has on their way: cycles to the start of each, and the one on the lines.
  datatype Lane = Lane(counts: seq<nat>, busy: bool, left: nat)

  ghost predicate InLine(P: Params, l: Lane) { Spaced(P, l.counts, l.busy, l.left) }

  function End(P: Params, l: Lane): nat { Horizon(P, l.counts, l.busy, l.left) }

  function Advanced(P: Params, l: Lane): Lane
  {
    var (counts, busy, left) := Advance(P, l.counts, l.busy, l.left);
    Lane(counts, busy, left)
  }

  predicate Pending(cmd: Option<Packet>, r: nat) { cmd.Some? && cmd.value.rank == r && IsRead(cmd.value.kind) }

  function ReadLane(P: Params, d: RankState, pending: bool): Lane
  {
    Lane(d.returnCountdowns + (if pending then [ReadLatency(P) + 1] else []), d.outgoing.Some?, d.dataCyclesLeft)
  }

  // Source i is rank i with its reads, the one on the command bus included; the last source is the write data.
  function LaneOf(P: Params, s: System, i: nat): Lane
    requires Shape(P, s) && i <= P.ranks
  {
    if i == P.ranks then Lane(s.mc.writeCountdowns, s.mc.data.Some?, s.mc.dataCyclesLeft)
    else ReadLane(P, s.ranks[i], Pending(s.mc.cmd, i))
  }

  // No burst of one source meets a burst of the other, now or later.
  ghost predicate Apart(P: Params, l: Lane, m: Lane)
  {
    && (forall i, j :: 0 <= i < |l.counts| && 0 <= j < |m.counts| ==>
          l.counts[i] + Burst(P) <= m.counts[j] || m.counts[j] + Burst(P) <= l.counts[i])
    && (l.busy ==> forall j :: 0 <= j < |m.counts| ==> l.left <= m.counts[j])
    && (m.busy ==> forall i :: 0 <= i < |l.counts| ==> m.left <= l.counts[i])
    && !(l.busy && m.busy)
  }

  lemma ApartEither(P: Params, l: Lane, m: Lane)
    requires Apart(P, l, m)
    ensures Apart(P, m, l)
  {
  }

  lemma AdvancedCounts(P: Params, l: Lane)
    requires ValidParams(P) && InLine(P, l)
    ensures var starts, a := |l.counts| > 0 && l.counts[0] == 1, Advanced(P, l);
            && InLine(P, a)
            && |a.counts| == |l.counts| - (if starts then 1 else 0)
            && (forall i :: 0 <= i < |a.counts| ==> a.counts[i] + 1 == l.counts[if starts then i + 1 else i])
            && a.busy == (starts || (l.busy && l.left > 1))
            && (a.busy ==> a.left == if starts then Burst(P) else l.left - 1)
  {
    DecAllSpaced(P, l.counts, l.busy, l.left);
    AdvanceSpaced(P, l.counts, l.busy, l.left);
  }

  // The burst that is on the lines after a cycle is over before any burst of the other source starts.
  lemma AdvancedMeets(P: Params, l: Lane, m: Lane)
    requires ValidParams(P) && InLine(P, l) && InLine(P, m) && Apart(P, l, m)
    ensures var a, b := Advanced(P, l), Advanced(P, m);
            a.busy ==> !b.busy && forall j :: 0 <= j < |b.counts| ==> a.left <= b.counts[j]
  {
    AdvancedCounts(P, l);
    AdvancedCounts(P, m);
    LaterCounts(P, l);
    LaterCounts(P, m);
    var a, b := Advanced(P, l), Advanced(P, m);
    if |l.counts| > 0 && l.counts[0] == 1 {
      assert forall j :: 0 <= j < |m.counts| ==> 1 + Burst(P) <= m.counts[j];
    } else if a.busy {
      assert forall j :: 0 <= j < |m.counts| ==> l.left <= m.counts[j];
    }
  }

  lemma AdvancedApart(P: Params, l: Lane, m: Lane)
    requires ValidParams(P) && InLine(P, l) && InLine(P, m) && Apart(P, l, m)
    ensures Apart(P, Advanced(P, l), Advanced(P, m))
  {
    AdvancedMeets(P, l, m);
    AdvancedMeets(P, m, l);
    var a, b := Advanced(P, l), Advanced(P, m);
    forall i, j | 0 <= i < |a.counts| && 0 <= j < |b.counts|
      ensures a.counts[i] + Burst(P) <= b.counts[j] || b.counts[j] + Burst(P) <= a.counts[i]
    {
      var k := AdvancedFrom(P, l, i);
      var n := AdvancedFrom(P, m, j);
    }
  }

  // Where a countdown stood a cycle ago.
  lemma AdvancedFrom(P: Params, l: Lane, i: nat) returns (k: nat)
    requires ValidParams(P) && InLine(P, l) && i < |Advanced(P, l).counts|
    ensures k < |l.counts| && Advanced(P, l).counts[i] + 1 == l.counts[k]
  {
    AdvancedCounts(P, l);
    k := if |l.counts| > 0 && l.counts[0] == 1 then i + 1 else i;
  }

  lemma LaterCounts(P: Params, l: Lane)
    requires ValidParams(P) && InLine(P, l)
    ensures forall i :: 0 <= i < |l.counts| ==> 1 <= l.counts[i] && l.counts[i] + Burst(P) <= End(P, l)
    ensures l.busy ==> l.left <= End(P, l)
  {
    forall i: nat | i < |l.counts| ensures 1 <= l.counts[i] && l.counts[i] + Burst(P) <= End(P, l) {
      SpacedAllPositive(P, l.counts, l.busy, l.left, i);
      UpToLast(P, l, i);
    }
  }

  lemma UpToLast(P: Params, l: Lane, i: nat)
    requires InLine(P, l) && i < |l.counts|
    ensures l.counts[i] <= l.counts[|l.counts| - 1]
    decreases |l.counts| - i
  {
    if i < |l.counts| - 1 {
      UpToLast(P, l, i + 1);
      assert l.counts[i] + Burst(P) <= l.counts[i + 1];
    }
  }

  lemma PushedApart(P: Params, l: Lane, m: Lane, n: nat)
    requires ValidParams(P) && InLine(P, m) && Apart(P, l, m) && End(P, m) <= n
    ensures Apart(P, l.(counts := l.counts + [n]), m)
  {
    LaterCounts(P, m);
  }

  // ---------- the invariant

  // Every bank that could be sent an access is clear of every burst known so far.
  ghost predicate ClearOf(P: Params, s: System, end: nat, t: int)
    requires Shape(P, s)
  {
    forall r, b :: 0 <= r < P.ranks && 0 <= b < P.banks ==> Clears(P, s.mc.table[r][b], end, end, t)
  }

  ghost predicate LinesFree(P: Params, s: System, t: int)
    requires Shape(P, s)
  {
    && (forall i, j :: 0 <= i < j <= P.ranks ==> Apart(P, LaneOf(P, s, i), LaneOf(P, s, j)))
    && (forall i :: 0 <= i <= P.ranks ==> ClearOf(P, s, End(P, LaneOf(P, s, i)), t))
  }

  // What the buses already guarantee of each lane alone.
  lemma LaneAlone(P: Params, s: System, i: nat, t: int)
    requires ValidParams(P) && Shape(P, s) && GoodBuses(P, s, t) && i <= P.ranks
    ensures InLine(P, LaneOf(P, s, i)) && End(P, LaneOf(P, s, i)) <= ReadLatency(P) + Burst(P) + 1
    ensures s.mc.cmd.None? && WriteHorizon(P, s.mc) < WriteLatency(P) + Burst(P) ==>
              End(P, LaneOf(P, s, i)) <= ReadLatency(P) + Burst(P)
  {
    if i < P.ranks {
      var d := s.ranks[i];
      assert GoodPipe(P, d);
      if Pending(s.mc.cmd, i) {
        PushSpaced(P, d.returnCountdowns, d.outgoing.Some?, d.dataCyclesLeft, ReadLatency(P) + 1);
      } else {
        assert d.returnCountdowns + [] == d.returnCountdowns;
      }
    }
  }

  // ---------- one cycle, phase by phase

  lemma TickedLane(P: Params, d: RankState, pending: bool)
    requires ValidParams(P) && GoodPipe(P, d)
    ensures var e := Tick(P, d).0;
            Lane(e.returnCountdowns + (if pending then [ReadLatency(P)] else []), e.outgoing.Some?, e.dataCyclesLeft)
            == Advanced(P, ReadLane(P, d, pending))
  {
    TickAdvances(P, d);
    if pending {
      AppendAdvances(P, d.returnCountdowns, d.outgoing.Some?, d.dataCyclesLeft, ReadLatency(P));
    } else {
      assert ReadLane(P, d, pending).counts == d.returnCountdowns;
    }
  }

  lemma AppendAdvances(P: Params, counts: seq<nat>, busy: bool, left: nat, n: nat)
    requires 1 <= n
    ensures var (c, b, l) := Advance(P, counts, busy, left);
            Advance(P, counts + [n + 1], busy, left) == (c + [n], b, l)
  {
    var d := DecAll(counts);
    assert DecAll(counts + [n + 1]) == d + [n];
    if |d| > 0 { assert (d + [n])[1..] == d[1..] + [n]; }
  }

  lemma ReceivedLane(P: Params, d: RankState, p: Packet, now: nat)
    requires ValidParams(P)
    ensures var e := Receive(P, d, p, now);
            && e.returnCountdowns == d.returnCountdowns + (if IsRead(p.kind) then [ReadLatency(P)] else [])
            && e.outgoing == d.outgoing && e.dataCyclesLeft == d.dataCyclesLeft
  {
  }

  lemma CarriedLane(P: Params, s: System, r: nat)
    requires ValidParams(P) && Shape(P, s) && CommandBus(P, s).Ok? && (s.mc.cmd.Some? ==> s.mc.cmdCyclesLeft == 1)
    requires r < P.ranks
    ensures var d, e := s.ranks[r], CommandBus(P, s).value.ranks[r];
            && e.returnCountdowns == d.returnCountdowns + (if Pending(s.mc.cmd, r) then [ReadLatency(P)] else [])
            && e.outgoing == d.outgoing && e.dataCyclesLeft == d.dataCyclesLeft
    ensures CommandBus(P, s).value.mc.cmd.None?
  {
    if s.mc.cmd.Some? { ReceivedLane(P, s.ranks[s.mc.cmd.value.rank], s.mc.cmd.value, s.now); }
  }

  lemma SettledReads(P: Params, s: System, s0: System, s1: System, u: System, r: nat)
    requires ValidParams(P) && Shape(P, s) && Shape(P, s0) && Shape(P, s1) && Shape(P, u) && r < P.ranks
    requires TickRanks(P, s) == Ok(s0) && CommandBus(P, CountDown(P, s0)) == Ok(s1)
    requires s0.mc == s.mc.(readData := s0.mc.readData) && u.ranks == s1.ranks && u.mc.cmd == s1.mc.cmd
    requires GoodPipe(P, s.ranks[r]) && (s.mc.cmd.Some? ==> s.mc.cmdCyclesLeft == 1)
    ensures LaneOf(P, u, r) == Advanced(P, LaneOf(P, s, r))
  {
    TickedLane(P, s.ranks[r], Pending(s.mc.cmd, r));
    CarriedLane(P, CountDown(P, s0), r);
    var e := u.ranks[r];
    assert e.returnCountdowns + [] == e.returnCountdowns;
  }

  // Settling the buses advances every lane by one cycle.
  lemma SettledLane(P: Params, s: System, u: System, i: nat)
    requires ValidParams(P) && Shape(P, s) && Shape(P, u) && GoodBuses(P, s, s.now - 1) && Settle(P, s) == Ok(u)
    requires (s.mc.cmd.Some? ==> s.mc.cmdCyclesLeft == 1) && i <= P.ranks
    ensures LaneOf(P, u, i) == Advanced(P, LaneOf(P, s, i))
  {
    var s0, s1 := SettlePhases(P, s, u);
    if i == P.ranks {
      WritesAdvance(P, s1);
    } else {
      SettledReads(P, s, s0, s1, u, i);
    }
  }

  lemma SettledFree(P: Params, s: System, u: System)
    requires ValidParams(P) && Shape(P, s) && Shape(P, u) && GoodBuses(P, s, s.now - 1) && Sim(P, s, s.now - 1)
    requires Settle(P, s) == Ok(u) && u.now == s.now && LinesFree(P, s, s.now - 1)
    requires u.mc.table == CountDownTable(P, s.mc.table)
    ensures LinesFree(P, u, s.now)
  {
    forall i | 0 <= i <= P.ranks
      ensures InLine(P, LaneOf(P, s, i)) && LaneOf(P, u, i) == Advanced(P, LaneOf(P, s, i))
      ensures ClearOf(P, u, End(P, LaneOf(P, u, i)), s.now)
    {
      LaneAlone(P, s, i, s.now - 1);
      SettledLane(P, s, u, i);
      SettledClear(P, s, u, LaneOf(P, s, i));
    }
    forall i, j | 0 <= i < j <= P.ranks ensures Apart(P, LaneOf(P, u, i), LaneOf(P, u, j)) {
      AdvancedApart(P, LaneOf(P, s, i), LaneOf(P, s, j));
    }
  }

  lemma SettledClear(P: Params, s: System, u: System, l: Lane)
    requires ValidParams(P) && Shape(P, s) && Shape(P, u) && Sim(P, s, s.now - 1) && InLine(P, l)
    requires u.mc.table == CountDownTable(P, s.mc.table) && ClearOf(P, s, End(P, l), s.now - 1)
    ensures ClearOf(P, u, End(P, Advanced(P, l)), s.now)
  {
    AdvanceHorizon(P, l.counts, l.busy, l.left);
    forall r, b | 0 <= r < P.ranks && 0 <= b < P.banks
      ensures Clears(P, u.mc.table[r][b], End(P, Advanced(P, l)), End(P, Advanced(P, l)), s.now)
    {
      CountDownClears(P, s.mc.table[r][b], Eff(P, s.mc.cmd, r, b, s.ranks[r].banks[b], s.now), End(P, l), End(P, l),
        s.now - 1);
    }
  }

  // The lane a command's burst joins, and when the burst starts there.
  predicate Joins(P: Params, p: Packet, i: nat)
  {
    if i == P.ranks then IsWrite(p.kind) else IsRead(p.kind) && p.rank == i
  }

  function StartOf(P: Params, p: Packet): nat
    requires ValidParams(P)
  {
    if IsRead(p.kind) then ReadLatency(P) + 1 else WriteLatency(P)
  }

  // A bank clear of bursts that end by `end`, when p is issued.
  predicate Bookable(P: Params, p: Packet, r: nat, i: nat, m: BankState, end: nat, now: nat)
  {
    && Clears(P, m, end, end, now) && (m.status == Idle ==> m.countdown == 0) && end <= ReadLatency(P) + Burst(P)
    && (r == p.rank && i == p.bank ==> MayIssue(P, p, m, now))
  }

  // It is still clear of them once p is booked, and of the burst of p.
  predicate StaysClear(P: Params, p: Packet, r: nat, i: nat, m: BankState, end: nat, now: nat)
    requires ValidParams(P)
  {
    var u := IssueBank(P, p, r, i, m, now);
    && Clears(P, u, end, end, now)
    && (IsColumn(p.kind) ==> Clears(P, u, StartOf(P, p) + Burst(P), StartOf(P, p) + Burst(P), now))
  }

  lemma IssueClearsLines(P: Params, p: Packet, r: nat, i: nat, m: BankState, end: nat, now: nat)
    requires ValidParams(P) && ValidLines(P) && Bookable(P, p, r, i, m, end, now)
    ensures StaysClear(P, p, r, i, m, end, now)
  {
  }

  // The timing demands are exact: the bookings keep every bank clear of every burst if and only if they hold.
  lemma ClearanceExactly(P: Params)
    requires ValidParams(P)
    ensures ValidLines(P)
            <==> forall p, r: nat, i: nat, m, end: nat, now: nat ::
                   Bookable(P, p, r, i, m, end, now) ==> StaysClear(P, p, r, i, m, end, now)
  {
    if ValidLines(P) {
      forall p, r: nat, i: nat, m, end: nat, now: nat | Bookable(P, p, r, i, m, end, now)
        ensures StaysClear(P, p, r, i, m, end, now)
      {
        IssueClearsLines(P, p, r, i, m, end, now);
      }
    } else if P.tRTRS < 1 {
      NoTurnaround(P);
    } else {
      ShortDelay(P);
    }
  }

  // Without a turnaround cycle a write to another bank of the rank meets the read just issued.
  lemma NoTurnaround(P: Params)
    requires ValidParams(P) && P.tRTRS < 1
    ensures var p, m := Packet(READ, 0, 0, 0, 0, 0), INITIAL_BANK.(status := RowActive);
            Bookable(P, p, 0, 1, m, 0, 0) && !StaysClear(P, p, 0, 1, m, 0, 0)
  {
  }

  // With a delay no longer than a burst, a row just opened may be written before an earlier read is over.
  lemma ShortDelay(P: Params)
    requires ValidParams(P) && P.tRCD - P.AL <= Burst(P)
    ensures var p, end := Packet(ACTIVATE, 0, 0, 0, 0, 0), ReadLatency(P) + Burst(P);
            Bookable(P, p, 0, 0, INITIAL_BANK, end, 0) && !StaysClear(P, p, 0, 0, INITIAL_BANK, end, 0)
  {
  }

  lemma IssuedLane(P: Params, s: System, p: Packet, u: System, i: nat)
    requires ValidParams(P) && Shape(P, s) && Shape(P, u) && Issued(P, s, p, u) && s.mc.cmd.None? && i <= P.ranks
    requires p.rank < P.ranks
    requires u.mc.data == s.mc.data && u.mc.dataCyclesLeft == s.mc.dataCyclesLeft
    requires u.mc.writeCountdowns == s.mc.writeCountdowns + (if IsWrite(p.kind) then [WriteLatency(P)] else [])
    ensures var l := LaneOf(P, s, i);
            LaneOf(P, u, i) == if Joins(P, p, i) then l.(counts := l.counts + [StartOf(P, p)]) else l
  {
    var l := LaneOf(P, s, i);
    assert l.counts + [] == l.counts;
    if i < P.ranks { assert s.ranks[i].returnCountdowns + [] == s.ranks[i].returnCountdowns; }
  }

  // The burst of a command the controller may send starts behind every other.
  lemma StartsBehind(P: Params, s: System, p: Packet, i: nat)
    requires ValidParams(P) && Shape(P, s) && s.mc.cmd.None? && Sim(P, s, s.now) && GoodPop(P, s.mc.table, p, s.now)
    requires LinesFree(P, s, s.now) && i <= P.ranks
    ensures IsColumn(p.kind) ==> End(P, LaneOf(P, s, i)) <= StartOf(P, p)
  {
    var m, end := s.mc.table[p.rank][p.bank], End(P, LaneOf(P, s, i));
    assert SimBank(P, m, s.ranks[p.rank].banks[p.bank], s.now);
    assert ClearOf(P, s, end, s.now);
    IssueHorizon(P, p, m, end, end, s.now);
  }

  lemma IssuedFree(P: Params, s: System, p: Packet, u: System)
    requires ValidParams(P) && ValidLines(P) && Shape(P, s) && Shape(P, u) && Issued(P, s, p, u) && s.mc.cmd.None?
    requires Sim(P, s, s.now) && GoodPop(P, s.mc.table, p, s.now)
    requires GoodBuses(P, s, s.now) && WriteHorizon(P, s.mc) < WriteLatency(P) + Burst(P) && LinesFree(P, s, s.now)
    requires u.mc.data == s.mc.data && u.mc.dataCyclesLeft == s.mc.dataCyclesLeft
    requires u.mc.writeCountdowns == s.mc.writeCountdowns + (if IsWrite(p.kind) then [WriteLatency(P)] else [])
    ensures LinesFree(P, u, s.now)
  {
    forall i | 0 <= i <= P.ranks ensures ClearOf(P, u, End(P, LaneOf(P, u, i)), s.now) {
      IssuedClear(P, s, p, u, i);
    }
    forall i, j | 0 <= i < j <= P.ranks ensures Apart(P, LaneOf(P, u, i), LaneOf(P, u, j)) {
      IssuedApart(P, s, p, u, i, j);
    }
  }

  lemma IssuedApart(P: Params, s: System, p: Packet, u: System, i: nat, j: nat)
    requires ValidParams(P) && Shape(P, s) && Shape(P, u) && Issued(P, s, p, u) && s.mc.cmd.None?
    requires Sim(P, s, s.now) && GoodPop(P, s.mc.table, p, s.now) && GoodBuses(P, s, s.now) && LinesFree(P, s, s.now)
    requires u.mc.data == s.mc.data && u.mc.dataCyclesLeft == s.mc.dataCyclesLeft
    requires u.mc.writeCountdowns == s.mc.writeCountdowns + (if IsWrite(p.kind) then [WriteLatency(P)] else [])
    requires i < j <= P.ranks
    ensures Apart(P, LaneOf(P, u, i), LaneOf(P, u, j))
  {
    var l, m := LaneOf(P, s, i), LaneOf(P, s, j);
    assert Apart(P, l, m);
    IssuedLane(P, s, p, u, i);
    IssuedLane(P, s, p, u, j);
    StartsBehind(P, s, p, i);
    StartsBehind(P, s, p, j);
    LaneAlone(P, s, i, s.now);
    LaneAlone(P, s, j, s.now);
    if Joins(P, p, i) {
      PushedApart(P, l, m, StartOf(P, p));
    } else if Joins(P, p, j) {
      ApartEither(P, l, m);
      PushedApart(P, m, l, StartOf(P, p));
      ApartEither(P, m.(counts := m.counts + [StartOf(P, p)]), l);
    }
  }

  lemma IssuedClear(P: Params, s: System, p: Packet, u: System, i: nat)
    requires ValidParams(P) && ValidLines(P) && Shape(P, s) && Shape(P, u) && Issued(P, s, p, u) && s.mc.cmd.None?
    requires Sim(P, s, s.now) && GoodPop(P, s.mc.table, p, s.now) && i <= P.ranks
    requires GoodBuses(P, s, s.now) && WriteHorizon(P, s.mc) < WriteLatency(P) + Burst(P) && LinesFree(P, s, s.now)
    requires u.mc.data == s.mc.data && u.mc.dataCyclesLeft == s.mc.dataCyclesLeft
    requires u.mc.writeCountdowns == s.mc.writeCountdowns + (if IsWrite(p.kind) then [WriteLatency(P)] else [])
    ensures ClearOf(P, u, End(P, LaneOf(P, u, i)), s.now)
  {
    var end := End(P, LaneOf(P, s, i));
    IssuedLane(P, s, p, u, i);
    LaneAlone(P, s, i, s.now);
    assert ClearOf(P, s, end, s.now);
    forall r, b | 0 <= r < P.ranks && 0 <= b < P.banks
      ensures Clears(P, u.mc.table[r][b], End(P, LaneOf(P, u, i)), End(P, LaneOf(P, u, i)), s.now)
    {
      assert SimBank(P, s.mc.table[r][b], s.ranks[r].banks[b], s.now);
      IssueClearsLines(P, p, r, b, s.mc.table[r][b], end, s.now);
    }
  }

  lemma PoppedFree(P: Params, s: System, u: System)
    requires ValidParams(P) && ValidLines(P) && Shape(P, s) && Shape(P, u) && Within(P, s) && Core(P, s)
    requires s.mc.cmd.None?
    requires WriteHorizon(P, s.mc) < WriteLatency(P) + Burst(P) && LinesFree(P, s, s.now) && IssueCommand(P, s) == Ok(u)
    ensures LinesFree(P, u, s.now)
  {
    var e := PopExplained(P, s);
    DispatchedFree(P, s, Pop(P, s.mc.table, s.mc.queue, s.now), u);
  }

  lemma DispatchedFree(P: Params, s: System, c: Popped, u: System)
    requires ValidParams(P) && ValidLines(P) && Shape(P, s) && Shape(P, u) && QueueShape(P, c.queue) && s.mc.cmd.None?
    requires Sim(P, s, s.now) && (c.packet.Some? ==> GoodPop(P, s.mc.table, c.packet.value, s.now))
    requires GoodBuses(P, s, s.now) && WriteHorizon(P, s.mc) < WriteLatency(P) + Burst(P) && LinesFree(P, s, s.now)
    requires Dispatch(P, s, c) == Ok(u)
    ensures LinesFree(P, u, s.now)
  {
    if c.packet.Some? {
      DispatchIssued(P, s, c);
      DispatchWrites(P, s, c);
      IssuedFree(P, s, c.packet.value, u);
    } else {
      NothingDispatched(P, s, c, u);
      SameFree(P, s, u, s.now);
    }
  }

  lemma SameFree(P: Params, s: System, u: System, t: int)
    requires Shape(P, s) && Shape(P, u) && SameDevices(P, s, u) && LinesFree(P, s, t)
    ensures LinesFree(P, u, t)
  {
    forall i | 0 <= i <= P.ranks ensures LaneOf(P, u, i) == LaneOf(P, s, i) {
      if i < P.ranks { assert SameDevice(s.ranks[i], u.ranks[i]); }
    }
  }

  lemma PoweredFree(P: Params, s: System, u: System)
    requires ValidParams(P) && Shape(P, s) && Shape(P, u) && LinesFree(P, s, s.now) && ManagePower(P, s) == Ok(u)
    ensures LinesFree(P, u, s.now)
  {
    forall i | 0 <= i <= P.ranks
      ensures LaneOf(P, u, i) == LaneOf(P, s, i) && ClearOf(P, u, End(P, LaneOf(P, s, i)), s.now)
    {
      assert ClearOf(P, s, End(P, LaneOf(P, s, i)), s.now);
      forall r, b | 0 <= r < P.ranks && 0 <= b < P.banks
        ensures u.mc.table[r][b] == s.mc.table[r][b] || u.mc.table[r][b].status != RowActive
      {
      }
    }
  }

  // The lines as of this cycle, and as of the one before while a cycle has not begun.
  ghost predicate Free(P: Params, s: System)
    requires Shape(P, s)
  {
    LinesFree(P, s, s.now)
  }

  ghost predicate FreeBetween(P: Params, s: System)
    requires Shape(P, s)
  {
    LinesFree(P, s, s.now - 1)
  }

  lemma SameStaysFree(P: Params, s: System, u: System)
    requires Shape(P, s) && Shape(P, u) && SameDevices(P, s, u) && u.now == s.now && Free(P, s)
    ensures Free(P, u)
  {
    SameFree(P, s, u, s.now);
  }

  lemma SettleFree(P: Params, s: System) returns (u: System)
    requires ValidParams(P) && Shape(P, s) && Between(P, s) && Core(P, s) && FreeBetween(P, s)
    ensures Settle(P, s) == Ok(u) && Shape(P, u) && Free(P, u)
  {
    BetweenMeans(P, s);
    SettleEffect(P, s);
    u := Settle(P, s).value;
    SettledFree(P, s, u);
  }

  lemma RefreshFree(P: Params, s: System, u: System)
    requires ValidParams(P) && Shape(P, s) && Free(P, s) && u == RefreshTimer(P, s)
    ensures Free(P, u)
  {
    RefreshTimerEffect(P, s);
    SameStaysFree(P, s, u);
  }

  lemma IssueFree(P: Params, s: System) returns (u: System)
    requires ValidParams(P) && ValidLines(P) && Shape(P, s) && Within(P, s) && Core(P, s) && s.mc.cmd.None?
    requires WriteHorizon(P, s.mc) < WriteLatency(P) + Burst(P) && Free(P, s)
    ensures IssueCommand(P, s) == Ok(u) && Shape(P, u) && Free(P, u)
  {
    u := PopHalf(P, s);
    DispatchFrame(P, s, Pop(P, s.mc.table, s.mc.queue, s.now));
    PoppedFree(P, s, u);
  }

  lemma SplitFree(P: Params, s: System, u: System)
    requires ValidParams(P) && Shape(P, s) && Free(P, s) && SplitTransaction(P, s) == Ok(u) && u.now == s.now
    ensures Free(P, u)
  {
    SplitDevices(P, s, u);
    SameStaysFree(P, s, u);
  }

  lemma PowerFree(P: Params, s: System, u: System)
    requires ValidParams(P) && Shape(P, s) && Free(P, s) && ManagePower(P, s) == Ok(u) && u.now == s.now
    ensures Free(P, u)
  {
    PoweredFree(P, s, u);
  }

  lemma ReturnFree(P: Params, s: System, u: System)
    requires ValidParams(P) && Shape(P, s) && Free(P, s) && ReturnRead(P, s) == Ok(u) && u.now == s.now
    ensures Free(P, u)
  {
    ReturnDevices(P, s, u);
    SameStaysFree(P, s, u);
  }

  lemma EndFree(P: Params, s: System, u: System)
    requires ValidParams(P) && Shape(P, s) && Free(P, s) && u == EndCycle(P, s)
    ensures FreeBetween(P, u)
  {
    TickSameDevices(P, s, u);
    SameFree(P, s, u, s.now);
  }

  // One cycle keeps the lines free.
  lemma UpdateFree(P: Params, s: System, u: System)
    requires ValidParams(P) && ValidLines(P) && Shape(P, s) && Inv(P, s) && FreeBetween(P, s) && Update(P, s) == Ok(u)
    ensures FreeBetween(P, u)
  {
    var s1 := SettleHalf(P, s);
    var t1 := SettleFree(P, s);
    var s2 := RefreshHalf(P, s1);
    RefreshFree(P, s1, s2);
    var s3 := PopHalf(P, s2);
    var t3 := IssueFree(P, s2);
    RestFree(P, s3, u);
  }

  lemma RestFree(P: Params, s: System, u: System)
    requires ValidParams(P) && Shape(P, s) && Within(P, s) && Core(P, s) && Busy(P, s) && Free(P, s)
    requires AfterIssue(P, s) == Ok(u)
    ensures FreeBetween(P, u)
  {
    var s4 := SplitHalf(P, s);
    SplitFree(P, s, s4);
    var s5 := PowerHalf(P, s4);
    PowerFree(P, s4, s5);
    var s6 := ReturnHalf(P, s5);
    ReturnFree(P, s5, s6);
    EndFree(P, s6, u);
  }

  // ---------- every run

  lemma AcceptFree(P: Params, s: System, isRead: bool, address: nat)
    requires Shape(P, s) && FreeBetween(P, s)
    ensures FreeBetween(P, Accept(P, s, isRead, address))
  {
    SameFree(P, s, Accept(P, s, isRead, address), s.now - 1);
  }

  lemma StepFree(P: Params, s: System, a: Action, u: System)
    requires ValidParams(P) && ValidLines(P) && Shape(P, s) && Inv(P, s) && FreeBetween(P, s) && Step(P, s, a) == Ok(u)
    ensures FreeBetween(P, u)
  {
    match a
    case Request(isRead, address) =>
      AcceptFree(P, s, isRead, address);
    case Cycle =>
      UpdateFree(P, s, u);
  }

  lemma {:induction false} RunFree(P: Params, s: System, actions: seq<Action>, u: System)
    requires ValidParams(P) && ValidLines(P) && Shape(P, s) && Inv(P, s) && FreeBetween(P, s)
    requires RunFrom(P, s, actions) == Ok(u)
    ensures FreeBetween(P, u)
    decreases |actions|
  {
    if actions != [] {
      var v := StepKeeps(P, s, actions[0]);
      StepFree(P, s, actions[0], v);
      RunUnfold(P, s, actions, v);
      RunFree(P, v, actions[1..], u);
    }
  }

  lemma InitFree(P: Params)
    requires ValidParams(P) && Shape(P, Init(P))
    ensures FreeBetween(P, Init(P))
  {
  }

  lemma AloneOnLines(P: Params, s: System, r: nat)
    requires Shape(P, s) && FreeBetween(P, s) && r < P.ranks && s.ranks[r].outgoing.Some?
    ensures s.mc.data.None? && forall q :: 0 <= q < P.ranks && q != r ==> s.ranks[q].outgoing.None?
  {
    assert Apart(P, LaneOf(P, s, r), LaneOf(P, s, P.ranks));
    forall q | 0 <= q < P.ranks && q != r ensures s.ranks[q].outgoing.None? {
      assert Apart(P, LaneOf(P, s, if r < q then r else q), LaneOf(P, s, if r < q then q else r));
    }
  }

  // MAIN RESULT.  In every run at most one burst is on the shared data lines: one rank's read, or the
  // controller's write.
  lemma OneBurstAtATime(P: Params, actions: seq<Action>, r: nat)
    requires ValidParams(P) && ValidLines(P) && r < P.ranks && Reached(P, actions).ranks[r].outgoing.Some?
    ensures var s := Reached(P, actions);
            s.mc.data.None? && forall q :: 0 <= q < P.ranks && q != r ==> s.ranks[q].outgoing.None?
  {
    var s := Reached(P, actions);
    InitKeeps(P);
    InitFree(P);
    RunFree(P, Init(P), actions, s);
    AloneOnLines(P, s, r);
  }
}
