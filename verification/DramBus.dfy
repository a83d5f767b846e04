/** Bursts never overlap: the write data bus and every rank's read-return bus. */
module DramBus {
  import opened Basics
  import opened DramTypes
  import opened RankModel
  import opened CommandQueueSpec
  import opened MemorySystemSpec
  import opened DramSafety
  import opened Totals

  // Countdowns at least one burst apart, none expired, behind a burst with `left` cycles to go.
  ghost predicate Spaced(P: Params, counts: seq<nat>, busy: bool, left: nat)
  {
    && (forall i :: 0 <= i < |counts| - 1 ==> counts[i] + Burst(P) <= counts[i + 1])
    && (busy ==> 1 <= left)
    && (|counts| > 0 ==> 1 <= counts[0] && (busy ==> left <= counts[0]))
  }

  // Cycles until the last burst known so far has left the bus.
  function Horizon(P: Params, counts: seq<nat>, busy: bool, left: nat): nat
  {
    if |counts| > 0 then counts[|counts| - 1] + Burst(P) else if busy then left else 0
  }

  // One cycle of either pipeline: (countdowns, bus busy, cycles left on the bus).
  function Advance(P: Params, counts: seq<nat>, busy: bool, left: nat): (seq<nat>, bool, nat)
  {
    var left1 := if busy then Dec(left) else left;
    var busy1 := busy && left1 != 0;
    var d := DecAll(counts);
    if |d| > 0 && d[0] == 0 then (d[1..], true, Burst(P)) else (d, busy1, left1)
  }

  lemma SpacedAllPositive(P: Params, counts: seq<nat>, busy: bool, left: nat, i: nat)
    requires ValidParams(P) && Spaced(P, counts, busy, left) && i < |counts|
    ensures 1 <= counts[i] && (i > 0 ==> 1 + Burst(P) <= counts[i])
  {
    if i > 0 {
      SpacedAllPositive(P, counts, busy, left, i - 1);
      assert counts[i - 1] + Burst(P) <= counts[i];
    }
  }

  lemma DecAllSpaced(P: Params, counts: seq<nat>, busy: bool, left: nat)
    requires ValidParams(P) && Spaced(P, counts, busy, left)
    ensures forall i: nat :: i < |counts| ==>
      DecAll(counts)[i] + 1 == counts[i] && (i > 0 ==> Burst(P) <= DecAll(counts)[i])
  {
    forall i: nat | i < |counts| ensures 1 <= counts[i] && (i > 0 ==> 1 + Burst(P) <= counts[i]) {
      SpacedAllPositive(P, counts, busy, left, i);
    }
  }

  lemma AdvanceHorizon(P: Params, counts: seq<nat>, busy: bool, left: nat)
    requires ValidParams(P) && Spaced(P, counts, busy, left)
    ensures var (c, b, l) := Advance(P, counts, busy, left);
            Horizon(P, c, b, l) == Max(Horizon(P, counts, busy, left) - 1, 0)
  {
    DecAllSpaced(P, counts, busy, left);
  }

  // A cycle keeps the spacing, moves the horizon one cycle closer, and never starts a burst on a busy bus.
  lemma AdvanceSpaced(P: Params, counts: seq<nat>, busy: bool, left: nat)
    requires ValidParams(P) && Spaced(P, counts, busy, left)
    ensures var (c, b, l) := Advance(P, counts, busy, left);
            && Spaced(P, c, b, l)
            && Horizon(P, c, b, l) == Max(Horizon(P, counts, busy, left) - 1, 0)
    ensures |counts| > 0 && Dec(counts[0]) == 0 && busy ==> Dec(left) == 0
  {
    DecAllSpaced(P, counts, busy, left);
    AdvanceHorizon(P, counts, busy, left);
    var (c, b, l) := Advance(P, counts, busy, left);
    var off := if |counts| > 0 && counts[0] == 1 then 1 else 0;
    forall i | 0 <= i < |c| - 1 ensures c[i] + Burst(P) <= c[i + 1] {
      assert c[i] == counts[i + off] - 1 && c[i + 1] == counts[i + off + 1] - 1;
    }
  }

  lemma PushSpaced(P: Params, counts: seq<nat>, busy: bool, left: nat, n: nat)
    requires ValidParams(P) && Spaced(P, counts, busy, left) && 1 <= n && Horizon(P, counts, busy, left) <= n
    ensures Spaced(P, counts + [n], busy, left)
    ensures Horizon(P, counts + [n], busy, left) == n + Burst(P)
  {
  }

  // ---------- the two buses of a system

  function ReadHorizon(P: Params, d: RankState): nat
  {
    Horizon(P, d.returnCountdowns, d.outgoing.Some?, d.dataCyclesLeft)
  }

  function WriteHorizon(P: Params, c: Controller): nat
  {
    Horizon(P, c.writeCountdowns, c.data.Some?, c.dataCyclesLeft)
  }

  ghost predicate GoodPipe(P: Params, d: RankState)
  {
    && |d.returnPackets| == |d.returnCountdowns|
    && Spaced(P, d.returnCountdowns, d.outgoing.Some?, d.dataCyclesLeft)
    && ReadHorizon(P, d) <= ReadLatency(P) + Burst(P)
    && (forall i :: 0 <= i < |d.returnPackets| ==> d.returnPackets[i].kind == DATA)
    && (d.outgoing.Some? ==> d.outgoing.value.kind == DATA)
  }

  // The horizon of rank r's read bus once the command on the bus has arrived.
  function EffHorizon(P: Params, cmd: Option<Packet>, r: nat, d: RankState): nat
  {
    if cmd.Some? && cmd.value.rank == r && IsRead(cmd.value.kind) then ReadLatency(P) + Burst(P) + 1
      else ReadHorizon(P, d)
  }

  predicate Usable(m: BankState) { m.status == RowActive && m.countdown == 0 }

  // A usable bank will not be sent an access whose burst could meet an earlier one.
  predicate Clears(P: Params, m: BankState, rh: nat, wh: nat, t: int)
  {
    Usable(m) ==>
      && (rh > 0 ==> m.nextRead + 1 + ReadLatency(P) >= t + rh)
      && (wh > 0 ==> m.nextWrite + WriteLatency(P) >= t + wh)
  }

  ghost predicate GoodBuses(P: Params, s: System, t: int)
    requires ValidParams(P) && Shape(P, s)
  {
    && Spaced(P, s.mc.writeCountdowns, s.mc.data.Some?, s.mc.dataCyclesLeft)
    && WriteHorizon(P, s.mc) <= WriteLatency(P) + Burst(P)
    && (forall r :: 0 <= r < P.ranks ==> GoodPipe(P, s.ranks[r]))
    && (s.mc.cmd.Some? && IsRead(s.mc.cmd.value.kind) ==>
         ReadHorizon(P, s.ranks[s.mc.cmd.value.rank]) <= ReadLatency(P) + 1)
    && (forall r, b :: 0 <= r < P.ranks && 0 <= b < P.banks ==>
          Clears(P, s.mc.table[r][b], EffHorizon(P, s.mc.cmd, r, s.ranks[r]), WriteHorizon(P, s.mc), t))
  }

  lemma TickPipe(P: Params, d: RankState)
    requires ValidParams(P) && GoodPipe(P, d)
    ensures !Overwrites(d)
    ensures GoodPipe(P, Tick(P, d).0) && ReadHorizon(P, Tick(P, d).0) == Max(ReadHorizon(P, d) - 1, 0)
    ensures Tick(P, d).1.Some? ==> Tick(P, d).1.value.kind == DATA
  {
    AdvanceSpaced(P, d.returnCountdowns, d.outgoing.Some?, d.dataCyclesLeft);
    TickAdvances(P, d);
  }

  // A tick advances the read bus and shifts data packets only.
  lemma TickAdvances(P: Params, d: RankState)
    requires |d.returnPackets| == |d.returnCountdowns|
    requires forall i :: 0 <= i < |d.returnPackets| ==> d.returnPackets[i].kind == DATA
    requires d.outgoing.Some? ==> d.outgoing.value.kind == DATA
    ensures var e := Tick(P, d).0;
            && (e.returnCountdowns, e.outgoing.Some?, e.dataCyclesLeft)
               == Advance(P, d.returnCountdowns, d.outgoing.Some?, d.dataCyclesLeft)
            && |e.returnPackets| == |e.returnCountdowns|
            && (forall i :: 0 <= i < |e.returnPackets| ==> e.returnPackets[i].kind == DATA)
            && (e.outgoing.Some? ==> e.outgoing.value.kind == DATA)
  {
  }

  lemma ReceivePipe(P: Params, d: RankState, p: Packet, now: nat)
    requires ValidParams(P) && GoodPipe(P, d)
    requires IsRead(p.kind) ==> ReadHorizon(P, d) <= ReadLatency(P)
    ensures GoodPipe(P, Receive(P, d, p, now))
    ensures ReadHorizon(P, Receive(P, d, p, now)) == if IsRead(p.kind) then ReadLatency(P) + Burst(P)
      else ReadHorizon(P, d)
  {
    if IsRead(p.kind) {
      PushSpaced(P, d.returnCountdowns, d.outgoing.Some?, d.dataCyclesLeft, ReadLatency(P));
    }
  }

  lemma DeliveredAreData(P: Params, ranks: seq<RankState>)
    requires ValidParams(P) && forall r :: 0 <= r < |ranks| ==> GoodPipe(P, ranks[r])
    ensures forall i :: 0 <= i < |Delivered(P, ranks)| ==> Delivered(P, ranks)[i].kind == DATA
  {
    var handed := seq(|ranks|, r requires 0 <= r < |ranks| => Handed(P, ranks[r]));
    forall i | 0 <= i < |Delivered(P, ranks)| ensures Delivered(P, ranks)[i].kind == DATA {
      FlattenMember(handed, Delivered(P, ranks)[i]);
      var r :| 0 <= r < |ranks| && Delivered(P, ranks)[i] in handed[r];
      TickPipe(P, ranks[r]);
    }
  }

  lemma CountDownClears(P: Params, m: BankState, d: BankState, rh: nat, wh: nat, t: int)
    requires ValidParams(P) && SimBank(P, m, d, t) && Clears(P, m, rh, wh, t)
    ensures Clears(P, CountDownBank(P, m), Max(rh - 1, 0), Max(wh - 1, 0), t + 1)
  {
  }

  // The two data-bus phases advance the write pipeline, and no burst finds the bus taken.
  lemma WritesAdvance(P: Params, s: System)
    requires ValidParams(P) && Shape(P, s)
    requires Spaced(P, s.mc.writeCountdowns, s.mc.data.Some?, s.mc.dataCyclesLeft)
    ensures SendWriteData(P, DataBus(P, s)).Ok?
    ensures var u := SendWriteData(P, DataBus(P, s)).value;
            (u.mc.writeCountdowns, u.mc.data.Some?, u.mc.dataCyclesLeft)
            == Advance(P, s.mc.writeCountdowns, s.mc.data.Some?, s.mc.dataCyclesLeft)
  {
    AdvanceSpaced(P, s.mc.writeCountdowns, s.mc.data.Some?, s.mc.dataCyclesLeft);
  }

  lemma WritesFrame(P: Params, s: System)
    requires Shape(P, s)
    ensures var o := SendWriteData(P, DataBus(P, s));
            o.Ok? ==>
              && o.value.ranks == s.ranks && o.value.now == s.now && o.value.log == s.log
              && o.value.mc == s.mc.(data := o.value.mc.data, dataCyclesLeft := o.value.mc.dataCyclesLeft,
                                     writePackets := o.value.mc.writePackets,
                                     writeCountdowns := o.value.mc.writeCountdowns)
  {
  }

  lemma SendWriteSpaced(P: Params, s: System)
    requires ValidParams(P) && Shape(P, s) && Spaced(P, s.mc.writeCountdowns, s.mc.data.Some?, s.mc.dataCyclesLeft)
    ensures var o := SendWriteData(P, DataBus(P, s));
            && o.Ok?
            && Spaced(P, o.value.mc.writeCountdowns, o.value.mc.data.Some?, o.value.mc.dataCyclesLeft)
            && WriteHorizon(P, o.value.mc) == Max(WriteHorizon(P, s.mc) - 1, 0)
            && o.value.ranks == s.ranks && o.value.now == s.now && o.value.log == s.log
            && o.value.mc == s.mc.(data := o.value.mc.data, dataCyclesLeft := o.value.mc.dataCyclesLeft,
                                   writePackets := o.value.mc.writePackets,
                                     writeCountdowns := o.value.mc.writeCountdowns)
  {
    WritesAdvance(P, s);
    WritesFrame(P, s);
    AdvanceSpaced(P, s.mc.writeCountdowns, s.mc.data.Some?, s.mc.dataCyclesLeft);
  }

  lemma TickRanksBuses(P: Params, s: System)
    requires ValidParams(P) && Shape(P, s) && GoodBuses(P, s, s.now - 1)
    ensures TickRanks(P, s).Ok?
    ensures var u := TickRanks(P, s).value;
            && u.mc == s.mc.(readData := u.mc.readData) && u.now == s.now && u.log == s.log
            && forall r :: 0 <= r < P.ranks ==>
                 && GoodPipe(P, u.ranks[r]) && ReadHorizon(P, u.ranks[r]) == Max(ReadHorizon(P, s.ranks[r]) - 1, 0)
                 && u.ranks[r].banks == s.ranks[r].banks
  {
    DeliveredAreData(P, s.ranks);
    forall r | 0 <= r < P.ranks
      ensures GoodPipe(P, Tick(P, s.ranks[r]).0)
      ensures ReadHorizon(P, Tick(P, s.ranks[r]).0) == Max(ReadHorizon(P, s.ranks[r]) - 1, 0)
    {
      TickPipe(P, s.ranks[r]);
    }
  }

  lemma CommandBusPipes(P: Params, s: System)
    requires ValidParams(P) && Shape(P, s) && CommandBus(P, s).Ok? && (s.mc.cmd.Some? ==> s.mc.cmdCyclesLeft == 1)
    requires forall r :: 0 <= r < P.ranks ==> GoodPipe(P, s.ranks[r])
    requires s.mc.cmd.Some? && IsRead(s.mc.cmd.value.kind) ==>
      ReadHorizon(P, s.ranks[s.mc.cmd.value.rank]) <= ReadLatency(P)
    ensures var u := CommandBus(P, s).value;
            && u.mc == s.mc.(cmd := None, cmdCyclesLeft := u.mc.cmdCyclesLeft) && u.now == s.now && u.log == s.log
            && forall r :: 0 <= r < P.ranks ==>
                 && GoodPipe(P, u.ranks[r])
                 && ReadHorizon(P, u.ranks[r]) ==
                    if s.mc.cmd.Some? && s.mc.cmd.value.rank == r && IsRead(s.mc.cmd.value.kind)
                    then ReadLatency(P) + Burst(P) else ReadHorizon(P, s.ranks[r])
  {
    if s.mc.cmd.Some? {
      ReceivePipe(P, s.ranks[s.mc.cmd.value.rank], s.mc.cmd.value, s.now);
    }
  }

  // u is s after its buses settled.
  ghost predicate Settled(P: Params, s: System, u: System)
    requires ValidParams(P) && Shape(P, s) && Shape(P, u)
  {
    && u.now == s.now && u.log == s.log
    && u.mc == s.mc.(table := CountDownTable(P, s.mc.table), cmd := None, cmdCyclesLeft := u.mc.cmdCyclesLeft,
                     data := u.mc.data, dataCyclesLeft := u.mc.dataCyclesLeft,
                     writePackets := u.mc.writePackets, writeCountdowns := u.mc.writeCountdowns,
                       readData := u.mc.readData)
    && Spaced(P, u.mc.writeCountdowns, u.mc.data.Some?, u.mc.dataCyclesLeft)
    && WriteHorizon(P, u.mc) == Max(WriteHorizon(P, s.mc) - 1, 0)
    && forall r :: 0 <= r < P.ranks ==>
         GoodPipe(P, u.ranks[r]) && ReadHorizon(P, u.ranks[r]) == Max(EffHorizon(P, s.mc.cmd, r, s.ranks[r]) - 1, 0)
  }

  // The facts the three bus phases give, put together.
  lemma SettleCombine(P: Params, s: System, s0: System, s1: System, u: System)
    requires ValidParams(P) && Shape(P, s) && Shape(P, s0) && Shape(P, s1) && Shape(P, u)
    requires s0.mc == s.mc.(readData := s0.mc.readData) && s0.now == s.now && s0.log == s.log
    requires forall r :: 0 <= r < P.ranks ==> ReadHorizon(P, s0.ranks[r]) == Max(ReadHorizon(P, s.ranks[r]) - 1, 0)
    requires s1.mc == s0.mc.(table := CountDownTable(P, s0.mc.table), cmd := None, cmdCyclesLeft := s1.mc.cmdCyclesLeft)
    requires s1.now == s0.now && s1.log == s0.log
    requires forall r :: 0 <= r < P.ranks ==>
      GoodPipe(P, s1.ranks[r])
      && ReadHorizon(P, s1.ranks[r]) == if s0.mc.cmd.Some? && s0.mc.cmd.value.rank == r && IsRead(s0.mc.cmd.value.kind)
                                        then ReadLatency(P) + Burst(P) else ReadHorizon(P, s0.ranks[r])
    requires Spaced(P, u.mc.writeCountdowns, u.mc.data.Some?, u.mc.dataCyclesLeft)
    requires WriteHorizon(P, u.mc) == Max(WriteHorizon(P, s1.mc) - 1, 0)
    requires u.ranks == s1.ranks && u.now == s1.now && u.log == s1.log
    requires u.mc == s1.mc.(data := u.mc.data, dataCyclesLeft := u.mc.dataCyclesLeft,
                            writePackets := u.mc.writePackets, writeCountdowns := u.mc.writeCountdowns)
    ensures Settled(P, s, u)
  {
  }

  // No collision, no overwritten packet, no rejected command while a cycle settles its buses.
  lemma SettleEffect(P: Params, s: System)
    requires ValidParams(P) && Shape(P, s) && Sim(P, s, s.now - 1) && GoodBuses(P, s, s.now - 1)
    ensures Settle(P, s).Ok?
    ensures Settled(P, s, Settle(P, s).value) && Sim(P, Settle(P, s).value, s.now)
  {
    TickRanksBuses(P, s);
    var s0 := TickRanks(P, s).value;
    TickRanksSim(P, s, s.now - 1);
    var s1 := SettleCommand(P, s, s0);
    SendWriteSpaced(P, s1);
    var u := SendWriteData(P, DataBus(P, s1)).value;
    SettleCombine(P, s, s0, s1, u);
    SimIgnoresWrites(P, s1, u, s.now);
  }

  lemma SettleCommand(P: Params, s: System, s0: System) returns (s1: System)
    requires ValidParams(P) && Shape(P, s) && GoodBuses(P, s, s.now - 1) && Shape(P, s0) && Sim(P, s0, s0.now - 1)
    requires s0.mc == s.mc.(readData := s0.mc.readData)
    requires forall r :: 0 <= r < P.ranks ==>
      GoodPipe(P, s0.ranks[r]) && ReadHorizon(P, s0.ranks[r]) == Max(ReadHorizon(P, s.ranks[r]) - 1, 0)
    ensures CommandBus(P, CountDown(P, s0)).Ok? && s1 == CommandBus(P, CountDown(P, s0)).value
    ensures Shape(P, s1) && Sim(P, s1, s0.now)
    ensures Spaced(P, s1.mc.writeCountdowns, s1.mc.data.Some?, s1.mc.dataCyclesLeft)
    ensures s1.mc == s0.mc.(table := CountDownTable(P, s0.mc.table), cmd := None, cmdCyclesLeft := s1.mc.cmdCyclesLeft)
    ensures s1.now == s0.now && s1.log == s0.log
    ensures forall r :: 0 <= r < P.ranks ==>
      GoodPipe(P, s1.ranks[r])
      && ReadHorizon(P, s1.ranks[r]) == if s0.mc.cmd.Some? && s0.mc.cmd.value.rank == r && IsRead(s0.mc.cmd.value.kind)
                                        then ReadLatency(P) + Burst(P) else ReadHorizon(P, s0.ranks[r])
  {
    CommandBusSim(P, s0);
    s1 := CommandBus(P, CountDown(P, s0)).value;
    CommandBusPipes(P, CountDown(P, s0));
  }

  lemma SettledClears(P: Params, s: System, u: System)
    requires ValidParams(P) && Shape(P, s) && Shape(P, u)
    requires Sim(P, s, s.now - 1) && GoodBuses(P, s, s.now - 1) && Settled(P, s, u)
    ensures GoodBuses(P, u, s.now) && WriteHorizon(P, u.mc) < WriteLatency(P) + Burst(P)
  {
    forall r, b | 0 <= r < P.ranks && 0 <= b < P.banks
      ensures Clears(P, u.mc.table[r][b], ReadHorizon(P, u.ranks[r]), WriteHorizon(P, u.mc), s.now)
    {
      CountDownClears(P, s.mc.table[r][b], Eff(P, s.mc.cmd, r, b, s.ranks[r].banks[b], s.now),
                   EffHorizon(P, s.mc.cmd, r, s.ranks[r]), WriteHorizon(P, s.mc), s.now - 1);
    }
  }

  lemma SimIgnoresWrites(P: Params, s: System, u: System, t: int)
    requires -1 <= t && ValidParams(P) && Shape(P, s) && Shape(P, u) && Sim(P, s, t)
    requires u.ranks == s.ranks && u.mc.table == s.mc.table && u.mc.cmd == s.mc.cmd
    requires u.mc.cmdCyclesLeft == s.mc.cmdCyclesLeft && u.mc.powerDown == s.mc.powerDown
    ensures Sim(P, u, t)
  {
  }

  // A usable bank stays clear of earlier bursts whatever is issued.
  lemma IssueClears(P: Params, p: Packet, r: nat, i: nat, m: BankState, rh: nat, wh: nat, now: nat)
    requires ValidParams(P) && Clears(P, m, rh, wh, now) && (m.status == Idle ==> m.countdown == 0)
    requires rh <= ReadLatency(P) + Burst(P) && wh < WriteLatency(P) + Burst(P)
    requires r == p.rank && i == p.bank ==> MayIssue(P, p, m, now)
    ensures Clears(P, IssueBank(P, p, r, i, m, now),
                if IsRead(p.kind) && r == p.rank then ReadLatency(P) + Burst(P) + 1 else rh,
                if IsWrite(p.kind) then WriteLatency(P) + Burst(P) else wh, now)
  {
  }

  lemma IssueHorizon(P: Params, p: Packet, m: BankState, rh: nat, wh: nat, now: nat)
    requires ValidParams(P) && Clears(P, m, rh, wh, now) && MayIssue(P, p, m, now)
    requires m.status == RowActive && m.countdown > 0 ==> m.nextRead > now && m.nextWrite > now
    ensures IsRead(p.kind) ==> rh <= ReadLatency(P) + 1
    ensures IsWrite(p.kind) ==> wh <= WriteLatency(P)
  {
  }

  lemma IssuedClears(P: Params, s: System, p: Packet, u: System, r: nat, b: nat)
    requires ValidParams(P) && Shape(P, s) && Shape(P, u) && Issued(P, s, p, u) && s.mc.cmd.None?
    requires Sim(P, s, s.now) && GoodPop(P, s.mc.table, p, s.now) && r < P.ranks && b < P.banks
    requires GoodBuses(P, s, s.now) && WriteHorizon(P, s.mc) < WriteLatency(P) + Burst(P)
    requires WriteHorizon(P, u.mc) == if IsWrite(p.kind) then WriteLatency(P) + Burst(P) else WriteHorizon(P, s.mc)
    ensures Clears(P, u.mc.table[r][b], EffHorizon(P, u.mc.cmd, r, u.ranks[r]), WriteHorizon(P, u.mc), s.now)
  {
    assert SimBank(P, s.mc.table[r][b], s.ranks[r].banks[b], s.now);
    assert Clears(P, s.mc.table[r][b], ReadHorizon(P, s.ranks[r]), WriteHorizon(P, s.mc), s.now);
    IssueClears(P, p, r, b, s.mc.table[r][b], ReadHorizon(P, s.ranks[r]), WriteHorizon(P, s.mc), s.now);
  }

  // Issuing a command books its burst behind every earlier one.
  lemma IssuedBuses(P: Params, s: System, p: Packet, u: System)
    requires ValidParams(P) && Shape(P, s) && Shape(P, u) && Issued(P, s, p, u) && s.mc.cmd.None?
    requires Sim(P, s, s.now) && GoodPop(P, s.mc.table, p, s.now)
    requires GoodBuses(P, s, s.now) && WriteHorizon(P, s.mc) < WriteLatency(P) + Burst(P)
    requires u.mc.data == s.mc.data && u.mc.dataCyclesLeft == s.mc.dataCyclesLeft
    requires u.mc.writeCountdowns == s.mc.writeCountdowns + (if IsWrite(p.kind) then [WriteLatency(P)] else [])
    ensures GoodBuses(P, u, s.now)
  {
    IssuedRoom(P, s, p);
    if IsWrite(p.kind) {
      PushSpaced(P, s.mc.writeCountdowns, s.mc.data.Some?, s.mc.dataCyclesLeft, WriteLatency(P));
    } else {
      assert u.mc.writeCountdowns == s.mc.writeCountdowns;
    }
    forall r, b | 0 <= r < P.ranks && 0 <= b < P.banks
      ensures Clears(P, u.mc.table[r][b], EffHorizon(P, u.mc.cmd, r, u.ranks[r]), WriteHorizon(P, u.mc), s.now)
    {
      IssuedClears(P, s, p, u, r, b);
    }
  }

  lemma IssuedRoom(P: Params, s: System, p: Packet)
    requires ValidParams(P) && Shape(P, s) && s.mc.cmd.None? && Sim(P, s, s.now) && GoodPop(P, s.mc.table, p, s.now)
    requires GoodBuses(P, s, s.now)
    ensures IsRead(p.kind) ==> ReadHorizon(P, s.ranks[p.rank]) <= ReadLatency(P) + 1
    ensures IsWrite(p.kind) ==> WriteHorizon(P, s.mc) <= WriteLatency(P)
  {
    var m := s.mc.table[p.rank][p.bank];
    assert SimBank(P, m, s.ranks[p.rank].banks[p.bank], s.now);
    assert Clears(P, m, ReadHorizon(P, s.ranks[p.rank]), WriteHorizon(P, s.mc), s.now);
    IssueHorizon(P, p, m, ReadHorizon(P, s.ranks[p.rank]), WriteHorizon(P, s.mc), s.now);
  }

  lemma DispatchBuses(P: Params, s: System, c: Popped)
    requires ValidParams(P) && Shape(P, s) && QueueShape(P, c.queue) && s.mc.cmd.None?
    requires Sim(P, s, s.now) && (c.packet.Some? ==> GoodPop(P, s.mc.table, c.packet.value, s.now))
    requires GoodBuses(P, s, s.now) && WriteHorizon(P, s.mc) < WriteLatency(P) + Burst(P)
    ensures Dispatch(P, s, c).Ok? && GoodBuses(P, Dispatch(P, s, c).value, s.now)
  {
    if c.packet.Some? {
      DispatchIssued(P, s, c);
      DispatchWrites(P, s, c);
      IssuedBuses(P, s, c.packet.value, Dispatch(P, s, c).value);
    }
  }

  lemma DispatchWrites(P: Params, s: System, c: Popped)
    requires ValidParams(P) && Shape(P, s) && QueueShape(P, c.queue) && s.mc.cmd.None?
    requires c.packet.Some? && InRange(P, Slot(c.packet.value.rank, c.packet.value.bank))
    ensures var u := Dispatch(P, s, c).value;
            && u.mc.data == s.mc.data && u.mc.dataCyclesLeft == s.mc.dataCyclesLeft
            && u.mc.writeCountdowns == s.mc.writeCountdowns
               + (if IsWrite(c.packet.value.kind) then [WriteLatency(P)] else [])
  {
  }
}
