/** The controller's shadow table simulates the device tables, one bus delay ahead. */
module DramSafety {
  import opened Basics
  import opened DramTypes
  import opened RankModel
  import opened CommandQueueSpec
  import opened MemorySystemSpec

  // Controller view m against device view d, where d already includes the command
  // on the bus.  While an auto-precharge is pending (countdown > 0) the controller
  // still shows an open row that the device has closed; it must not use it.
  predicate SimBank(P: Params, m: BankState, d: BankState, t: int)
  {
    && d.nextActivate <= m.nextActivate + 1
    && match m.status
       case Idle => d.status == Idle && m.countdown == 0
       case Precharging => d.status == Idle && m.last == PRECHARGE && m.countdown > 0
       case Refreshing => d.status == Idle && m.last == REFRESH && m.countdown > 0 && m.nextActivate >= t + m.countdown
       case PowerDown => d.status == PowerDown && m.countdown == 0 && m.nextPowerUp == d.nextPowerUp
       case RowActive =>
         if m.countdown == 0 then
           && d.status == RowActive && d.openRow == m.openRow
           && d.nextRead <= m.nextRead + 1 && d.nextWrite <= m.nextWrite + 1 && d.nextPrecharge <= m.nextPrecharge + 1
         else
           && P.closePage && d.status == Idle && (m.last == READ_P || m.last == WRITE_P)
           && m.nextRead >= t + m.countdown && m.nextWrite >= t + m.countdown
  }

  // When the controller may send p, judged on the bank it addresses.
  predicate MayIssue(P: Params, p: Packet, m: BankState, now: nat)
  {
    match p.kind
    case ACTIVATE => (m.status == Idle || m.status == Refreshing) && m.nextActivate <= now
    case READ => !P.closePage && m.status == RowActive && m.nextRead <= now && p.row == m.openRow
    case READ_P => P.closePage && m.status == RowActive && m.nextRead <= now && p.row == m.openRow
    case WRITE => !P.closePage && m.status == RowActive && m.nextWrite <= now && p.row == m.openRow
    case WRITE_P => P.closePage && m.status == RowActive && m.nextWrite <= now && p.row == m.openRow
    case PRECHARGE => !P.closePage && m.status == RowActive && m.nextPrecharge <= now
    case REFRESH => m.status != RowActive && m.status != PowerDown && m.nextActivate <= now
    case DATA => false
  }

  function Eff(P: Params, cmd: Option<Packet>, r: nat, i: nat, d: BankState, at: nat): BankState
    requires ValidParams(P)
  {
    if cmd.Some? && cmd.value.rank == r then ReceiveBank(P, cmd.value, i, d, at) else d
  }

  lemma CountDownSim(P: Params, m: BankState, d: BankState, t: int)
    requires ValidParams(P) && SimBank(P, m, d, t)
    ensures SimBank(P, CountDownBank(P, m), d, t + 1)
  {
  }

  lemma ReadSim(P: Params, p: Packet, r: nat, i: nat, m: BankState, d: BankState, now: nat)
    requires ValidParams(P) && SimBank(P, m, d, now) && IsRead(p.kind)
    requires r == p.rank && (i == p.bank || p.kind == REFRESH) ==> MayIssue(P, p, m, now)
    ensures SimBank(P, IssueBank(P, p, r, i, m, now), Eff(P, Some(p), r, i, d, now + 1), now)
  {
  }

  lemma WriteSim(P: Params, p: Packet, r: nat, i: nat, m: BankState, d: BankState, now: nat)
    requires ValidParams(P) && SimBank(P, m, d, now) && IsWrite(p.kind)
    requires r == p.rank && (i == p.bank || p.kind == REFRESH) ==> MayIssue(P, p, m, now)
    ensures SimBank(P, IssueBank(P, p, r, i, m, now), Eff(P, Some(p), r, i, d, now + 1), now)
  {
  }

  lemma RowCommandSim(P: Params, p: Packet, r: nat, i: nat, m: BankState, d: BankState, now: nat)
    requires ValidParams(P) && SimBank(P, m, d, now) && !IsColumn(p.kind)
    requires r == p.rank && (i == p.bank || p.kind == REFRESH) ==> MayIssue(P, p, m, now)
    ensures SimBank(P, IssueBank(P, p, r, i, m, now), Eff(P, Some(p), r, i, d, now + 1), now)
  {
  }

  // Sending p keeps the simulation on every bank of every rank.
  lemma IssueSim(P: Params, p: Packet, r: nat, i: nat, m: BankState, d: BankState, now: nat)
    requires ValidParams(P) && SimBank(P, m, d, now)
    requires r == p.rank && (i == p.bank || p.kind == REFRESH) ==> MayIssue(P, p, m, now)
    ensures SimBank(P, IssueBank(P, p, r, i, m, now), Eff(P, Some(p), r, i, d, now + 1), now)
  {
    if IsRead(p.kind) {
      ReadSim(P, p, r, i, m, d, now);
    } else if IsWrite(p.kind) {
      WriteSim(P, p, r, i, m, d, now);
    } else {
      RowCommandSim(P, p, r, i, m, d, now);
    }
  }

  // What the controller may send, the device accepts one cycle later.
  lemma IssueLegal(P: Params, p: Packet, m: BankState, d: BankState, now: nat)
    requires ValidParams(P) && SimBank(P, m, d, now) && MayIssue(P, p, m, now)
    ensures match p.kind
            case READ | READ_P => d.status == RowActive && d.nextRead <= now + 1 && p.row == d.openRow
            case WRITE | WRITE_P => d.status == RowActive && d.nextWrite <= now + 1 && p.row == d.openRow
            case ACTIVATE => d.status == Idle && d.nextActivate <= now + 1
            case PRECHARGE => d.status == RowActive && d.nextPrecharge <= now + 1
            case REFRESH => d.status == Idle
            case DATA => true
  {
  }

  ghost predicate Sim(P: Params, s: System, t: int)
    requires ValidParams(P) && Shape(P, s) && -1 <= t
  {
    && (forall r, b :: 0 <= r < P.ranks && 0 <= b < P.banks ==>
          SimBank(P, s.mc.table[r][b], Eff(P, s.mc.cmd, r, b, s.ranks[r].banks[b], t + 1), t))
    && (forall r :: 0 <= r < P.ranks ==> s.ranks[r].isPowerDown == s.mc.powerDown[r])
    && (forall r, b :: 0 <= r < P.ranks && 0 <= b < P.banks ==>
          (s.mc.table[r][b].status == PowerDown <==> s.mc.powerDown[r]))
    && (forall r, b :: 0 <= r < P.ranks && 0 <= b < P.banks && s.mc.powerDown[r] ==>
          s.mc.table[r][b].nextPowerUp == s.mc.table[r][0].nextPowerUp)
    && (s.mc.cmd.Some? ==>
          s.mc.cmdCyclesLeft == 1 && CanReceive(s.ranks[s.mc.cmd.value.rank], s.mc.cmd.value, t + 1))
  }

  // Right after a pop: the addressed bank is neither idle nor powered down.
  ghost predicate Busy(P: Params, s: System)
    requires ValidParams(P) && Shape(P, s)
  {
    s.mc.cmd.Some? ==>
      var b := s.mc.table[s.mc.cmd.value.rank][s.mc.cmd.value.bank];
      b.status != Idle && b.status != PowerDown
  }

  // A popped packet is one the controller may send.
  ghost predicate GoodPop(P: Params, T: Table, p: Packet, now: nat)
    requires TableShape(P, T)
  {
    && InRange(P, Slot(p.rank, p.bank))
    && MayIssue(P, p, T[p.rank][p.bank], now)
    && (p.kind == REFRESH ==> forall b :: 0 <= b < P.banks ==> MayIssue(P, p, T[p.rank][b], now))
  }

  lemma TickRanksSim(P: Params, s: System, t: int)
    requires -1 <= t && ValidParams(P) && Shape(P, s) && Sim(P, s, t) && TickRanks(P, s).Ok?
    ensures Sim(P, TickRanks(P, s).value, t)
  {
    var u := TickRanks(P, s).value;
    forall r | 0 <= r < P.ranks
      ensures u.ranks[r].banks == s.ranks[r].banks && u.ranks[r].isPowerDown == s.ranks[r].isPowerDown {}
  }

  // The command on the bus reaches its rank.
  lemma CommandArrives(P: Params, s: System)
    requires ValidParams(P) && Shape(P, s)
    requires s.mc.cmd.Some? ==>
      s.mc.cmdCyclesLeft == 1 && CanReceive(s.ranks[s.mc.cmd.value.rank], s.mc.cmd.value, s.now)
    ensures CommandBus(P, CountDown(P, s)).Ok?
    ensures var u := CommandBus(P, CountDown(P, s)).value;
            && u.mc.cmd.None? && u.mc.powerDown == s.mc.powerDown
            && (forall r :: 0 <= r < P.ranks ==> u.ranks[r].isPowerDown == s.ranks[r].isPowerDown)
            && (forall r, b :: 0 <= r < P.ranks && 0 <= b < P.banks ==>
                  u.ranks[r].banks[b] == Eff(P, s.mc.cmd, r, b, s.ranks[r].banks[b], s.now))
            && (forall r, b :: 0 <= r < P.ranks && 0 <= b < P.banks ==>
                  u.mc.table[r][b] == CountDownBank(P, s.mc.table[r][b]))
  {
  }

  lemma BankArrives(P: Params, s: System, r: nat, b: nat)
    requires ValidParams(P) && Shape(P, s) && Sim(P, s, s.now - 1) && r < P.ranks && b < P.banks
    ensures SimBank(P, CountDownBank(P, s.mc.table[r][b]), Eff(P, s.mc.cmd, r, b, s.ranks[r].banks[b], s.now), s.now)
  {
    CountDownSim(P, s.mc.table[r][b], Eff(P, s.mc.cmd, r, b, s.ranks[r].banks[b], s.now), s.now - 1);
  }

  lemma ArrivedSim(P: Params, s: System, u: System)
    requires ValidParams(P) && Shape(P, s) && Shape(P, u) && Sim(P, s, s.now - 1)
    requires u.mc.cmd.None? && u.mc.powerDown == s.mc.powerDown
    requires forall r :: 0 <= r < P.ranks ==> u.ranks[r].isPowerDown == s.ranks[r].isPowerDown
    requires forall r, b :: 0 <= r < P.ranks && 0 <= b < P.banks ==>
      u.mc.table[r][b] == CountDownBank(P, s.mc.table[r][b])
    requires forall r, b :: 0 <= r < P.ranks && 0 <= b < P.banks ==>
      SimBank(P, u.mc.table[r][b], u.ranks[r].banks[b], s.now)
    ensures Sim(P, u, s.now)
  {
    forall r, b | 0 <= r < P.ranks && 0 <= b < P.banks
      ensures u.mc.table[r][b].status == PowerDown <==> s.mc.table[r][b].status == PowerDown
      ensures u.mc.table[r][b].nextPowerUp == s.mc.table[r][b].nextPowerUp
    {
      PowerCounted(P, s.mc.table[r][b]);
    }
  }

  lemma PowerCounted(P: Params, m: BankState)
    ensures CountDownBank(P, m).nextPowerUp == m.nextPowerUp
    ensures m.status == PowerDown && m.countdown == 0 ==> CountDownBank(P, m).status == PowerDown
    ensures CountDownBank(P, m).status == PowerDown ==> m.status == PowerDown
  {
  }

  // Counting down and delivering the command on the bus: no command is rejected.
  lemma CommandBusSim(P: Params, s: System)
    requires ValidParams(P) && Shape(P, s) && Sim(P, s, s.now - 1)
    ensures var o := CommandBus(P, CountDown(P, s));
            o.Ok? && o.value.mc.cmd.None? && Sim(P, o.value, s.now)
  {
    CommandArrives(P, s);
    var u := CommandBus(P, CountDown(P, s)).value;
    forall r, b | 0 <= r < P.ranks && 0 <= b < P.banks
      ensures SimBank(P, u.mc.table[r][b], u.ranks[r].banks[b], s.now)
    {
      BankArrives(P, s, r, b);
    }
    ArrivedSim(P, s, u);
  }

  lemma PopLegal(P: Params, s: System, p: Packet)
    requires ValidParams(P) && Shape(P, s) && s.mc.cmd.None? && Sim(P, s, s.now)
    requires GoodPop(P, s.mc.table, p, s.now)
    ensures CanReceive(s.ranks[p.rank], p, s.now + 1)
  {
    IssueLegal(P, p, s.mc.table[p.rank][p.bank], s.ranks[p.rank].banks[p.bank], s.now);
    if p.kind == REFRESH {
      forall b | 0 <= b < P.banks ensures s.ranks[p.rank].banks[b].status == Idle {
        IssueLegal(P, p, s.mc.table[p.rank][b], s.ranks[p.rank].banks[b], s.now);
      }
    }
  }

  lemma IssueStatus(P: Params, p: Packet, r: nat, i: nat, m: BankState, now: nat)
    requires ValidParams(P)
    requires r == p.rank && (i == p.bank || p.kind == REFRESH) ==> MayIssue(P, p, m, now)
    ensures var u := IssueBank(P, p, r, i, m, now);
            && (u.status == PowerDown <==> m.status == PowerDown) && u.nextPowerUp == m.nextPowerUp
            && (r == p.rank && i == p.bank ==> u.status != Idle)
  {
  }

  // u is s after p was put on the command bus.
  ghost predicate Issued(P: Params, s: System, p: Packet, u: System)
    requires ValidParams(P) && Shape(P, s) && Shape(P, u)
  {
    && u.ranks == s.ranks && u.mc.cmd == Some(p) && u.mc.cmdCyclesLeft == 1
    && u.mc.powerDown == s.mc.powerDown && u.now == s.now
    && forall r, b :: 0 <= r < P.ranks && 0 <= b < P.banks ==>
         u.mc.table[r][b] == IssueBank(P, p, r, b, s.mc.table[r][b], s.now)
  }

  lemma DispatchIssued(P: Params, s: System, c: Popped)
    requires ValidParams(P) && Shape(P, s) && QueueShape(P, c.queue) && s.mc.cmd.None?
    requires c.packet.Some? && InRange(P, Slot(c.packet.value.rank, c.packet.value.bank))
    ensures Dispatch(P, s, c).Ok? && Issued(P, s, c.packet.value, Dispatch(P, s, c).value)
  {
  }

  lemma IssuedBank(P: Params, s: System, p: Packet, u: System, r: nat, b: nat)
    requires ValidParams(P) && Shape(P, s) && Shape(P, u) && Issued(P, s, p, u)
    requires s.mc.cmd.None? && Sim(P, s, s.now) && GoodPop(P, s.mc.table, p, s.now)
    requires r < P.ranks && b < P.banks
    ensures SimBank(P, u.mc.table[r][b], Eff(P, u.mc.cmd, r, b, u.ranks[r].banks[b], s.now + 1), s.now)
    ensures u.mc.table[r][b].status == PowerDown <==> s.mc.table[r][b].status == PowerDown
    ensures u.mc.table[r][b].nextPowerUp == s.mc.table[r][b].nextPowerUp
    ensures r == p.rank && b == p.bank ==> u.mc.table[r][b].status != Idle
  {
    IssueSim(P, p, r, b, s.mc.table[r][b], s.ranks[r].banks[b], s.now);
    IssueStatus(P, p, r, b, s.mc.table[r][b], s.now);
  }

  lemma IssuedSim(P: Params, s: System, p: Packet, u: System)
    requires ValidParams(P) && Shape(P, s) && Shape(P, u) && Issued(P, s, p, u)
    requires s.mc.cmd.None? && Sim(P, s, s.now) && GoodPop(P, s.mc.table, p, s.now)
    ensures Sim(P, u, s.now) && Busy(P, u)
  {
    PopLegal(P, s, p);
    forall r, b | 0 <= r < P.ranks && 0 <= b < P.banks
      ensures SimBank(P, u.mc.table[r][b], Eff(P, u.mc.cmd, r, b, u.ranks[r].banks[b], s.now + 1), s.now)
      ensures u.mc.table[r][b].status == PowerDown <==> s.mc.table[r][b].status == PowerDown
      ensures u.mc.table[r][b].nextPowerUp == s.mc.table[r][b].nextPowerUp
      ensures r == p.rank && b == p.bank ==> u.mc.table[r][b].status != Idle
    {
      IssuedBank(P, s, p, u, r, b);
    }
  }

  lemma DispatchSim(P: Params, s: System, c: Popped)
    requires ValidParams(P) && Shape(P, s) && QueueShape(P, c.queue)
    requires s.mc.cmd.None? && Sim(P, s, s.now)
    requires c.packet.Some? ==> GoodPop(P, s.mc.table, c.packet.value, s.now)
    ensures Dispatch(P, s, c).Ok? && Sim(P, Dispatch(P, s, c).value, s.now) && Busy(P, Dispatch(P, s, c).value)
  {
    if c.packet.Some? {
      DispatchIssued(P, s, c);
      IssuedSim(P, s, c.packet.value, Dispatch(P, s, c).value);
    }
  }

  lemma PowerMovesLegal(P: Params, s: System, r: nat)
    requires ValidParams(P) && Shape(P, s) && Sim(P, s, s.now) && Busy(P, s) && r < P.ranks
    ensures PowerDecision(P, s, r) == GoDown ==> CanPowerDown(s.ranks[r])
    ensures PowerDecision(P, s, r) == GoUp ==> CanPowerUp(s.ranks[r], s.now)
  {
    forall b | 0 <= b < P.banks
      ensures SimBank(P, s.mc.table[r][b], Eff(P, s.mc.cmd, r, b, s.ranks[r].banks[b], s.now + 1), s.now)
    {
    }
  }

  lemma PowerBankSim(P: Params, s: System, u: System, r: nat, b: nat)
    requires ValidParams(P) && Shape(P, s) && Sim(P, s, s.now) && Busy(P, s) && ManagePower(P, s) == Ok(u)
    requires Shape(P, u) && r < P.ranks && b < P.banks
    ensures SimBank(P, u.mc.table[r][b], Eff(P, u.mc.cmd, r, b, u.ranks[r].banks[b], s.now + 1), s.now)
    ensures u.mc.table[r][b].status == PowerDown <==> u.mc.powerDown[r]
    ensures u.mc.powerDown[r] == u.ranks[r].isPowerDown
    ensures u.mc.powerDown[r] ==> u.mc.table[r][b].nextPowerUp == u.mc.table[r][0].nextPowerUp
    ensures u.mc.cmd == s.mc.cmd && u.mc.cmdCyclesLeft == s.mc.cmdCyclesLeft
    ensures u.mc.cmd.Some? && u.mc.cmd.value.rank == r ==> u.ranks[r] == s.ranks[r]
  {
    assert SimBank(P, s.mc.table[r][b], Eff(P, s.mc.cmd, r, b, s.ranks[r].banks[b], s.now + 1), s.now);
  }

  // Low-power entry and exit bypass the bus, yet neither is ever refused.
  lemma ManagePowerSim(P: Params, s: System)
    requires ValidParams(P) && Shape(P, s) && Sim(P, s, s.now) && Busy(P, s)
    ensures ManagePower(P, s).Ok? && Sim(P, ManagePower(P, s).value, s.now)
  {
    forall r: nat | r < P.ranks
      ensures PowerDecision(P, s, r) == GoDown ==> CanPowerDown(s.ranks[r])
      ensures PowerDecision(P, s, r) == GoUp ==> CanPowerUp(s.ranks[r], s.now)
    {
      PowerMovesLegal(P, s, r);
    }
    PowerSim(P, s, ManagePower(P, s).value);
  }

  lemma PowerSim(P: Params, s: System, u: System)
    requires ValidParams(P) && Shape(P, s) && Sim(P, s, s.now) && Busy(P, s) && ManagePower(P, s) == Ok(u)
    requires Shape(P, u)
    ensures Sim(P, u, s.now)
  {
    forall r, b | 0 <= r < P.ranks && 0 <= b < P.banks
      ensures SimBank(P, u.mc.table[r][b], Eff(P, u.mc.cmd, r, b, u.ranks[r].banks[b], s.now + 1), s.now)
      ensures u.mc.table[r][b].status == PowerDown <==> u.mc.powerDown[r]
      ensures u.mc.powerDown[r] == u.ranks[r].isPowerDown
      ensures u.mc.powerDown[r] ==> u.mc.table[r][b].nextPowerUp == u.mc.table[r][0].nextPowerUp
    {
      PowerBankSim(P, s, u, r, b);
    }
    forall r | 0 <= r < P.ranks
      ensures s.ranks[r].isPowerDown == s.mc.powerDown[r] && u.ranks[r].isPowerDown == u.mc.powerDown[r]
    {
      PowerBankSim(P, s, u, r, 0);
    }
    if u.mc.cmd.Some? { PowerBankSim(P, s, u, u.mc.cmd.value.rank, 0); }
  }
}
