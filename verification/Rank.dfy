/** The DRAM device: one rank, its own bank table and its read-return pipeline. */
module RankModel {
  import opened Basics
  import opened DramTypes

  datatype RankState = RankState(
    banks: seq<BankState>, isPowerDown: bool, refreshWaiting: bool,
    returnPackets: seq<Packet>, returnCountdowns: seq<nat>,
    outgoing: Option<Packet>, dataCyclesLeft: nat)

  function InitRank(P: Params): RankState
  {
    RankState(seq(P.banks, i => INITIAL_BANK), false, false, [], [], None, 0)
  }

  // The checks before the error exits of `receiveFromBus`.
  predicate CanReceive(s: RankState, p: Packet, now: nat)
    requires p.bank < |s.banks|
  {
    var b := s.banks[p.bank];
    match p.kind
    case READ | READ_P => b.status == RowActive && b.nextRead <= now && p.row == b.openRow
    case WRITE | WRITE_P => b.status == RowActive && b.nextWrite <= now && p.row == b.openRow
    case ACTIVATE => b.status == Idle && b.nextActivate <= now
    case PRECHARGE => b.status == RowActive && b.nextPrecharge <= now
    case REFRESH => forall i :: 0 <= i < |s.banks| ==> s.banks[i].status == Idle
    case DATA => true
  }

  // What a packet does to bank i of the rank it reaches.
  function ReceiveBank(P: Params, p: Packet, i: nat, b: BankState, now: nat): BankState
    requires ValidParams(P)
  {
    var k := p.kind;
    if IsRead(k) then
      var c := b.(nextRead := Max(b.nextRead, now + Max(P.tCCD, Burst(P))),
                  nextWrite := Max(b.nextWrite, now + ReadToWrite(P)));
      if i != p.bank then c
      else if k == READ then c.(nextPrecharge := Max(b.nextPrecharge, now + ReadToPre(P)))
      else c.(status := Idle, nextActivate := Max(b.nextActivate, now + ReadAutoPre(P)))
    else if IsWrite(k) then
      var c := b.(nextRead := Max(b.nextRead, now + WriteToReadSameRank(P)),
                  nextWrite := Max(b.nextWrite, now + Max(Burst(P), P.tCCD)));
      if i != p.bank then c
      else if k == WRITE then c.(nextPrecharge := Max(b.nextPrecharge, now + WriteToPre(P)))
      else c.(status := Idle, nextActivate := Max(b.nextActivate, now + WriteAutoPre(P)))
    else if k == ACTIVATE then
      if i != p.bank then b.(nextActivate := Max(b.nextActivate, now + P.tRRD))
      else b.(status := RowActive, nextActivate := now + P.tRC, openRow := p.row,
              nextWrite := now + (P.tRCD - P.AL), nextRead := now + (P.tRCD - P.AL),
              nextPrecharge := now + P.tRAS)
    else if k == PRECHARGE then
      if i != p.bank then b
      else b.(status := Idle, nextActivate := Max(b.nextActivate, now + P.tRP))
    else if k == REFRESH then b.(nextActivate := now + P.tRFC)
    else b
  }

  function Receive(P: Params, s: RankState, p: Packet, now: nat): RankState
    requires ValidParams(P)
  {
    var s1 := s.(banks := seq(|s.banks|, i requires 0 <= i < |s.banks| => ReceiveBank(P, p, i, s.banks[i], now)));
    if IsRead(p.kind) then
      s1.(returnPackets := s.returnPackets + [p.(kind := DATA)],
          returnCountdowns := s.returnCountdowns + [ReadLatency(P)])
    else if p.kind == REFRESH then s1.(refreshWaiting := false)
    else s1
  }

  // One `update()`: the state after it, and the packet handed to the controller, if any.
  function Tick(P: Params, s: RankState): (RankState, Option<Packet>)
  {
    var left := if s.outgoing.Some? then Dec(s.dataCyclesLeft) else s.dataCyclesLeft;
    var done := s.outgoing.Some? && left == 0;
    var out := if done then None else s.outgoing;
    var counts := DecAll(s.returnCountdowns);
    var s1 :=
      if |counts| > 0 && counts[0] == 0 && |s.returnPackets| > 0 then
        s.(outgoing := Some(s.returnPackets[0]), dataCyclesLeft := Burst(P),
           returnPackets := s.returnPackets[1..], returnCountdowns := counts[1..])
      else s.(outgoing := out, dataCyclesLeft := left, returnCountdowns := counts);
    (s1, if done then s.outgoing else None)
  }

  // A rank overwrites a packet still on the bus when it starts the next one too early.
  predicate Overwrites(s: RankState)
  {
    |s.returnCountdowns| > 0 && Dec(s.returnCountdowns[0]) == 0
    && s.outgoing.Some? && Dec(s.dataCyclesLeft) != 0
  }

  predicate CanPowerDown(s: RankState)
  {
    forall i :: 0 <= i < |s.banks| ==> s.banks[i].status == Idle
  }

  function EnterPowerDown(P: Params, s: RankState, now: nat): RankState
  {
    s.(isPowerDown := true,
       banks := seq(|s.banks|, i requires 0 <= i < |s.banks| =>
         s.banks[i].(nextPowerUp := now + P.tCKE, status := PowerDown)))
  }

  predicate CanPowerUp(s: RankState, now: nat)
  {
    s.isPowerDown && forall i :: 0 <= i < |s.banks| ==> s.banks[i].nextPowerUp <= now
  }

  function LeavePowerDown(P: Params, s: RankState, now: nat): RankState
  {
    s.(isPowerDown := false,
       banks := seq(|s.banks|, i requires 0 <= i < |s.banks| =>
         s.banks[i].(nextActivate := now + P.tXP, status := Idle)))
  }

  /** The rank object: a bank table updated in place and two read-return vectors. */
  class Rank {
    const P: Params
    const bankStates: array<BankState>
    var currentClockCycle: nat
    var isPowerDown: bool
    var refreshWaiting: bool
    var readReturnPacket: seq<Packet>
    var readReturnCountdown: seq<nat>
    var outgoingDataPacket: Option<Packet>
    var dataCyclesLeft: nat

    ghost predicate Valid()
      reads this
    {
      ValidParams(P) && bankStates.Length == P.banks && |readReturnPacket| == |readReturnCountdown|
    }

    ghost function State(): RankState
      reads this, bankStates
    {
      RankState(bankStates[..], isPowerDown, refreshWaiting, readReturnPacket, readReturnCountdown, outgoingDataPacket,
        dataCyclesLeft)
    }

    constructor (P: Params)
      requires ValidParams(P)
      ensures Valid() && fresh(bankStates) && this.P == P && currentClockCycle == 0
      ensures State() == InitRank(P)
    {
      this.P := P;
      bankStates := new BankState[P.banks](i => INITIAL_BANK);
      currentClockCycle := 0;
      isPowerDown, refreshWaiting := false, false;
      readReturnPacket, readReturnCountdown := [], [];
      outgoingDataPacket, dataCyclesLeft := None, 0;
    }

    // The loops of `receiveFromBus` over every bank, for a column access.
    method BookColumn(read: bool)
      requires Valid()
      modifies bankStates
      ensures Valid()
      ensures forall i :: 0 <= i < P.banks ==>
        bankStates[i] == ReceiveBankOther(P, read, old(bankStates[i]), currentClockCycle)
    {
      for i := 0 to bankStates.Length
        invariant forall k :: 0 <= k < i ==>
          bankStates[k] == ReceiveBankOther(P, read, old(bankStates[k]), currentClockCycle)
        invariant forall k :: i <= k < bankStates.Length ==> bankStates[k] == old(bankStates[k])
      {
        var b := bankStates[i];
        if read {
          bankStates[i] := b.(nextRead := Max(b.nextRead, currentClockCycle + Max(P.tCCD, Burst(P))),
                              nextWrite := Max(b.nextWrite, currentClockCycle + ReadToWrite(P)));
        } else {
          bankStates[i] := b.(nextRead := Max(b.nextRead, currentClockCycle + WriteToReadSameRank(P)),
                              nextWrite := Max(b.nextWrite, currentClockCycle + Max(Burst(P), P.tCCD)));
        }
      }
    }

    method ReceiveRead(p: Packet) returns (ok: bool)
      requires Valid() && p.bank < P.banks && IsRead(p.kind)
      modifies this, bankStates
      ensures Valid() && currentClockCycle == old(currentClockCycle)
      ensures ok == CanReceive(old(State()), p, currentClockCycle)
      ensures ok ==> State() == Receive(P, old(State()), p, currentClockCycle)
    {
      var b, now := bankStates[p.bank], currentClockCycle;
      ghost var was := bankStates[..];
      if b.status != RowActive || now < b.nextRead || p.row != b.openRow { return false; }
      if p.kind == READ {
        bankStates[p.bank] := b.(nextPrecharge := Max(b.nextPrecharge, now + ReadToPre(P)));
      } else {
        bankStates[p.bank] := b.(status := Idle, nextActivate := Max(b.nextActivate, now + ReadAutoPre(P)));
      }
      BookColumn(true);
      readReturnPacket := readReturnPacket + [p.(kind := DATA)];
      readReturnCountdown := readReturnCountdown + [ReadLatency(P)];
      assert forall i :: 0 <= i < P.banks ==> bankStates[i] == ReceiveBank(P, p, i, was[i], now);
      ok := true;
    }

    method ReceiveWrite(p: Packet) returns (ok: bool)
      requires Valid() && p.bank < P.banks && IsWrite(p.kind)
      modifies this, bankStates
      ensures Valid() && currentClockCycle == old(currentClockCycle)
      ensures ok == CanReceive(old(State()), p, currentClockCycle)
      ensures ok ==> State() == Receive(P, old(State()), p, currentClockCycle)
    {
      var b, now := bankStates[p.bank], currentClockCycle;
      ghost var was := bankStates[..];
      if b.status != RowActive || now < b.nextWrite || p.row != b.openRow { return false; }
      if p.kind == WRITE {
        bankStates[p.bank] := b.(nextPrecharge := Max(b.nextPrecharge, now + WriteToPre(P)));
      } else {
        bankStates[p.bank] := b.(status := Idle, nextActivate := Max(b.nextActivate, now + WriteAutoPre(P)));
      }
      BookColumn(false);
      assert forall i :: 0 <= i < P.banks ==> bankStates[i] == ReceiveBank(P, p, i, was[i], now);
      ok := true;
    }

    method ReceiveActivate(p: Packet) returns (ok: bool)
      requires Valid() && p.bank < P.banks && p.kind == ACTIVATE
      modifies this, bankStates
      ensures Valid() && currentClockCycle == old(currentClockCycle)
      ensures ok == CanReceive(old(State()), p, currentClockCycle)
      ensures ok ==> State() == Receive(P, old(State()), p, currentClockCycle)
      ensures ok ==> forall i :: 0 <= i < P.banks ==>
        currentClockCycle + (if i == p.bank then P.tRC else P.tRRD) <= bankStates[i].nextActivate
    {
      var b, now := bankStates[p.bank], currentClockCycle;
      ghost var was := bankStates[..];
      if b.status != Idle || now < b.nextActivate { return false; }
      bankStates[p.bank] := b.(status := RowActive, nextActivate := now + P.tRC, openRow := p.row,
                               nextWrite := now + (P.tRCD - P.AL), nextRead := now + (P.tRCD - P.AL),
                               nextPrecharge := now + P.tRAS);
      for i := 0 to bankStates.Length
        invariant forall k :: 0 <= k < i ==> bankStates[k] == ReceiveBank(P, p, k, was[k], now)
        invariant forall k :: i <= k < bankStates.Length && k != p.bank ==> bankStates[k] == was[k]
        invariant bankStates[p.bank] == ReceiveBank(P, p, p.bank, was[p.bank], now)
        modifies bankStates
      {
        if i != p.bank {
          bankStates[i] := bankStates[i].(nextActivate := Max(bankStates[i].nextActivate, now + P.tRRD));
        }
      }
      ok := true;
    }

    method ReceivePrecharge(p: Packet) returns (ok: bool)
      requires Valid() && p.bank < P.banks && p.kind == PRECHARGE
      modifies this, bankStates
      ensures Valid() && currentClockCycle == old(currentClockCycle)
      ensures ok == CanReceive(old(State()), p, currentClockCycle)
      ensures ok ==> State() == Receive(P, old(State()), p, currentClockCycle)
    {
      var b, now := bankStates[p.bank], currentClockCycle;
      ghost var was := bankStates[..];
      if b.status != RowActive || now < b.nextPrecharge { return false; }
      bankStates[p.bank] := b.(status := Idle, nextActivate := Max(b.nextActivate, now + P.tRP));
      assert forall i :: 0 <= i < P.banks ==> bankStates[i] == ReceiveBank(P, p, i, was[i], now);
      ok := true;
    }

    method ReceiveRefresh(p: Packet) returns (ok: bool)
      requires Valid() && p.bank < P.banks && p.kind == REFRESH
      modifies this, bankStates
      ensures Valid() && currentClockCycle == old(currentClockCycle)
      ensures ok == CanReceive(old(State()), p, currentClockCycle)
      ensures ok ==> State() == Receive(P, old(State()), p, currentClockCycle)
    {
      var now := currentClockCycle;
      ghost var was := bankStates[..];
      refreshWaiting := false;
      for i := 0 to bankStates.Length
        invariant forall k :: 0 <= k < i ==>
          was[k].status == Idle && bankStates[k] == was[k].(nextActivate := now + P.tRFC)
        invariant forall k :: i <= k < bankStates.Length ==> bankStates[k] == was[k]
        modifies bankStates
      {
        if bankStates[i].status != Idle { return false; }
        bankStates[i] := bankStates[i].(nextActivate := now + P.tRFC);
      }
      ok := true;
    }

    // `receiveFromBus`: each error exit of the source is `ok == false`.
    method ReceiveFromBus(p: Packet) returns (ok: bool)
      requires Valid() && p.bank < P.banks
      modifies this, bankStates
      ensures Valid() && currentClockCycle == old(currentClockCycle)
      ensures ok == CanReceive(old(State()), p, currentClockCycle)
      ensures ok ==> State() == Receive(P, old(State()), p, currentClockCycle)
    {
      if IsRead(p.kind) {
        ok := ReceiveRead(p);
      } else if IsWrite(p.kind) {
        ok := ReceiveWrite(p);
      } else if p.kind == ACTIVATE {
        ok := ReceiveActivate(p);
      } else if p.kind == PRECHARGE {
        ok := ReceivePrecharge(p);
      } else if p.kind == REFRESH {
        ok := ReceiveRefresh(p);
      } else {
        ok := true;
        assert Receive(P, State(), p, currentClockCycle).banks == bankStates[..];
      }
    }

    // `update`: the packet handed back is the one the source passes to the controller.
    method Update() returns (out: Option<Packet>)
      requires Valid()
      modifies this
      ensures Valid() && currentClockCycle == old(currentClockCycle)
      ensures (State(), out) == Tick(P, old(State()))
    {
      out := None;
      if outgoingDataPacket.Some? {
        dataCyclesLeft := Dec(dataCyclesLeft);
        if dataCyclesLeft == 0 {
          out := outgoingDataPacket;
          outgoingDataPacket := None;
        }
      }
      for i := 0 to |readReturnCountdown|
        invariant |readReturnCountdown| == |old(readReturnCountdown)|
        invariant forall k :: 0 <= k < i ==> readReturnCountdown[k] == Dec(old(readReturnCountdown)[k])
        invariant forall k :: i <= k < |readReturnCountdown| ==> readReturnCountdown[k] == old(readReturnCountdown)[k]
        modifies this`readReturnCountdown
      {
        readReturnCountdown := readReturnCountdown[i := Dec(readReturnCountdown[i])];
      }
      assert readReturnCountdown == DecAll(old(readReturnCountdown));
      if |readReturnCountdown| > 0 && readReturnCountdown[0] == 0 {
        outgoingDataPacket := Some(readReturnPacket[0]);
        dataCyclesLeft := Burst(P);
        readReturnPacket := readReturnPacket[1..];
        readReturnCountdown := readReturnCountdown[1..];
      }
    }

    method PowerDownRank() returns (ok: bool)
      requires Valid()
      modifies this, bankStates
      ensures Valid() && currentClockCycle == old(currentClockCycle)
      ensures ok == CanPowerDown(old(State()))
      ensures ok ==> State() == EnterPowerDown(P, old(State()), currentClockCycle)
    {
      ghost var was := bankStates[..];
      for i := 0 to bankStates.Length
        invariant forall k :: 0 <= k < i ==>
          was[k].status == Idle
            && bankStates[k] == was[k].(nextPowerUp := currentClockCycle + P.tCKE, status := PowerDown)
        invariant forall k :: i <= k < bankStates.Length ==> bankStates[k] == was[k]
        modifies bankStates
      {
        if bankStates[i].status != Idle { return false; }
        bankStates[i] := bankStates[i].(nextPowerUp := currentClockCycle + P.tCKE, status := PowerDown);
      }
      isPowerDown := true;
      ok := true;
    }

    method PowerUpRank() returns (ok: bool)
      requires Valid()
      modifies this, bankStates
      ensures Valid() && currentClockCycle == old(currentClockCycle)
      ensures ok == CanPowerUp(old(State()), currentClockCycle)
      ensures ok ==> State() == LeavePowerDown(P, old(State()), currentClockCycle)
    {
      ghost var was := bankStates[..];
      if !isPowerDown { return false; }
      isPowerDown := false;
      for i := 0 to bankStates.Length
        invariant forall k :: 0 <= k < i ==>
          was[k].nextPowerUp <= currentClockCycle
            && bankStates[k] == was[k].(nextActivate := currentClockCycle + P.tXP, status := Idle)
        invariant forall k :: i <= k < bankStates.Length ==> bankStates[k] == was[k]
        modifies bankStates
      {
        if bankStates[i].nextPowerUp > currentClockCycle { return false; }
        bankStates[i] := bankStates[i].(nextActivate := currentClockCycle + P.tXP, status := Idle);
      }
      ok := true;
    }
  }

  function ReceiveBankOther(P: Params, read: bool, b: BankState, now: nat): BankState
    requires ValidParams(P)
  {
    if read then
      b.(nextRead := Max(b.nextRead, now + Max(P.tCCD, Burst(P))), nextWrite := Max(b.nextWrite, now + ReadToWrite(P)))
    else
      b.(nextRead := Max(b.nextRead, now + WriteToReadSameRank(P)),
        nextWrite := Max(b.nextWrite, now + Max(Burst(P), P.tCCD)))
  }
}
