/** The memory controller object and the loops of its `update`, proved against the phases of the system model. */
module MemoryControllerObject {
  import opened Basics
  import opened DramTypes
  import opened RankModel
  import opened CommandQueueSpec
  import opened CommandQueueObject
  import opened MemorySystemSpec

  // What reading data does to the timing of the other entries of the table.
  function AfterRead(P: Params, p: Packet, r: nat, b: BankState, now: nat): BankState
    requires ValidParams(P)
  {
    if r == p.rank then
      b.(nextRead := Max(now + Max(P.tCCD, Burst(P)), b.nextRead), nextWrite := Max(now + ReadToWrite(P), b.nextWrite))
    else if b.status == RowActive then
      b.(nextRead := Max(now + Burst(P) + P.tRTRS, b.nextRead), nextWrite := Max(now + ReadToWrite(P), b.nextWrite))
    else b
  }

  function AfterWrite(P: Params, p: Packet, r: nat, b: BankState, now: nat): BankState
    requires ValidParams(P)
  {
    if r == p.rank then
      b.(nextWrite := Max(now + Max(Burst(P), P.tCCD), b.nextWrite),
        nextRead := Max(now + WriteToReadSameRank(P), b.nextRead))
    else if b.status == RowActive then
      b.(nextWrite := Max(now + Burst(P) + P.tRTRS, b.nextWrite),
        nextRead := Max(now + WriteToReadOtherRank(P), b.nextRead))
    else b
  }

  // The shadow bank table, and the loops of `update` that rewrite it in place.
  class BankTable {
    const P: Params
    const cells: array2<BankState>

    ghost predicate Valid()
    {
      ValidParams(P) && cells.Length0 == P.ranks && cells.Length1 == P.banks
    }

    constructor (P: Params)
      requires ValidParams(P)
      ensures Valid() && this.P == P && fresh(cells)
      ensures TableOf(cells) == seq(P.ranks, r => seq(P.banks, b => INITIAL_BANK))
    {
      this.P := P;
      cells := new BankState[P.ranks, P.banks]((r, b) => INITIAL_BANK);
      new;
      assert forall r :: 0 <= r < P.ranks ==> TableOf(cells)[r] == seq(P.banks, b => INITIAL_BANK);
    }

    // The countdown loop at the head of `update`.
    method CountDownBanks()
      requires Valid()
      modifies cells
      ensures TableOf(cells) == CountDownTable(P, old(TableOf(cells)))
    {
      ghost var was := TableOf(cells);
      for i := 0 to P.ranks
        invariant forall r, b :: 0 <= r < i && 0 <= b < P.banks ==> cells[r, b] == CountDownBank(P, was[r][b])
        invariant forall r, b :: i <= r < P.ranks && 0 <= b < P.banks ==> cells[r, b] == was[r][b]
      {
        for j := 0 to P.banks
          invariant forall r, b :: 0 <= r < i && 0 <= b < P.banks ==> cells[r, b] == CountDownBank(P, was[r][b])
          invariant forall b :: 0 <= b < j ==> cells[i, b] == CountDownBank(P, was[i][b])
          invariant forall b :: j <= b < P.banks ==> cells[i, b] == was[i][b]
          invariant forall r, b :: i < r < P.ranks && 0 <= b < P.banks ==> cells[r, b] == was[r][b]
        {
          var c := cells[i, j];
          if c.countdown > 0 {
            c := c.(countdown := c.countdown - 1);
            if c.countdown == 0 {
              if c.last == WRITE_P || c.last == READ_P {
                c := c.(status := Precharging, last := PRECHARGE, countdown := P.tRP);
              } else if c.last == REFRESH || c.last == PRECHARGE {
                c := c.(status := Idle);
              }
            }
          }
          cells[i, j] := c;
        }
      }
      assert forall r :: 0 <= r < P.ranks ==> TableOf(cells)[r] == CountDownTable(P, was)[r];
    }

    // The two nested loops over every rank and bank after a column command.
    method BookColumn(p: Packet, now: nat)
      requires Valid() && p.rank < P.ranks
      modifies cells
      ensures forall r, b :: 0 <= r < P.ranks && 0 <= b < P.banks ==>
        cells[r, b] == if IsRead(p.kind) then AfterRead(P, p, r, old(cells[r, b]), now)
          else AfterWrite(P, p, r, old(cells[r, b]), now)
    {
      ghost var was := TableOf(cells);
      for i := 0 to P.ranks
        invariant forall r, b :: 0 <= r < i && 0 <= b < P.banks ==> cells[r, b] == After(p, r, was[r][b], now)
        invariant forall r, b :: i <= r < P.ranks && 0 <= b < P.banks ==> cells[r, b] == was[r][b]
      {
        for j := 0 to P.banks
          invariant forall r, b :: 0 <= r < i && 0 <= b < P.banks ==> cells[r, b] == After(p, r, was[r][b], now)
          invariant forall b :: 0 <= b < j ==> cells[i, b] == After(p, i, was[i][b], now)
          invariant forall b :: j <= b < P.banks ==> cells[i, b] == was[i][b]
          invariant forall r, b :: i < r < P.ranks && 0 <= b < P.banks ==> cells[r, b] == was[r][b]
        {
          cells[i, j] := After(p, i, cells[i, j], now);
        }
      }
    }

    function After(p: Packet, r: nat, b: BankState, now: nat): BankState
      requires Valid()
    {
      if IsRead(p.kind) then AfterRead(P, p, r, b, now) else AfterWrite(P, p, r, b, now)
    }

    method IssueRead(p: Packet, now: nat)
      requires Valid() && p.rank < P.ranks && p.bank < P.banks && IsRead(p.kind)
      modifies cells
      ensures TableOf(cells) == IssueTable(P, p, old(TableOf(cells)), now)
    {
      ghost var was := TableOf(cells);
      var own := cells[p.rank, p.bank];
      if p.kind == READ_P {
        own := own.(nextActivate := Max(now + ReadAutoPre(P), own.nextActivate), last := READ_P,
          countdown := ReadToPre(P));
      } else {
        own := own.(nextPrecharge := Max(now + ReadToPre(P), own.nextPrecharge), last := READ);
      }
      cells[p.rank, p.bank] := own;
      BookColumn(p, now);
      if p.kind == READ_P {
        own := cells[p.rank, p.bank];
        cells[p.rank, p.bank] := own.(nextRead := own.nextActivate, nextWrite := own.nextActivate);
      }
      Rewritten(was, p, now);
    }

    method IssueWrite(p: Packet, now: nat)
      requires Valid() && p.rank < P.ranks && p.bank < P.banks && IsWrite(p.kind)
      modifies cells
      ensures TableOf(cells) == IssueTable(P, p, old(TableOf(cells)), now)
    {
      ghost var was := TableOf(cells);
      var own := cells[p.rank, p.bank];
      if p.kind == WRITE_P {
        own := own.(nextActivate := Max(now + WriteAutoPre(P), own.nextActivate), last := WRITE_P,
          countdown := WriteToPre(P));
      } else {
        own := own.(nextPrecharge := Max(now + WriteToPre(P), own.nextPrecharge), last := WRITE);
      }
      cells[p.rank, p.bank] := own;
      BookColumn(p, now);
      if p.kind == WRITE_P {
        own := cells[p.rank, p.bank];
        cells[p.rank, p.bank] := own.(nextRead := own.nextActivate, nextWrite := own.nextActivate);
      }
      Rewritten(was, p, now);
    }

    method IssueActivate(p: Packet, now: nat)
      requires Valid() && p.rank < P.ranks && p.bank < P.banks && p.kind == ACTIVATE
      modifies cells
      ensures TableOf(cells) == IssueTable(P, p, old(TableOf(cells)), now)
      ensures forall i :: 0 <= i < P.banks ==>
        now + (if i == p.bank then P.tRC else P.tRRD) <= cells[p.rank, i].nextActivate
    {
      ghost var was := TableOf(cells);
      var own := cells[p.rank, p.bank];
      cells[p.rank, p.bank] := own.(status := RowActive, last := ACTIVATE, openRow := p.row,
        nextActivate := Max(now + P.tRC, own.nextActivate), nextPrecharge := Max(now + P.tRAS, own.nextPrecharge),
        nextRead := Max(now + (P.tRCD - P.AL), own.nextRead), nextWrite := Max(now + (P.tRCD - P.AL), own.nextWrite));
      for i := 0 to P.banks
        invariant cells[p.rank, p.bank] == IssueBank(P, p, p.rank, p.bank, was[p.rank][p.bank], now)
        invariant forall b :: 0 <= b < i ==> cells[p.rank, b] == IssueBank(P, p, p.rank, b, was[p.rank][b], now)
        invariant forall b :: i <= b < P.banks && b != p.bank ==> cells[p.rank, b] == was[p.rank][b]
        invariant forall r, b :: 0 <= r < P.ranks && r != p.rank && 0 <= b < P.banks ==> cells[r, b] == was[r][b]
      {
        if i != p.bank {
          var c := cells[p.rank, i];
          cells[p.rank, i] := c.(nextActivate := Max(now + P.tRRD, c.nextActivate));
        }
      }
      Rewritten(was, p, now);
    }

    method IssuePrecharge(p: Packet, now: nat)
      requires Valid() && p.rank < P.ranks && p.bank < P.banks && p.kind == PRECHARGE
      modifies cells
      ensures TableOf(cells) == IssueTable(P, p, old(TableOf(cells)), now)
    {
      ghost var was := TableOf(cells);
      var own := cells[p.rank, p.bank];
      cells[p.rank, p.bank] := own.(status := Precharging, last := PRECHARGE, countdown := P.tRP,
        nextActivate := Max(now + P.tRP, own.nextActivate));
      Rewritten(was, p, now);
    }

    method IssueRefresh(p: Packet, now: nat)
      requires Valid() && p.rank < P.ranks && p.bank < P.banks && p.kind == REFRESH
      modifies cells
      ensures TableOf(cells) == IssueTable(P, p, old(TableOf(cells)), now)
    {
      ghost var was := TableOf(cells);
      for i := 0 to P.banks
        invariant forall b :: 0 <= b < i ==> cells[p.rank, b] == IssueBank(P, p, p.rank, b, was[p.rank][b], now)
        invariant forall b :: i <= b < P.banks ==> cells[p.rank, b] == was[p.rank][b]
        invariant forall r, b :: 0 <= r < P.ranks && r != p.rank && 0 <= b < P.banks ==> cells[r, b] == was[r][b]
      {
        cells[p.rank, i] := cells[p.rank, i].(nextActivate := now + P.tRFC, status := Refreshing, last := REFRESH,
          countdown := P.tRFC);
      }
      Rewritten(was, p, now);
    }

    lemma Rewritten(was: Table, p: Packet, now: nat)
      requires Valid() && TableShape(P, was)
      requires forall r, b :: 0 <= r < P.ranks && 0 <= b < P.banks ==>
        cells[r, b] == IssueBank(P, p, r, b, was[r][b], now)
      ensures TableOf(cells) == IssueTable(P, p, was, now)
    {
      assert forall r :: 0 <= r < P.ranks ==> TableOf(cells)[r] == IssueTable(P, p, was, now)[r];
    }

    // The switch over the popped command; `false` is its error exit for a type never popped.
    method UpdateTable(p: Packet, now: nat) returns (known: bool)
      requires Valid() && p.rank < P.ranks && p.bank < P.banks
      modifies cells
      ensures known == (p.kind != DATA)
      ensures known ==> TableOf(cells) == IssueTable(P, p, old(TableOf(cells)), now)
    {
      known := true;
      if IsRead(p.kind) {
        IssueRead(p, now);
      } else if IsWrite(p.kind) {
        IssueWrite(p, now);
      } else if p.kind == ACTIVATE {
        IssueActivate(p, now);
      } else if p.kind == PRECHARGE {
        IssuePrecharge(p, now);
      } else if p.kind == REFRESH {
        IssueRefresh(p, now);
      } else {
        known := false;
      }
    }

    // The two loops over one rank when it enters or leaves power-down.
    method PowerRow(m: PowerMove, r: nat, now: nat)
      requires Valid() && r < P.ranks && m != Stay
      modifies cells
      ensures TableOf(cells) == old(TableOf(cells))[r := PowerTableRow(P, m, old(TableOf(cells))[r], now)]
    {
      ghost var was := TableOf(cells);
      for j := 0 to P.banks
        invariant forall b :: 0 <= b < j ==> cells[r, b] == PowerTableRow(P, m, was[r], now)[b]
        invariant forall b :: j <= b < P.banks ==> cells[r, b] == was[r][b]
        invariant forall x, b :: 0 <= x < P.ranks && x != r && 0 <= b < P.banks ==> cells[x, b] == was[x][b]
      {
        if m == GoDown {
          cells[r, j] := cells[r, j].(status := PowerDown, nextPowerUp := now + P.tCKE);
        } else {
          cells[r, j] := cells[r, j].(status := Idle, nextActivate := now + P.tXP);
        }
      }
      assert forall x :: 0 <= x < P.ranks ==> TableOf(cells)[x] == was[r := PowerTableRow(P, m, was[r], now)][x];
    }

    method AllIdle(r: nat) returns (idle: bool)
      requires Valid() && r < P.ranks
      ensures idle == forall b :: 0 <= b < P.banks ==> cells[r, b].status == Idle
    {
      for j := 0 to P.banks
        invariant forall b :: 0 <= b < j ==> cells[r, b].status == Idle
      {
        if cells[r, j].status != Idle { return false; }
      }
      idle := true;
    }
  }

  ghost function ArraysOf(rs: seq<Rank>): set<object>
  {
    set r | r in rs :: r.bankStates
  }

  // No two ranks share their object or their bank table.
  ghost predicate Apart(rs: seq<Rank>)
  {
    forall i, j :: 0 <= i < j < |rs| ==> rs[i] != rs[j] && rs[i].bankStates != rs[j].bankStates
  }

  ghost predicate RanksValid(P: Params, rs: seq<Rank>, now: nat)
    reads rs
  {
    |rs| == P.ranks && Apart(rs) && forall i :: 0 <= i < |rs| ==>
      rs[i].Valid() && rs[i].P == P && rs[i].currentClockCycle == now
  }

  ghost function StatesOf(rs: seq<Rank>): (ds: seq<RankState>)
    reads rs, ArraysOf(rs)
    ensures |ds| == |rs| && forall i :: 0 <= i < |rs| ==> ds[i] == rs[i].State()
  {
    seq(|rs|, i requires 0 <= i < |rs| reads rs, ArraysOf(rs) => rs[i].State())
  }

  class MemoryController {
    const P: Params
    const table: BankTable
    const commandQueue: CommandQueue
    const ranks: seq<Rank>
    var outgoingCmdPacket: Option<Packet>
    var cmdCyclesLeft: nat
    var outgoingDataPacket: Option<Packet>
    var dataCyclesLeft: nat
    var writeDataToSend: seq<Packet>
    var writeDataCountdown: seq<nat>
    var powerDown: seq<bool>
    var refreshCountdown: seq<nat>
    var refreshRank: nat
    var transactionQueue: seq<Transaction>
    var pendingReadTransactions: seq<Transaction>
    var returnTransaction: seq<nat>
    var currentClockCycle: nat
    var log: Log  // history; it only numbers the transactions

    ghost function Own(): Controller
      reads this, table.cells, commandQueue
    {
      Controller(TableOf(table.cells), commandQueue.State(), outgoingCmdPacket, cmdCyclesLeft, outgoingDataPacket,
        dataCyclesLeft,
                 writeDataToSend, writeDataCountdown, powerDown, refreshCountdown, refreshRank,
                 transactionQueue, pendingReadTransactions, returnTransaction)
    }

    ghost function State(): System
      reads this, table.cells, commandQueue, ranks, ArraysOf(ranks)
    {
      System(Own(), StatesOf(ranks), currentClockCycle, log)
    }

    ghost predicate Wired()
      reads this, commandQueue, ranks
    {
      && table.Valid() && table.P == P && commandQueue.P == P && commandQueue.bankStates == table.cells
      && commandQueue.currentClockCycle == currentClockCycle
      && RanksValid(P, ranks, currentClockCycle)
    }

    ghost predicate Valid()
      reads this, table.cells, commandQueue, ranks, ArraysOf(ranks)
    {
      Wired() && Sound(P, State())
    }

    // A controller with its own table and command queue, over ranks just built.
    constructor (P: Params, ranks: seq<Rank>)
      requires ValidParams(P) && RanksValid(P, ranks, 0) && StatesOf(ranks) == seq(P.ranks, r => InitRank(P))
      ensures Valid() && this.P == P && this.ranks == ranks && fresh(table.cells) && fresh(commandQueue)
      ensures State() == Init(P)
    {
      this.P, this.ranks := P, ranks;
      var t := new BankTable(P);
      table := t;
      commandQueue := new CommandQueue(P, t.cells);
      outgoingCmdPacket, cmdCyclesLeft, outgoingDataPacket, dataCyclesLeft := None, 0, None, 0;
      writeDataToSend, writeDataCountdown := [], [];
      powerDown := seq(P.ranks, r => false);
      refreshRank := 0;
      transactionQueue, pendingReadTransactions, returnTransaction := [], [], [];
      currentClockCycle := 0;
      log := Log([], [], []);
      var counts: seq<nat> := [];
      for i := 0 to P.ranks
        invariant |counts| == i && forall r :: 0 <= r < i ==> counts[r] == Stagger(P, r)
      {
        counts := counts + [P.refreshStagger * (i + 1)];
      }
      refreshCountdown := counts;
      new;
      InitShape(P);
      assert counts == InitController(P).refreshCountdown;
    }

    // `MemorySystem::update` ticks every rank; finished bursts come back through `receiveFromBus`,
    // whose exit on anything but data is `false` here.
    method StepRanks() returns (ok: bool)
      requires Valid()
      modifies this`returnTransaction, ranks
      ensures ok == TickRanks(P, old(State())).Ok?
      ensures ok ==> Valid() && State() == TickRanks(P, old(State())).value
    {
      ghost var s := State();
      ok := TickAll(s.ranks);
      if ok { RanksTicked(P, s, State()); }
    }

    method TickRank(i: nat) returns (out: Option<Packet>)
      requires RanksValid(P, ranks, currentClockCycle) && i < P.ranks
      modifies ranks
      ensures RanksValid(P, ranks, currentClockCycle)
      ensures var d := old(StatesOf(ranks))[i];
              StatesOf(ranks) == old(StatesOf(ranks))[i := Tick(P, d).0] && out == Tick(P, d).1
    {
      out := ranks[i].Update();
    }

    // The body of the loop over the ranks; ds are their states before the loop, sent what was there before.
    method TickNext(ghost ds: seq<RankState>, ghost sent: seq<nat>, i: nat) returns (ok: bool)
      requires RanksValid(P, ranks, currentClockCycle) && i < P.ranks == |ds|
      requires StatesOf(ranks) == TickedUpTo(P, ds, i) && AllData(Delivered(P, ds[..i]))
      requires returnTransaction == sent + Addresses(Delivered(P, ds[..i]))
      modifies this`returnTransaction, ranks
      ensures RanksValid(P, ranks, currentClockCycle)
      ensures !ok ==> !AllData(Delivered(P, ds))
      ensures ok ==> StatesOf(ranks) == TickedUpTo(P, ds, i + 1) && AllData(Delivered(P, ds[..i + 1]))
      ensures ok ==> returnTransaction == sent + Addresses(Delivered(P, ds[..i + 1]))
    {
      var out := TickRank(i);
      OneMoreTicked(P, ds, i);
      ok := out.None? || out.value.kind == DATA;
      if out.Some? && ok { returnTransaction := returnTransaction + [out.value.address]; }
    }

    method TickAll(ghost ds: seq<RankState>) returns (ok: bool)
      requires RanksValid(P, ranks, currentClockCycle) && ds == StatesOf(ranks)
      modifies this`returnTransaction, ranks
      ensures RanksValid(P, ranks, currentClockCycle)
      ensures ok == AllData(Delivered(P, ds))
      ensures ok ==> returnTransaction == old(returnTransaction) + Addresses(Delivered(P, ds))
      ensures ok ==> StatesOf(ranks) == TickedUpTo(P, ds, P.ranks)
    {
      NothingTicked(P, ds);
      for i := 0 to P.ranks
        invariant RanksValid(P, ranks, currentClockCycle)
        invariant StatesOf(ranks) == TickedUpTo(P, ds, i)
        invariant AllData(Delivered(P, ds[..i]))
        invariant returnTransaction == old(returnTransaction) + Addresses(Delivered(P, ds[..i]))
      {
        ok := TickNext(ds, old(returnTransaction), i);
        if !ok { return; }
      }
      assert ds[..P.ranks] == ds;
      ok := true;
    }

    // The countdown of every bank of the shadow table.
    method StepBanks()
      requires Valid()
      modifies table.cells
      ensures Valid() && State() == CountDown(P, old(State()))
    {
      ghost var s := State();
      table.CountDownBanks();
      BanksCounted(P, s, State());
    }

    // Handing a packet to the rank it is addressed to.
    method Deliver(p: Packet) returns (ok: bool)
      requires RanksValid(P, ranks, currentClockCycle) && p.rank < P.ranks && p.bank < P.banks
      modifies ranks, ArraysOf(ranks)
      ensures RanksValid(P, ranks, currentClockCycle)
      ensures var d := old(StatesOf(ranks))[p.rank];
              ok == (p.bank < |d.banks| && CanReceive(d, p, currentClockCycle))
      ensures ok ==>
        StatesOf(ranks)
          == old(StatesOf(ranks))[p.rank := Receive(P, old(StatesOf(ranks))[p.rank], p, currentClockCycle)]
    {
      ok := ranks[p.rank].ReceiveFromBus(p);
    }

    method CountCommandBus() returns (arrived: Option<Packet>)
      modifies this`outgoingCmdPacket, this`cmdCyclesLeft
      ensures var left := Dec(old(cmdCyclesLeft));
              if old(outgoingCmdPacket).None? then
                outgoingCmdPacket == None && cmdCyclesLeft == old(cmdCyclesLeft) && arrived == None
              else if left != 0 then
                outgoingCmdPacket == old(outgoingCmdPacket) && cmdCyclesLeft == left && arrived == None
              else outgoingCmdPacket == None && cmdCyclesLeft == 0 && arrived == old(outgoingCmdPacket)
    {
      arrived := None;
      if outgoingCmdPacket.Some? {
        cmdCyclesLeft := Dec(cmdCyclesLeft);
        if cmdCyclesLeft == 0 {
          arrived := outgoingCmdPacket;
          outgoingCmdPacket := None;
        }
      }
    }

    // Counting the bus down, and handing the packet over when its cycles are up.
    method CarryCommand() returns (ok: bool)
      requires RanksValid(P, ranks, currentClockCycle)
      requires outgoingCmdPacket.Some? ==>
        var p := outgoingCmdPacket.value;
        p.rank < P.ranks && p.bank < P.banks && p.bank < |StatesOf(ranks)[p.rank].banks|
      modifies this`outgoingCmdPacket, this`cmdCyclesLeft, ranks, ArraysOf(ranks)
      ensures RanksValid(P, ranks, currentClockCycle)
      ensures var left := Dec(old(cmdCyclesLeft));
              if old(outgoingCmdPacket).None? then
                ok && outgoingCmdPacket == None && cmdCyclesLeft == old(cmdCyclesLeft)
                  && StatesOf(ranks) == old(StatesOf(ranks))
              else if left != 0 then
                && ok && outgoingCmdPacket == old(outgoingCmdPacket) && cmdCyclesLeft == left
                && StatesOf(ranks) == old(StatesOf(ranks))
              else
                var p := old(outgoingCmdPacket).value;
                var d := old(StatesOf(ranks))[p.rank];
                && ok == CanReceive(d, p, currentClockCycle) && outgoingCmdPacket == None && cmdCyclesLeft == 0
                && (ok ==> StatesOf(ranks) == old(StatesOf(ranks))[p.rank := Receive(P, d, p, currentClockCycle)])
    {
      ok := true;
      var arrived := CountCommandBus();
      if arrived.Some? { ok := Deliver(arrived.value); }
    }

    // The command bus: the packet reaches its rank when its cycles are up.
    method StepCommandBus() returns (ok: bool)
      requires Valid()
      modifies this`outgoingCmdPacket, this`cmdCyclesLeft, ranks, ArraysOf(ranks)
      ensures ok == CommandBus(P, old(State())).Ok?
      ensures ok ==> Valid() && State() == CommandBus(P, old(State())).value
    {
      ghost var s := State();
      ok := CarryCommand();
      if ok { CommandStepped(P, s, State()); }
    }

    method DeliverData(p: Packet)
      requires ValidParams(P) && RanksValid(P, ranks, currentClockCycle) && p.kind == DATA && p.rank < P.ranks
      requires p.bank < P.banks
      modifies ranks, ArraysOf(ranks)
      ensures RanksValid(P, ranks, currentClockCycle) && StatesOf(ranks) == old(StatesOf(ranks))
    {
      DataIgnored(P, StatesOf(ranks), p, currentClockCycle);
      var ok := Deliver(p);
    }

    method CountDataBus() returns (arrived: Option<Packet>)
      modifies this`outgoingDataPacket, this`dataCyclesLeft
      ensures if old(outgoingDataPacket).None? then
                outgoingDataPacket == None && dataCyclesLeft == old(dataCyclesLeft) && arrived == None
              else
                && dataCyclesLeft == Dec(old(dataCyclesLeft))
                && outgoingDataPacket == (if dataCyclesLeft == 0 then None else old(outgoingDataPacket))
                && arrived == (if dataCyclesLeft == 0 then old(outgoingDataPacket) else None)
    {
      arrived := None;
      if outgoingDataPacket.Some? {
        dataCyclesLeft := Dec(dataCyclesLeft);
        if dataCyclesLeft == 0 {
          arrived := outgoingDataPacket;
          outgoingDataPacket := None;
        }
      }
    }

    // The data bus: a finished burst reaches its rank, which has no storage to put it in.
    method StepDataBus()
      requires Valid()
      modifies this`outgoingDataPacket, this`dataCyclesLeft, ranks, ArraysOf(ranks)
      ensures Valid() && State() == DataBus(P, old(State()))
    {
      ghost var s := State();
      var arrived := CountDataBus();
      if arrived.Some? { DeliverData(arrived.value); }
      DataStepped(P, s, State());
    }

    // The loop over the write countdowns.
    method CountDownWrites()
      modifies this`writeDataCountdown
      ensures writeDataCountdown == DecAll(old(writeDataCountdown))
    {
      ghost var was := writeDataCountdown;
      for i := 0 to |writeDataCountdown|
        invariant |writeDataCountdown| == |was|
        invariant forall k :: 0 <= k < i ==> writeDataCountdown[k] == Dec(was[k])
        invariant forall k :: i <= k < |was| ==> writeDataCountdown[k] == was[k]
      {
        writeDataCountdown := writeDataCountdown[i := Dec(writeDataCountdown[i])];
      }
      assert writeDataCountdown == DecAll(was);
    }

    method MoveToDataBus()
      requires |writeDataToSend| > 0 && |writeDataCountdown| > 0
      modifies this`outgoingDataPacket, this`dataCyclesLeft, this`writeDataToSend, this`writeDataCountdown
      ensures outgoingDataPacket == Some(old(writeDataToSend)[0]) && dataCyclesLeft == Burst(P)
      ensures writeDataToSend == old(writeDataToSend)[1..] && writeDataCountdown == old(writeDataCountdown)[1..]
    {
      outgoingDataPacket := Some(writeDataToSend[0]);
      dataCyclesLeft := Burst(P);
      writeDataCountdown := writeDataCountdown[1..];
      writeDataToSend := writeDataToSend[1..];
    }

    // Write data goes onto the bus when its latency has passed; `false` is a collision there.
    method StepWriteData() returns (ok: bool)
      requires Valid()
      modifies this`outgoingDataPacket, this`dataCyclesLeft, this`writeDataToSend, this`writeDataCountdown
      ensures ok == SendWriteData(P, old(State())).Ok?
      ensures ok ==> Valid() && State() == SendWriteData(P, old(State())).value
    {
      ghost var s := State();
      ok := true;
      CountDownWrites();
      if |writeDataCountdown| > 0 && writeDataCountdown[0] == 0 {
        if outgoingDataPacket.Some? { return false; }
        MoveToDataBus();
      }
      WriteDataSent(P, s, State());
    }

    method AskForRefresh(r: nat)
      requires RanksValid(P, ranks, currentClockCycle) && r < P.ranks
      modifies ranks
      ensures RanksValid(P, ranks, currentClockCycle)
      ensures StatesOf(ranks) == old(StatesOf(ranks))[r := old(StatesOf(ranks))[r].(refreshWaiting := true)]
    {
      ranks[r].refreshWaiting := true;
    }

    method RestartTimer()
      requires refreshRank < |refreshCountdown|
      modifies this`refreshCountdown, this`refreshRank
      ensures refreshCountdown == old(refreshCountdown)[old(refreshRank) := P.refreshCycles]
      ensures refreshRank == if old(refreshRank) + 1 == P.ranks then 0 else old(refreshRank) + 1
    {
      refreshCountdown := refreshCountdown[refreshRank := P.refreshCycles];
      refreshRank := refreshRank + 1;
      if refreshRank == P.ranks { refreshRank := 0; }
    }

    // The rank whose turn it is gets its request, and the turn moves on.
    method RequestRefresh()
      requires Wired() && commandQueue.Valid() && refreshRank < P.ranks == |refreshCountdown|
      modifies this`refreshCountdown, this`refreshRank, commandQueue, ranks
      ensures Wired()
      ensures commandQueue.State()
        == old(commandQueue.State()).(refreshWaiting := true, refreshRank := old(refreshRank))
      ensures refreshCountdown == old(refreshCountdown)[old(refreshRank) := P.refreshCycles]
      ensures refreshRank == if old(refreshRank) + 1 == P.ranks then 0 else old(refreshRank) + 1
      ensures StatesOf(ranks)
        == old(StatesOf(ranks))[old(refreshRank) := old(StatesOf(ranks))[old(refreshRank)].(refreshWaiting := true)]
    {
      var r := refreshRank;
      commandQueue.NeedRefresh(r);
      RestartTimer();
      AskForRefresh(r);
    }

    method StepRefreshTimer()
      requires Valid()
      modifies this`refreshCountdown, this`refreshRank, commandQueue, ranks
      ensures Valid() && State() == RefreshTimer(P, old(State()))
    {
      ghost var s := State();
      var r := refreshRank;
      if refreshCountdown[r] == 0 {
        RequestRefresh();
      } else if powerDown[r] && refreshCountdown[r] <= P.tXP {
        AskForRefresh(r);
      }
      RefreshStepped(P, s, State());
    }

    // Popping a command, booking it in the shadow table and putting it on the command bus.
    method StepIssue() returns (ok: bool)
      requires Valid() && Routed(P, State().mc.queue)
      modifies this`outgoingCmdPacket, this`cmdCyclesLeft, this`writeDataToSend, this`writeDataCountdown, this`log,
        commandQueue, table.cells
      ensures ok == IssueCommand(P, old(State())).Ok?
      ensures ok ==> Valid() && State() == IssueCommand(P, old(State())).value
    {
      ghost var s := State();
      var packet := commandQueue.PopPacket();
      NeverData(P, s.mc.table, s.mc.queue, s.now);
      ok := SendPopped(s, Popped(commandQueue.State(), packet), packet);
    }

    // The rest of the issue; s is the state before the pop and c what the pop made of it.
    method SendPopped(ghost s: System, ghost c: Popped, packet: Option<Packet>) returns (ok: bool)
      requires Wired() && Sound(P, s) && c.queue == commandQueue.State() && QueueShape(P, c.queue) && c.packet == packet
      requires packet.Some? ==> packet.value.kind != DATA && InRange(P, Slot(packet.value.rank, packet.value.bank))
      requires var u := State();
               SameTable(s, u) && SameRanks(s, u) && SameReads(s, u) && SameCommand(s, u) && SameData(s, u)
                 && SameRefresh(s, u)
      modifies this`outgoingCmdPacket, this`cmdCyclesLeft, this`writeDataToSend, this`writeDataCountdown, this`log,
        table.cells
      ensures ok == Dispatch(P, s, c).Ok?
      ensures ok ==> Valid() && State() == Dispatch(P, s, c).value
    {
      ok := true;
      if packet.Some? {
        ok := SendCommand(packet.value);
        if ok { CommandSent(P, s, c, State()); }
      } else {
        NothingSent(P, s, c, State());
      }
    }

    method SendCommand(p: Packet) returns (ok: bool)
      requires table.Valid() && table.P == P && p.rank < P.ranks && p.bank < P.banks && p.kind != DATA
      modifies this`outgoingCmdPacket, this`cmdCyclesLeft, this`writeDataToSend, this`writeDataCountdown, this`log,
        table.cells
      ensures ok == old(outgoingCmdPacket).None?
      ensures ok ==> outgoingCmdPacket == Some(p) && cmdCyclesLeft == P.tCMD
      ensures ok ==> TableOf(table.cells) == IssueTable(P, p, old(TableOf(table.cells)), currentClockCycle)
      ensures writeDataToSend == old(writeDataToSend) + (if IsWrite(p.kind) then [p.(kind := DATA)] else [])
      ensures writeDataCountdown == old(writeDataCountdown) + (if IsWrite(p.kind) then [WriteLatency(P)] else [])
      ensures ok ==> log == old(log).(issued := old(log).issued + [Issue(currentClockCycle, p)])
    {
      if IsWrite(p.kind) {
        writeDataToSend := writeDataToSend + [p.(kind := DATA)];
        writeDataCountdown := writeDataCountdown + [WriteLatency(P)];
      }
      ok := table.UpdateTable(p, currentClockCycle);
      if outgoingCmdPacket.Some? { return false; }
      outgoingCmdPacket := Some(p);
      cmdCyclesLeft := P.tCMD;
      log := log.(issued := log.issued + [Issue(currentClockCycle, p)]);
    }

    // Splitting the first transaction with room for its two commands; `false` is the overflow exit of a queue.
    method StepSplit() returns (ok: bool)
      requires Valid()
      modifies this`transactionQueue, this`pendingReadTransactions, commandQueue
      ensures ok == SplitTransaction(P, old(State())).Ok?
      ensures ok ==> Valid() && State() == SplitTransaction(P, old(State())).value
    {
      ghost var s := State();
      var i := FindRoom();
      ok := true;
      if i < |transactionQueue| {
        ok := SplitAt(i);
        if !ok { return; }
      }
      TransactionSplit(P, s, i, State());
    }

    // The first transaction with room for its two commands, or the number of transactions.
    method FindRoom() returns (i: nat)
      requires commandQueue.Valid() && commandQueue.P == P
      ensures i == NextToSplit(P, commandQueue.State(), transactionQueue, 0) <= |transactionQueue|
    {
      i := 0;
      while i < |transactionQueue| && !HasRoomForTransaction(transactionQueue[i])
        invariant 0 <= i <= |transactionQueue|
        invariant forall j :: 0 <= j < i ==>
          !HasRoomFor(P, commandQueue.State(), 2, SlotOf(P, transactionQueue[j].address))
      {
        i := i + 1;
      }
      RoomFound(P, commandQueue.State(), transactionQueue, i);
    }

    // Transaction i leaves for the command queues, and a read is remembered until its data comes back.
    method SplitAt(i: nat) returns (ok: bool)
      requires commandQueue.Valid() && commandQueue.P == P && i < |transactionQueue|
      modifies this`transactionQueue, this`pendingReadTransactions, commandQueue
      ensures commandQueue.Valid() && commandQueue.currentClockCycle == old(commandQueue.currentClockCycle)
      ensures transactionQueue == RemoveAt(old(transactionQueue), i)
      ensures var t, Q := old(transactionQueue)[i], old(commandQueue.State());
              var q := GetQueue(P, Q, SlotOf(P, t.address));
              && ok == (|q| + 2 <= P.queueDepth)
              && commandQueue.State() == SetQueue(P, Q, SlotOf(P, t.address), q + [ActivateFor(P, t), ColumnFor(P, t)])
              && pendingReadTransactions == old(pendingReadTransactions) + (if t.isRead then [t] else [])
    {
      var t := transactionQueue[i];
      transactionQueue := RemoveAt(transactionQueue, i);
      ok := EnqueueBoth(ActivateFor(P, t), ColumnFor(P, t));
      if t.isRead { pendingReadTransactions := pendingReadTransactions + [t]; }
    }

    predicate HasRoomForTransaction(t: Transaction)
      requires commandQueue.Valid() && commandQueue.P == P
      reads commandQueue
      ensures HasRoomForTransaction(t) == HasRoomFor(P, commandQueue.State(), 2, SlotOf(P, t.address))
    {
      commandQueue.HasRoom(2, P.locate(t.address).rank, P.locate(t.address).bank)
    }

    method EnqueueBoth(act: Packet, col: Packet) returns (ok: bool)
      requires commandQueue.Valid() && commandQueue.P == P && act.rank == col.rank < P.ranks
      requires act.bank == col.bank < P.banks
      modifies commandQueue
      ensures commandQueue.Valid() && commandQueue.currentClockCycle == old(commandQueue.currentClockCycle)
      ensures var Q, w := old(commandQueue.State()), Slot(act.rank, act.bank);
              ok == (|GetQueue(P, Q, w)| + 2 <= P.queueDepth)
              && commandQueue.State() == SetQueue(P, Q, w, GetQueue(P, Q, w) + [act, col])
    {
      ghost var Q, w := commandQueue.State(), Slot(act.rank, act.bank);
      var roomForAct := commandQueue.Enqueue(act);
      var roomForCol := commandQueue.Enqueue(col);
      TwoMore(P, Q, w, act, col);
      ok := roomForAct && roomForCol;
    }

    // What the source decides about rank i from the two tables and the queues.
    method DecidePower(i: nat) returns (m: PowerMove)
      requires Valid() && i < P.ranks
      ensures m == PowerDecision(P, State(), i)
    {
      m := Stay;
      if P.lowPower {
        var empty := commandQueue.IsEmpty(i);
        if empty && !ranks[i].refreshWaiting {
          var idle := table.AllIdle(i);
          if idle { m := GoDown; }
        } else if currentClockCycle >= table.cells[i, 0].nextPowerUp && powerDown[i] {
          m := GoUp;
        }
      }
    }

    // Power management of one rank; `false` is an error exit of the device.
    method PowerRank(i: nat) returns (ok: bool)
      requires Valid() && i < P.ranks
      modifies this`powerDown, table.cells, ranks, ArraysOf(ranks)
      ensures ok == MoveLegal(P, old(State()), i)
      ensures ok ==> Valid() && State() == PowerOne(P, old(State()), i)
    {
      ghost var s := State();
      ok := true;
      var m := DecidePower(i);
      if m != Stay {
        ok := MoveRank(i, m);
      }
      if ok { RankPowered(P, s, i, State()); }
    }

    // Both views of the rank, and the flag that records the move.
    method MoveRank(i: nat, m: PowerMove) returns (ok: bool)
      requires table.Valid() && table.P == P && |powerDown| == P.ranks && i < P.ranks && m != Stay
      requires RanksValid(P, ranks, currentClockCycle)
      modifies this`powerDown, table.cells, ranks, ArraysOf(ranks)
      ensures RanksValid(P, ranks, currentClockCycle) && powerDown == old(powerDown)[i := m == GoDown]
      ensures TableOf(table.cells)
        == old(TableOf(table.cells))[i := PowerTableRow(P, m, old(TableOf(table.cells))[i], currentClockCycle)]
      ensures var d := old(StatesOf(ranks))[i];
              ok == (if m == GoDown then CanPowerDown(d) else CanPowerUp(d, currentClockCycle))
      ensures ok ==>
        StatesOf(ranks) == old(StatesOf(ranks))[i := PowerDevice(P, m, old(StatesOf(ranks))[i], currentClockCycle)]
    {
      powerDown := powerDown[i := m == GoDown];
      ok := MoveDevice(i, m);
      table.PowerRow(m, i, currentClockCycle);
    }

    method MoveDevice(i: nat, m: PowerMove) returns (ok: bool)
      requires RanksValid(P, ranks, currentClockCycle) && i < P.ranks && m != Stay
      modifies ranks, ArraysOf(ranks)
      ensures RanksValid(P, ranks, currentClockCycle)
      ensures var d := old(StatesOf(ranks))[i];
              ok == (if m == GoDown then CanPowerDown(d) else CanPowerUp(d, currentClockCycle))
      ensures ok ==>
        StatesOf(ranks) == old(StatesOf(ranks))[i := PowerDevice(P, m, old(StatesOf(ranks))[i], currentClockCycle)]
    {
      if m == GoDown { ok := ranks[i].PowerDownRank(); } else { ok := ranks[i].PowerUpRank(); }
    }

    // The body of the loop over the ranks; s is the state before the loop.
    method PowerNext(ghost s: System, i: nat, ghost after: nat) returns (ok: bool)
      requires Valid() && Shape(P, s) && i < P.ranks && after == i + 1 && State() == PoweredUpTo(P, s, i)
      requires AllMovesLegal(P, s, i)
      modifies this`powerDown, table.cells, ranks, ArraysOf(ranks)
      ensures ok ==> Valid() && State() == PoweredUpTo(P, s, after) && AllMovesLegal(P, s, after)
      ensures !ok ==> !AllMovesLegal(P, s, P.ranks)
    {
      OneMorePowered(P, s, i, after);
      ok := PowerRank(i);
    }

    method PowerAll(ghost s: System) returns (ok: bool)
      requires Valid() && s == State()
      modifies this`powerDown, table.cells, ranks, ArraysOf(ranks)
      ensures ok == AllMovesLegal(P, s, P.ranks)
      ensures ok ==> Valid() && State() == PoweredUpTo(P, s, P.ranks)
    {
      NothingPowered(P, s);
      var i := 0;
      while i != P.ranks
        invariant i <= P.ranks && Valid() && State() == PoweredUpTo(P, s, i) && AllMovesLegal(P, s, i)
        decreases P.ranks - i
      {
        var after := i + 1;
        ok := PowerNext(s, i, after);
        if !ok { return; }
        i := after;
      }
      ok := true;
    }

    method StepPower() returns (ok: bool)
      requires Valid()
      modifies this`powerDown, table.cells, ranks, ArraysOf(ranks)
      ensures ok == ManagePower(P, old(State())).Ok?
      ensures ok ==> Valid() && State() == ManagePower(P, old(State())).value
    {
      ghost var s := State();
      AllPowered(P, s);
      ok := PowerAll(s);
    }

    // Returning the oldest finished read to the caller that waits for its address.
    method StepReturn() returns (ok: bool)
      requires Valid()
      modifies this`returnTransaction, this`pendingReadTransactions, this`log
      ensures ok == ReturnRead(P, old(State())).Ok?
      ensures ok ==> Valid() && State() == ReturnRead(P, old(State())).value
    {
      ghost var s := State();
      ok := true;
      if |returnTransaction| > 0 {
        var pend := pendingReadTransactions;
        var i := 0;
        while i < |pend| && pend[i].address != returnTransaction[0]
          invariant 0 <= i <= |pend|
          invariant forall j :: 0 <= j < i ==> pend[j].address != returnTransaction[0]
        {
          i := i + 1;
        }
        PendingFound(pend, returnTransaction[0], i);
        if i == |pend| { return false; }
        log := log.(returned := log.returned + [pend[i].address]);
        pendingReadTransactions := RemoveAt(pend, i);
        returnTransaction := returnTransaction[1..];
      }
      ReadReturned(P, s, State());
    }

    method CountDownRefresh()
      modifies this`refreshCountdown
      ensures refreshCountdown == DecAll(old(refreshCountdown))
    {
      ghost var was := refreshCountdown;
      for i := 0 to |refreshCountdown|
        invariant |refreshCountdown| == |was|
        invariant forall k :: 0 <= k < i ==> refreshCountdown[k] == Dec(was[k])
        invariant forall k :: i <= k < |was| ==> refreshCountdown[k] == was[k]
      {
        refreshCountdown := refreshCountdown[i := Dec(refreshCountdown[i])];
      }
      assert refreshCountdown == DecAll(was);
    }

    // The `step` calls that end a cycle.
    method AdvanceClocks()
      requires Wired()
      modifies this`currentClockCycle, commandQueue`currentClockCycle, ranks
      ensures Wired() && currentClockCycle == old(currentClockCycle) + 1 && StatesOf(ranks) == old(StatesOf(ranks))
    {
      ghost var now, ds := currentClockCycle, StatesOf(ranks);
      for i := 0 to P.ranks
        invariant forall k :: 0 <= k < P.ranks ==> ranks[k].Valid() && ranks[k].P == P && ranks[k].State() == ds[k]
        invariant forall k :: 0 <= k < P.ranks ==> ranks[k].currentClockCycle == if k < i then now + 1 else now
        modifies ranks
      {
        ranks[i].currentClockCycle := ranks[i].currentClockCycle + 1;
      }
      commandQueue.currentClockCycle := commandQueue.currentClockCycle + 1;
      currentClockCycle := currentClockCycle + 1;
    }

    method StepEnd()
      requires Valid()
      modifies this`refreshCountdown, this`currentClockCycle, commandQueue`currentClockCycle, ranks
      ensures Valid() && State() == EndCycle(P, old(State()))
    {
      ghost var s := State();
      CountDownRefresh();
      AdvanceClocks();
      CycleEnded(P, s, State());
    }

    // The part of a cycle that settles the buses.
    method SettleBuses() returns (ok: bool)
      requires Valid()
      modifies this, table.cells, ranks, ArraysOf(ranks)
      ensures ok == Settle(P, old(State())).Ok?
      ensures ok ==> Valid() && State() == Settle(P, old(State())).value
    {
      ok := StepRanks();
      if !ok { return; }
      StepBanks();
      ok := StepCommandBus();
      if !ok { return; }
      StepDataBus();
      ok := StepWriteData();
    }

    // One cycle of the whole memory system; `false` is an exit or abort of the source.
    method Update() returns (ok: bool)
      requires Valid() && Routed(P, State().mc.queue)
      modifies this, table.cells, commandQueue, ranks, ArraysOf(ranks)
      ensures ok == MemorySystemSpec.Update(P, old(State())).Ok?
      ensures ok ==> Valid() && State() == MemorySystemSpec.Update(P, old(State())).value
    {
      ok := SettleAndIssue();
      if ok { ok := FinishCycle(); }
    }

    method SettleAndIssue() returns (ok: bool)
      requires Valid() && Routed(P, State().mc.queue)
      modifies this, table.cells, commandQueue, ranks, ArraysOf(ranks)
      ensures ok == ThroughIssue(P, old(State())).Ok?
      ensures ok ==> Valid() && State() == ThroughIssue(P, old(State())).value
    {
      ok := SettleBuses();
      if ok {
        StillRouted(P, State());
        StepRefreshTimer();
        ok := StepIssue();
      }
    }

    method FinishCycle() returns (ok: bool)
      requires Valid()
      modifies this, table.cells, commandQueue, ranks, ArraysOf(ranks)
      ensures ok == AfterIssue(P, old(State())).Ok?
      ensures ok ==> Valid() && State() == AfterIssue(P, old(State())).value
    {
      ok := StepSplit();
      if !ok { return; }
      ok := StepPower();
      if !ok { return; }
      ok := StepReturn();
      if !ok { return; }
      StepEnd();
    }

    // `addTransaction`: accepted when the transaction queue has room.
    method AddTransaction(isRead: bool, address: nat) returns (accepted: bool)
      requires Valid()
      modifies this`transactionQueue, this`log
      ensures Valid() && State() == Accept(P, old(State()), isRead, address)
      ensures accepted == (|old(transactionQueue)| < P.transDepth)
      ensures transactionQueue == old(transactionQueue)
        + (if accepted then [Transaction(isRead, address, |old(log).accepted|)] else [])
    {
      accepted := |transactionQueue| < P.transDepth;
      if accepted {
        var t := Transaction(isRead, address, |log.accepted|);
        transactionQueue := transactionQueue + [t];
        log := log.(accepted := log.accepted + [t]);
      }
    }
  }

  lemma StillRouted(P: Params, s: System)
    requires ValidParams(P) && Shape(P, s) && Routed(P, s.mc.queue)
    ensures Routed(P, RefreshTimer(P, s).mc.queue)
  {
  }

  // Every array has its shape, and only data is on its way to the data bus.
  ghost predicate Sound(P: Params, s: System)
  {
    && Shape(P, s)
    && (s.mc.data.Some? ==> s.mc.data.value.kind == DATA)
    && (forall i :: 0 <= i < |s.mc.writePackets| ==> s.mc.writePackets[i].kind == DATA)
  }

  // Which groups of fields a phase leaves alone.
  predicate SameTable(s: System, u: System) { u.mc.table == s.mc.table && u.mc.powerDown == s.mc.powerDown }

  predicate SameRanks(s: System, u: System) { u.ranks == s.ranks }

  predicate SameReads(s: System, u: System)
  {
    u.mc.transactions == s.mc.transactions && u.mc.pendingReads == s.mc.pendingReads
    && u.mc.readData == s.mc.readData && u.log == s.log && u.now == s.now
  }

  predicate SameQueue(s: System, u: System) { u.mc.queue == s.mc.queue }

  predicate SameCommand(s: System, u: System) { u.mc.cmd == s.mc.cmd && u.mc.cmdCyclesLeft == s.mc.cmdCyclesLeft }

  predicate SameData(s: System, u: System)
  {
    u.mc.data == s.mc.data && u.mc.dataCyclesLeft == s.mc.dataCyclesLeft
    && u.mc.writePackets == s.mc.writePackets && u.mc.writeCountdowns == s.mc.writeCountdowns
  }

  predicate SameRefresh(s: System, u: System)
  {
    u.mc.refreshCountdown == s.mc.refreshCountdown && u.mc.refreshRank == s.mc.refreshRank
  }

  ghost predicate AllData(ps: seq<Packet>)
  {
    forall i :: 0 <= i < |ps| ==> ps[i].kind == DATA
  }

  // The ranks when the first n of them have ticked.
  ghost function TickedUpTo(P: Params, ds: seq<RankState>, n: nat): (us: seq<RankState>)
    ensures |us| == |ds|
  {
    seq(|ds|, r requires 0 <= r < |ds| => if r < n then Tick(P, ds[r]).0 else ds[r])
  }

  lemma RanksTicked(P: Params, s: System, u: System)
    requires Sound(P, s)
    requires SameTable(s, u) && SameQueue(s, u) && SameCommand(s, u) && SameData(s, u) && SameRefresh(s, u)
    requires u.mc.transactions == s.mc.transactions && u.mc.pendingReads == s.mc.pendingReads && u.log == s.log
    requires u.now == s.now
    requires AllData(Delivered(P, s.ranks))
    requires u.ranks == TickedUpTo(P, s.ranks, P.ranks)
    requires u.mc.readData == s.mc.readData + Addresses(Delivered(P, s.ranks))
    ensures TickRanks(P, s) == Ok(u) && Sound(P, u)
  {
    assert u.ranks == seq(|s.ranks|, r requires 0 <= r < |s.ranks| => Tick(P, s.ranks[r]).0);
  }

  lemma NothingTicked(P: Params, ds: seq<RankState>)
    ensures Delivered(P, ds[..0]) == [] && Addresses([]) == [] && TickedUpTo(P, ds, 0) == ds
  {
  }

  // The next rank to tick adds what it hands over, and what it hands over stays.
  lemma OneMoreTicked(P: Params, ds: seq<RankState>, i: nat)
    requires i < |ds|
    ensures TickedUpTo(P, ds, i + 1) == TickedUpTo(P, ds, i)[i := Tick(P, ds[i]).0] && TickedUpTo(P, ds, i)[i] == ds[i]
    ensures var out := Tick(P, ds[i]).1;
            var before, after := Delivered(P, ds[..i]), Delivered(P, ds[..i + 1]);
            if out.None? then after == before
            else
              && Addresses(after) == Addresses(before) + [out.value.address]
              && (out.value.kind != DATA ==> !AllData(Delivered(P, ds)))
              && (out.value.kind == DATA && AllData(before) ==> AllData(after))
  {
    OneMoreDelivered(P, ds, i);
    DeliveredPrefix(P, ds, i + 1);
    var before, after := Delivered(P, ds[..i]), Delivered(P, ds[..i + 1]);
    if Tick(P, ds[i]).1.Some? {
      assert after[|before|] == Tick(P, ds[i]).1.value == Delivered(P, ds)[|before|];
    }
  }

  lemma OneMoreDelivered(P: Params, ds: seq<RankState>, i: nat)
    requires i < |ds|
    ensures Delivered(P, ds[..i + 1]) == Delivered(P, ds[..i]) + Handed(P, ds[i])
  {
    var ss := seq(i + 1, r requires 0 <= r < i + 1 => Handed(P, ds[..i + 1][r]));
    assert ss[..i] == seq(i, r requires 0 <= r < i => Handed(P, ds[..i][r]));
  }

  // What the first ranks hand over is a prefix of what all of them do.
  lemma {:induction false} DeliveredPrefix(P: Params, ds: seq<RankState>, i: nat)
    requires i <= |ds|
    ensures Delivered(P, ds[..i]) <= Delivered(P, ds)
    decreases |ds| - i
  {
    if i == |ds| {
      assert ds[..i] == ds;
    } else {
      OneMoreDelivered(P, ds, i);
      DeliveredPrefix(P, ds, i + 1);
    }
  }

  lemma BanksCounted(P: Params, s: System, u: System)
    requires Sound(P, s)
    requires SameRanks(s, u) && SameQueue(s, u) && SameReads(s, u) && SameCommand(s, u) && SameData(s, u)
    requires SameRefresh(s, u)
    requires u.mc.table == CountDownTable(P, s.mc.table) && u.mc.powerDown == s.mc.powerDown
    ensures u == CountDown(P, s) && Sound(P, u)
  {
  }

  lemma CommandStepped(P: Params, s: System, u: System)
    requires ValidParams(P) && Sound(P, s)
    requires SameTable(s, u) && SameQueue(s, u) && SameReads(s, u) && SameData(s, u) && SameRefresh(s, u)
    requires var left := Dec(s.mc.cmdCyclesLeft);
             if s.mc.cmd.None? then SameRanks(s, u) && SameCommand(s, u)
             else if left != 0 then SameRanks(s, u) && u.mc.cmd == s.mc.cmd && u.mc.cmdCyclesLeft == left
             else var p := s.mc.cmd.value;
               CanReceive(s.ranks[p.rank], p, s.now) && u.mc.cmd == None && u.mc.cmdCyclesLeft == 0
               && u.ranks == s.ranks[p.rank := Receive(P, s.ranks[p.rank], p, s.now)]
    ensures CommandBus(P, s) == Ok(u) && Sound(P, u)
  {
  }

  lemma DataStepped(P: Params, s: System, u: System)
    requires Sound(P, s)
    requires SameTable(s, u) && SameRanks(s, u) && SameQueue(s, u) && SameReads(s, u) && SameCommand(s, u)
    requires SameRefresh(s, u)
    requires u.mc.writePackets == s.mc.writePackets && u.mc.writeCountdowns == s.mc.writeCountdowns
    requires if s.mc.data.None? then u.mc.data == None && u.mc.dataCyclesLeft == s.mc.dataCyclesLeft
             else
               && u.mc.dataCyclesLeft == Dec(s.mc.dataCyclesLeft)
               && u.mc.data == if u.mc.dataCyclesLeft == 0 then None else s.mc.data
    ensures u == DataBus(P, s) && Sound(P, u)
  {
  }

  lemma WriteDataSent(P: Params, s: System, u: System)
    requires Sound(P, s)
    requires SameTable(s, u) && SameRanks(s, u) && SameQueue(s, u) && SameReads(s, u) && SameCommand(s, u)
    requires SameRefresh(s, u)
    requires var counts := DecAll(s.mc.writeCountdowns);
             if |counts| == 0 || counts[0] != 0 then
               u.mc.writeCountdowns == counts && u.mc.writePackets == s.mc.writePackets
               && u.mc.data == s.mc.data && u.mc.dataCyclesLeft == s.mc.dataCyclesLeft
             else
               u.mc.writeCountdowns == counts[1..] && u.mc.writePackets == s.mc.writePackets[1..] && s.mc.data.None?
               && u.mc.data == Some(s.mc.writePackets[0]) && u.mc.dataCyclesLeft == Burst(P)
    ensures SendWriteData(P, s) == Ok(u) && Sound(P, u)
  {
    if |s.mc.writeCountdowns| == 0 {
      assert u.mc.writeCountdowns == s.mc.writeCountdowns;
    }
  }

  lemma RefreshStepped(P: Params, s: System, u: System)
    requires Sound(P, s)
    requires SameTable(s, u) && SameReads(s, u) && SameCommand(s, u) && SameData(s, u)
    requires var r := s.mc.refreshRank;
             var waiting := s.ranks[r := s.ranks[r].(refreshWaiting := true)];
             if s.mc.refreshCountdown[r] == 0 then
               u.ranks == waiting && u.mc.queue == s.mc.queue.(refreshWaiting := true, refreshRank := r)
               && u.mc.refreshCountdown == s.mc.refreshCountdown[r := P.refreshCycles]
               && u.mc.refreshRank == if r + 1 == P.ranks then 0 else r + 1
             else
               SameQueue(s, u) && SameRefresh(s, u)
               && u.ranks == (if s.mc.powerDown[r] && s.mc.refreshCountdown[r] <= P.tXP then waiting else s.ranks)
    ensures u == RefreshTimer(P, s) && Sound(P, u)
  {
  }

  lemma NeverData(P: Params, T: Table, Q: QueueState, now: nat)
    requires ValidParams(P) && TableShape(P, T) && QueueShape(P, Q)
    ensures var r := Pop(P, T, Q, now); r.packet.Some? ==> r.packet.value.kind != DATA
  {
  }

  lemma CommandSent(P: Params, s: System, c: Popped, u: System)
    requires ValidParams(P) && Sound(P, s) && QueueShape(P, c.queue) && c.packet.Some? && s.mc.cmd.None?
    requires InRange(P, Slot(c.packet.value.rank, c.packet.value.bank))
    requires SameRanks(s, u) && SameRefresh(s, u) && u.now == s.now && u.mc.powerDown == s.mc.powerDown
    requires u.mc.transactions == s.mc.transactions && u.mc.pendingReads == s.mc.pendingReads
    requires u.mc.readData == s.mc.readData
    requires u.mc.data == s.mc.data && u.mc.dataCyclesLeft == s.mc.dataCyclesLeft
    requires var p := c.packet.value;
             && u.mc.queue == c.queue && u.mc.cmd == Some(p) && u.mc.cmdCyclesLeft == P.tCMD
             && u.mc.table == IssueTable(P, p, s.mc.table, s.now)
             && u.mc.writePackets == s.mc.writePackets + (if IsWrite(p.kind) then [p.(kind := DATA)] else [])
             && u.mc.writeCountdowns == s.mc.writeCountdowns + (if IsWrite(p.kind) then [WriteLatency(P)] else [])
             && u.log == s.log.(issued := s.log.issued + [Issue(s.now, p)])
    ensures Dispatch(P, s, c) == Ok(u) && Sound(P, u)
  {
    if !IsWrite(c.packet.value.kind) {
      assert u.mc.writePackets == s.mc.writePackets && u.mc.writeCountdowns == s.mc.writeCountdowns;
    }
  }

  lemma NothingSent(P: Params, s: System, c: Popped, u: System)
    requires ValidParams(P) && Sound(P, s) && QueueShape(P, c.queue) && c.packet.None?
    requires SameTable(s, u) && SameRanks(s, u) && SameReads(s, u) && SameCommand(s, u) && SameData(s, u)
    requires SameRefresh(s, u)
    requires u.mc.queue == c.queue
    ensures Dispatch(P, s, c) == Ok(u) && Sound(P, u)
  {
  }

  lemma RoomFound(P: Params, Q: QueueState, ts: seq<Transaction>, i: nat)
    requires ValidParams(P) && QueueShape(P, Q) && i <= |ts|
    requires forall j :: 0 <= j < i ==> !HasRoomFor(P, Q, 2, SlotOf(P, ts[j].address))
    requires i < |ts| ==> HasRoomFor(P, Q, 2, SlotOf(P, ts[i].address))
    ensures NextToSplit(P, Q, ts, 0) == i
  {
  }

  lemma TwoMore(P: Params, Q: QueueState, w: Slot, a: Packet, b: Packet)
    requires ValidParams(P) && QueueShape(P, Q) && InRange(P, w)
    ensures var q := GetQueue(P, Q, w);
            var R := SetQueue(P, Q, w, q + [a]);
            GetQueue(P, R, w) == q + [a] && SetQueue(P, R, w, q + [a] + [b]) == SetQueue(P, Q, w, q + [a, b])
  {
    var q, r, x := GetQueue(P, Q, w), w.rank, QueueIndex(P, w.bank);
    assert q + [a] + [b] == q + [a, b];
    assert Q.queues[r][x := q + [a]][x := q + [a, b]] == Q.queues[r][x := q + [a, b]];
    var R := SetQueue(P, Q, w, q + [a]);
    assert R.queues[r := R.queues[r][x := q + [a, b]]] == Q.queues[r := Q.queues[r][x := q + [a, b]]];
  }

  lemma TransactionSplit(P: Params, s: System, i: nat, u: System)
    requires ValidParams(P) && Sound(P, s) && i == NextToSplit(P, s.mc.queue, s.mc.transactions, 0)
    requires SameTable(s, u) && SameRanks(s, u) && SameCommand(s, u) && SameData(s, u) && SameRefresh(s, u)
    requires u.log == s.log && u.now == s.now && u.mc.readData == s.mc.readData
    requires if i == |s.mc.transactions| then
               SameQueue(s, u) && u.mc.transactions == s.mc.transactions && u.mc.pendingReads == s.mc.pendingReads
             else
               var t := s.mc.transactions[i];
               var q := GetQueue(P, s.mc.queue, SlotOf(P, t.address));
               && |q| + 2 <= P.queueDepth && u.mc.transactions == RemoveAt(s.mc.transactions, i)
               && u.mc.queue == SetQueue(P, s.mc.queue, SlotOf(P, t.address), q + [ActivateFor(P, t), ColumnFor(P, t)])
               && u.mc.pendingReads == s.mc.pendingReads + (if t.isRead then [t] else [])
    ensures SplitTransaction(P, s) == Ok(u) && Sound(P, u)
  {
  }

  // Power management of rank i alone.
  function PowerOne(P: Params, s: System, i: nat): (u: System)
    requires ValidParams(P) && Shape(P, s) && i < P.ranks
    ensures Shape(P, u)
  {
    var m := PowerDecision(P, s, i);
    s.(mc := s.mc.(table := s.mc.table[i := PowerTableRow(P, m, s.mc.table[i], s.now)],
                   powerDown := s.mc.powerDown[i := if m == Stay then s.mc.powerDown[i] else m == GoDown]),
       ranks := s.ranks[i := PowerDevice(P, m, s.ranks[i], s.now)])
  }

  lemma RankPowered(P: Params, s: System, i: nat, u: System)
    requires ValidParams(P) && Sound(P, s) && i < P.ranks
    requires SameQueue(s, u) && SameReads(s, u) && SameCommand(s, u) && SameData(s, u) && SameRefresh(s, u)
    requires var m := PowerDecision(P, s, i);
             if m == Stay then SameTable(s, u) && SameRanks(s, u)
             else
               && u.mc.table == s.mc.table[i := PowerTableRow(P, m, s.mc.table[i], s.now)]
               && u.mc.powerDown == s.mc.powerDown[i := m == GoDown]
               && u.ranks == s.ranks[i := PowerDevice(P, m, s.ranks[i], s.now)]
    ensures u == PowerOne(P, s, i) && Sound(P, u)
  {
    if PowerDecision(P, s, i) == Stay {
      assert s.mc.table[i := s.mc.table[i]] == s.mc.table;
      assert s.mc.powerDown[i := s.mc.powerDown[i]] == s.mc.powerDown;
      assert s.ranks[i := s.ranks[i]] == s.ranks;
    }
  }

  ghost predicate MoveLegal(P: Params, s: System, r: nat)
    requires ValidParams(P) && Shape(P, s) && r < P.ranks
  {
    && (PowerDecision(P, s, r) == GoDown ==> CanPowerDown(s.ranks[r]))
    && (PowerDecision(P, s, r) == GoUp ==> CanPowerUp(s.ranks[r], s.now))
  }

  ghost predicate AllMovesLegal(P: Params, s: System, n: nat)
    requires ValidParams(P) && Shape(P, s) && n <= P.ranks
  {
    forall r: nat :: r < n ==> MoveLegal(P, s, r)
  }

  // The system when the first n ranks have been power-managed.
  ghost function PoweredUpTo(P: Params, s: System, n: nat): (u: System)
    requires ValidParams(P) && Shape(P, s)
    ensures Shape(P, u)
  {
    s.(mc := s.mc.(
         table := seq(P.ranks, r requires 0 <= r < P.ranks =>
           if r < n then PowerTableRow(P, PowerDecision(P, s, r), s.mc.table[r], s.now) else s.mc.table[r]),
         powerDown := seq(P.ranks, r requires 0 <= r < P.ranks =>
           if r < n && PowerDecision(P, s, r) != Stay then PowerDecision(P, s, r) == GoDown else s.mc.powerDown[r])),
       ranks := seq(P.ranks, r requires 0 <= r < P.ranks =>
         if r < n then PowerDevice(P, PowerDecision(P, s, r), s.ranks[r], s.now) else s.ranks[r]))
  }

  lemma NothingPowered(P: Params, s: System)
    requires ValidParams(P) && Shape(P, s)
    ensures PoweredUpTo(P, s, 0) == s
  {
    var u := PoweredUpTo(P, s, 0);
    assert u.mc.table == s.mc.table && u.mc.powerDown == s.mc.powerDown && u.ranks == s.ranks;
  }

  // No rank's decision depends on what was done to the others.
  lemma OneMorePowered(P: Params, s: System, i: nat, after: nat)
    requires ValidParams(P) && Shape(P, s) && i < P.ranks && after == i + 1
    ensures var u := PoweredUpTo(P, s, i);
            && PowerDecision(P, u, i) == PowerDecision(P, s, i) && u.ranks[i] == s.ranks[i] && u.now == s.now
            && MoveLegal(P, u, i) == MoveLegal(P, s, i)
            && PowerOne(P, u, i) == PoweredUpTo(P, s, after)
    ensures AllMovesLegal(P, s, after) <==> AllMovesLegal(P, s, i) && MoveLegal(P, s, i)
    ensures AllMovesLegal(P, s, P.ranks) ==> MoveLegal(P, s, i)
  {
    var u := PoweredUpTo(P, s, i);
    assert u.mc.table[i] == s.mc.table[i] && u.mc.powerDown[i] == s.mc.powerDown[i];
    var v, w := PowerOne(P, u, i), PoweredUpTo(P, s, after);
    assert v.mc.table == w.mc.table;
    assert v.mc.powerDown == w.mc.powerDown;
    assert v.ranks == w.ranks;
  }

  lemma AllPowered(P: Params, s: System)
    requires ValidParams(P) && Shape(P, s)
    ensures if AllMovesLegal(P, s, P.ranks) then ManagePower(P, s) == Ok(PoweredUpTo(P, s, P.ranks))
      else ManagePower(P, s).Exit?
  {
    if AllMovesLegal(P, s, P.ranks) {
      forall r: nat | r < P.ranks
        ensures !(PowerDecision(P, s, r) == GoDown && !CanPowerDown(s.ranks[r]))
        ensures !(PowerDecision(P, s, r) == GoUp && !CanPowerUp(s.ranks[r], s.now))
      {
        assert MoveLegal(P, s, r);
      }
      var u, v := PoweredUpTo(P, s, P.ranks), ManagePower(P, s).value;
      assert u.mc.table == v.mc.table;
      assert u.mc.powerDown == v.mc.powerDown;
      assert u.ranks == v.ranks;
    }
  }

  lemma PendingFound(pend: seq<Transaction>, address: nat, i: nat)
    requires i <= |pend| && forall j :: 0 <= j < i ==> pend[j].address != address
    requires i < |pend| ==> pend[i].address == address
    ensures FirstPending(pend, address, 0) == i
  {
  }

  lemma ReadReturned(P: Params, s: System, u: System)
    requires Sound(P, s)
    requires SameTable(s, u) && SameRanks(s, u) && SameQueue(s, u) && SameCommand(s, u) && SameData(s, u)
    requires SameRefresh(s, u)
    requires u.now == s.now && u.mc.transactions == s.mc.transactions
    requires var pend := s.mc.pendingReads;
             if s.mc.readData == [] then u.mc.pendingReads == pend && u.mc.readData == [] && u.log == s.log
             else
               var i := FirstPending(pend, s.mc.readData[0], 0);
               && i < |pend| && u.mc.pendingReads == RemoveAt(pend, i) && u.mc.readData == s.mc.readData[1..]
               && u.log == s.log.(returned := s.log.returned + [pend[i].address])
    ensures ReturnRead(P, s) == Ok(u) && Sound(P, u)
  {
  }

  lemma CycleEnded(P: Params, s: System, u: System)
    requires Sound(P, s)
    requires SameTable(s, u) && SameRanks(s, u) && SameQueue(s, u) && SameCommand(s, u) && SameData(s, u)
    requires u.mc.transactions == s.mc.transactions && u.mc.pendingReads == s.mc.pendingReads
    requires u.mc.readData == s.mc.readData
    requires u.log == s.log && u.now == s.now + 1
    requires u.mc.refreshCountdown == DecAll(s.mc.refreshCountdown) && u.mc.refreshRank == s.mc.refreshRank
    ensures u == EndCycle(P, s) && Sound(P, u)
  {
  }

  // A rank without storage does nothing with write data.
  lemma DataIgnored(P: Params, ds: seq<RankState>, p: Packet, now: nat)
    requires ValidParams(P) && p.kind == DATA && p.rank < |ds| && p.bank < |ds[p.rank].banks|
    ensures CanReceive(ds[p.rank], p, now) && ds[p.rank := Receive(P, ds[p.rank], p, now)] == ds
  {
    assert Receive(P, ds[p.rank], p, now).banks == ds[p.rank].banks;
  }
}
