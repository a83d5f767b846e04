/** The memory controller, its ranks, and one `update()` of the whole system as a function. */
module MemorySystemSpec {
  import opened Basics
  import opened DramTypes
  import opened RankModel
  import opened CommandQueueSpec
  import opened Totals

  datatype Error =
    | IllegalCommand | CommandBusCollision | DataBusCollision | QueueOverflow
    | NoMatchingRead | NonDataFromRank | IllegalPowerDown | IllegalPowerUp

  datatype Outcome<+T> = Ok(value: T) | Exit(error: Error) {
    predicate IsFailure() { Exit? }
    function PropagateFailure<U>(): Outcome<U> requires Exit? { Exit(error) }
    function Extract(): T requires Ok? { value }
  }

  datatype Controller = Controller(
    table: Table, queue: QueueState,
    cmd: Option<Packet>, cmdCyclesLeft: nat,
    data: Option<Packet>, dataCyclesLeft: nat,
    writePackets: seq<Packet>, writeCountdowns: seq<nat>,
    powerDown: seq<bool>, refreshCountdown: seq<nat>, refreshRank: nat,
    transactions: seq<Transaction>, pendingReads: seq<Transaction>, readData: seq<nat>)

  // History variables: nothing in the system reads them.
  datatype Issue = Issue(time: nat, packet: Packet)

  datatype Log = Log(accepted: seq<Transaction>, returned: seq<nat>, issued: seq<Issue>)

  datatype System = System(mc: Controller, ranks: seq<RankState>, now: nat, log: Log)

  ghost predicate Shape(P: Params, s: System)
  {
    && TableShape(P, s.mc.table) && QueueShape(P, s.mc.queue)
    && |s.ranks| == |s.mc.powerDown| == |s.mc.refreshCountdown| == P.ranks
    && (forall r :: 0 <= r < P.ranks ==> |s.ranks[r].banks| == P.banks)
    && s.mc.refreshRank < P.ranks
    && |s.mc.writePackets| == |s.mc.writeCountdowns|
    && (s.mc.cmd.Some? ==> InRange(P, Slot(s.mc.cmd.value.rank, s.mc.cmd.value.bank)))
    && (s.mc.data.Some? ==> InRange(P, Slot(s.mc.data.value.rank, s.mc.data.value.bank)))
    && (forall i :: 0 <= i < |s.mc.writePackets| ==>
         InRange(P, Slot(s.mc.writePackets[i].rank, s.mc.writePackets[i].bank)))
  }

  function Stagger(P: Params, r: nat): nat { P.refreshStagger * (r + 1) }

  function InitController(P: Params): Controller
  {
    Controller(seq(P.ranks, r => seq(P.banks, b => INITIAL_BANK)), InitQueue(P), None, 0, None, 0, [], [],
               seq(P.ranks, r => false), seq(P.ranks, r requires 0 <= r < P.ranks => Stagger(P, r)), 0, [], [], [])
  }

  function Init(P: Params): System
  {
    System(InitController(P), seq(P.ranks, r => InitRank(P)), 0, Log([], [], []))
  }

  // ---------- the phases of one cycle, in the order the source runs them

  // What rank d hands over when it ticks.
  function Handed(P: Params, d: RankState): seq<Packet>
  {
    var last := Tick(P, d).1;
    if last.Some? then [last.value] else []
  }

  function Delivered(P: Params, ranks: seq<RankState>): seq<Packet>
  {
    Flatten(seq(|ranks|, r requires 0 <= r < |ranks| => Handed(P, ranks[r])))
  }

  function Addresses(ps: seq<Packet>): seq<nat>
  {
    seq(|ps|, i requires 0 <= i < |ps| => ps[i].address)
  }

  function TickRanks(P: Params, s: System): (o: Outcome<System>)
    requires Shape(P, s)
    ensures o.Ok? ==> Shape(P, o.value)
  {
    var out := Delivered(P, s.ranks);
    if exists i :: 0 <= i < |out| && out[i].kind != DATA then Exit(NonDataFromRank)
    else
      Ok(s.(ranks := seq(|s.ranks|, r requires 0 <= r < |s.ranks| => Tick(P, s.ranks[r]).0),
            mc := s.mc.(readData := s.mc.readData + Addresses(out))))
  }

  function CountDownBank(P: Params, b: BankState): BankState
  {
    if b.countdown == 0 then b
    else if b.countdown > 1 then b.(countdown := b.countdown - 1)
    else if b.last == READ_P || b.last == WRITE_P then
      b.(status := Precharging, last := PRECHARGE, countdown := P.tRP)
    else if b.last == REFRESH || b.last == PRECHARGE then b.(status := Idle, countdown := 0)
    else b.(countdown := 0)
  }

  function CountDownTable(P: Params, T: Table): (U: Table)
    ensures |U| == |T|
    ensures forall r :: 0 <= r < |T| ==>
      |U[r]| == |T[r]| && forall b :: 0 <= b < |T[r]| ==> U[r][b] == CountDownBank(P, T[r][b])
  {
    seq(|T|, r requires 0 <= r < |T| => seq(|T[r]|, b requires 0 <= b < |T[r]| => CountDownBank(P, T[r][b])))
  }

  function CommandBus(P: Params, s: System): (o: Outcome<System>)
    requires ValidParams(P) && Shape(P, s)
    ensures o.Ok? ==> Shape(P, o.value)
  {
    if s.mc.cmd.None? then Ok(s)
    else
      var left := Dec(s.mc.cmdCyclesLeft);
      var p := s.mc.cmd.value;
      if left != 0 then Ok(s.(mc := s.mc.(cmdCyclesLeft := left)))
      else if !CanReceive(s.ranks[p.rank], p, s.now) then Exit(IllegalCommand)
      else Ok(s.(mc := s.mc.(cmd := None, cmdCyclesLeft := 0),
                 ranks := s.ranks[p.rank := Receive(P, s.ranks[p.rank], p, s.now)]))
  }

  function DataBus(P: Params, s: System): (u: System)
    requires Shape(P, s)
    ensures Shape(P, u)
  {
    if s.mc.data.None? then s
    else
      // A finished burst reaches its rank, which drops it (no storage is modelled).
      var left := Dec(s.mc.dataCyclesLeft);
      s.(mc := s.mc.(dataCyclesLeft := left, data := if left == 0 then None else s.mc.data))
  }

  function SendWriteData(P: Params, s: System): (o: Outcome<System>)
    requires Shape(P, s)
    ensures o.Ok? ==> Shape(P, o.value)
  {
    var counts := DecAll(s.mc.writeCountdowns);
    if |counts| == 0 then Ok(s)
    else if counts[0] != 0 then Ok(s.(mc := s.mc.(writeCountdowns := counts)))
    else if s.mc.data.Some? then Exit(DataBusCollision)
    else Ok(s.(mc := s.mc.(data := Some(s.mc.writePackets[0]), dataCyclesLeft := Burst(P),
                           writePackets := s.mc.writePackets[1..], writeCountdowns := counts[1..])))
  }

  function RefreshTimer(P: Params, s: System): (u: System)
    requires Shape(P, s)
    ensures Shape(P, u)
  {
    var r := s.mc.refreshRank;
    var waiting := s.ranks[r := s.ranks[r].(refreshWaiting := true)];
    if s.mc.refreshCountdown[r] == 0 then
      var counts: seq<nat> := s.mc.refreshCountdown[r := P.refreshCycles];
      s.(ranks := waiting,
         mc := s.mc.(queue := s.mc.queue.(refreshWaiting := true, refreshRank := r), refreshCountdown := counts,
                     refreshRank := if r + 1 == P.ranks then 0 else r + 1))
    else if s.mc.powerDown[r] && s.mc.refreshCountdown[r] <= P.tXP then s.(ranks := waiting)
    else s
  }

  // How issuing packet p changes the controller's view of bank i of rank r.
  function IssueBank(P: Params, p: Packet, r: nat, i: nat, b: BankState, now: nat): BankState
    requires ValidParams(P)
  {
    var own := r == p.rank && i == p.bank;
    var k := p.kind;
    if IsRead(k) then
      var act := Max(now + ReadAutoPre(P), b.nextActivate);
      if own && k == READ_P then
        b.(nextActivate := act, last := READ_P, countdown := ReadToPre(P), nextRead := act, nextWrite := act)
      else if own then
        b.(nextPrecharge := Max(now + ReadToPre(P), b.nextPrecharge), last := READ,
           nextRead := Max(now + Max(P.tCCD, Burst(P)), b.nextRead),
           nextWrite := Max(now + ReadToWrite(P), b.nextWrite))
      else if r == p.rank then
        b.(nextRead := Max(now + Max(P.tCCD, Burst(P)), b.nextRead),
           nextWrite := Max(now + ReadToWrite(P), b.nextWrite))
      else if b.status == RowActive then
        b.(nextRead := Max(now + Burst(P) + P.tRTRS, b.nextRead),
           nextWrite := Max(now + ReadToWrite(P), b.nextWrite))
      else b
    else if IsWrite(k) then
      var act := Max(now + WriteAutoPre(P), b.nextActivate);
      if own && k == WRITE_P then
        b.(nextActivate := act, last := WRITE_P, countdown := WriteToPre(P), nextRead := act, nextWrite := act)
      else if own then
        b.(nextPrecharge := Max(now + WriteToPre(P), b.nextPrecharge), last := WRITE,
           nextWrite := Max(now + Max(Burst(P), P.tCCD), b.nextWrite),
           nextRead := Max(now + WriteToReadSameRank(P), b.nextRead))
      else if r == p.rank then
        b.(nextWrite := Max(now + Max(Burst(P), P.tCCD), b.nextWrite),
           nextRead := Max(now + WriteToReadSameRank(P), b.nextRead))
      else if b.status == RowActive then
        b.(nextWrite := Max(now + Burst(P) + P.tRTRS, b.nextWrite),
           nextRead := Max(now + WriteToReadOtherRank(P), b.nextRead))
      else b
    else if k == ACTIVATE then
      if own then
        b.(status := RowActive, last := ACTIVATE, openRow := p.row,
           nextActivate := Max(now + P.tRC, b.nextActivate), nextPrecharge := Max(now + P.tRAS, b.nextPrecharge),
           nextRead := Max(now + (P.tRCD - P.AL), b.nextRead), nextWrite := Max(now + (P.tRCD - P.AL), b.nextWrite))
      else if r == p.rank then b.(nextActivate := Max(now + P.tRRD, b.nextActivate))
      else b
    else if k == PRECHARGE then
      if own then
        b.(status := Precharging, last := PRECHARGE, countdown := P.tRP,
          nextActivate := Max(now + P.tRP, b.nextActivate))
      else b
    else if k == REFRESH && r == p.rank then
      b.(nextActivate := now + P.tRFC, status := Refreshing, last := REFRESH, countdown := P.tRFC)
    else b
  }

  function IssueTable(P: Params, p: Packet, T: Table, now: nat): (U: Table)
    requires ValidParams(P)
    ensures |U| == |T|
    ensures forall r :: 0 <= r < |T| ==>
      |U[r]| == |T[r]| && forall b :: 0 <= b < |T[r]| ==> U[r][b] == IssueBank(P, p, r, b, T[r][b], now)
  {
    seq(|T|, r requires 0 <= r < |T| => seq(|T[r]|, b requires 0 <= b < |T[r]| => IssueBank(P, p, r, b, T[r][b], now)))
  }

  // The bank-state update for a popped command and its move onto the command bus.
  function Dispatch(P: Params, s: System, c: Popped): (o: Outcome<System>)
    requires ValidParams(P) && Shape(P, s) && QueueShape(P, c.queue)
    requires c.packet.Some? ==> InRange(P, Slot(c.packet.value.rank, c.packet.value.bank))
    ensures o.Ok? ==> Shape(P, o.value)
  {
    if c.packet.None? then Ok(s.(mc := s.mc.(queue := c.queue)))
    else
      var p := c.packet.value;
      if s.mc.cmd.Some? then Exit(CommandBusCollision)
      else
        var mc1 := s.mc.(queue := c.queue, table := IssueTable(P, p, s.mc.table, s.now), cmd := Some(p),
          cmdCyclesLeft := P.tCMD);
        var mc2 := if IsWrite(p.kind) then
                     mc1.(writePackets := mc1.writePackets + [p.(kind := DATA)],
                          writeCountdowns := mc1.writeCountdowns + [WriteLatency(P)])
                   else mc1;
        Ok(s.(mc := mc2, log := s.log.(issued := s.log.issued + [Issue(s.now, p)])))
  }

  function IssueCommand(P: Params, s: System): (o: Outcome<System>)
    requires ValidParams(P) && Shape(P, s)
    ensures o.Ok? ==> Shape(P, o.value)
  {
    Dispatch(P, s, Pop(P, s.mc.table, s.mc.queue, s.now))
  }

  function SlotOf(P: Params, address: nat): Slot { Slot(P.locate(address).rank, P.locate(address).bank) }

  function ActivateFor(P: Params, t: Transaction): Packet
  {
    var l := P.locate(t.address);
    Packet(ACTIVATE, t.address, l.row, l.rank, l.bank, t.seqno)
  }

  function ColumnKind(P: Params, isRead: bool): Kind
  {
    if isRead then (if P.closePage then READ_P else READ) else (if P.closePage then WRITE_P else WRITE)
  }

  function ColumnFor(P: Params, t: Transaction): Packet
  {
    ActivateFor(P, t).(kind := ColumnKind(P, t.isRead))
  }

  // The first queued transaction with room for its two commands, or the queue's length.
  function NextToSplit(P: Params, Q: QueueState, ts: seq<Transaction>, from: nat): (i: nat)
    requires ValidParams(P) && QueueShape(P, Q) && from <= |ts|
    ensures from <= i <= |ts|
    ensures forall j :: from <= j < i ==> !HasRoomFor(P, Q, 2, SlotOf(P, ts[j].address))
    ensures i < |ts| ==> HasRoomFor(P, Q, 2, SlotOf(P, ts[i].address))
    decreases |ts| - from
  {
    if from == |ts| || HasRoomFor(P, Q, 2, SlotOf(P, ts[from].address)) then from else NextToSplit(P, Q, ts, from + 1)
  }

  function SplitTransaction(P: Params, s: System): (o: Outcome<System>)
    requires ValidParams(P) && Shape(P, s)
    ensures o.Ok? ==> Shape(P, o.value)
  {
    var i := NextToSplit(P, s.mc.queue, s.mc.transactions, 0);
    if i == |s.mc.transactions| then Ok(s)
    else
      var t := s.mc.transactions[i];
      var q := GetQueue(P, s.mc.queue, SlotOf(P, t.address));
      if |q| + 2 > P.queueDepth then Exit(QueueOverflow)
      else
        Ok(s.(mc := s.mc.(
          transactions := RemoveAt(s.mc.transactions, i),
          queue := SetQueue(P, s.mc.queue, SlotOf(P, t.address), q + [ActivateFor(P, t), ColumnFor(P, t)]),
          pendingReads := s.mc.pendingReads + (if t.isRead then [t] else []))))
  }

  predicate QueueEmpty(P: Params, Q: QueueState, r: nat)
    requires QueueShape(P, Q) && r < P.ranks
  {
    forall x :: 0 <= x < QueuesPerRank(P) ==> Q.queues[r][x] == []
  }

  datatype PowerMove = Stay | GoDown | GoUp

  function PowerDecision(P: Params, s: System, r: nat): PowerMove
    requires ValidParams(P) && Shape(P, s) && r < P.ranks
  {
    if !P.lowPower then Stay
    else if QueueEmpty(P, s.mc.queue, r) && !s.ranks[r].refreshWaiting then
      if forall b :: 0 <= b < P.banks ==> s.mc.table[r][b].status == Idle then GoDown else Stay
    else if s.mc.table[r][0].nextPowerUp <= s.now && s.mc.powerDown[r] then GoUp
    else Stay
  }

  function PowerTableRow(P: Params, m: PowerMove, row: seq<BankState>, now: nat): (u: seq<BankState>)
    ensures |u| == |row|
  {
    match m
    case Stay => row
    case GoDown => seq(|row|, b requires 0 <= b < |row| => row[b].(status := PowerDown, nextPowerUp := now + P.tCKE))
    case GoUp => seq(|row|, b requires 0 <= b < |row| => row[b].(status := Idle, nextActivate := now + P.tXP))
  }

  function PowerDevice(P: Params, m: PowerMove, d: RankState, now: nat): RankState
  {
    match m
    case Stay => d
    case GoDown => EnterPowerDown(P, d, now)
    case GoUp => LeavePowerDown(P, d, now)
  }

  function ManagePower(P: Params, s: System): (o: Outcome<System>)
    requires ValidParams(P) && Shape(P, s)
    ensures o.Ok? ==> Shape(P, o.value)
  {
    if exists r: nat :: r < P.ranks && PowerDecision(P, s, r) == GoDown && !CanPowerDown(s.ranks[r]) then
      Exit(IllegalPowerDown)
    else if exists r: nat :: r < P.ranks && PowerDecision(P, s, r) == GoUp && !CanPowerUp(s.ranks[r], s.now) then
      Exit(IllegalPowerUp)
    else
      Ok(s.(mc := s.mc.(
              table := seq(P.ranks,
                r requires 0 <= r < P.ranks => PowerTableRow(P, PowerDecision(P, s, r), s.mc.table[r], s.now)),
              powerDown := seq(P.ranks, r requires 0 <= r < P.ranks =>
                var m := PowerDecision(P, s, r); if m == Stay then s.mc.powerDown[r] else m == GoDown)),
            ranks := seq(P.ranks,
              r requires 0 <= r < P.ranks => PowerDevice(P, PowerDecision(P, s, r), s.ranks[r], s.now))))
  }

  function FirstPending(pend: seq<Transaction>, address: nat, from: nat): (i: nat)
    requires from <= |pend|
    ensures from <= i <= |pend|
    ensures forall j :: from <= j < i ==> pend[j].address != address
    ensures i < |pend| ==> pend[i].address == address
    decreases |pend| - from
  {
    if from == |pend| || pend[from].address == address then from else FirstPending(pend, address, from + 1)
  }

  function ReturnRead(P: Params, s: System): (o: Outcome<System>)
    requires Shape(P, s)
    ensures o.Ok? ==> Shape(P, o.value)
  {
    if s.mc.readData == [] then Ok(s)
    else
      var pend := s.mc.pendingReads;
      var i := FirstPending(pend, s.mc.readData[0], 0);
      if i == |pend| then Exit(NoMatchingRead)
      else Ok(s.(mc := s.mc.(pendingReads := RemoveAt(pend, i), readData := s.mc.readData[1..]),
                 log := s.log.(returned := s.log.returned + [pend[i].address])))
  }

  function EndCycle(P: Params, s: System): (u: System)
    requires Shape(P, s)
    ensures Shape(P, u)
  {
    s.(mc := s.mc.(refreshCountdown := DecAll(s.mc.refreshCountdown)), now := s.now + 1)
  }

  function CountDown(P: Params, s: System): (u: System)
    requires Shape(P, s)
    ensures Shape(P, u)
  {
    s.(mc := s.mc.(table := CountDownTable(P, s.mc.table)))
  }

  // Everything that happens on the buses before the next command is chosen.
  function Settle(P: Params, s: System): (o: Outcome<System>)
    requires ValidParams(P) && Shape(P, s)
    ensures o.Ok? ==> Shape(P, o.value)
  {
    var s0 :- TickRanks(P, s);
    var s1 :- CommandBus(P, CountDown(P, s0));
    SendWriteData(P, DataBus(P, s1))
  }

  // A cycle up to and including the issue of a command.
  function ThroughIssue(P: Params, s: System): (o: Outcome<System>)
    requires ValidParams(P) && Shape(P, s)
    ensures o.Ok? ==> Shape(P, o.value)
  {
    var s2 :- Settle(P, s);
    IssueCommand(P, RefreshTimer(P, s2))
  }

  // What a cycle does after that.
  function AfterIssue(P: Params, s: System): (o: Outcome<System>)
    requires ValidParams(P) && Shape(P, s)
    ensures o.Ok? ==> Shape(P, o.value)
  {
    var s4 :- SplitTransaction(P, s);
    var s5 :- ManagePower(P, s4);
    var s6 :- ReturnRead(P, s5);
    Ok(EndCycle(P, s6))
  }

  // `MemorySystem::update()`: ranks first, then the controller, then the clock.
  function Update(P: Params, s: System): (o: Outcome<System>)
    requires ValidParams(P) && Shape(P, s)
    ensures o.Ok? ==> Shape(P, o.value)
  {
    var s3 :- ThroughIssue(P, s);
    AfterIssue(P, s3)
  }

  // `MemoryController::addTransaction`: dropped when the transaction queue is full.
  function Accept(P: Params, s: System, isRead: bool, address: nat): (u: System)
    requires Shape(P, s)
    ensures Shape(P, u)
  {
    if |s.mc.transactions| < P.transDepth then
      var t := Transaction(isRead, address, |s.log.accepted|);
      s.(mc := s.mc.(transactions := s.mc.transactions + [t]), log := s.log.(accepted := s.log.accepted + [t]))
    else s
  }

  // What the outside world may do between two cycles, and the cycle itself.
  datatype Action = Request(isRead: bool, address: nat) | Cycle

  function Step(P: Params, s: System, a: Action): (o: Outcome<System>)
    requires ValidParams(P) && Shape(P, s)
    ensures o.Ok? ==> Shape(P, o.value)
  {
    match a
    case Request(isRead, address) => Ok(Accept(P, s, isRead, address))
    case Cycle => Update(P, s)
  }

  lemma InitShape(P: Params)
    requires ValidParams(P)
    ensures Shape(P, Init(P))
  {
    InitQueueShape(P);
  }

  function RunFrom(P: Params, s: System, actions: seq<Action>): (o: Outcome<System>)
    requires ValidParams(P) && Shape(P, s)
    ensures o.Ok? ==> Shape(P, o.value)
    decreases |actions|
  {
    if actions == [] then Ok(s)
    else
      var u :- Step(P, s, actions[0]);
      RunFrom(P, u, actions[1..])
  }

  // A run is any interleaving of requests and cycles from the initial state.
  function Run(P: Params, actions: seq<Action>): (o: Outcome<System>)
    requires ValidParams(P)
    ensures o.Ok? ==> Shape(P, o.value)
  {
    InitShape(P);
    RunFrom(P, Init(P), actions)
  }
}
