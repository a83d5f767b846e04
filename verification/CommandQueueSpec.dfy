/** What one `pop()` of the command queue chooses and how it changes the queue. */
module CommandQueueSpec {
  import opened Basics
  import opened DramTypes

  type Table = seq<seq<BankState>>

  datatype QueueState = QueueState(
    queues: seq<seq<seq<Packet>>>,
    nextRank: nat, nextBank: nat, nextRankPRE: nat, nextBankPRE: nat,
    refreshRank: nat, refreshWaiting: bool, sendAct: bool,
    faw: seq<seq<nat>>, rowAccess: seq<seq<nat>>)

  datatype Slot = Slot(rank: nat, bank: nat)

  ghost predicate TableShape(P: Params, T: Table)
  {
    |T| == P.ranks && forall r :: 0 <= r < P.ranks ==> |T[r]| == P.banks
  }

  function QueuesPerRank(P: Params): nat { if P.perBank then P.banks else 1 }

  function QueueIndex(P: Params, bank: nat): nat { if P.perBank then bank else 0 }

  predicate InRange(P: Params, s: Slot) { s.rank < P.ranks && s.bank < P.banks }

  ghost predicate QueueShape(P: Params, Q: QueueState)
  {
    && |Q.queues| == |Q.faw| == |Q.rowAccess| == P.ranks
    && (forall r :: 0 <= r < P.ranks ==> |Q.queues[r]| >= QueuesPerRank(P) && |Q.rowAccess[r]| == P.banks)
    && InRange(P, Slot(Q.nextRank, Q.nextBank)) && InRange(P, Slot(Q.nextRankPRE, Q.nextBankPRE))
    && (Q.refreshWaiting ==> Q.refreshRank < P.ranks)
  }

  // The constructor pushes each new per-bank queue onto one shared list, so
  // rank r ends up with (r + 1) times as many queues as it uses.
  function InitQueue(P: Params): QueueState
  {
    QueueState(seq(P.ranks, r requires 0 <= r < P.ranks => seq((r + 1) * QueuesPerRank(P), x => [])), 0, 0, 0, 0, 0,
      false, true,
               seq(P.ranks, r => []), seq(P.ranks, r => seq(P.banks, b => 0)))
  }

  lemma Grows(r: nat, n: nat)
    ensures (r + 1) * n >= n
  {
    assert (r + 1) * n == r * n + n;
  }

  lemma InitQueueShape(P: Params)
    requires ValidParams(P)
    ensures QueueShape(P, InitQueue(P))
  {
    var Q := InitQueue(P);
    forall r | 0 <= r < P.ranks ensures |Q.queues[r]| >= QueuesPerRank(P) {
      assert |Q.queues[r]| == (r + 1) * QueuesPerRank(P);
      Grows(r, QueuesPerRank(P));
    }
  }

  // Which packets a queue may hold: activates and column accesses of the page policy in force.
  predicate QueuedKind(P: Params, k: Kind)
  {
    k == ACTIVATE || (if P.closePage then k == READ_P || k == WRITE_P else k == READ || k == WRITE)
  }

  ghost predicate Routed(P: Params, Q: QueueState)
    requires QueueShape(P, Q)
  {
    forall r, x, i :: 0 <= r < P.ranks && 0 <= x < |Q.queues[r]| && 0 <= i < |Q.queues[r][x]| ==>
      var p := Q.queues[r][x][i];
      p.rank == r && p.bank < P.banks && x == QueueIndex(P, p.bank) && QueuedKind(P, p.kind)
  }

  function GetQueue(P: Params, Q: QueueState, s: Slot): seq<Packet>
    requires ValidParams(P) && QueueShape(P, Q) && InRange(P, s)
  {
    Q.queues[s.rank][QueueIndex(P, s.bank)]
  }

  function SetQueue(P: Params, Q: QueueState, s: Slot, q: seq<Packet>): (R: QueueState)
    requires ValidParams(P) && QueueShape(P, Q) && InRange(P, s)
    ensures QueueShape(P, R)
  {
    Q.(queues := Q.queues[s.rank := Q.queues[s.rank][QueueIndex(P, s.bank) := q]])
  }

  function SetRowAccess(P: Params, Q: QueueState, s: Slot, n: nat): (R: QueueState)
    requires QueueShape(P, Q) && InRange(P, s)
    ensures QueueShape(P, R)
  {
    var row: seq<nat> := Q.rowAccess[s.rank][s.bank := n];
    Q.(rowAccess := Q.rowAccess[s.rank := row])
  }

  predicate IsIssuable(P: Params, T: Table, Q: QueueState, p: Packet, now: nat)
    requires TableShape(P, T) && QueueShape(P, Q)
  {
    InRange(P, Slot(p.rank, p.bank)) &&
    var b := T[p.rank][p.bank];
    match p.kind
    case ACTIVATE => (b.status == Idle || b.status == Refreshing) && b.nextActivate <= now && |Q.faw[p.rank]| < 4
    case WRITE | WRITE_P =>
      b.status == RowActive && b.nextWrite <= now && p.row == b.openRow
      && Q.rowAccess[p.rank][p.bank] < P.totalRowAccesses
    case READ | READ_P =>
      b.status == RowActive && b.nextRead <= now && p.row == b.openRow
      && Q.rowAccess[p.rank][p.bank] < P.totalRowAccesses
    case PRECHARGE => b.status == RowActive && b.nextPrecharge <= now
    case REFRESH | DATA => false
  }

  // A column access directly behind its own, still queued, activate.
  predicate BehindOwnActivate(q: seq<Packet>, i: nat)
    requires i < |q|
  {
    i > 0 && q[i - 1].kind == ACTIVATE && q[i - 1].address == q[i].address
  }

  // An earlier column access to the same bank and row.
  predicate HasEarlierAccess(q: seq<Packet>, i: nat)
    requires i < |q|
  {
    exists j :: 0 <= j < i && q[j].kind != ACTIVATE && q[j].bank == q[i].bank && q[j].row == q[i].row
  }

  predicate Eligible(P: Params, T: Table, Q: QueueState, q: seq<Packet>, i: nat, now: nat)
    requires TableShape(P, T) && QueueShape(P, Q)
  {
    && i < |q| && IsIssuable(P, T, Q, q[i], now)
    && (if P.closePage then
          if P.perBank then i == 0 else !BehindOwnActivate(q, i)
        else !HasEarlierAccess(q, i))
  }

  function FirstEligible(P: Params, T: Table, Q: QueueState, q: seq<Packet>, from: nat, now: nat): (i: nat)
    requires TableShape(P, T) && QueueShape(P, Q) && from <= |q|
    ensures from <= i <= |q|
    ensures forall j: nat :: from <= j < i ==> !Eligible(P, T, Q, q, j, now)
    ensures i < |q| ==> Eligible(P, T, Q, q, i, now)
    decreases |q| - from
  {
    if from == |q| || Eligible(P, T, Q, q, from, now) then from else FirstEligible(P, T, Q, q, from + 1, now)
  }

  // The entry a queue offers this cycle, or the queue's length.
  function Offer(P: Params, T: Table, Q: QueueState, s: Slot, now: nat): (i: nat)
    requires ValidParams(P) && TableShape(P, T) && QueueShape(P, Q) && InRange(P, s)
    ensures i <= |GetQueue(P, Q, s)|
  {
    var q := GetQueue(P, Q, s);
    if s.rank == Q.refreshRank && Q.refreshWaiting then |q| else FirstEligible(P, T, Q, q, 0, now)
  }

  predicate Offers(P: Params, T: Table, Q: QueueState, s: Slot, now: nat)
    requires ValidParams(P) && TableShape(P, T) && QueueShape(P, Q) && InRange(P, s)
  {
    Offer(P, T, Q, s, now) < |GetQueue(P, Q, s)|
  }

  function NextRankAndBank(P: Params, s: Slot): (n: Slot)
    requires InRange(P, s)
    ensures InRange(P, n)
  {
    if P.rankFirst then
      if s.rank + 1 != P.ranks then Slot(s.rank + 1, s.bank)
      else Slot(0, if s.bank + 1 == P.banks then 0 else s.bank + 1)
    else
      if s.bank + 1 != P.banks then Slot(s.rank, s.bank + 1)
      else Slot(if s.rank + 1 == P.ranks then 0 else s.rank + 1, 0)
  }

  // The step of the issue scan: whole ranks when there is one queue per rank.
  function ScanStep(P: Params, s: Slot): (n: Slot)
    requires ValidParams(P) && InRange(P, s)
    ensures InRange(P, n)
  {
    if P.perBank then NextRankAndBank(P, s) else Slot((s.rank + 1) % P.ranks, s.bank)
  }

  function Scan(P: Params, s: Slot, k: nat): (n: Slot)
    requires ValidParams(P) && InRange(P, s)
    ensures InRange(P, n)
  {
    if k == 0 then s else ScanStep(P, Scan(P, s, k - 1))
  }

  function ScanLength(P: Params): nat { if P.perBank then P.ranks * P.banks else P.ranks }

  function Walk(P: Params, s: Slot, k: nat): (n: Slot)
    requires InRange(P, s)
    ensures InRange(P, n)
  {
    if k == 0 then s else NextRankAndBank(P, Walk(P, s, k - 1))
  }

  predicate Closable(P: Params, T: Table, Q: QueueState, s: Slot, now: nat)
    requires ValidParams(P) && TableShape(P, T) && QueueShape(P, Q) && InRange(P, s)
  {
    var b := T[s.rank][s.bank];
    var q := GetQueue(P, Q, s);
    && b.status == RowActive
    && ((forall i :: 0 <= i < |q| ==> !(q[i].bank == s.bank && q[i].row == b.openRow))
        || Q.rowAccess[s.rank][s.bank] == P.totalRowAccesses)
    && b.nextPrecharge <= now
  }

  datatype RefreshMove = NoMove | SendRefresh | SendColumn(bank: nat, index: nat) | SendPrecharge(bank: nat)

  predicate Blocks(m: BankState, now: nat) { m.status == RowActive || m.nextActivate > now }

  // First bank of the refreshing rank that is open or too early to refresh.
  function BlockingBank(row: seq<BankState>, from: nat, now: nat): (b: nat)
    requires from <= |row|
    ensures from <= b <= |row|
    ensures forall i :: from <= i < b ==> !Blocks(row[i], now)
    ensures b < |row| ==> Blocks(row[b], now)
    decreases |row| - from
  {
    if from == |row| || Blocks(row[from], now) then from else BlockingBank(row, from + 1, now)
  }

  function FirstToRow(q: seq<Packet>, bank: nat, row: nat, from: nat): (j: nat)
    requires from <= |q|
    ensures from <= j <= |q|
    ensures forall i :: from <= i < j ==> !(q[i].bank == bank && q[i].row == row)
    ensures j < |q| ==> q[j].bank == bank && q[j].row == row
    decreases |q| - from
  {
    if from == |q| || (q[from].bank == bank && q[from].row == row) then from else FirstToRow(q, bank, row, from + 1)
  }

  function RefreshPlan(P: Params, T: Table, Q: QueueState, now: nat): (m: RefreshMove)
    requires ValidParams(P) && TableShape(P, T) && QueueShape(P, Q) && Q.refreshWaiting
    ensures m.SendColumn? ==> m.bank < P.banks && m.index < |GetQueue(P, Q, Slot(Q.refreshRank, m.bank))|
    ensures m.SendPrecharge? ==> m.bank < P.banks
  {
    var row := T[Q.refreshRank];
    var b := BlockingBank(row, 0, now);
    if b == P.banks then (if row[0].status != PowerDown then SendRefresh else NoMove)
    else if row[b].status != RowActive then NoMove
    else
      var q := GetQueue(P, Q, Slot(Q.refreshRank, b));
      var j := FirstToRow(q, b, row[b].openRow, 0);
      if j < |q| && q[j].kind != ACTIVATE then
        if IsIssuable(P, T, Q, q[j], now) then SendColumn(b, j) else NoMove
      else if !P.closePage && row[b].nextPrecharge <= now then SendPrecharge(b)
      else NoMove
  }

  function TickFaw(counters: seq<nat>): seq<nat>
  {
    var d := DecAll(counters);
    if |d| > 0 && d[0] == 0 then d[1..] else d
  }

  // Taking entry i out of the queue of slot s.
  function Take(P: Params, Q: QueueState, s: Slot, i: nat): (R: QueueState)
    requires ValidParams(P) && QueueShape(P, Q) && InRange(P, s) && i < |GetQueue(P, Q, s)|
    requires InRange(P, Slot(GetQueue(P, Q, s)[i].rank, GetQueue(P, Q, s)[i].bank))
    ensures QueueShape(P, R)
  {
    var q := GetQueue(P, Q, s);
    var p := q[i];
    if !P.closePage && i > 0 && q[i - 1].kind == ACTIVATE then
      SetRowAccess(P, SetQueue(P, Q, s, q[..i - 1] + q[i + 1..]), Slot(p.rank, p.bank), Q.rowAccess[p.rank][p.bank] + 1)
    else SetQueue(P, Q, s, RemoveAt(q, i))
  }

  datatype Popped = Popped(queue: QueueState, packet: Option<Packet>)

  // First stop of the issue scan, counted from step k, at which a queue offers an entry.
  function FirstOffering(P: Params, T: Table, Q: QueueState, start: Slot, k: nat, now: nat): (r: nat)
    requires ValidParams(P) && TableShape(P, T) && QueueShape(P, Q) && InRange(P, start) && k <= ScanLength(P)
    ensures k <= r <= ScanLength(P)
    ensures forall j: nat :: k <= j < r ==> !Offers(P, T, Q, Scan(P, start, j), now)
    ensures r < ScanLength(P) ==> Offers(P, T, Q, Scan(P, start, r), now)
    decreases ScanLength(P) - k
  {
    if k == ScanLength(P) || Offers(P, T, Q, Scan(P, start, k), now) then k
    else FirstOffering(P, T, Q, start, k + 1, now)
  }

  function FirstClosable(P: Params, T: Table, Q: QueueState, start: Slot, k: nat, now: nat): (r: nat)
    requires ValidParams(P) && TableShape(P, T) && QueueShape(P, Q) && InRange(P, start) && k <= P.ranks * P.banks
    ensures k <= r <= P.ranks * P.banks
    ensures forall j: nat :: k <= j < r ==> !Closable(P, T, Q, Walk(P, start, j), now)
    ensures r < P.ranks * P.banks ==> Closable(P, T, Q, Walk(P, start, r), now)
    decreases P.ranks * P.banks - k
  {
    if k == P.ranks * P.banks || Closable(P, T, Q, Walk(P, start, k), now) then k
    else FirstClosable(P, T, Q, start, k + 1, now)
  }

  function PopInOrder(P: Params, T: Table, Q: QueueState, now: nat): (r: Popped)
    requires ValidParams(P) && TableShape(P, T) && QueueShape(P, Q)
    ensures QueueShape(P, r.queue)
    ensures r.packet.Some? ==> InRange(P, Slot(r.packet.value.rank, r.packet.value.bank))
  {
    var start := Slot(Q.nextRank, Q.nextBank);
    var k := FirstOffering(P, T, Q, start, 0, now);
    if k < ScanLength(P) then
      var s := Scan(P, start, k);
      var i := Offer(P, T, Q, s, now);
      Popped(Take(P, Q.(nextRank := s.rank, nextBank := s.bank), s, i), Some(GetQueue(P, Q, s)[i]))
    else if P.closePage then Popped(Q, None)
    else
      var startPRE := Slot(Q.nextRankPRE, Q.nextBankPRE);
      var j := FirstClosable(P, T, Q, startPRE, 0, now);
      if j < P.ranks * P.banks then
        var s := Walk(P, startPRE, j);
        Popped(SetRowAccess(P, Q, s, 0).(nextRankPRE := s.rank, nextBankPRE := s.bank),
               Some(Packet(PRECHARGE, 0, 0, s.rank, s.bank, 0)))
      else Popped(Q, None)
  }

  // Refresh work first, then the round-robin scan, then closing idle rows.
  function Choose(P: Params, T: Table, Q: QueueState, now: nat): (r: Popped)
    requires ValidParams(P) && TableShape(P, T) && QueueShape(P, Q)
    ensures QueueShape(P, r.queue)
    ensures r.packet.Some? ==> InRange(P, Slot(r.packet.value.rank, r.packet.value.bank))
  {
    var move := if Q.refreshWaiting then RefreshPlan(P, T, Q, now) else NoMove;
    match move
    case NoMove => PopInOrder(P, T, Q, now)
    case SendRefresh =>
      Popped(Q.(refreshRank := NO_RANK, refreshWaiting := false), Some(Packet(REFRESH, 0, 0, Q.refreshRank, 0, 0)))
    case SendColumn(b, j) =>
      var s := Slot(Q.refreshRank, b);
      var q := GetQueue(P, Q, s);
      Popped(SetQueue(P, Q, s, RemoveAt(q, j)), Some(q[j]))
    case SendPrecharge(b) =>
      Popped(SetRowAccess(P, Q, Slot(Q.refreshRank, b), 0), Some(Packet(PRECHARGE, 0, 0, Q.refreshRank, b, 0)))
  }

  // Bookkeeping after a successful choice: posted-CAS flag, round-robin index, activation window.
  function Finish(P: Params, Q: QueueState, p: Packet): (R: QueueState)
    requires QueueShape(P, Q) && p.rank < P.ranks
    ensures QueueShape(P, R)
  {
    var Q1 := if P.AL > 0 && Q.sendAct then Q.(sendAct := false)
              else var n := NextRankAndBank(P, Slot(Q.nextRank, Q.nextBank));
                   Q.(sendAct := true, nextRank := n.rank, nextBank := n.bank);
    if p.kind == ACTIVATE then Q1.(faw := Q1.faw[p.rank := Q1.faw[p.rank] + [P.tFAW]]) else Q1
  }

  function Pop(P: Params, T: Table, Q: QueueState, now: nat): (r: Popped)
    requires ValidParams(P) && TableShape(P, T) && QueueShape(P, Q)
    ensures QueueShape(P, r.queue)
    ensures r.packet.Some? ==> InRange(P, Slot(r.packet.value.rank, r.packet.value.bank))
  {
    var Q0 := Q.(faw := seq(|Q.faw|, i requires 0 <= i < |Q.faw| => TickFaw(Q.faw[i])));
    var c := Choose(P, T, Q0, now);
    if c.packet.Some? then Popped(Finish(P, c.queue, c.packet.value), c.packet) else c
  }

  predicate HasRoomFor(P: Params, Q: QueueState, n: nat, s: Slot)
    requires ValidParams(P) && QueueShape(P, Q) && InRange(P, s)
  {
    var size := |GetQueue(P, Q, s)|;
    // CMD_QUEUE_DEPTH - size() is unsigned: an overfull queue would wrap to a huge room.
    size > P.queueDepth || P.queueDepth - size >= n
  }
}
