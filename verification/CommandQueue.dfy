/** The command queue object, scanning its queues with the loops of the source. */
module CommandQueueObject {
  import opened Basics
  import opened DramTypes
  import opened CommandQueueSpec
  import opened RoundRobin

  // The bank table is one array shared by the controller and its command queue.
  ghost function TableOf(a: array2<BankState>): (T: Table)
    reads a
    ensures |T| == a.Length0
    ensures forall r :: 0 <= r < a.Length0 ==> |T[r]| == a.Length1 && forall b :: 0 <= b < a.Length1 ==>
      T[r][b] == a[r, b]
  {
    seq(a.Length0,
      r requires 0 <= r < a.Length0 reads a => seq(a.Length1, b requires 0 <= b < a.Length1 reads a => a[r, b]))
  }

  class CommandQueue {
    const P: Params
    const bankStates: array2<BankState>
    var currentClockCycle: nat
    var queues: seq<seq<seq<Packet>>>
    var nextRank: nat
    var nextBank: nat
    var nextRankPRE: nat
    var nextBankPRE: nat
    var refreshRank: nat
    var refreshWaiting: bool
    var sendAct: bool
    var tFAWCountdown: seq<seq<nat>>
    var rowAccessCounters: seq<seq<nat>>

    ghost function State(): QueueState
      reads this
    {
      QueueState(queues, nextRank, nextBank, nextRankPRE, nextBankPRE, refreshRank, refreshWaiting, sendAct,
        tFAWCountdown, rowAccessCounters)
    }

    ghost predicate Valid()
      reads this
    {
      ValidParams(P) && bankStates.Length0 == P.ranks && bankStates.Length1 == P.banks && QueueShape(P, State())
    }

    ghost function T(): (t: Table)
      requires Valid()
      reads this, bankStates
      ensures TableShape(P, t)
    {
      TableOf(bankStates)
    }

    // The list of one rank's queues is never cleared between ranks, so later ranks get longer lists.
    constructor (P: Params, bankStates: array2<BankState>)
      requires ValidParams(P) && bankStates.Length0 == P.ranks && bankStates.Length1 == P.banks
      ensures Valid() && this.P == P && this.bankStates == bankStates && currentClockCycle == 0
      ensures State() == InitQueue(P)
      ensures nextRank == nextBank == nextRankPRE == nextBankPRE == 0 && !refreshWaiting && sendAct
    {
      this.P, this.bankStates := P, bankStates;
      currentClockCycle := 0;
      nextRank, nextBank, nextRankPRE, nextBankPRE := 0, 0, 0, 0;
      refreshRank, refreshWaiting, sendAct := 0, false, true;
      tFAWCountdown := seq(P.ranks, r => []);
      rowAccessCounters := seq(P.ranks, r => seq(P.banks, b => 0));
      var numBankQueues := if P.perBank then P.banks else 1;
      var perBankQueue: seq<seq<Packet>>, all: seq<seq<seq<Packet>>> := [], [];
      for rank := 0 to P.ranks
        invariant |all| == rank && perBankQueue == seq(rank * numBankQueues, x => [])
        invariant forall r :: 0 <= r < rank ==> all[r] == InitQueue(P).queues[r]
      {
        for bank := 0 to numBankQueues
          invariant perBankQueue == seq(rank * numBankQueues + bank, x => [])
        {
          perBankQueue := perBankQueue + [[]];
        }
        assert (rank + 1) * numBankQueues == rank * numBankQueues + numBankQueues;
        all := all + [perBankQueue];
      }
      queues := all;
      InitQueueShape(P);
    }

    function GetCommandQueue(rank: nat, bank: nat): (q: seq<Packet>)
      requires Valid() && rank < P.ranks && bank < P.banks
      reads this
      ensures q == GetQueue(P, State(), Slot(rank, bank))
    {
      if P.perBank then queues[rank][bank] else queues[rank][0]
    }

    predicate Issuable(p: Packet)
      requires Valid() && p.rank < P.ranks && p.bank < P.banks
      reads this, bankStates
      ensures Issuable(p) == IsIssuable(P, T(), State(), p, currentClockCycle)
    {
      var b := bankStates[p.rank, p.bank];
      match p.kind
      case ACTIVATE =>
        (b.status == Idle || b.status == Refreshing) && currentClockCycle >= b.nextActivate
          && |tFAWCountdown[p.rank]| < 4
      case WRITE | WRITE_P =>
        b.status == RowActive && currentClockCycle >= b.nextWrite && p.row == b.openRow
        && rowAccessCounters[p.rank][p.bank] < P.totalRowAccesses
      case READ | READ_P =>
        b.status == RowActive && currentClockCycle >= b.nextRead && p.row == b.openRow
        && rowAccessCounters[p.rank][p.bank] < P.totalRowAccesses
      case PRECHARGE => b.status == RowActive && currentClockCycle >= b.nextPrecharge
      case REFRESH | DATA => false
    }

    method NeedRefresh(rank: nat)
      requires Valid() && rank < P.ranks
      modifies this
      ensures Valid() && State() == old(State()).(refreshWaiting := true, refreshRank := rank)
      ensures currentClockCycle == old(currentClockCycle)
    {
      refreshWaiting := true;
      refreshRank := rank;
    }

    predicate HasRoom(n: nat, rank: nat, bank: nat)
      requires Valid() && rank < P.ranks && bank < P.banks
      reads this
      ensures HasRoom(n, rank, bank) == HasRoomFor(P, State(), n, Slot(rank, bank))
    {
      var size := |GetCommandQueue(rank, bank)|;
      size > P.queueDepth || P.queueDepth - size >= n
    }

    method IsEmpty(rank: nat) returns (empty: bool)
      requires Valid() && rank < P.ranks
      ensures empty == forall x :: 0 <= x < QueuesPerRank(P) ==> queues[rank][x] == []
    {
      if !P.perBank { return queues[rank][0] == []; }
      for i := 0 to P.banks
        invariant forall x :: 0 <= x < i ==> queues[rank][x] == []
      {
        if queues[rank][i] != [] { return false; }
      }
      empty := true;
    }

    // `false` is the overflow exit.
    method Enqueue(p: Packet) returns (ok: bool)
      requires Valid() && p.rank < P.ranks && p.bank < P.banks
      modifies this
      ensures Valid() && currentClockCycle == old(currentClockCycle)
      ensures State()
        == SetQueue(P, old(State()), Slot(p.rank, p.bank), GetQueue(P, old(State()), Slot(p.rank, p.bank)) + [p])
      ensures ok == (|GetQueue(P, State(), Slot(p.rank, p.bank))| <= P.queueDepth)
    {
      var x := if P.perBank then p.bank else 0;
      queues := queues[p.rank := queues[p.rank][x := queues[p.rank][x] + [p]]];
      ok := |queues[p.rank][x]| <= P.queueDepth;
    }

    // `nextRankAndBank`, as arithmetic on two indices.
    method NextIndices(rank: nat, bank: nat) returns (r: nat, b: nat)
      requires Valid() && rank < P.ranks && bank < P.banks
      ensures Slot(r, b) == NextRankAndBank(P, Slot(rank, bank))
    {
      r, b := rank, bank;
      if P.rankFirst {
        r := r + 1;
        if r == P.ranks {
          r, b := 0, b + 1;
          if b == P.banks { b := 0; }
        }
      } else {
        b := b + 1;
        if b == P.banks {
          b, r := 0, r + 1;
          if r == P.ranks { r := 0; }
        }
      }
    }

    // The activation-window bookkeeping at the head of `pop`.
    method TickWindows()
      requires Valid()
      modifies this`tFAWCountdown
      ensures Valid()
      ensures tFAWCountdown
        == seq(|old(tFAWCountdown)|, i requires 0 <= i < |old(tFAWCountdown)| => TickFaw(old(tFAWCountdown)[i]))
    {
      ghost var was := tFAWCountdown;
      for i := 0 to P.ranks
        invariant |tFAWCountdown| == P.ranks
        invariant forall k :: 0 <= k < i ==> tFAWCountdown[k] == TickFaw(was[k])
        invariant forall k :: i <= k < P.ranks ==> tFAWCountdown[k] == was[k]
      {
        var counters := tFAWCountdown[i];
        for j := 0 to |counters|
          invariant |counters| == |was[i]|
          invariant forall k :: 0 <= k < j ==> counters[k] == Dec(was[i][k])
          invariant forall k :: j <= k < |counters| ==> counters[k] == was[i][k]
        {
          counters := counters[j := Dec(counters[j])];
        }
        assert counters == DecAll(was[i]);
        if |counters| > 0 && counters[0] == 0 { counters := counters[1..]; }
        tFAWCountdown := tFAWCountdown[i := counters];
      }
    }

    // The search of one queue for the first entry that may go.
    method SearchQueue(rank: nat, bank: nat) returns (i: nat)
      requires Valid() && rank < P.ranks && bank < P.banks
      requires Routed(P, State())
      ensures i == Offer(P, T(), State(), Slot(rank, bank), currentClockCycle)
    {
      var q := GetCommandQueue(rank, bank);
      i := 0;
      if q == [] || (rank == refreshRank && refreshWaiting) { return |q|; }
      assert forall k :: 0 <= k < |q| ==> q[k].rank < P.ranks && q[k].bank < P.banks;
      if P.closePage && P.perBank {
        // If the front cannot go, nothing behind it can.
        if Issuable(q[0]) { return 0; }
        FrontOnly(q);
        return |q|;
      }
      while i < |q|
        invariant 0 <= i <= |q|
        invariant forall j: nat :: j < i ==> !Eligible(P, T(), State(), q, j, currentClockCycle)
      {
        if Issuable(q[i]) {
          var skip := false;
          if P.closePage {
            skip := i > 0 && q[i - 1].kind == ACTIVATE && q[i - 1].address == q[i].address;
          } else {
            skip := HasDependency(q, i);
          }
          if !skip {
            FirstFound(P, T(), State(), q, i, currentClockCycle);
            return;
          }
        }
        i := i + 1;
      }
      FirstFound(P, T(), State(), q, i, currentClockCycle);
    }

    lemma FrontOnly(q: seq<Packet>)
      requires Valid() && q != [] && P.closePage && P.perBank && !IsIssuable(P, T(), State(), q[0], currentClockCycle)
      ensures FirstEligible(P, T(), State(), q, 0, currentClockCycle) == |q|
    {
      forall j: nat | j < |q| ensures !Eligible(P, T(), State(), q, j, currentClockCycle) {}
      FirstFound(P, T(), State(), q, |q|, currentClockCycle);
    }

    method HasDependency(q: seq<Packet>, i: nat) returns (found: bool)
      requires i < |q|
      ensures found == HasEarlierAccess(q, i)
    {
      for j := 0 to i
        invariant forall k :: 0 <= k < j ==> !(q[k].kind != ACTIVATE && q[k].bank == q[i].bank && q[k].row == q[i].row)
      {
        if q[j].kind != ACTIVATE && q[j].bank == q[i].bank && q[j].row == q[i].row { return true; }
      }
      found := false;
    }

    // Taking entry i of the queue at the scan position, with the activate it is paired with if still there.
    method TakeEntry(i: nat) returns (p: Packet)
      requires Valid() && i < |GetQueue(P, State(), Slot(nextRank, nextBank))|
      requires var p := GetQueue(P, State(), Slot(nextRank, nextBank))[i]; p.rank < P.ranks && p.bank < P.banks
      modifies this
      ensures Valid() && currentClockCycle == old(currentClockCycle)
      ensures p == old(GetQueue(P, State(), Slot(nextRank, nextBank))[i])
      ensures State() == Take(P, old(State()), Slot(old(nextRank), old(nextBank)), i)
    {
      var q := GetCommandQueue(nextRank, nextBank);
      var x := if P.perBank then nextBank else 0;
      p := q[i];
      if !P.closePage && i > 0 && q[i - 1].kind == ACTIVATE {
        var row: seq<nat> := rowAccessCounters[p.rank][p.bank := rowAccessCounters[p.rank][p.bank] + 1];
        rowAccessCounters := rowAccessCounters[p.rank := row];
        queues := queues[nextRank := queues[nextRank][x := q[..i - 1] + q[i + 1..]]];
      } else {
        queues := queues[nextRank := queues[nextRank][x := RemoveAt(q, i)]];
      }
    }

    // One step of the issue scan; `wrapped` when it is back where it started.
    method StepScan(startingRank: nat, startingBank: nat) returns (wrapped: bool)
      requires Valid() && startingRank < P.ranks && startingBank < P.banks && (P.perBank || nextBank == startingBank)
      modifies this`nextRank, this`nextBank
      ensures Valid() && Slot(nextRank, nextBank) == ScanStep(P, Slot(old(nextRank), old(nextBank)))
      ensures State() == old(State()).(nextRank := nextRank, nextBank := nextBank)
      ensures wrapped == (Slot(nextRank, nextBank) == Slot(startingRank, startingBank))
    {
      if !P.perBank {
        nextRank := (nextRank + 1) % P.ranks;
        wrapped := startingRank == nextRank;
      } else {
        nextRank, nextBank := NextIndices(nextRank, nextBank);
        wrapped := startingRank == nextRank && startingBank == nextBank;
      }
    }

    // Searching the queue at the scan position; Q is the state the scan began in.
    method SearchHere(ghost Q: QueueState) returns (i: nat, found: bool)
      requires Valid() && QueueShape(P, Q) && Routed(P, Q) && State() == Q.(nextRank := nextRank, nextBank := nextBank)
      ensures i == Offer(P, T(), Q, Slot(nextRank, nextBank), currentClockCycle)
      ensures found == Offers(P, T(), Q, Slot(nextRank, nextBank), currentClockCycle)
    {
      MovedScan(P, T(), Q, State(), Slot(nextRank, nextBank), currentClockCycle);
      i := SearchQueue(nextRank, nextBank);
      found := i < |GetCommandQueue(nextRank, nextBank)|;
    }

    // One stop of the issue scan: the queue there offers an entry, or the position moves on.
    method OfferStep(startingRank: nat, startingBank: nat, ghost Q: QueueState, ghost start: Slot, ghost k: nat,
            ghost after: nat)
      returns (found: bool, i: nat, wrapped: bool)
      requires Valid() && QueueShape(P, Q) && Routed(P, Q) && State() == Q.(nextRank := nextRank, nextBank := nextBank)
      requires start == Slot(startingRank, startingBank) && InRange(P, start) && (P.perBank || nextBank == startingBank)
      requires k < ScanLength(P) && after == k + 1 && Slot(nextRank, nextBank) == Scan(P, start, k)
      requires NoOffers(P, T(), Q, start, k, currentClockCycle)
      modifies this`nextRank, this`nextBank
      ensures Valid() && State() == Q.(nextRank := nextRank, nextBank := nextBank)
      ensures Slot(nextRank, nextBank) == Scan(P, start, if found then k else after)
      ensures found ==> i == Offer(P, old(T()), Q, Scan(P, start, k), currentClockCycle)
      ensures found ==> FirstOffering(P, old(T()), Q, start, 0, currentClockCycle) == k
      ensures !found ==> NoOffers(P, old(T()), Q, start, after, currentClockCycle)
      ensures !found ==> wrapped == (after == ScanLength(P))
      ensures wrapped ==> !found && Slot(nextRank, nextBank) == start
    {
      wrapped := false;
      i, found := SearchHere(Q);
      if found {
        OfferFound(P, T(), Q, start, k, currentClockCycle);
      } else {
        OneMoreSilent(P, T(), Q, start, k, currentClockCycle);
        ScanReturns(P, start, after);
        wrapped := StepScan(startingRank, startingBank);
      }
    }

    // The issue scan: one full round over ranks, or over ranks and banks, from the current position.
    // It stops at the first queue with an offer, or comes back to its start.
    method FindOffer() returns (found: bool, i: nat, ghost k: nat)
      requires Valid() && Routed(P, State())
      modifies this`nextRank, this`nextBank
      ensures Valid() && State() == old(State()).(nextRank := nextRank, nextBank := nextBank)
      ensures k == FirstOffering(P, old(T()), old(State()), old(Slot(nextRank, nextBank)), 0, currentClockCycle)
      ensures found == (k < ScanLength(P))
      ensures Slot(nextRank, nextBank) == if found then Scan(P, old(Slot(nextRank, nextBank)), k)
        else old(Slot(nextRank, nextBank))
      ensures found ==> i == Offer(P, old(T()), old(State()), Slot(nextRank, nextBank), currentClockCycle)
    {
      var startingRank, startingBank := nextRank, nextBank;
      ghost var start, Q, t := Slot(nextRank, nextBank), State(), T();
      k := 0;
      ghost var n := ScanLength(P);
      SomeSlot(P);
      while true
        invariant Valid() && k < n && T() == t
        invariant State() == Q.(nextRank := nextRank, nextBank := nextBank)
        invariant Slot(nextRank, nextBank) == Scan(P, start, k)
        invariant P.perBank || nextBank == startingBank
        invariant NoOffers(P, t, Q, start, k, currentClockCycle)
        decreases n - k
      {
        ghost var after := k + 1;
        var wrapped;
        found, i, wrapped := OfferStep(startingRank, startingBank, Q, start, k, after);
        if found { return; }
        k := after;
        if wrapped {
          NothingOffered(P, t, Q, start, currentClockCycle);
          return;
        }
        SameBank(P, start, k);
      }
    }

    method ScanQueues() returns (packet: Option<Packet>)
      requires Valid() && Routed(P, State())
      modifies this
      ensures Valid() && currentClockCycle == old(currentClockCycle)
      ensures var start, Q := Slot(old(nextRank), old(nextBank)), old(State());
              var k := FirstOffering(P, old(T()), Q, start, 0, currentClockCycle);
              if k < ScanLength(P) then
                var s := Scan(P, start, k);
                var i := Offer(P, old(T()), Q, s, currentClockCycle);
                State() == Take(P, Q.(nextRank := s.rank, nextBank := s.bank), s, i)
                  && packet == Some(GetQueue(P, Q, s)[i])
              else State() == Q && packet == None
    {
      var found, i, k := FindOffer();
      packet := None;
      if found {
        var p := TakeEntry(i);
        packet := Some(p);
      }
    }

    // Whether the open row of a bank may be closed: nothing queued for it, or its access budget spent.
    method MayClose(rank: nat, bank: nat) returns (yes: bool)
      requires Valid() && rank < P.ranks && bank < P.banks
      ensures yes == Closable(P, T(), State(), Slot(rank, bank), currentClockCycle)
    {
      var q := GetCommandQueue(rank, bank);
      var b := bankStates[rank, bank];
      yes := false;
      if b.status == RowActive {
        var found := false;
        for i := 0 to |q|
          invariant !found
          invariant forall k :: 0 <= k < i ==> !(q[k].bank == bank && q[k].row == b.openRow)
        {
          if q[i].bank == bank && q[i].row == b.openRow {
            found := true;
            break;
          }
        }
        if !found || rowAccessCounters[rank][bank] == P.totalRowAccesses {
          yes := currentClockCycle >= b.nextPrecharge;
        }
      }
    }

    method MayCloseHere(ghost Q: QueueState) returns (yes: bool)
      requires Valid() && QueueShape(P, Q) && State() == Q.(nextRankPRE := nextRankPRE, nextBankPRE := nextBankPRE)
      ensures yes == Closable(P, T(), Q, Slot(nextRankPRE, nextBankPRE), currentClockCycle)
    {
      MovedClose(P, T(), Q, State(), Slot(nextRankPRE, nextBankPRE), currentClockCycle);
      yes := MayClose(nextRankPRE, nextBankPRE);
    }

    // One stop of the walk over the banks: the bank may be closed, or the position moves on.
    method CloseStep(ghost Q: QueueState, ghost start: Slot, ghost k: nat) returns (found: bool)
      requires Valid() && QueueShape(P, Q) && State() == Q.(nextRankPRE := nextRankPRE, nextBankPRE := nextBankPRE)
      requires InRange(P, start) && k < P.ranks * P.banks && Slot(nextRankPRE, nextBankPRE) == Walk(P, start, k)
      requires NoneClosable(P, T(), Q, start, k, currentClockCycle)
      modifies this`nextRankPRE, this`nextBankPRE
      ensures Valid() && State() == Q.(nextRankPRE := nextRankPRE, nextBankPRE := nextBankPRE)
      ensures Slot(nextRankPRE, nextBankPRE) == Walk(P, start, if found then k else k + 1)
      ensures found ==> FirstClosable(P, old(T()), Q, start, 0, currentClockCycle) == k
      ensures !found ==> NoneClosable(P, old(T()), Q, start, k + 1, currentClockCycle)
    {
      found := MayCloseHere(Q);
      if found {
        ClosableFound(P, T(), Q, start, k, currentClockCycle);
      } else {
        OneMoreOpen(P, T(), Q, start, k, currentClockCycle);
        nextRankPRE, nextBankPRE := NextIndices(nextRankPRE, nextBankPRE);
      }
    }

    // The search for an idle row to close, one full round over ranks and banks.
    method FindClosable() returns (found: bool, ghost k: nat)
      requires Valid()
      modifies this`nextRankPRE, this`nextBankPRE
      ensures Valid() && State() == old(State()).(nextRankPRE := nextRankPRE, nextBankPRE := nextBankPRE)
      ensures k == FirstClosable(P, old(T()), old(State()), old(Slot(nextRankPRE, nextBankPRE)), 0, currentClockCycle)
      ensures found == (k < P.ranks * P.banks)
      ensures Slot(nextRankPRE, nextBankPRE) ==
              if found then Walk(P, old(Slot(nextRankPRE, nextBankPRE)), k) else old(Slot(nextRankPRE, nextBankPRE))
    {
      var startingRank, startingBank := nextRankPRE, nextBankPRE;
      ghost var start, Q, t := Slot(nextRankPRE, nextBankPRE), State(), T();
      k, found := 0, false;
      SomeSlot(P);
      while true
        invariant Valid() && k < P.ranks * P.banks && T() == t
        invariant State() == Q.(nextRankPRE := nextRankPRE, nextBankPRE := nextBankPRE)
        invariant Slot(nextRankPRE, nextBankPRE) == Walk(P, start, k)
        invariant NoneClosable(P, t, Q, start, k, currentClockCycle)
        decreases P.ranks * P.banks - k
      {
        found := CloseStep(Q, start, k);
        if found { return; }
        k := k + 1;
        WalkReturns(P, start, k);
        if startingRank == nextRankPRE && startingBank == nextBankPRE {
          NothingClosable(P, t, Q, start, currentClockCycle);
          return;
        }
      }
    }

    method CloseIdleRow() returns (packet: Option<Packet>)
      requires Valid()
      modifies this
      ensures Valid() && currentClockCycle == old(currentClockCycle)
      ensures var start, Q := Slot(old(nextRankPRE), old(nextBankPRE)), old(State());
              var k := FirstClosable(P, old(T()), Q, start, 0, currentClockCycle);
              if k < P.ranks * P.banks then
                var s := Walk(P, start, k);
                State() == SetRowAccess(P, Q, s, 0).(nextRankPRE := s.rank, nextBankPRE := s.bank)
                && packet == Some(Packet(PRECHARGE, 0, 0, s.rank, s.bank, 0))
              else State() == Q && packet == None
    {
      var found, k := FindClosable();
      packet := None;
      if found {
        var row: seq<nat> := rowAccessCounters[nextRankPRE][nextBankPRE := 0];
        rowAccessCounters := rowAccessCounters[nextRankPRE := row];
        packet := Some(Packet(PRECHARGE, 0, 0, nextRankPRE, nextBankPRE, 0));
      }
    }

    // Everything `pop` tries when no refresh work is sent.
    method IssueInOrder() returns (packet: Option<Packet>)
      requires Valid() && Routed(P, State())
      modifies this
      ensures Valid() && currentClockCycle == old(currentClockCycle)
      ensures Popped(State(), packet) == PopInOrder(P, old(T()), old(State()), currentClockCycle)
    {
      packet := ScanQueues();
      if packet.None? && !P.closePage { packet := CloseIdleRow(); }
    }

    // The refresh half of `pop`: accesses to rows still open, then closing them, then the refresh.
    // `blocked` is the source's flag that some bank is open or too early.
    method IssueRefreshWork() returns (packet: Option<Packet>)
      requires Valid() && Routed(P, State()) && refreshWaiting
      modifies this
      ensures Valid() && currentClockCycle == old(currentClockCycle)
      ensures var Q, t := old(State()), old(T());
              if RefreshPlan(P, t, Q, currentClockCycle) == NoMove then State() == Q && packet == None
              else Popped(State(), packet) == Choose(P, t, Q, currentClockCycle)
    {
      var r := refreshRank;
      ghost var row := T()[r];
      packet := None;
      var b := 0;
      while b < P.banks && bankStates[r, b].status != RowActive && bankStates[r, b].nextActivate <= currentClockCycle
        invariant 0 <= b <= P.banks
        invariant forall k :: 0 <= k < b ==> !Blocks(row[k], currentClockCycle)
      {
        b := b + 1;
      }
      BlockingFound(row, b, currentClockCycle);
      if b == P.banks {
        if bankStates[r, 0].status != PowerDown {
          packet := Some(Packet(REFRESH, 0, 0, r, 0, 0));
          refreshRank := NO_RANK;
          refreshWaiting := false;
        }
      } else if bankStates[r, b].status == RowActive {
        packet := ServeOpenRow(r, b);
      }
    }

    method ServeOpenRow(r: nat, b: nat) returns (packet: Option<Packet>)
      requires Valid() && Routed(P, State()) && refreshWaiting && r == refreshRank && b < P.banks
      requires b == BlockingBank(T()[r], 0, currentClockCycle) && bankStates[r, b].status == RowActive
      modifies this
      ensures Valid() && currentClockCycle == old(currentClockCycle)
      ensures var Q, t := old(State()), old(T());
              if RefreshPlan(P, t, Q, currentClockCycle) == NoMove then State() == Q && packet == None
              else Popped(State(), packet) == Choose(P, t, Q, currentClockCycle)
    {
      var q := GetCommandQueue(r, b);
      var x := if P.perBank then b else 0;
      packet := None;
      var openRow := bankStates[r, b].openRow;
      var closeRow := !P.closePage;
      var j := 0;
      while j < |q| && !(q[j].row == openRow && q[j].bank == b)
        invariant 0 <= j <= |q|
        invariant forall k :: 0 <= k < j ==> !(q[k].bank == b && q[k].row == openRow)
      {
        j := j + 1;
      }
      RowFound(q, b, openRow, j);
      if j < |q| && q[j].kind != ACTIVATE {
        closeRow := false;
        assert q[j].rank < P.ranks && q[j].bank < P.banks;
        if Issuable(q[j]) {
          packet := Some(q[j]);
          queues := queues[r := queues[r][x := RemoveAt(q, j)]];
        }
      }
      if closeRow && currentClockCycle >= bankStates[r, b].nextPrecharge {
        var counters: seq<nat> := rowAccessCounters[r][b := 0];
        rowAccessCounters := rowAccessCounters[r := counters];
        packet := Some(Packet(PRECHARGE, 0, 0, r, b, 0));
      }
    }

    method ChoosePacket() returns (packet: Option<Packet>)
      requires Valid() && Routed(P, State())
      modifies this
      ensures Valid() && currentClockCycle == old(currentClockCycle)
      ensures Popped(State(), packet) == Choose(P, old(T()), old(State()), currentClockCycle)
    {
      packet := None;
      if refreshWaiting { packet := IssueRefreshWork(); }
      if packet.None? { packet := IssueInOrder(); }
    }

    // The bookkeeping after a successful choice.
    method FinishPop(p: Packet)
      requires Valid() && p.rank < P.ranks
      modifies this
      ensures Valid() && currentClockCycle == old(currentClockCycle) && State() == Finish(P, old(State()), p)
    {
      if P.AL > 0 && sendAct {
        sendAct := false;
      } else {
        sendAct := true;
        nextRank, nextBank := NextIndices(nextRank, nextBank);
      }
      if p.kind == ACTIVATE {
        tFAWCountdown := tFAWCountdown[p.rank := tFAWCountdown[p.rank] + [P.tFAW]];
      }
    }

    // `pop`, called once a cycle.
    method PopPacket() returns (packet: Option<Packet>)
      requires Valid() && Routed(P, State())
      modifies this
      ensures Valid() && currentClockCycle == old(currentClockCycle)
      ensures Popped(State(), packet) == Pop(P, old(T()), old(State()), currentClockCycle)
    {
      ghost var Q, t, now := State(), T(), currentClockCycle;
      TickWindows();
      ghost var Q0 := State();
      Ticked(P, t, Q, Q0, now);
      packet := ChoosePacket();
      if packet.Some? { FinishPop(packet.value); }
    }
  }

  // `pop` is the window bookkeeping, then the choice, then the bookkeeping of the choice.
  lemma Ticked(P: Params, T: Table, Q: QueueState, Q0: QueueState, now: nat)
    requires ValidParams(P) && TableShape(P, T) && QueueShape(P, Q) && QueueShape(P, Q0)
    requires Q0 == Q.(faw := Q0.faw)
    requires Q0.faw == seq(|Q.faw|, i requires 0 <= i < |Q.faw| => TickFaw(Q.faw[i]))
    ensures Routed(P, Q) ==> Routed(P, Q0)
    ensures var c := Choose(P, T, Q0, now);
            Pop(P, T, Q, now) == if c.packet.Some? then Popped(Finish(P, c.queue, c.packet.value), c.packet) else c
  {
  }

  // The first k stops of the issue scan offer nothing.
  ghost predicate NoOffers(P: Params, T: Table, Q: QueueState, start: Slot, k: nat, now: nat)
    requires ValidParams(P) && TableShape(P, T) && QueueShape(P, Q) && InRange(P, start)
  {
    forall j: nat :: j < k ==> !Offers(P, T, Q, Scan(P, start, j), now)
  }

  lemma OneMoreSilent(P: Params, T: Table, Q: QueueState, start: Slot, k: nat, now: nat)
    requires ValidParams(P) && TableShape(P, T) && QueueShape(P, Q) && InRange(P, start)
    requires NoOffers(P, T, Q, start, k, now) && !Offers(P, T, Q, Scan(P, start, k), now)
    ensures NoOffers(P, T, Q, start, k + 1, now)
  {
  }

  // The first k stops of the walk over the banks leave nothing to close.
  ghost predicate NoneClosable(P: Params, T: Table, Q: QueueState, start: Slot, k: nat, now: nat)
    requires ValidParams(P) && TableShape(P, T) && QueueShape(P, Q) && InRange(P, start)
  {
    forall j: nat :: j < k ==> !Closable(P, T, Q, Walk(P, start, j), now)
  }

  lemma OneMoreOpen(P: Params, T: Table, Q: QueueState, start: Slot, k: nat, now: nat)
    requires ValidParams(P) && TableShape(P, T) && QueueShape(P, Q) && InRange(P, start)
    requires NoneClosable(P, T, Q, start, k, now) && !Closable(P, T, Q, Walk(P, start, k), now)
    ensures NoneClosable(P, T, Q, start, k + 1, now)
  {
  }

  // Moving the precharge position changes no verdict on a bank.
  lemma MovedClose(P: Params, T: Table, Q: QueueState, R: QueueState, s: Slot, now: nat)
    requires ValidParams(P) && TableShape(P, T) && QueueShape(P, Q) && QueueShape(P, R) && InRange(P, s)
    requires R == Q.(nextRankPRE := R.nextRankPRE, nextBankPRE := R.nextBankPRE)
    ensures Closable(P, T, R, s, now) == Closable(P, T, Q, s, now)
  {
    assert GetQueue(P, R, s) == GetQueue(P, Q, s);
  }

  lemma ClosableFound(P: Params, T: Table, Q: QueueState, start: Slot, k: nat, now: nat)
    requires ValidParams(P) && TableShape(P, T) && QueueShape(P, Q) && InRange(P, start) && k < P.ranks * P.banks
    requires NoneClosable(P, T, Q, start, k, now)
    requires Closable(P, T, Q, Walk(P, start, k), now)
    ensures FirstClosable(P, T, Q, start, 0, now) == k
  {
  }

  lemma NothingClosable(P: Params, T: Table, Q: QueueState, start: Slot, now: nat)
    requires ValidParams(P) && TableShape(P, T) && QueueShape(P, Q) && InRange(P, start)
    requires NoneClosable(P, T, Q, start, P.ranks * P.banks, now)
    ensures FirstClosable(P, T, Q, start, 0, now) == P.ranks * P.banks
  {
  }

  lemma SameBank(P: Params, start: Slot, k: nat)
    requires ValidParams(P) && InRange(P, start) && k <= ScanLength(P)
    ensures P.perBank || Scan(P, start, k).bank == start.bank
  {
    if !P.perBank { ScanRanks(P, start, k); }
  }

  lemma SomeSlot(P: Params)
    requires ValidParams(P)
    ensures P.ranks * P.banks >= 1
  {
  }

  lemma BlockingFound(row: seq<BankState>, b: nat, now: nat)
    requires b <= |row| && (forall k :: 0 <= k < b ==> !Blocks(row[k], now)) && (b < |row| ==> Blocks(row[b], now))
    ensures BlockingBank(row, 0, now) == b
  {
  }

  lemma RowFound(q: seq<Packet>, bank: nat, row: nat, j: nat)
    requires j <= |q| && forall k :: 0 <= k < j ==> !(q[k].bank == bank && q[k].row == row)
    requires j < |q| ==> q[j].bank == bank && q[j].row == row
    ensures FirstToRow(q, bank, row, 0) == j
  {
  }

  // Moving the scan position changes no queue's offer.
  lemma MovedScan(P: Params, T: Table, Q: QueueState, R: QueueState, s: Slot, now: nat)
    requires ValidParams(P) && TableShape(P, T) && QueueShape(P, Q) && QueueShape(P, R) && InRange(P, s)
    requires R == Q.(nextRank := R.nextRank, nextBank := R.nextBank)
    ensures GetQueue(P, R, s) == GetQueue(P, Q, s) && Offer(P, T, R, s, now) == Offer(P, T, Q, s, now)
  {
    var q := GetQueue(P, Q, s);
    var f := FirstEligible(P, T, R, q, 0, now);
    forall j: nat | j < |q| ensures Eligible(P, T, R, q, j, now) == Eligible(P, T, Q, q, j, now) {}
    FirstFound(P, T, Q, q, f, now);
  }

  lemma OfferFound(P: Params, T: Table, Q: QueueState, start: Slot, k: nat, now: nat)
    requires ValidParams(P) && TableShape(P, T) && QueueShape(P, Q) && InRange(P, start) && k < ScanLength(P)
    requires NoOffers(P, T, Q, start, k, now)
    requires Offers(P, T, Q, Scan(P, start, k), now)
    ensures FirstOffering(P, T, Q, start, 0, now) == k
  {
  }

  lemma NothingOffered(P: Params, T: Table, Q: QueueState, start: Slot, now: nat)
    requires ValidParams(P) && TableShape(P, T) && QueueShape(P, Q) && InRange(P, start)
    requires NoOffers(P, T, Q, start, ScanLength(P), now)
    ensures FirstOffering(P, T, Q, start, 0, now) == ScanLength(P)
  {
  }

  // The first eligible entry is the only one with none before it.
  lemma FirstFound(P: Params, T: Table, Q: QueueState, q: seq<Packet>, i: nat, now: nat)
    requires TableShape(P, T) && QueueShape(P, Q) && i <= |q|
    requires forall j: nat :: j < i ==> !Eligible(P, T, Q, q, j, now)
    requires i < |q| ==> Eligible(P, T, Q, q, i, now)
    ensures FirstEligible(P, T, Q, q, 0, now) == i
  {
    var f := FirstEligible(P, T, Q, q, 0, now);
  }
}
