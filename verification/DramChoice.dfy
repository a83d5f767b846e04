/** Which command a `pop()` chooses: the first that can go, in the queue whose turn comes first. */
module DramChoice {
  import opened Basics
  import opened DramTypes
  import opened CommandQueueSpec
  import opened DramSafety
  import opened DramQueues
  import opened DramRuns
  import opened RoundRobin

  // Nothing in front of entry i has to go first.
  ghost predicate MyTurn(P: Params, q: seq<Packet>, i: nat)
    requires i < |q|
  {
    if !P.closePage then FirstOfRow(q, i)
    else if P.perBank then i == 0
    else i == 0 || q[i - 1].kind != ACTIVATE || q[i - 1].address != q[i].address
  }

  // Entry i of a queue can go: its bank is ready for it, its rank has had fewer than four activates in the window,
  // its row has accesses left, and it is its turn.
  ghost predicate CanGo(P: Params, T: Table, Q: QueueState, q: seq<Packet>, i: nat, now: nat)
    requires TableShape(P, T) && QueueShape(P, Q) && i < |q|
  {
    var p := q[i];
    && InRange(P, Slot(p.rank, p.bank)) && MayIssue(P, p, T[p.rank][p.bank], now) && MyTurn(P, q, i)
    && (if p.kind == ACTIVATE then |Q.faw[p.rank]| < 4 else Q.rowAccess[p.rank][p.bank] < P.totalRowAccesses)
  }

  ghost predicate NoneCanGo(P: Params, T: Table, Q: QueueState, s: Slot, now: nat)
    requires ValidParams(P) && TableShape(P, T) && QueueShape(P, Q) && InRange(P, s)
  {
    var q := GetQueue(P, Q, s);
    forall i: nat :: i < |q| ==> !CanGo(P, T, Q, q, i, now)
  }

  predicate Held(Q: QueueState, r: nat) { Q.refreshWaiting && r == Q.refreshRank }

  lemma EligibleMeans(P: Params, T: Table, Q: QueueState, s: Slot, i: nat, now: nat)
    requires ValidParams(P) && TableShape(P, T) && QueueShape(P, Q) && Routed(P, Q) && InRange(P, s)
    requires i < |GetQueue(P, Q, s)|
    ensures Eligible(P, T, Q, GetQueue(P, Q, s), i, now) <==> CanGo(P, T, Q, GetQueue(P, Q, s), i, now)
  {
    var q := GetQueue(P, Q, s);
    forall j | 0 <= j < |q| ensures QueuedKind(P, q[j].kind) {}
  }

  lemma OffersMeans(P: Params, T: Table, Q: QueueState, s: Slot, now: nat)
    requires ValidParams(P) && TableShape(P, T) && QueueShape(P, Q) && Routed(P, Q) && InRange(P, s)
    ensures Offers(P, T, Q, s, now) <==> !Held(Q, s.rank) && !NoneCanGo(P, T, Q, s, now)
    ensures Offers(P, T, Q, s, now) ==>
              var q, i := GetQueue(P, Q, s), Offer(P, T, Q, s, now);
              CanGo(P, T, Q, q, i, now) && forall j: nat :: j < i ==> !CanGo(P, T, Q, q, j, now)
  {
    var q := GetQueue(P, Q, s);
    forall i: nat | i < |q| ensures Eligible(P, T, Q, q, i, now) <==> CanGo(P, T, Q, q, i, now) {
      EligibleMeans(P, T, Q, s, i, now);
    }
  }

  // ---------- turns

  // How many turns slot s comes after `from`.
  function Ahead(P: Params, from: Slot, s: Slot): int
  {
    if P.perBank then
      var d := Position(P, s) - Position(P, from);
      if d >= 0 then d else d + P.ranks * P.banks
    else if s.rank >= from.rank then s.rank - from.rank
    else s.rank - from.rank + P.ranks
  }

  // The queue of a slot, by the bank that stands for it in the scan.
  function Stop(P: Params, from: Slot, s: Slot): Slot { if P.perBank then s else Slot(s.rank, from.bank) }

  lemma AheadScans(P: Params, from: Slot, s: Slot)
    requires ValidParams(P) && InRange(P, from) && InRange(P, s)
    ensures 0 <= Ahead(P, from, s) < ScanLength(P)
    ensures Scan(P, from, Ahead(P, from, s)) == Stop(P, from, s)
  {
    if P.perBank {
      PositionNext(P, from);
      PositionNext(P, s);
      var k := Ahead(P, from, s);
      PositionWalk(P, from, k);
      ScanIsWalk(P, from, k);
      SamePosition(P, Walk(P, from, k), s);
    } else {
      ScanRanks(P, from, Ahead(P, from, s));
    }
  }

  lemma SamePosition(P: Params, s: Slot, e: Slot)
    requires InRange(P, s) && InRange(P, e) && Position(P, s) == Position(P, e)
    ensures s == e
  {
    if P.rankFirst {
      PairUnique(e.bank, e.rank, s.bank, s.rank, P.ranks);
    } else {
      PairUnique(e.rank, e.bank, s.rank, s.bank, P.banks);
    }
  }

  lemma ScanAhead(P: Params, from: Slot, k: nat)
    requires ValidParams(P) && InRange(P, from) && k < ScanLength(P)
    ensures Ahead(P, from, Scan(P, from, k)) == k
  {
    if P.perBank {
      ScanIsWalk(P, from, k);
      PositionWalk(P, from, k);
    } else {
      ScanRanks(P, from, k);
    }
  }

  // Every queue whose turn comes before step k of the scan has nothing that can go.
  ghost predicate QuietBefore(P: Params, T: Table, Q: QueueState, k: int, now: nat)
    requires ValidParams(P) && TableShape(P, T) && QueueShape(P, Q)
  {
    forall s :: InRange(P, s) && Ahead(P, Slot(Q.nextRank, Q.nextBank), s) < k && !Held(Q, s.rank) ==>
      NoneCanGo(P, T, Q, s, now)
  }

  lemma ScanQuiet(P: Params, T: Table, Q: QueueState, k: nat, now: nat)
    requires ValidParams(P) && TableShape(P, T) && QueueShape(P, Q) && Routed(P, Q) && k <= ScanLength(P)
    requires forall j: nat :: j < k ==> !Offers(P, T, Q, Scan(P, Slot(Q.nextRank, Q.nextBank), j), now)
    ensures QuietBefore(P, T, Q, k, now)
  {
    var start := Slot(Q.nextRank, Q.nextBank);
    forall s | InRange(P, s) && Ahead(P, start, s) < k && !Held(Q, s.rank) ensures NoneCanGo(P, T, Q, s, now) {
      AheadScans(P, start, s);
      var e := Stop(P, start, s);
      OffersMeans(P, T, Q, e, now);
      assert GetQueue(P, Q, e) == GetQueue(P, Q, s);
    }
  }

  // ---------- the choice

  // Packet p is the first entry of its queue that can go, and no queue has its turn before with one that can.
  ghost predicate InTurn(P: Params, T: Table, Q: QueueState, p: Packet, now: nat)
    requires ValidParams(P) && TableShape(P, T) && QueueShape(P, Q) && InRange(P, Slot(p.rank, p.bank))
  {
    var s := Slot(p.rank, p.bank);
    var q := GetQueue(P, Q, s);
    && !Held(Q, p.rank) && QuietBefore(P, T, Q, Ahead(P, Slot(Q.nextRank, Q.nextBank), s), now)
    && exists i: nat :: i < |q| && q[i] == p && CanGo(P, T, Q, q, i, now)
                        && forall j: nat :: j < i ==> !CanGo(P, T, Q, q, j, now)
  }

  // An open row nobody in its queue wants, or one that has had all its accesses, which may be closed.
  predicate Idles(P: Params, T: Table, Q: QueueState, s: Slot, now: nat)
    requires ValidParams(P) && TableShape(P, T) && QueueShape(P, Q) && InRange(P, s)
  {
    var m, q := T[s.rank][s.bank], GetQueue(P, Q, s);
    && m.status == RowActive && m.nextPrecharge <= now
    && ((forall i :: 0 <= i < |q| ==> q[i].bank != s.bank || q[i].row != m.openRow)
        || Q.rowAccess[s.rank][s.bank] == P.totalRowAccesses)
  }

  // How many steps of the walk over all banks slot s comes after `from`.
  function Later(P: Params, from: Slot, s: Slot): int
  {
    var d := Position(P, s) - Position(P, from);
    if d >= 0 then d else d + P.ranks * P.banks
  }

  // No bank the closing walk visits before step k idles.
  ghost predicate BusyBefore(P: Params, T: Table, Q: QueueState, k: int, now: nat)
    requires ValidParams(P) && TableShape(P, T) && QueueShape(P, Q)
  {
    forall s :: InRange(P, s) && Later(P, Slot(Q.nextRankPRE, Q.nextBankPRE), s) < k ==> !Idles(P, T, Q, s, now)
  }

  // What a pop with no refresh work to do chooses.
  ghost predicate ChosenInOrder(P: Params, T: Table, Q: QueueState, o: Option<Packet>, now: nat)
    requires ValidParams(P) && TableShape(P, T) && QueueShape(P, Q)
  {
    match o
    case None =>
      && QuietBefore(P, T, Q, ScanLength(P), now)
      && (!P.closePage ==> BusyBefore(P, T, Q, P.ranks * P.banks, now))
    case Some(p) =>
      InRange(P, Slot(p.rank, p.bank)) &&
      if p.kind == PRECHARGE then
        var s := Slot(p.rank, p.bank);
        && !P.closePage && QuietBefore(P, T, Q, ScanLength(P), now) && Idles(P, T, Q, s, now)
        && BusyBefore(P, T, Q, Later(P, Slot(Q.nextRankPRE, Q.nextBankPRE), s), now)
      else InTurn(P, T, Q, p, now)
  }

  lemma LaterWalks(P: Params, from: Slot, s: Slot)
    requires ValidParams(P) && InRange(P, from) && InRange(P, s)
    ensures 0 <= Later(P, from, s) < P.ranks * P.banks && Walk(P, from, Later(P, from, s)) == s
  {
    PositionNext(P, from);
    PositionNext(P, s);
    var k := Later(P, from, s);
    PositionWalk(P, from, k);
    SamePosition(P, Walk(P, from, k), s);
  }

  lemma WalkLater(P: Params, from: Slot, k: nat)
    requires ValidParams(P) && InRange(P, from) && k < P.ranks * P.banks
    ensures Later(P, from, Walk(P, from, k)) == k
  {
    PositionWalk(P, from, k);
  }

  lemma WalkBusy(P: Params, T: Table, Q: QueueState, k: nat, now: nat)
    requires ValidParams(P) && TableShape(P, T) && QueueShape(P, Q)
    requires forall j: nat :: j < k ==> !Closable(P, T, Q, Walk(P, Slot(Q.nextRankPRE, Q.nextBankPRE), j), now)
    ensures BusyBefore(P, T, Q, k, now)
  {
    var from := Slot(Q.nextRankPRE, Q.nextBankPRE);
    forall s | InRange(P, s) && Later(P, from, s) < k ensures !Idles(P, T, Q, s, now) {
      LaterWalks(P, from, s);
    }
  }

  lemma OfferInTurn(P: Params, T: Table, Q: QueueState, k: nat, now: nat)
    requires ValidParams(P) && TableShape(P, T) && QueueShape(P, Q) && Routed(P, Q) && k < ScanLength(P)
    requires var s := Scan(P, Slot(Q.nextRank, Q.nextBank), k); Offers(P, T, Q, s, now)
    requires QuietBefore(P, T, Q, k, now)
    ensures var s := Scan(P, Slot(Q.nextRank, Q.nextBank), k);
            var p := GetQueue(P, Q, s)[Offer(P, T, Q, s, now)];
            InRange(P, Slot(p.rank, p.bank)) && p.kind != PRECHARGE && InTurn(P, T, Q, p, now)
  {
    var start := Slot(Q.nextRank, Q.nextBank);
    var s := Scan(P, start, k);
    var q, i := GetQueue(P, Q, s), Offer(P, T, Q, s, now);
    OffersMeans(P, T, Q, s, now);
    ScanAhead(P, start, k);
    var p := q[i];
    assert p.rank == s.rank && QueueIndex(P, s.bank) == QueueIndex(P, p.bank) && QueuedKind(P, p.kind);
    assert GetQueue(P, Q, Slot(p.rank, p.bank)) == q;
    assert Ahead(P, start, Slot(p.rank, p.bank)) == Ahead(P, start, s);
  }

  lemma InOrderChooses(P: Params, T: Table, Q: QueueState, now: nat)
    requires ValidParams(P) && TableShape(P, T) && QueueShape(P, Q) && Routed(P, Q)
    ensures ChosenInOrder(P, T, Q, PopInOrder(P, T, Q, now).packet, now)
  {
    var start, startPRE := Slot(Q.nextRank, Q.nextBank), Slot(Q.nextRankPRE, Q.nextBankPRE);
    var k := FirstOffering(P, T, Q, start, 0, now);
    ScanQuiet(P, T, Q, k, now);
    if k < ScanLength(P) {
      OfferInTurn(P, T, Q, k, now);
    } else if !P.closePage {
      var j := FirstClosable(P, T, Q, startPRE, 0, now);
      WalkBusy(P, T, Q, j, now);
      if j < P.ranks * P.banks { WalkLater(P, startPRE, j); }
    }
  }

  lemma ChooseChooses(P: Params, T: Table, Q: QueueState, now: nat)
    requires ValidParams(P) && TableShape(P, T) && QueueShape(P, Q) && Routed(P, Q)
    ensures var c := Choose(P, T, Q, now);
            (c.packet.Some? && Held(Q, c.packet.value.rank)) || ChosenInOrder(P, T, Q, c.packet, now)
  {
    if Q.refreshWaiting && RefreshPlan(P, T, Q, now).SendColumn? {
      var move := RefreshPlan(P, T, Q, now);
      var q := GetQueue(P, Q, Slot(Q.refreshRank, move.bank));
      assert q[move.index].rank == Q.refreshRank;
    } else if !Q.refreshWaiting || RefreshPlan(P, T, Q, now) == NoMove {
      InOrderChooses(P, T, Q, now);
    }
  }

  // MAIN RESULT.  A pop serves the rank that waits for a refresh, or takes the first command that can go from the
  // queue whose turn comes first, or closes the first row that idles; it sends nothing only when there is nothing of
  // that kind.
  lemma PopChooses(P: Params, T: Table, Q: QueueState, now: nat)
    requires ValidParams(P) && TableShape(P, T) && QueueShape(P, Q) && Routed(P, Q)
    ensures var c := Pop(P, T, Q, now);
            (c.packet.Some? && Held(Q, c.packet.value.rank)) || ChosenInOrder(P, T, Ticked(Q), c.packet, now)
  {
    PopIsChoose(P, T, Q, now);
    ChooseChooses(P, T, Ticked(Q), now);
  }

  // ---------- whose turn is next

  // The slot the scan of this pop stopped at.
  function StoppedAt(P: Params, Q: QueueState, p: Packet): Slot
  {
    if Held(Q, p.rank) || p.kind == PRECHARGE then Slot(Q.nextRank, Q.nextBank)
    else Stop(P, Slot(Q.nextRank, Q.nextBank), Slot(p.rank, p.bank))
  }

  lemma ChooseStops(P: Params, T: Table, Q: QueueState, now: nat)
    requires ValidParams(P) && TableShape(P, T) && QueueShape(P, Q) && Routed(P, Q)
    ensures var c := Choose(P, T, Q, now);
            && c.queue.sendAct == Q.sendAct
            && (c.packet.None? ==> c.queue.nextRank == Q.nextRank && c.queue.nextBank == Q.nextBank)
            && (c.packet.Some? ==> Slot(c.queue.nextRank, c.queue.nextBank) == StoppedAt(P, Q, c.packet.value))
  {
    if !Q.refreshWaiting || RefreshPlan(P, T, Q, now) == NoMove {
      InOrderStops(P, T, Q, now);
    } else if RefreshPlan(P, T, Q, now).SendColumn? {
      var move := RefreshPlan(P, T, Q, now);
      var q := GetQueue(P, Q, Slot(Q.refreshRank, move.bank));
      assert q[move.index].rank == Q.refreshRank;
    }
  }

  lemma TakeKeepsTurn(P: Params, Q: QueueState, s: Slot, i: nat)
    requires ValidParams(P) && QueueShape(P, Q) && InRange(P, s) && i < |GetQueue(P, Q, s)|
    requires InRange(P, Slot(GetQueue(P, Q, s)[i].rank, GetQueue(P, Q, s)[i].bank))
    ensures var R := Take(P, Q, s, i);
            R.nextRank == Q.nextRank && R.nextBank == Q.nextBank && R.sendAct == Q.sendAct
  {
  }

  lemma OfferStops(P: Params, T: Table, Q: QueueState, k: nat, now: nat)
    requires ValidParams(P) && TableShape(P, T) && QueueShape(P, Q) && Routed(P, Q) && k < ScanLength(P)
    requires Offers(P, T, Q, Scan(P, Slot(Q.nextRank, Q.nextBank), k), now)
    ensures var s := Scan(P, Slot(Q.nextRank, Q.nextBank), k);
            StoppedAt(P, Q, GetQueue(P, Q, s)[Offer(P, T, Q, s, now)]) == s
  {
    var start := Slot(Q.nextRank, Q.nextBank);
    var s := Scan(P, start, k);
    var p := GetQueue(P, Q, s)[Offer(P, T, Q, s, now)];
    assert p.rank == s.rank && QueueIndex(P, s.bank) == QueueIndex(P, p.bank) && QueuedKind(P, p.kind);
    if !P.perBank { ScanRanks(P, start, k); }
  }

  lemma InOrderStops(P: Params, T: Table, Q: QueueState, now: nat)
    requires ValidParams(P) && TableShape(P, T) && QueueShape(P, Q) && Routed(P, Q)
    ensures var c := PopInOrder(P, T, Q, now);
            && c.queue.sendAct == Q.sendAct
            && (c.packet.None? ==> c.queue.nextRank == Q.nextRank && c.queue.nextBank == Q.nextBank)
            && (c.packet.Some? ==> Slot(c.queue.nextRank, c.queue.nextBank) == StoppedAt(P, Q, c.packet.value))
  {
    var start := Slot(Q.nextRank, Q.nextBank);
    var k := FirstOffering(P, T, Q, start, 0, now);
    if k < ScanLength(P) {
      var s := Scan(P, start, k);
      OfferStops(P, T, Q, k, now);
      var i := Offer(P, T, Q, s, now);
      assert InRange(P, Slot(GetQueue(P, Q, s)[i].rank, GetQueue(P, Q, s)[i].bank));
      var R := Q.(nextRank := s.rank, nextBank := s.bank);
      assert GetQueue(P, R, s) == GetQueue(P, Q, s);
      TakeKeepsTurn(P, R, s, i);
    }
  }

  lemma FinishTurn(P: Params, Q: QueueState, p: Packet)
    requires ValidParams(P) && QueueShape(P, Q) && p.rank < P.ranks
    ensures var R, at := Finish(P, Q, p), Slot(Q.nextRank, Q.nextBank);
            && R.sendAct == !(P.AL > 0 && Q.sendAct)
            && (if P.AL > 0 && Q.sendAct then Slot(R.nextRank, R.nextBank) == at
                else Position(P, Slot(R.nextRank, R.nextBank)) == Following(P, Position(P, at)))
  {
    PositionNext(P, Slot(Q.nextRank, Q.nextBank));
  }

  function Following(P: Params, position: nat): nat
  {
    if position + 1 == P.ranks * P.banks then 0 else position + 1
  }

  lemma PopFinishes(P: Params, T: Table, Q: QueueState, now: nat)
    requires ValidParams(P) && TableShape(P, T) && QueueShape(P, Q)
    ensures var c, d := Pop(P, T, Q, now), Choose(P, T, Ticked(Q), now);
            && c.packet == d.packet
            && c.queue == if d.packet.Some? then Finish(P, d.queue, d.packet.value) else d.queue
  {
  }

  // After a command the turn moves on by one from where the scan stopped; with posted accesses it stays there once,
  // for the access that follows an activate.
  lemma TurnMovesOn(P: Params, T: Table, Q: QueueState, c: Popped, now: nat)
    requires ValidParams(P) && TableShape(P, T) && QueueShape(P, Q) && Routed(P, Q) && c == Pop(P, T, Q, now)
    ensures var next := Slot(c.queue.nextRank, c.queue.nextBank);
            match c.packet
            case None => next == Slot(Q.nextRank, Q.nextBank) && c.queue.sendAct == Q.sendAct
            case Some(p) =>
              var at := StoppedAt(P, Q, p);
              && c.queue.sendAct == !(P.AL > 0 && Q.sendAct)
              && (if P.AL > 0 && Q.sendAct then next == at
                  else Position(P, next) == Following(P, Position(P, at)))
  {
    ChooseStops(P, T, Ticked(Q), now);
    PopFinishes(P, T, Q, now);
    var d := Choose(P, T, Ticked(Q), now);
    if d.packet.Some? { FinishTurn(P, d.queue, d.packet.value); }
  }
}
