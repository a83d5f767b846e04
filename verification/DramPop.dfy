/** Every `pop()` is one of six edits, and each of them keeps the queues good. */
module DramPop {
  import opened Basics
  import opened DramTypes
  import opened CommandQueueSpec
  import opened DramQueues

  datatype Edit =
    | NoEdit
    | Activate(slot: Slot, index: nat)
    | Column(slot: Slot, index: nat)
    | Pair(slot: Slot, index: nat)
    | Close(slot: Slot)
    | RefreshRank(rank: nat)

  // The facts about the controller's table that do not mention the device.
  predicate Steady(P: Params, m: BankState, now: nat)
  {
    && (m.status == Idle ==> m.countdown == 0)
    && (m.status == Refreshing ==> m.countdown > 0 && m.nextActivate >= now + m.countdown)
    && (m.status == RowActive && m.countdown > 0 ==>
          P.closePage && m.nextRead >= now + m.countdown && m.nextWrite >= now + m.countdown)
  }

  ghost predicate SteadyTable(P: Params, T: Table, now: nat)
    requires TableShape(P, T)
  {
    && (forall r, b :: 0 <= r < P.ranks && 0 <= b < P.banks ==> Steady(P, T[r][b], now))
    && (forall r, b :: 0 <= r < P.ranks && 0 <= b < P.banks ==>
         (T[r][b].status == PowerDown <==> T[r][0].status == PowerDown))
  }

  ghost predicate TakesFrom(P: Params, T: Table, Q: QueueState, s: Slot, i: nat, now: nat, c: Popped)
    requires ValidParams(P) && TableShape(P, T) && QueueShape(P, Q)
  {
    && InRange(P, s) && i < |GetQueue(P, Q, s)|
    && c.packet == Some(GetQueue(P, Q, s)[i]) && IsIssuable(P, T, Q, GetQueue(P, Q, s)[i], now)
  }

  // c is what one choice on Q gives, and e says which entries and counters it touched.
  ghost predicate Explains(P: Params, T: Table, Q: QueueState, now: nat, e: Edit, c: Popped)
    requires ValidParams(P) && TableShape(P, T) && QueueShape(P, Q) && QueueShape(P, c.queue)
  {
    match e
    case NoEdit => c.packet.None? && c.queue.queues == Q.queues && c.queue.rowAccess == Q.rowAccess
    case Activate(s, i) =>
      && TakesFrom(P, T, Q, s, i, now, c)
      && var q := GetQueue(P, Q, s);
         && q[i].kind == ACTIVATE && FirstOfRow(q, i)
         && c.queue.queues == SetQueue(P, Q, s, RemoveAt(q, i)).queues && c.queue.rowAccess == Q.rowAccess
    case Column(s, i) =>
      && TakesFrom(P, T, Q, s, i, now, c)
      && var q := GetQueue(P, Q, s);
         && Lone(q, i)
         && c.queue.queues == SetQueue(P, Q, s, RemoveAt(q, i)).queues && c.queue.rowAccess == Q.rowAccess
    case Pair(s, i) =>
      && TakesFrom(P, T, Q, s, i, now, c)
      && var q := GetQueue(P, Q, s);
         && !P.closePage && 0 < i && q[i - 1].kind == ACTIVATE && IsColumn(q[i].kind) && !HasEarlierAccess(q, i)
         && c.queue.queues == SetQueue(P, Q, s, q[..i - 1] + q[i + 1..]).queues
         && c.queue.rowAccess == SetRowAccess(P, Q, Slot(q[i].rank, q[i].bank),
            Q.rowAccess[q[i].rank][q[i].bank] + 1).rowAccess
    case Close(s) =>
      && InRange(P, s) && !P.closePage
      && c.packet == Some(Packet(PRECHARGE, 0, 0, s.rank, s.bank, 0))
      && T[s.rank][s.bank].status == RowActive && T[s.rank][s.bank].nextPrecharge <= now
      && (forall k :: Lone(GetQueue(P, Q, s), k) ==> GetQueue(P, Q, s)[k].bank != s.bank)
      && c.queue.queues == Q.queues && c.queue.rowAccess == SetRowAccess(P, Q, s, 0).rowAccess
    case RefreshRank(r) =>
      && r < P.ranks && Q.refreshWaiting && r == Q.refreshRank
      && c.packet == Some(Packet(REFRESH, 0, 0, r, 0, 0))
      && (forall b :: 0 <= b < P.banks ==> T[r][b].status != RowActive && T[r][b].nextActivate <= now)
      && T[r][0].status != PowerDown
      && c.queue.queues == Q.queues && c.queue.rowAccess == Q.rowAccess
  }

  // An activate to the same bank is issuable exactly when a later one is.
  lemma OwnActivateEligible(P: Params, T: Table, Q: QueueState, q: seq<Packet>, i: nat, j: nat, now: nat)
    requires TableShape(P, T) && QueueShape(P, Q) && P.closePage && !P.perBank && Paired(q)
    requires j < i < |q| && IsColumn(q[j].kind) && !Lone(q, j) && SameRow(q[j], q[i]) && q[j].rank == q[i].rank
    requires q[i].kind == ACTIVATE && IsIssuable(P, T, Q, q[i], now)
    ensures j > 0 && Eligible(P, T, Q, q, j - 1, now)
  {
    assert q[j - 1].kind == ACTIVATE;
    assert q[j].(kind := ACTIVATE) == q[j - 1];
  }

  // An activate the issue scan picks is the first entry for its row.
  lemma OfferedActivate(P: Params, T: Table, Q: QueueState, s: Slot, i: nat, now: nat)
    requires ValidParams(P) && TableShape(P, T) && QueueShape(P, Q) && GoodQueues(P, T, Q) && InRange(P, s)
    requires var q := GetQueue(P, Q, s);
             && Eligible(P, T, Q, q, i, now) && q[i].kind == ACTIVATE
             && forall j: nat :: j < i ==> !Eligible(P, T, Q, q, j, now)
    ensures FirstOfRow(GetQueue(P, Q, s), i)
  {
    var q := GetQueue(P, Q, s);
    forall j | 0 <= j < i && IsColumn(q[j].kind) ensures !SameRow(q[j], q[i]) {
      if P.closePage && !P.perBank && SameRow(q[j], q[i]) && !Lone(q, j) {
        OwnActivateEligible(P, T, Q, q, i, j, now);
      }
    }
  }

  lemma OfferedColumn(P: Params, T: Table, Q: QueueState, s: Slot, i: nat, now: nat)
    requires ValidParams(P) && TableShape(P, T) && QueueShape(P, Q) && GoodQueues(P, T, Q) && InRange(P, s)
    requires Eligible(P, T, Q, GetQueue(P, Q, s), i, now) && GetQueue(P, Q, s)[i].kind != ACTIVATE
    ensures IsColumn(GetQueue(P, Q, s)[i].kind)
    ensures P.closePage || i == 0 || GetQueue(P, Q, s)[i - 1].kind != ACTIVATE ==> Lone(GetQueue(P, Q, s), i)
  {
    var q := GetQueue(P, Q, s);
    assert QueuedKind(P, q[i].kind);
  }

  // The premises shared by the three ways the issue scan takes an entry; R is Q with its scan indices moved.
  ghost predicate Offered(P: Params, T: Table, Q: QueueState, R: QueueState, s: Slot, i: nat, now: nat)
    requires ValidParams(P) && TableShape(P, T) && QueueShape(P, Q) && QueueShape(P, R)
  {
    && GoodQueues(P, T, Q) && InRange(P, s) && R.queues == Q.queues && R.rowAccess == Q.rowAccess
    && var q := GetQueue(P, Q, s);
       && Eligible(P, T, Q, q, i, now)
       && forall j: nat :: j < i ==> !Eligible(P, T, Q, q, j, now)
  }

  lemma TakeActivateExplained(P: Params, T: Table, Q: QueueState, R: QueueState, s: Slot, i: nat, now: nat)
    requires ValidParams(P) && TableShape(P, T) && QueueShape(P, Q) && QueueShape(P, R)
    requires Offered(P, T, Q, R, s, i, now)
    requires GetQueue(P, Q, s)[i].kind == ACTIVATE
    ensures Explains(P, T, Q, now, Activate(s, i), Popped(Take(P, R, s, i), Some(GetQueue(P, Q, s)[i])))
  {
    var q := GetQueue(P, Q, s);
    assert q == GetQueue(P, R, s);
    OfferedActivate(P, T, Q, s, i, now);
    NoActivateBefore(q, i);
  }

  lemma TakeColumnExplained(P: Params, T: Table, Q: QueueState, R: QueueState, s: Slot, i: nat, now: nat)
    requires ValidParams(P) && TableShape(P, T) && QueueShape(P, Q) && QueueShape(P, R)
    requires Offered(P, T, Q, R, s, i, now)
    requires GetQueue(P, Q, s)[i].kind != ACTIVATE
    requires P.closePage || i == 0 || GetQueue(P, Q, s)[i - 1].kind != ACTIVATE
    ensures Explains(P, T, Q, now, Column(s, i), Popped(Take(P, R, s, i), Some(GetQueue(P, Q, s)[i])))
  {
    assert GetQueue(P, Q, s) == GetQueue(P, R, s);
    OfferedColumn(P, T, Q, s, i, now);
  }

  lemma TakePairExplained(P: Params, T: Table, Q: QueueState, R: QueueState, s: Slot, i: nat, now: nat)
    requires ValidParams(P) && TableShape(P, T) && QueueShape(P, Q) && QueueShape(P, R)
    requires Offered(P, T, Q, R, s, i, now)
    requires GetQueue(P, Q, s)[i].kind != ACTIVATE
    requires !P.closePage && i > 0 && GetQueue(P, Q, s)[i - 1].kind == ACTIVATE
    ensures Explains(P, T, Q, now, Pair(s, i), Popped(Take(P, R, s, i), Some(GetQueue(P, Q, s)[i])))
  {
    assert GetQueue(P, Q, s) == GetQueue(P, R, s);
    OfferedColumn(P, T, Q, s, i, now);
  }

  lemma TakeExplained(P: Params, T: Table, Q: QueueState, R: QueueState, s: Slot, i: nat, now: nat) returns (e: Edit)
    requires ValidParams(P) && TableShape(P, T) && QueueShape(P, Q) && QueueShape(P, R)
    requires Offered(P, T, Q, R, s, i, now)
    ensures Explains(P, T, Q, now, e, Popped(Take(P, R, s, i), Some(GetQueue(P, Q, s)[i])))
  {
    var q := GetQueue(P, Q, s);
    if q[i].kind == ACTIVATE {
      e := Activate(s, i);
      TakeActivateExplained(P, T, Q, R, s, i, now);
    } else if !P.closePage && i > 0 && q[i - 1].kind == ACTIVATE {
      e := Pair(s, i);
      TakePairExplained(P, T, Q, R, s, i, now);
    } else {
      e := Column(s, i);
      TakeColumnExplained(P, T, Q, R, s, i, now);
    }
  }

  lemma NoActivateBefore(q: seq<Packet>, i: nat)
    requires Paired(q) && i < |q| && q[i].kind == ACTIVATE
    ensures i == 0 || q[i - 1].kind != ACTIVATE
  {
  }

  // Closing an idle row never strands an access.
  lemma IdleCloseExplained(P: Params, T: Table, Q: QueueState, s: Slot, now: nat)
    requires ValidParams(P) && TableShape(P, T) && QueueShape(P, Q) && GoodQueues(P, T, Q) && InRange(P, s)
    requires !P.closePage && Closable(P, T, Q, s, now)
    ensures Explains(P, T, Q, now, Close(s),
                     Popped(SetRowAccess(P, Q, s, 0).(nextRankPRE := s.rank, nextBankPRE := s.bank),
                            Some(Packet(PRECHARGE, 0, 0, s.rank, s.bank, 0))))
  {
    forall k | Lone(GetQueue(P, Q, s), k) ensures GetQueue(P, Q, s)[k].bank != s.bank {
      assert Served(P, T, Q, s.rank, GetQueue(P, Q, s)[k]);
    }
  }

  lemma ScanExplained(P: Params, T: Table, Q: QueueState, s: Slot, now: nat) returns (e: Edit)
    requires ValidParams(P) && TableShape(P, T) && QueueShape(P, Q) && GoodQueues(P, T, Q) && InRange(P, s)
    requires Offers(P, T, Q, s, now)
    ensures Explains(P, T, Q, now, e,
                     Popped(Take(P, Q.(nextRank := s.rank, nextBank := s.bank), s, Offer(P, T, Q, s, now)),
                            Some(GetQueue(P, Q, s)[Offer(P, T, Q, s, now)])))
  {
    e := TakeExplained(P, T, Q, Q.(nextRank := s.rank, nextBank := s.bank), s, Offer(P, T, Q, s, now), now);
  }

  // Whether the scan finds an offer, and whether it would find a row to close.
  predicate HasOffer(P: Params, T: Table, Q: QueueState, now: nat)
    requires ValidParams(P) && TableShape(P, T) && QueueShape(P, Q)
  {
    FirstOffering(P, T, Q, Slot(Q.nextRank, Q.nextBank), 0, now) < ScanLength(P)
  }

  predicate HasClosable(P: Params, T: Table, Q: QueueState, now: nat)
    requires ValidParams(P) && TableShape(P, T) && QueueShape(P, Q)
  {
    !P.closePage && FirstClosable(P, T, Q, Slot(Q.nextRankPRE, Q.nextBankPRE), 0, now) < P.ranks * P.banks
  }

  lemma OfferExplained(P: Params, T: Table, Q: QueueState, now: nat) returns (e: Edit)
    requires ValidParams(P) && TableShape(P, T) && QueueShape(P, Q) && GoodQueues(P, T, Q) && HasOffer(P, T, Q, now)
    ensures Explains(P, T, Q, now, e, PopInOrder(P, T, Q, now))
  {
    var start := Slot(Q.nextRank, Q.nextBank);
    e := ScanExplained(P, T, Q, Scan(P, start, FirstOffering(P, T, Q, start, 0, now)), now);
  }

  lemma CloseExplained(P: Params, T: Table, Q: QueueState, now: nat) returns (e: Edit)
    requires ValidParams(P) && TableShape(P, T) && QueueShape(P, Q) && GoodQueues(P, T, Q)
    requires !HasOffer(P, T, Q, now) && HasClosable(P, T, Q, now)
    ensures Explains(P, T, Q, now, e, PopInOrder(P, T, Q, now))
  {
    var start := Slot(Q.nextRankPRE, Q.nextBankPRE);
    var s := Walk(P, start, FirstClosable(P, T, Q, start, 0, now));
    IdleCloseExplained(P, T, Q, s, now);
    e := Close(s);
  }

  lemma InOrderExplained(P: Params, T: Table, Q: QueueState, now: nat) returns (e: Edit)
    requires ValidParams(P) && TableShape(P, T) && QueueShape(P, Q) && GoodQueues(P, T, Q)
    ensures Explains(P, T, Q, now, e, PopInOrder(P, T, Q, now))
  {
    if HasOffer(P, T, Q, now) {
      e := OfferExplained(P, T, Q, now);
    } else if HasClosable(P, T, Q, now) {
      e := CloseExplained(P, T, Q, now);
    } else {
      e := NoEdit;
    }
  }

  lemma RefreshCloseSafe(P: Params, T: Table, Q: QueueState, b: nat, k: int)
    requires ValidParams(P) && TableShape(P, T) && QueueShape(P, Q) && GoodQueues(P, T, Q)
    requires Q.refreshWaiting && b < P.banks
    requires var q := GetQueue(P, Q, Slot(Q.refreshRank, b));
             var j := FirstToRow(q, b, T[Q.refreshRank][b].openRow, 0);
             Lone(q, k) && !(j < |q| && q[j].kind != ACTIVATE)
    ensures GetQueue(P, Q, Slot(Q.refreshRank, b))[k].bank != b
  {
    var q := GetQueue(P, Q, Slot(Q.refreshRank, b));
    var j := FirstToRow(q, b, T[Q.refreshRank][b].openRow, 0);
    assert Served(P, T, Q, Q.refreshRank, q[k]);
    if j < k {
      ActivateNotBeforeLone(q, j, k);
    }
  }

  lemma ActivateNotBeforeLone(q: seq<Packet>, j: nat, k: int)
    requires Paired(q) && LoneFirst(q) && Lone(q, k) && j < k
    ensures q[j].kind == ACTIVATE ==> !SameRow(q[j], q[k])
  {
    assert FirstOfRow(q, k);
    if q[j].kind == ACTIVATE {
      assert IsColumn(q[j + 1].kind) && SameRow(q[j + 1], q[j]);
    }
  }

  lemma RefreshExplained(P: Params, T: Table, Q: QueueState, now: nat) returns (e: Edit)
    requires ValidParams(P) && TableShape(P, T) && QueueShape(P, Q) && GoodQueues(P, T, Q)
    requires Q.refreshWaiting && RefreshPlan(P, T, Q, now) != NoMove
    ensures Explains(P, T, Q, now, e, Choose(P, T, Q, now))
  {
    var move := RefreshPlan(P, T, Q, now);
    if move.SendRefresh? {
      e := RefreshRank(Q.refreshRank);
    } else if move.SendColumn? {
      var s := Slot(Q.refreshRank, move.bank);
      var q := GetQueue(P, Q, s);
      assert QueuedKind(P, q[move.index].kind);
      e := Column(s, move.index);
    } else {
      var s := Slot(Q.refreshRank, move.bank);
      forall k | Lone(GetQueue(P, Q, s), k) ensures GetQueue(P, Q, s)[k].bank != move.bank {
        RefreshCloseSafe(P, T, Q, move.bank, k);
      }
      e := Close(s);
    }
  }

  lemma ChooseExplained(P: Params, T: Table, Q: QueueState, now: nat) returns (e: Edit)
    requires ValidParams(P) && TableShape(P, T) && QueueShape(P, Q) && GoodQueues(P, T, Q)
    ensures Explains(P, T, Q, now, e, Choose(P, T, Q, now))
  {
    if Q.refreshWaiting && RefreshPlan(P, T, Q, now) != NoMove {
      e := RefreshExplained(P, T, Q, now);
    } else {
      e := InOrderExplained(P, T, Q, now);
    }
  }
}
