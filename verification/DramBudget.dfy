/** How many accesses an open row gets, and how many activates a rank, in every run. */
module DramBudget {
  import opened Basics
  import opened DramTypes
  import opened CommandQueueSpec
  import opened MemorySystemSpec
  import opened DramSafety
  import opened DramQueues
  import opened DramPop
  import opened DramTimers
  import opened DramRuns
  import opened DramTheorems
  import opened DramPhases

  predicate IsOf(p: Packet, r: nat, b: nat) { p.rank == r && p.bank == b }

  // The accesses sent to bank b of rank r since its row was last opened or closed.
  function Since(issued: seq<Issue>, r: nat, b: nat): nat
  {
    if issued == [] then 0
    else
      var p, before := issued[|issued| - 1].packet, issued[..|issued| - 1];
      if IsOf(p, r, b) && (p.kind == ACTIVATE || p.kind == PRECHARGE) then 0
      else Since(before, r, b) + (if IsOf(p, r, b) && IsColumn(p.kind) then 1 else 0)
  }

  lemma SinceNext(issued: seq<Issue>, e: Issue, r: nat, b: nat)
    ensures var p := e.packet;
            Since(issued + [e], r, b) == if IsOf(p, r, b) && (p.kind == ACTIVATE || p.kind == PRECHARGE) then 0
              else Since(issued, r, b) + (if IsOf(p, r, b) && IsColumn(p.kind) then 1 else 0)
  {
    assert (issued + [e])[..|issued|] == issued;
  }

  // The counter of a bank counts the accesses but the first, which is the one its row was opened for.
  ghost predicate Counted(P: Params, Q: QueueState, since: nat, r: nat, b: nat)
    requires ValidParams(P) && QueueShape(P, Q) && r < P.ranks && b < P.banks
  {
    var q := Q.queues[r][QueueIndex(P, b)];
    since <= Q.rowAccess[r][b] + 1 && forall k :: Lone(q, k) && q[k].bank == b ==> since == 0
  }

  // Two lone accesses of one bank are one.
  lemma OneLone(P: Params, T: Table, Q: QueueState, r: nat, q: seq<Packet>, i: nat, k: nat)
    requires TableShape(P, T) && QueueShape(P, Q) && r < P.ranks && GoodQueue(P, T, Q, r, q)
    requires Lone(q, i) && Lone(q, k) && q[i].bank == q[k].bank
    ensures i == k
  {
    assert Served(P, T, Q, r, q[i]) && Served(P, T, Q, r, q[k]) && SameRow(q[i], q[k]);
    assert FirstOfRow(q, i) && FirstOfRow(q, k);
  }

  // No lone access waits for the row of an access that goes with its activate.
  lemma NoLoneBehindPair(P: Params, T: Table, Q: QueueState, r: nat, q: seq<Packet>, i: nat, k: nat)
    requires TableShape(P, T) && QueueShape(P, Q) && r < P.ranks && GoodQueue(P, T, Q, r, q)
    requires 0 < i < |q| && q[i - 1].kind == ACTIVATE && IsColumn(q[i].kind) && !HasEarlierAccess(q, i)
    requires q[i].bank < P.banks && q[i].row == T[r][q[i].bank].openRow && Lone(q, k)
    ensures q[k].bank != q[i].bank
  {
    assert k != i;
    assert Served(P, T, Q, r, q[k]);
    assert FirstOfRow(q, k);
  }

  // ---------- one pop

  // What the command makes of the count for a bank.
  function Then(since: nat, p: Packet, r: nat, b: nat): nat
  {
    if IsOf(p, r, b) && (p.kind == ACTIVATE || p.kind == PRECHARGE) then 0
    else since + (if IsOf(p, r, b) && IsColumn(p.kind) then 1 else 0)
  }

  lemma ActivateCounted(P: Params, T: Table, Q: QueueState, now: nat, e: Edit, c: Popped, since: nat, r: nat, b: nat)
    requires ValidParams(P) && TableShape(P, T) && QueueShape(P, Q) && QueueShape(P, c.queue)
    requires GoodQueues(P, T, Q) && Explains(P, T, Q, now, e, c) && e.Activate? && r < P.ranks && b < P.banks
    requires Counted(P, Q, since, r, b)
    ensures Counted(P, c.queue, Then(since, c.packet.value, r, b), r, b)
  {
    var q, i := GetQueue(P, Q, e.slot), e.index;
    assert q[i].rank == e.slot.rank && QueueIndex(P, q[i].bank) == QueueIndex(P, e.slot.bank);
    assert GoodQueue(P, T, Q, e.slot.rank, q);
    TakeActivate(q, i);
  }

  lemma ColumnCounted(P: Params, T: Table, Q: QueueState, now: nat, e: Edit, c: Popped, since: nat, r: nat, b: nat)
    requires ValidParams(P) && TableShape(P, T) && QueueShape(P, Q) && QueueShape(P, c.queue)
    requires GoodQueues(P, T, Q) && Explains(P, T, Q, now, e, c) && e.Column? && r < P.ranks && b < P.banks
    requires Counted(P, Q, since, r, b)
    ensures Counted(P, c.queue, Then(since, c.packet.value, r, b), r, b)
  {
    var q, i := GetQueue(P, Q, e.slot), e.index;
    assert q[i].rank == e.slot.rank && QueueIndex(P, q[i].bank) == QueueIndex(P, e.slot.bank);
    assert GoodQueue(P, T, Q, e.slot.rank, q);
    TakeLone(q, i);
    forall k: nat | Lone(q, k) && q[k].bank == q[i].bank ensures k == i {
      OneLone(P, T, Q, e.slot.rank, q, i, k);
    }
  }

  lemma PairCounted(P: Params, T: Table, Q: QueueState, now: nat, e: Edit, c: Popped, since: nat, r: nat, b: nat)
    requires ValidParams(P) && TableShape(P, T) && QueueShape(P, Q) && QueueShape(P, c.queue)
    requires GoodQueues(P, T, Q) && Explains(P, T, Q, now, e, c) && e.Pair? && r < P.ranks && b < P.banks
    requires Counted(P, Q, since, r, b)
    ensures Counted(P, c.queue, Then(since, c.packet.value, r, b), r, b)
  {
    var q, i := GetQueue(P, Q, e.slot), e.index;
    assert q[i].rank == e.slot.rank && QueueIndex(P, q[i].bank) == QueueIndex(P, e.slot.bank);
    assert GoodQueue(P, T, Q, e.slot.rank, q);
    PairLone(P, T, Q, e.slot.rank, q, i, b);
  }

  // Taking an access with its activate leaves no lone access that was not there, and none for its bank.
  lemma PairLone(P: Params, T: Table, Q: QueueState, r: nat, q: seq<Packet>, i: nat, b: nat)
    requires TableShape(P, T) && QueueShape(P, Q) && r < P.ranks && GoodQueue(P, T, Q, r, q)
    requires 0 < i < |q| && q[i - 1].kind == ACTIVATE && IsColumn(q[i].kind) && !HasEarlierAccess(q, i)
    requires q[i].bank < P.banks && q[i].row == T[r][q[i].bank].openRow
    ensures var u := q[..i - 1] + q[i + 1..];
            forall k :: Lone(u, k) && u[k].bank == b ==>
              b != q[i].bank && exists n :: Lone(q, n) && q[n].bank == b
  {
    TakePair(q, i);
    var u := q[..i - 1] + q[i + 1..];
    forall k | Lone(u, k) && u[k].bank == b ensures b != q[i].bank && exists n :: Lone(q, n) && q[n].bank == b {
      var n := if k < i - 1 then k else k + 2;
      assert Lone(q, n) && q[n] == u[k];
      NoLoneBehindPair(P, T, Q, r, q, i, n);
    }
  }

  lemma EditCounted(P: Params, T: Table, Q: QueueState, now: nat, e: Edit, c: Popped, since: nat, r: nat, b: nat)
    requires ValidParams(P) && TableShape(P, T) && QueueShape(P, Q) && QueueShape(P, c.queue)
    requires GoodQueues(P, T, Q) && Explains(P, T, Q, now, e, c) && r < P.ranks && b < P.banks
    requires Counted(P, Q, since, r, b)
    ensures Counted(P, c.queue, if c.packet.Some? then Then(since, c.packet.value, r, b) else since, r, b)
  {
    match e
    case Activate(_, _) => ActivateCounted(P, T, Q, now, e, c, since, r, b);
    case Column(_, _) => ColumnCounted(P, T, Q, now, e, c, since, r, b);
    case Pair(_, _) => PairCounted(P, T, Q, now, e, c, since, r, b);
    case _ =>
  }

  // ---------- every run

  ghost predicate Budgeted(P: Params, Q: QueueState, issued: seq<Issue>)
    requires ValidParams(P) && QueueShape(P, Q)
  {
    forall r: nat, b: nat :: r < P.ranks && b < P.banks ==> Counted(P, Q, Since(issued, r, b), r, b)
  }

  lemma SameBudget(P: Params, Q: QueueState, R: QueueState, issued: seq<Issue>)
    requires ValidParams(P) && QueueShape(P, Q) && QueueShape(P, R) && Budgeted(P, Q, issued)
    requires R.queues == Q.queues && R.rowAccess == Q.rowAccess
    ensures Budgeted(P, R, issued)
  {
    forall r: nat, b: nat | r < P.ranks && b < P.banks ensures Counted(P, R, Since(issued, r, b), r, b) {
      assert Counted(P, Q, Since(issued, r, b), r, b);
    }
  }

  lemma ChosenBudgeted(P: Params, T: Table, Q: QueueState, issued: seq<Issue>, now: nat, e: Edit, c: Popped,
    longer: seq<Issue>)
    requires ValidParams(P) && TableShape(P, T) && QueueShape(P, Q) && QueueShape(P, c.queue)
    requires GoodQueues(P, T, Q) && Explains(P, T, Q, now, e, c) && Budgeted(P, Q, issued)
    requires longer == if c.packet.Some? then issued + [Issue(now, c.packet.value)] else issued
    ensures Budgeted(P, c.queue, longer)
  {
    forall r: nat, b: nat | r < P.ranks && b < P.banks ensures Counted(P, c.queue, Since(longer, r, b), r, b) {
      assert Counted(P, Q, Since(issued, r, b), r, b);
      EditCounted(P, T, Q, now, e, c, Since(issued, r, b), r, b);
      if c.packet.Some? { SinceNext(issued, Issue(now, c.packet.value), r, b); }
    }
  }

  lemma IssueBudgeted(P: Params, s: System, u: System)
    requires ValidParams(P) && Shape(P, s) && Shape(P, u) && Within(P, s) && GoodQueues(P, s.mc.table, s.mc.queue)
    requires IssueCommand(P, s) == Ok(u) && Budgeted(P, s.mc.queue, s.log.issued)
    ensures Budgeted(P, u.mc.queue, u.log.issued)
  {
    var T, Q, Q0 := s.mc.table, s.mc.queue, Ticked(s.mc.queue);
    var e := PopExplained(P, s);
    var d := Choose(P, T, Q0, s.now);
    SameBudget(P, Q, Q0, s.log.issued);
    PopIsChoose(P, T, Q, s.now);
    IssueFrame(P, s, u);
    ChosenBudgeted(P, T, Q0, s.log.issued, s.now, e, d, u.log.issued);
    SameBudget(P, d.queue, u.mc.queue, u.log.issued);
  }

  lemma AppendedCounted(P: Params, T: Table, Q: QueueState, slot: Slot, t: Transaction, since: nat, r: nat, b: nat)
    requires ValidParams(P) && TableShape(P, T) && QueueShape(P, Q) && GoodQueues(P, T, Q)
    requires slot == SlotOf(P, t.address)
    requires r < P.ranks && b < P.banks && Counted(P, Q, since, r, b)
    ensures var R := SetQueue(P, Q, slot, GetQueue(P, Q, slot) + [ActivateFor(P, t), ColumnFor(P, t)]);
            Counted(P, R, since, r, b)
  {
    var q := GetQueue(P, Q, slot);
    assert GoodQueue(P, T, Q, slot.rank, q);
    AppendedLone(q, ActivateFor(P, t), ColumnFor(P, t));
  }

  lemma AppendedLone(q: seq<Packet>, a: Packet, c: Packet)
    requires Paired(q) && a.kind == ACTIVATE && IsColumn(c.kind)
    ensures forall k :: Lone(q + [a, c], k) ==> Lone(q, k)
  {
    var u := q + [a, c];
    forall k | Lone(u, k) ensures Lone(q, k) {
      assert u[|q|] == a;
      if k > 0 && k < |q| { assert u[k - 1] == q[k - 1]; }
    }
  }

  lemma SplitBudgeted(P: Params, s: System, u: System)
    requires ValidParams(P) && Shape(P, s) && Shape(P, u) && GoodQueues(P, s.mc.table, s.mc.queue)
    requires SplitTransaction(P, s) == Ok(u) && Budgeted(P, s.mc.queue, s.log.issued)
    ensures Budgeted(P, u.mc.queue, u.log.issued)
  {
    var i := NextToSplit(P, s.mc.queue, s.mc.transactions, 0);
    if i < |s.mc.transactions| {
      var t := s.mc.transactions[i];
      forall r: nat, b: nat | r < P.ranks && b < P.banks
        ensures Counted(P, u.mc.queue, Since(u.log.issued, r, b), r, b)
      {
        assert Counted(P, s.mc.queue, Since(s.log.issued, r, b), r, b);
        AppendedCounted(P, s.mc.table, s.mc.queue, SlotOf(P, t.address), t, Since(s.log.issued, r, b), r, b);
      }
    }
  }

  lemma CycleBudgeted(P: Params, s: System, u: System)
    requires ValidParams(P) && Shape(P, s) && Shape(P, u) && Inv(P, s) && Update(P, s) == Ok(u)
    requires Budgeted(P, s.mc.queue, s.log.issued)
    ensures Budgeted(P, u.mc.queue, u.log.issued)
  {
    var s1 := SettleHalf(P, s);
    SettleFrame(P, s, s1);
    var s2 := RefreshHalf(P, s1);
    RefreshFrame(P, s1);
    SameBudget(P, s.mc.queue, s2.mc.queue, s.log.issued);
    var s3 := PopHalf(P, s2);
    IssueBudgeted(P, s2, s3);
    RestBudgeted(P, s3, u);
  }

  lemma RestBudgeted(P: Params, s: System, u: System)
    requires ValidParams(P) && Shape(P, s) && Within(P, s) && Core(P, s) && Busy(P, s)
    requires Budgeted(P, s.mc.queue, s.log.issued) && AfterIssue(P, s) == Ok(u) && Shape(P, u)
    ensures Budgeted(P, u.mc.queue, u.log.issued)
  {
    var s4 := SplitHalf(P, s);
    SplitBudgeted(P, s, s4);
    var s5 := PowerHalf(P, s4);
    PowerFrame(P, s4, s5);
    var s6 := ReturnHalf(P, s5);
    ReturnFrame(P, s5, s6);
  }

  lemma AcceptBudgeted(P: Params, s: System, isRead: bool, address: nat)
    requires ValidParams(P) && Shape(P, s) && Budgeted(P, s.mc.queue, s.log.issued)
    ensures var u := Accept(P, s, isRead, address); Budgeted(P, u.mc.queue, u.log.issued)
  {
  }

  lemma StepBudgeted(P: Params, s: System, a: Action, u: System)
    requires ValidParams(P) && Shape(P, s) && Shape(P, u) && Inv(P, s) && Step(P, s, a) == Ok(u)
    requires Budgeted(P, s.mc.queue, s.log.issued)
    ensures Budgeted(P, u.mc.queue, u.log.issued)
  {
    match a
    case Request(isRead, address) =>
      AcceptBudgeted(P, s, isRead, address);
    case Cycle =>
      CycleBudgeted(P, s, u);
  }

  lemma {:induction false} RunBudgeted(P: Params, s: System, actions: seq<Action>, u: System)
    requires ValidParams(P) && Shape(P, s) && Shape(P, u) && Inv(P, s) && RunFrom(P, s, actions) == Ok(u)
    requires Budgeted(P, s.mc.queue, s.log.issued)
    ensures Budgeted(P, u.mc.queue, u.log.issued)
    decreases |actions|
  {
    if actions != [] {
      var v := StepKeeps(P, s, actions[0]);
      StepBudgeted(P, s, actions[0], v);
      RunUnfold(P, s, actions, v);
      RunBudgeted(P, v, actions[1..], u);
    }
  }

  lemma InitBudgeted(P: Params)
    requires ValidParams(P) && Shape(P, Init(P))
    ensures Budgeted(P, Init(P).mc.queue, [])
  {
  }

  lemma ReachedBudgeted(P: Params, actions: seq<Action>, s: System)
    requires ValidParams(P) && Run(P, actions) == Ok(s)
    ensures Budgeted(P, s.mc.queue, s.log.issued)
  {
    InitKeeps(P);
    InitBudgeted(P);
    RunBudgeted(P, Init(P), actions, s);
  }

  lemma ReachedGood(P: Params, actions: seq<Action>, s: System)
    requires ValidParams(P) && Run(P, actions) == Ok(s)
    ensures GoodQueues(P, s.mc.table, s.mc.queue)
  {
    InitKeeps(P);
    var u := RunKeeps(P, Init(P), actions);
    assert Core(P, u);
  }

  lemma ReachedWindow(P: Params, actions: seq<Action>, s: System, r: nat)
    requires ValidParams(P) && Run(P, actions) == Ok(s) && r < P.ranks
    ensures InWindow(P, ActTimes(s.log.issued, r), TickFaw(s.mc.queue.faw[r]), s.now)
  {
    InitKeeps(P);
    var u := RunKeeps(P, Init(P), actions);
    InvWindow(P, u, r, s.now - 1);
  }

  lemma InvWindow(P: Params, s: System, r: nat, t: int)
    requires ValidParams(P) && Shape(P, s) && TimersBetween(P, s) && r < P.ranks && t == s.now - 1
    ensures InWindow(P, ActTimes(s.log.issued, r), TickFaw(s.mc.queue.faw[r]), s.now)
  {
    var times := ActTimes(s.log.issued, r);
    assert WindowAt(P, times, s.mc.queue.faw[r], s.now - 1);
    CountersTick(P, times, s.mc.queue.faw[r], s.now - 1);
  }

  // MAIN RESULT.  In every run a row gets, from its opening to its closing, at most one access more than the
  // configured number.
  lemma RowBudget(P: Params, actions: seq<Action>, s: System, r: nat, b: nat)
    requires ValidParams(P) && Run(P, actions) == Ok(s) && r < P.ranks && b < P.banks
    ensures Since(s.log.issued, r, b) <= P.totalRowAccesses + 1
  {
    ReachedGood(P, actions, s);
    ReachedBudgeted(P, actions, s);
    assert Counted(P, s.mc.queue, Since(s.log.issued, r, b), r, b);
  }

  // ---------- the activate window

  // The rank has had four activates in the tFAW cycles up to now.
  predicate FourRecent(P: Params, issued: seq<Issue>, r: nat, now: int)
  {
    var times := ActTimes(issued, r);
    |times| >= 4 && now < times[|times| - 4] + P.tFAW
  }

  lemma WindowFull(P: Params, times: seq<nat>, counters: seq<nat>, now: int)
    requires InWindow(P, times, counters, now)
    ensures |counters| < 4 <==> !(|times| >= 4 && now < times[|times| - 4] + P.tFAW)
  {
    AllPositive(counters);
    if |counters| >= 4 {
      var k := |counters| - 4;
      assert DecAll(counters)[k] + 1 == counters[k];
      assert counters[|times| - 4 - (|times| - |counters|)] == times[|times| - 4] + P.tFAW - now;
    }
  }

  // In every run the window has room for an activate exactly when the rank has not had four.
  lemma RoomInWindow(P: Params, actions: seq<Action>, s: System, r: nat)
    requires ValidParams(P) && Run(P, actions) == Ok(s) && r < P.ranks
    ensures |Ticked(s.mc.queue).faw[r]| < 4 <==> !FourRecent(P, s.log.issued, r, s.now)
  {
    ReachedWindow(P, actions, s, r);
    WindowFull(P, ActTimes(s.log.issued, r), TickFaw(s.mc.queue.faw[r]), s.now);
  }
}
