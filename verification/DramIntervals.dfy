/** The intervals between commands, in every run. */
module DramIntervals {
  import opened Basics
  import opened DramTypes
  import opened CommandQueueSpec
  import opened MemorySystemSpec
  import opened DramSafety
  import opened DramRuns
  import opened DramTheorems
  import opened DramPhases
  import opened DramRules
  import opened DramDistances
  import opened DramReasons
  import opened DramCounts

  // The log so far, its rules kept and every wait of the table explained.
  ghost predicate Timed(P: Params, T: Table, issued: seq<Issue>, t: int)
    requires TableShape(P, T)
  {
    Kept(P, T, issued, t) && AllReasoned(P, T, issued, t) && AllAccountable(P, T, issued, t)
  }

  // As of this cycle, and as of the one before while a cycle has not begun.
  ghost predicate TimedNow(P: Params, s: System)
    requires Shape(P, s)
  {
    Timed(P, s.mc.table, s.log.issued, s.now)
  }

  ghost predicate TimedBetween(P: Params, s: System)
    requires Shape(P, s)
  {
    Timed(P, s.mc.table, s.log.issued, s.now - 1)
  }

  lemma SettleTimed(P: Params, s: System, u: System)
    requires ValidParams(P) && Shape(P, s) && Shape(P, u) && Sim(P, s, s.now - 1) && Settle(P, s) == Ok(u)
    requires TimedBetween(P, s)
    ensures TimedNow(P, u)
  {
    SettleFrame(P, s, u);
    CountedKept(P, s, u.mc.table, s.log.issued, s.now - 1, s.now);
    CountedReasoned(P, s.mc.table, u.mc.table, s.log.issued, s.now - 1, s.now);
    CountedAccountable(P, s, u.mc.table, s.log.issued, s.now - 1, s.now);
  }

  lemma RefreshTimed(P: Params, s: System, u: System)
    requires ValidParams(P) && Shape(P, s) && Shape(P, u) && u == RefreshTimer(P, s) && TimedNow(P, s)
    ensures TimedNow(P, u)
  {
    RefreshFrame(P, s);
  }

  lemma IssueTimed(P: Params, s: System, u: System, c: Popped)
    requires ValidParams(P) && Shape(P, s) && Shape(P, u) && Sim(P, s, s.now) && s.mc.cmd.None? && TimedNow(P, s)
    requires IssueCommand(P, s) == Ok(u) && c == Pop(P, s.mc.table, s.mc.queue, s.now)
    requires c.packet.Some? ==> GoodPop(P, s.mc.table, c.packet.value, s.now)
    ensures TimedNow(P, u)
  {
    IssueFrame(P, s, u);
    if c.packet.Some? {
      IssuedKept(P, s, c.packet.value, u.mc.table, u.log.issued);
      IssuedReasoned(P, s.mc.table, u.mc.table, c.packet.value, s.log.issued, u.log.issued, s.now);
      IssuedAccountable(P, s, c.packet.value, u.mc.table, u.log.issued);
    }
  }

  lemma SplitTimed(P: Params, s: System, u: System)
    requires ValidParams(P) && Shape(P, s) && Shape(P, u) && SplitTransaction(P, s) == Ok(u) && TimedNow(P, s)
    ensures TimedNow(P, u)
  {
    SplitFrames(P, s, u);
  }

  lemma PowerTimed(P: Params, s: System, u: System)
    requires ValidParams(P) && Shape(P, s) && Shape(P, u) && Sim(P, s, s.now) && ManagePower(P, s) == Ok(u)
    requires TimedNow(P, s)
    ensures TimedNow(P, u)
  {
    PowerFrame(P, s, u);
    PoweredKept(P, s, u, s.log.issued);
    PoweredReasoned(P, s, u, s.log.issued);
    PoweredAccountable(P, s, u, s.log.issued);
  }

  lemma EndTimed(P: Params, s: System, x: System, u: System)
    requires ValidParams(P) && Shape(P, s) && Shape(P, x) && Shape(P, u) && ReturnRead(P, s) == Ok(x)
    requires u == EndCycle(P, x) && TimedNow(P, s)
    ensures TimedBetween(P, u)
  {
    ReturnFrame(P, s, x);
  }

  // The first half of a cycle, and what the second half starts from.
  lemma ThroughTimed(P: Params, s: System) returns (u: System)
    requires ValidParams(P) && Shape(P, s) && Between(P, s) && Core(P, s) && TimedBetween(P, s)
    ensures ThroughIssue(P, s) == Ok(u) && Shape(P, u) && Within(P, u) && Core(P, u) && Busy(P, u) && TimedNow(P, u)
  {
    BetweenMeans(P, s);
    var s1 := SettleHalf(P, s);
    SettleTimed(P, s, s1);
    var s2 := RefreshHalf(P, s1);
    RefreshTimed(P, s1, s2);
    var e := PopExplained(P, s2);
    u := PopHalf(P, s2);
    IssueTimed(P, s2, u, Pop(P, s2.mc.table, s2.mc.queue, s2.now));
  }

  lemma AfterTimed(P: Params, s: System, u: System)
    requires ValidParams(P) && Shape(P, s) && Within(P, s) && Core(P, s) && Busy(P, s) && TimedNow(P, s)
    requires AfterIssue(P, s) == Ok(u)
    ensures TimedBetween(P, u)
  {
    var s4 := SplitHalf(P, s);
    SplitTimed(P, s, s4);
    var s5 := PowerHalf(P, s4);
    PowerTimed(P, s4, s5);
    var s6 := ReturnHalf(P, s5);
    EndTimed(P, s5, s6, u);
  }

  // One cycle.
  lemma UpdateTimed(P: Params, s: System, u: System)
    requires ValidParams(P) && Shape(P, s) && Inv(P, s) && TimedBetween(P, s) && Update(P, s) == Ok(u)
    ensures TimedBetween(P, u)
  {
    var s3 := ThroughTimed(P, s);
    AfterTimed(P, s3, u);
  }

  lemma AcceptTimed(P: Params, s: System, isRead: bool, address: nat)
    requires Shape(P, s) && TimedBetween(P, s)
    ensures TimedBetween(P, Accept(P, s, isRead, address))
  {
    var u := Accept(P, s, isRead, address);
    assert u.mc.table == s.mc.table && u.log.issued == s.log.issued && u.now == s.now;
  }

  lemma StepTimed(P: Params, s: System, a: Action, u: System)
    requires ValidParams(P) && Shape(P, s) && Inv(P, s) && TimedBetween(P, s) && Step(P, s, a) == Ok(u)
    ensures TimedBetween(P, u)
  {
    match a
    case Request(isRead, address) =>
      AcceptTimed(P, s, isRead, address);
    case Cycle =>
      UpdateTimed(P, s, u);
  }

  lemma {:induction false} RunTimed(P: Params, s: System, actions: seq<Action>, u: System)
    requires ValidParams(P) && Shape(P, s) && Inv(P, s) && TimedBetween(P, s) && RunFrom(P, s, actions) == Ok(u)
    ensures TimedBetween(P, u)
    decreases |actions|
  {
    if actions != [] {
      var v := StepKeeps(P, s, actions[0]);
      StepTimed(P, s, actions[0], v);
      RunUnfold(P, s, actions, v);
      RunTimed(P, v, actions[1..], u);
    }
  }

  lemma InitTimed(P: Params)
    requires ValidParams(P) && Shape(P, Init(P))
    ensures TimedBetween(P, Init(P))
  {
  }

  lemma ReachedTimed(P: Params, actions: seq<Action>, s: System)
    requires ValidParams(P) && Run(P, actions) == Ok(s)
    ensures TimedBetween(P, s)
  {
    InitKeeps(P);
    InitTimed(P);
    RunTimed(P, Init(P), actions, s);
  }

  // MAIN RESULT.  In every run any two commands are as far apart as the rules ask, for as long as the controller
  // keeps the rule.
  lemma CommandsKeepTheirDistance(P: Params, actions: seq<Action>, s: System, i: nat, j: nat)
    requires ValidParams(P) && Run(P, actions) == Ok(s) && i < j < |s.log.issued|
    ensures FarFrom(P, s.log.issued, i, j)
  {
    ReachedTimed(P, actions, s);
  }

  // MAIN RESULT.  And in every run no bank waits for a cycle that no rule asks for.
  lemma NoNeedlessWait(P: Params, actions: seq<Action>, s: System, target: Target, r: nat, b: nat)
    requires ValidParams(P) && Run(P, actions) == Ok(s) && r < P.ranks && b < P.banks
    ensures Reasoned(P, s.log.issued, target, r, b, Earliest(s.mc.table[r][b], target), s.now - 1)
  {
    ReachedTimed(P, actions, s);
  }

  // MAIN RESULT.  And no bank closes or refreshes for longer, or without a command that made it so.
  lemma NoNeedlessClosing(P: Params, actions: seq<Action>, s: System, r: nat, b: nat)
    requires ValidParams(P) && Run(P, actions) == Ok(s) && r < P.ranks && b < P.banks
    ensures Accountable(P, s.log.issued, r, b, s.mc.table[r][b], s.now - 1)
  {
    ReachedTimed(P, actions, s);
  }

  // ---------- when the controller keeps every rule to its end

  // Reopening a row, and sleeping and waking, take at least as long as the rules that would be forgotten.
  predicate RulesLast(P: Params)
  {
    var next := Max(P.tCCD, P.BL / 2);
    var turn := P.BL / 2 + P.tRTRS + 1;
    var back := P.CL + P.AL - 1 + P.BL / 2 + P.tWTR;
    var open := P.tRCD - P.AL;
    && (P.closePage ==>
          && next <= Reopened(P, true) && turn <= Reopened(P, true)
          && next <= Reopened(P, false) && back <= Reopened(P, false))
    && (P.lowPower ==> P.tRC <= Awake(P, ACTIVATE) && P.tRRD <= Awake(P, ACTIVATE))
    && (P.lowPower && P.closePage ==>
          && P.AL + P.tRTP + P.tRP <= Awake(P, READ)
          && next <= Awake(P, READ) + open && turn <= Awake(P, READ) + open
          && next <= Awake(P, WRITE) + open && back <= Awake(P, WRITE) + open)
  }

  ghost predicate AllLast(P: Params)
  {
    forall first: Packet, target: Target, r: nat, b: nat :: Sent(P, first.kind) ==>
      Distance(P, first, target, r, b) == Spacing(P, first, target, r, b)
  }

  lemma RulesLastExactly(P: Params)
    requires ValidParams(P)
    ensures RulesLast(P) <==> AllLast(P)
  {
    if RulesLast(P) {
      forall first: Packet, target: Target, r: nat, b: nat | Sent(P, first.kind)
        ensures Distance(P, first, target, r, b) == Spacing(P, first, target, r, b)
      {
        LastsFor(P, first, target, r, b);
      }
    }
    if AllLast(P) { LastsAll(P); }
  }

  lemma LastsFor(P: Params, first: Packet, target: Target, r: nat, b: nat)
    requires ValidParams(P) && RulesLast(P) && Sent(P, first.kind)
    ensures Distance(P, first, target, r, b) == Spacing(P, first, target, r, b)
  {
    if IsAccess(target) {
      AccessLasts(P, first, target, r, b);
    } else {
      RowLasts(P, first, target, r, b);
    }
  }

  lemma AccessLasts(P: Params, first: Packet, target: Target, r: nat, b: nat)
    requires ValidParams(P) && RulesLast(P) && Sent(P, first.kind) && IsAccess(target)
    ensures Distance(P, first, target, r, b) == Spacing(P, first, target, r, b)
  {
  }

  lemma RowLasts(P: Params, first: Packet, target: Target, r: nat, b: nat)
    requires ValidParams(P) && RulesLast(P) && Sent(P, first.kind) && !IsAccess(target)
    ensures Distance(P, first, target, r, b) == Spacing(P, first, target, r, b)
  {
  }

  lemma LastsAll(P: Params)
    requires ValidParams(P) && AllLast(P)
    ensures RulesLast(P)
  {
    LastAt(P, ACTIVATE, ToActivate, 0);
    LastAt(P, ACTIVATE, ToActivate, 1);
    if P.closePage {
      LastAt(P, READ_P, ToActivate, 0);
      LastAt(P, READ_P, ToRead, 0);
      LastAt(P, READ_P, ToWrite, 0);
      LastAt(P, WRITE_P, ToRead, 0);
      LastAt(P, WRITE_P, ToWrite, 0);
    }
  }

  lemma LastAt(P: Params, k: Kind, target: Target, b: nat)
    requires AllLast(P) && Sent(P, k)
    ensures var p := Packet(k, 0, 0, 0, 0, 0); Distance(P, p, target, 0, b) == Spacing(P, p, target, 0, b)
  {
  }

  // The rules in numbers, between two commands of one rank that are `apart` cycles apart.
  predicate InNumbers(P: Params, p: Packet, q: Packet, apart: int)
  {
    var same, data := p.bank == q.bank, P.BL / 2;
    && (p.kind == ACTIVATE && q.kind == ACTIVATE ==> (if same then P.tRC else P.tRRD) <= apart)
    && (p.kind == ACTIVATE && q.kind == PRECHARGE && same ==> P.tRAS <= apart)
    && (p.kind == ACTIVATE && IsColumn(q.kind) && same ==> P.tRCD - P.AL <= apart)
    && (p.kind == PRECHARGE && q.kind == ACTIVATE && same ==> P.tRP <= apart)
    && (p.kind == REFRESH && (q.kind == ACTIVATE || q.kind == REFRESH) ==> P.tRFC <= apart)
    && (IsRead(p.kind) && IsRead(q.kind) ==> Max(P.tCCD, data) <= apart)
    && (IsWrite(p.kind) && IsWrite(q.kind) ==> Max(P.tCCD, data) <= apart)
    && (IsRead(p.kind) && IsWrite(q.kind) ==> data + P.tRTRS + 1 <= apart)
    && (IsWrite(p.kind) && IsRead(q.kind) ==> P.CL + P.AL - 1 + data + P.tWTR <= apart)
    && (p.kind == READ && q.kind == PRECHARGE && same ==>
          P.AL + data + Max(P.tRTP, P.tCCD) - P.tCCD <= apart)
    && (p.kind == WRITE && q.kind == PRECHARGE && same ==> P.CL + P.AL - 1 + data + P.tWR <= apart)
    && (p.kind == READ_P && (q.kind == REFRESH || (q.kind == ACTIVATE && same)) ==>
          P.AL + P.tRTP + P.tRP <= apart)
    && (p.kind == WRITE_P && (q.kind == REFRESH || (q.kind == ACTIVATE && same)) ==>
          P.CL + P.AL - 1 + data + P.tWR + P.tRP <= apart)
    && (q.kind == REFRESH && p.kind == PRECHARGE ==> P.tRP <= apart)
    && (q.kind == REFRESH && p.kind == ACTIVATE ==> P.tRC <= apart)
  }

  lemma FarInNumbers(P: Params, e: Issue, f: Issue)
    requires ValidParams(P) && RulesLast(P) && Sent(P, e.packet.kind) && Sent(P, f.packet.kind)
    requires e.packet.rank == f.packet.rank && e.packet.bank < P.banks && f.packet.bank < P.banks
    requires if f.packet.kind == REFRESH then
               forall b: nat :: b < P.banks ==> e.time + Distance(P, e.packet, ToActivate, f.packet.rank, b) <= f.time
             else e.time + Distance(P, e.packet, TargetOf(f.packet.kind), f.packet.rank, f.packet.bank) <= f.time
    ensures InNumbers(P, e.packet, f.packet, f.time - e.time)
  {
    if f.packet.kind == REFRESH {
      LastsFor(P, e.packet, ToActivate, f.packet.rank, e.packet.bank);
    } else {
      LastsFor(P, e.packet, TargetOf(f.packet.kind), f.packet.rank, f.packet.bank);
    }
  }

  // MAIN RESULT.  In every run the rules hold in numbers between any two commands of one rank.
  lemma RulesInNumbers(P: Params, actions: seq<Action>, s: System, i: nat, j: nat)
    requires ValidParams(P) && RulesLast(P) && Run(P, actions) == Ok(s) && i < j < |s.log.issued|
    requires s.log.issued[i].packet.rank == s.log.issued[j].packet.rank
    ensures var e, f := s.log.issued[i], s.log.issued[j]; InNumbers(P, e.packet, f.packet, f.time - e.time)
  {
    ReachedTimed(P, actions, s);
    assert FarFrom(P, s.log.issued, i, j);
    FarInNumbers(P, s.log.issued[i], s.log.issued[j]);
  }
}
