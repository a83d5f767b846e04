/** Every run keeps its commands as far apart as the device rules ask. */
module DramDistances {
  import opened Basics
  import opened DramTypes
  import opened CommandQueueSpec
  import opened MemorySystemSpec
  import opened DramSafety
  import opened DramRules

  // Bank b of rank r was opened after entry `from` of the log.
  ghost predicate Opened(issued: seq<Issue>, from: nat, r: nat, b: nat)
  {
    exists k: nat :: from < k < |issued| && Opens(issued[k].packet, r, b)
  }

  // Command j of the log keeps its distance from command i.  A refresh counts as an activate of every bank, and an
  // access need not mind one to another rank when its row was opened in between.
  ghost predicate FarFrom(P: Params, issued: seq<Issue>, i: nat, j: nat)
    requires i < j < |issued|
  {
    var e, f := issued[i], issued[j];
    match f.packet.kind
    case DATA => true
    case REFRESH => forall b: nat :: b < P.banks ==>
      e.time + Distance(P, e.packet, ToActivate, f.packet.rank, b) <= f.time
    case _ =>
      var target := TargetOf(f.packet.kind);
      || (IsAccess(target) && e.packet.rank != f.packet.rank && Opened(issued[..j], i, f.packet.rank, f.packet.bank))
      || e.time + Distance(P, e.packet, target, f.packet.rank, f.packet.bank) <= f.time
  }

  ghost predicate Spread(P: Params, issued: seq<Issue>)
  {
    forall i: nat, j: nat :: i < j < |issued| ==> FarFrom(P, issued, i, j)
  }

  ghost predicate Logged(P: Params, issued: seq<Issue>, t: int)
  {
    forall n: nat :: n < |issued| ==>
      var p := issued[n].packet;
      issued[n].time <= t && InRange(P, Slot(p.rank, p.bank)) && Sent(P, p.kind)
  }

  // Every bank keeps the rules of every command.
  ghost predicate Banked(P: Params, T: Table, issued: seq<Issue>)
    requires TableShape(P, T)
  {
    forall n: nat, r: nat, b: nat, target: Target :: n < |issued| && r < P.ranks && b < P.banks ==>
      Keeps(P, issued[n], Opened(issued, n, r, b), r, b, T[r][b], target)
  }

  predicate Rests(P: Params, T: Table, e: Issue, t: int)
    requires TableShape(P, T) && InRange(P, Slot(e.packet.rank, e.packet.bank))
  {
    RestsFrom(P, T[e.packet.rank][e.packet.bank], e.time + AtRest(P, e.packet.kind), t)
  }

  ghost predicate Rested(P: Params, T: Table, issued: seq<Issue>, t: int)
    requires TableShape(P, T) && Logged(P, issued, t)
  {
    forall n: nat :: n < |issued| ==> Rests(P, T, issued[n], t)
  }

  ghost predicate Kept(P: Params, T: Table, issued: seq<Issue>, t: int)
    requires TableShape(P, T)
  {
    Logged(P, issued, t) && Banked(P, T, issued) && Rested(P, T, issued, t) && Spread(P, issued)
  }

  // ---------- counting down

  lemma CountedKept(P: Params, s: System, U: Table, issued: seq<Issue>, t: int, after: int)
    requires -1 <= t && after == t + 1 && ValidParams(P) && Shape(P, s) && Sim(P, s, t)
    requires U == CountDownTable(P, s.mc.table) && TableShape(P, U) && Kept(P, s.mc.table, issued, t)
    ensures Kept(P, U, issued, after)
  {
    var T := s.mc.table;
    forall n: nat, r: nat, b: nat, target: Target | n < |issued| && r < P.ranks && b < P.banks
      ensures Keeps(P, issued[n], Opened(issued, n, r, b), r, b, U[r][b], target)
    {
      var d := Eff(P, s.mc.cmd, r, b, s.ranks[r].banks[b], after);
      CountDownKeeps(P, issued[n], Opened(issued, n, r, b), r, b, T[r][b], d, target, t);
    }
    forall n: nat | n < |issued| ensures Rests(P, U, issued[n], after) {
      var r, b := issued[n].packet.rank, issued[n].packet.bank;
      var d := Eff(P, s.mc.cmd, r, b, s.ranks[r].banks[b], after);
      assert Rests(P, T, issued[n], t);
      CountDownRests(P, T[r][b], d, issued[n].time + AtRest(P, issued[n].packet.kind), t);
    }
  }

  // ---------- issuing

  lemma OpenedNext(issued: seq<Issue>, e: Issue, n: nat, r: nat, b: nat)
    requires n < |issued|
    ensures Opened(issued + [e], n, r, b) <==> Opened(issued, n, r, b) || Opens(e.packet, r, b)
  {
    var longer := issued + [e];
    if Opened(issued, n, r, b) {
      var k: nat :| n < k < |issued| && Opens(issued[k].packet, r, b);
      assert Opens(longer[k].packet, r, b);
    }
    assert longer[|issued|] == e;
  }

  lemma NotOpened(issued: seq<Issue>, e: Issue, r: nat, b: nat)
    ensures !Opened(issued + [e], |issued|, r, b)
  {
  }

  // A command that may be sent keeps its distance.
  lemma SentLate(P: Params, e: Issue, reopened: bool, p: Packet, b: nat, m: BankState, d: BankState, target: Target,
          now: nat)
    requires ValidParams(P) && SimBank(P, m, d, now) && MayIssue(P, p, m, now) && target == TargetOf(p.kind)
    requires e.time <= now && Keeps(P, e, reopened, p.rank, b, m, target)
    ensures || (IsAccess(target) && e.packet.rank != p.rank && reopened)
            || e.time + Distance(P, e.packet, target, p.rank, b) <= now
  {
  }

  lemma SentAfter(P: Params, s: System, p: Packet, b: nat, n: nat, target: Target)
    requires ValidParams(P) && Shape(P, s) && Sim(P, s, s.now) && s.mc.cmd.None? && target == TargetOf(p.kind)
    requires p.rank < P.ranks && b < P.banks && n < |s.log.issued| && MayIssue(P, p, s.mc.table[p.rank][b], s.now)
    requires Logged(P, s.log.issued, s.now) && Banked(P, s.mc.table, s.log.issued)
    ensures var e := s.log.issued[n];
            || (IsAccess(target) && e.packet.rank != p.rank && Opened(s.log.issued, n, p.rank, b))
            || e.time + Distance(P, e.packet, target, p.rank, b) <= s.now
  {
    var m, d := s.mc.table[p.rank][b], s.ranks[p.rank].banks[b];
    assert SimBank(P, m, d, s.now);
    assert Keeps(P, s.log.issued[n], Opened(s.log.issued, n, p.rank, b), p.rank, b, m, target);
    SentLate(P, s.log.issued[n], Opened(s.log.issued, n, p.rank, b), p, b, m, d, target, s.now);
  }

  lemma SpreadNext(P: Params, s: System, p: Packet, longer: seq<Issue>, i: nat)
    requires ValidParams(P) && Shape(P, s) && Sim(P, s, s.now) && s.mc.cmd.None? && GoodPop(P, s.mc.table, p, s.now)
    requires longer == s.log.issued + [Issue(s.now, p)] && i < |s.log.issued|
    requires Logged(P, s.log.issued, s.now) && Banked(P, s.mc.table, s.log.issued)
    ensures FarFrom(P, longer, i, |s.log.issued|)
  {
    assert longer[..|s.log.issued|] == s.log.issued;
    if p.kind == REFRESH {
      forall b: nat | b < P.banks
        ensures longer[i].time + Distance(P, longer[i].packet, ToActivate, p.rank, b) <= s.now
      {
        SentAfter(P, s, p, b, i, ToActivate);
      }
    } else {
      SentAfter(P, s, p, p.bank, i, TargetOf(p.kind));
    }
  }

  lemma FarBefore(P: Params, issued: seq<Issue>, longer: seq<Issue>, i: nat, j: nat)
    requires issued <= longer && i < j < |issued| && FarFrom(P, issued, i, j)
    ensures FarFrom(P, longer, i, j)
  {
    assert longer[..j] == issued[..j];
  }

  lemma SpreadKept(P: Params, s: System, p: Packet, longer: seq<Issue>)
    requires ValidParams(P) && Shape(P, s) && Sim(P, s, s.now) && s.mc.cmd.None? && GoodPop(P, s.mc.table, p, s.now)
    requires longer == s.log.issued + [Issue(s.now, p)] && Kept(P, s.mc.table, s.log.issued, s.now)
    ensures Spread(P, longer)
  {
    forall i: nat, j: nat | i < j < |longer| ensures FarFrom(P, longer, i, j) {
      if j < |s.log.issued| {
        FarBefore(P, s.log.issued, longer, i, j);
      } else {
        SpreadNext(P, s, p, longer, i);
      }
    }
  }

  lemma StillKeeps(P: Params, s: System, p: Packet, n: nat, r: nat, b: nat, target: Target)
    requires ValidParams(P) && Shape(P, s) && Sim(P, s, s.now) && s.mc.cmd.None? && GoodPop(P, s.mc.table, p, s.now)
    requires Logged(P, s.log.issued, s.now) && Banked(P, s.mc.table, s.log.issued)
    requires n < |s.log.issued| && r < P.ranks && b < P.banks
    ensures Keeps(P, s.log.issued[n], Opened(s.log.issued, n, r, b) || Opens(p, r, b), r, b,
                  IssueBank(P, p, r, b, s.mc.table[r][b], s.now), target)
  {
    var issued, m, d := s.log.issued, s.mc.table[r][b], s.ranks[r].banks[b];
    assert SimBank(P, m, d, s.now);
    assert Keeps(P, issued[n], Opened(issued, n, r, b), r, b, m, target);
    if IsAccess(target) {
      IssueKeepsAccess(P, p, issued[n], Opened(issued, n, r, b), r, b, m, d, target, s.now);
    } else {
      IssueKeepsRow(P, p, issued[n], Opened(issued, n, r, b), r, b, m, d, target, s.now);
    }
  }

  lemma NewKeeps(P: Params, s: System, p: Packet, r: nat, b: nat, target: Target)
    requires ValidParams(P) && Shape(P, s) && Sim(P, s, s.now) && s.mc.cmd.None? && GoodPop(P, s.mc.table, p, s.now)
    requires r < P.ranks && b < P.banks
    ensures Keeps(P, Issue(s.now, p), false, r, b, IssueBank(P, p, r, b, s.mc.table[r][b], s.now), target)
  {
    var m, d := s.mc.table[r][b], s.ranks[r].banks[b];
    assert SimBank(P, m, d, s.now);
    if IsAccess(target) {
      IssuedKeepsAccess(P, p, r, b, m, d, target, s.now);
    } else {
      IssuedKeepsRow(P, p, r, b, m, d, target, s.now);
    }
  }

  lemma BookedKeeps(P: Params, s: System, p: Packet, longer: seq<Issue>, n: nat, r: nat, b: nat, target: Target)
    requires ValidParams(P) && Shape(P, s) && Sim(P, s, s.now) && s.mc.cmd.None? && GoodPop(P, s.mc.table, p, s.now)
    requires longer == s.log.issued + [Issue(s.now, p)] && Logged(P, s.log.issued, s.now)
    requires Banked(P, s.mc.table, s.log.issued) && n < |longer| && r < P.ranks && b < P.banks
    ensures Keeps(P, longer[n], Opened(longer, n, r, b), r, b, IssueBank(P, p, r, b, s.mc.table[r][b], s.now), target)
  {
    if n < |s.log.issued| {
      OpenedNext(s.log.issued, Issue(s.now, p), n, r, b);
      StillKeeps(P, s, p, n, r, b, target);
    } else {
      NotOpened(s.log.issued, Issue(s.now, p), r, b);
      NewKeeps(P, s, p, r, b, target);
    }
  }

  lemma BookedRests(P: Params, s: System, p: Packet, U: Table, longer: seq<Issue>, n: nat)
    requires ValidParams(P) && Shape(P, s) && Sim(P, s, s.now) && s.mc.cmd.None? && GoodPop(P, s.mc.table, p, s.now)
    requires longer == s.log.issued + [Issue(s.now, p)] && Logged(P, longer, s.now) && Logged(P, s.log.issued, s.now)
    requires U == IssueTable(P, p, s.mc.table, s.now) && TableShape(P, U)
    requires Rested(P, s.mc.table, s.log.issued, s.now) && n < |longer|
    ensures Rests(P, U, longer[n], s.now)
  {
    var r, b := longer[n].packet.rank, longer[n].packet.bank;
    var m, d := s.mc.table[r][b], s.ranks[r].banks[b];
    assert SimBank(P, m, d, s.now);
    if n < |s.log.issued| {
      assert Rests(P, s.mc.table, s.log.issued[n], s.now);
      IssueRests(P, p, r, b, m, d, longer[n].time + AtRest(P, longer[n].packet.kind), s.now);
    } else {
      IssuedRests(P, p, m, d, s.now);
    }
  }

  lemma IssuedKept(P: Params, s: System, p: Packet, U: Table, longer: seq<Issue>)
    requires ValidParams(P) && Shape(P, s) && Sim(P, s, s.now) && s.mc.cmd.None? && GoodPop(P, s.mc.table, p, s.now)
    requires longer == s.log.issued + [Issue(s.now, p)] && Kept(P, s.mc.table, s.log.issued, s.now)
    requires U == IssueTable(P, p, s.mc.table, s.now) && TableShape(P, U)
    ensures Kept(P, U, longer, s.now)
  {
    SpreadKept(P, s, p, longer);
    forall n: nat, r: nat, b: nat, target: Target | n < |longer| && r < P.ranks && b < P.banks
      ensures Keeps(P, longer[n], Opened(longer, n, r, b), r, b, U[r][b], target)
    {
      BookedKeeps(P, s, p, longer, n, r, b, target);
    }
    forall n: nat | n < |longer| ensures Rests(P, U, longer[n], s.now) {
      BookedRests(P, s, p, U, longer, n);
    }
  }

  // ---------- sleeping and waking

  // What power management does to a bank of rank r.
  predicate Moved(P: Params, m: BankState, u: BankState, now: nat)
  {
    || u == m
    || (P.lowPower && m.status == Idle && u == m.(status := PowerDown, nextPowerUp := now + P.tCKE))
    || (P.lowPower && m.status == PowerDown && m.nextPowerUp <= now
       && u == m.(status := Idle, nextActivate := now + P.tXP))
  }

  lemma PowerMoves(P: Params, s: System, u: System, r: nat, b: nat)
    requires ValidParams(P) && Shape(P, s) && Shape(P, u) && Sim(P, s, s.now) && ManagePower(P, s) == Ok(u)
    requires r < P.ranks && b < P.banks
    ensures Moved(P, s.mc.table[r][b], u.mc.table[r][b], s.now)
  {
    assert s.mc.powerDown[r] ==> s.mc.table[r][b].nextPowerUp == s.mc.table[r][0].nextPowerUp;
  }

  // A rank sleeps and wakes as a whole.
  lemma PowerTogether(P: Params, s: System, u: System, r: nat, b: nat, c: nat)
    requires ValidParams(P) && Shape(P, s) && Shape(P, u) && Sim(P, s, s.now) && ManagePower(P, s) == Ok(u)
    requires r < P.ranks && b < P.banks && c < P.banks
    ensures s.mc.table[r][b].status == PowerDown && u.mc.table[r][b].status != PowerDown ==>
              s.mc.table[r][c].status == PowerDown && s.mc.table[r][c].nextPowerUp <= s.now
  {
    assert s.mc.powerDown[r] ==> s.mc.table[r][c].nextPowerUp == s.mc.table[r][0].nextPowerUp;
  }

  lemma MovedRests(P: Params, m: BankState, u: BankState, x: int, now: nat)
    requires Moved(P, m, u, now) && RestsFrom(P, m, x, now)
    ensures RestsFrom(P, u, x, now)
  {
  }

  lemma MovedKeeps(P: Params, s: System, u: System, e: Issue, reopened: bool, r: nat, b: nat, target: Target)
    requires ValidParams(P) && Shape(P, s) && Shape(P, u) && Sim(P, s, s.now) && ManagePower(P, s) == Ok(u)
    requires InRange(P, Slot(e.packet.rank, e.packet.bank)) && Rests(P, s.mc.table, e, s.now)
    requires r < P.ranks && b < P.banks && Keeps(P, e, reopened, r, b, s.mc.table[r][b], target)
    ensures Keeps(P, e, reopened, r, b, u.mc.table[r][b], target)
  {
    PowerMoves(P, s, u, r, b);
    var m, w := s.mc.table[r][b], u.mc.table[r][b];
    if m.status == PowerDown && w.status != PowerDown {
      if e.packet.rank == r { PowerTogether(P, s, u, r, b, e.packet.bank); }
      WakeKeeps(P, e, reopened, r, b, m, target, s.now);
    }
  }

  lemma PoweredKept(P: Params, s: System, u: System, issued: seq<Issue>)
    requires ValidParams(P) && Shape(P, s) && Shape(P, u) && Sim(P, s, s.now) && ManagePower(P, s) == Ok(u)
    requires Kept(P, s.mc.table, issued, s.now)
    ensures Kept(P, u.mc.table, issued, s.now)
  {
    forall n: nat, r: nat, b: nat, target: Target | n < |issued| && r < P.ranks && b < P.banks
      ensures Keeps(P, issued[n], Opened(issued, n, r, b), r, b, u.mc.table[r][b], target)
    {
      MovedKeeps(P, s, u, issued[n], Opened(issued, n, r, b), r, b, target);
    }
    forall n: nat | n < |issued| ensures Rests(P, u.mc.table, issued[n], s.now) {
      var r, b := issued[n].packet.rank, issued[n].packet.bank;
      PowerMoves(P, s, u, r, b);
      MovedRests(P, s.mc.table[r][b], u.mc.table[r][b], issued[n].time + AtRest(P, issued[n].packet.kind), s.now);
    }
  }
}
