/** No bank is closing or refreshing without a command that made it so, nor longer than the rules ask. */
module DramCounts {
  import opened DramTypes
  import opened CommandQueueSpec
  import opened MemorySystemSpec
  import opened DramSafety
  import opened DramDistances

  // From an access with auto-precharge to the cycle its bank closes.
  function ClosesAfter(P: Params, isRead: bool): int
  {
    if isRead then P.AL + P.BL / 2 + Max(P.tRTP, P.tCCD) - P.tCCD else P.CL + P.AL - 1 + P.BL / 2 + P.tWR
  }

  // Command e keeps bank b of rank r in this status until cycle x.
  predicate KeepsBusy(P: Params, e: Issue, r: nat, b: nat, status: Status, x: int)
  {
    var p := e.packet;
    var auto, own := p.kind == READ_P || p.kind == WRITE_P, p.rank == r && p.bank == b;
    match status
    case RowActive => own && auto && x == e.time + ClosesAfter(P, p.kind == READ_P)
    case Precharging =>
      || (own && auto && x == e.time + ClosesAfter(P, p.kind == READ_P) + P.tRP)
      || (own && p.kind == PRECHARGE && x == e.time + P.tRP)
    case Refreshing => p.rank == r && p.kind == REFRESH && x == e.time + P.tRFC
    case _ => false
  }

  ghost predicate BusyFor(P: Params, issued: seq<Issue>, r: nat, b: nat, status: Status, x: int)
  {
    exists n: nat :: n < |issued| && KeepsBusy(P, issued[n], r, b, status, x)
  }

  // As of cycle t: a bank that counts down does so for a command, and one that closes or refreshes counts down.
  ghost predicate Accountable(P: Params, issued: seq<Issue>, r: nat, b: nat, m: BankState, t: int)
  {
    && (m.countdown > 0 ==> BusyFor(P, issued, r, b, m.status, t + m.countdown))
    && (m.status == Precharging || m.status == Refreshing ==> m.countdown > 0)
  }

  ghost predicate AllAccountable(P: Params, T: Table, issued: seq<Issue>, t: int)
    requires TableShape(P, T)
  {
    forall r: nat, b: nat :: r < P.ranks && b < P.banks ==> Accountable(P, issued, r, b, T[r][b], t)
  }

  lemma CountedBank(P: Params, issued: seq<Issue>, r: nat, b: nat, m: BankState, d: BankState, t: int)
    requires ValidParams(P) && SimBank(P, m, d, t) && Accountable(P, issued, r, b, m, t)
    ensures Accountable(P, issued, r, b, CountDownBank(P, m), t + 1)
  {
    if m.countdown == 1 && m.status == RowActive {
      var n: nat :| n < |issued| && KeepsBusy(P, issued[n], r, b, RowActive, t + 1);
      assert KeepsBusy(P, issued[n], r, b, Precharging, t + 1 + P.tRP);
    }
  }

  lemma CountedAccountable(P: Params, s: System, U: Table, issued: seq<Issue>, t: int, after: int)
    requires -1 <= t && after == t + 1 && ValidParams(P) && Shape(P, s) && Sim(P, s, t)
    requires U == CountDownTable(P, s.mc.table) && TableShape(P, U) && AllAccountable(P, s.mc.table, issued, t)
    ensures AllAccountable(P, U, issued, after)
  {
    forall r: nat, b: nat | r < P.ranks && b < P.banks ensures Accountable(P, issued, r, b, U[r][b], after) {
      CountedBank(P, issued, r, b, s.mc.table[r][b], Eff(P, s.mc.cmd, r, b, s.ranks[r].banks[b], after), t);
    }
  }

  lemma BusyForNext(P: Params, issued: seq<Issue>, e: Issue, r: nat, b: nat, status: Status, x: int)
    requires BusyFor(P, issued, r, b, status, x) || KeepsBusy(P, e, r, b, status, x)
    ensures BusyFor(P, issued + [e], r, b, status, x)
  {
    var longer := issued + [e];
    if KeepsBusy(P, e, r, b, status, x) {
      assert KeepsBusy(P, longer[|issued|], r, b, status, x);
    } else {
      var n: nat :| n < |issued| && KeepsBusy(P, issued[n], r, b, status, x);
      assert KeepsBusy(P, longer[n], r, b, status, x);
    }
  }

  // What a command makes a bank count, or leaves it counting.
  lemma BookedBusy(P: Params, p: Packet, r: nat, b: nat, m: BankState, d: BankState, now: nat)
    requires ValidParams(P) && SimBank(P, m, d, now)
    requires r == p.rank && (b == p.bank || p.kind == REFRESH) ==> MayIssue(P, p, m, now)
    ensures var u := IssueBank(P, p, r, b, m, now);
            && (u.countdown > 0 ==>
                  || (u.countdown == m.countdown && u.status == m.status)
                  || KeepsBusy(P, Issue(now, p), r, b, u.status, now + u.countdown))
            && (u.status == Precharging || u.status == Refreshing ==> u.countdown > 0)
  {
  }

  lemma BookedAccountable(P: Params, s: System, p: Packet, issued: seq<Issue>, r: nat, b: nat)
    requires ValidParams(P) && Shape(P, s) && Sim(P, s, s.now) && s.mc.cmd.None? && GoodPop(P, s.mc.table, p, s.now)
    requires r < P.ranks && b < P.banks && Accountable(P, issued, r, b, s.mc.table[r][b], s.now)
    ensures Accountable(P, issued + [Issue(s.now, p)], r, b, IssueBank(P, p, r, b, s.mc.table[r][b], s.now), s.now)
  {
    var m, d := s.mc.table[r][b], s.ranks[r].banks[b];
    assert SimBank(P, m, d, s.now);
    BookedBusy(P, p, r, b, m, d, s.now);
    var u := IssueBank(P, p, r, b, m, s.now);
    if u.countdown > 0 { BusyForNext(P, issued, Issue(s.now, p), r, b, u.status, s.now + u.countdown); }
  }

  lemma IssuedAccountable(P: Params, s: System, p: Packet, U: Table, longer: seq<Issue>)
    requires ValidParams(P) && Shape(P, s) && Sim(P, s, s.now) && s.mc.cmd.None? && GoodPop(P, s.mc.table, p, s.now)
    requires longer == s.log.issued + [Issue(s.now, p)] && AllAccountable(P, s.mc.table, s.log.issued, s.now)
    requires U == IssueTable(P, p, s.mc.table, s.now) && TableShape(P, U)
    ensures AllAccountable(P, U, longer, s.now)
  {
    forall r: nat, b: nat | r < P.ranks && b < P.banks ensures Accountable(P, longer, r, b, U[r][b], s.now) {
      BookedAccountable(P, s, p, s.log.issued, r, b);
    }
  }

  lemma PoweredAccountable(P: Params, s: System, u: System, issued: seq<Issue>)
    requires ValidParams(P) && Shape(P, s) && Shape(P, u) && Sim(P, s, s.now) && ManagePower(P, s) == Ok(u)
    requires AllAccountable(P, s.mc.table, issued, s.now)
    ensures AllAccountable(P, u.mc.table, issued, s.now)
  {
    forall r: nat, b: nat | r < P.ranks && b < P.banks ensures Accountable(P, issued, r, b, u.mc.table[r][b], s.now) {
      PowerMoves(P, s, u, r, b);
      assert SimBank(P, s.mc.table[r][b], Eff(P, s.mc.cmd, r, b, s.ranks[r].banks[b], s.now + 1), s.now);
    }
  }
}
