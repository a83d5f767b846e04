/** No bank waits longer than a device rule asks for. */
module DramReasons {
  import opened DramTypes
  import opened CommandQueueSpec
  import opened MemorySystemSpec
  import opened DramSafety
  import opened DramRules
  import opened DramDistances

  // Cycle x is when the rule of command e ends for this bank.
  predicate Ends(P: Params, e: Issue, target: Target, r: nat, b: nat, x: nat)
  {
    x == e.time + Spacing(P, e.packet, target, r, b)
  }

  ghost predicate Explained(P: Params, issued: seq<Issue>, target: Target, r: nat, b: nat, x: nat)
  {
    x == 0 || exists n: nat :: n < |issued| && Ends(P, issued[n], target, r, b, x)
  }

  // The rank may have woken up to x, if it did so by cycle t.
  predicate Woken(P: Params, x: nat, t: int) { P.lowPower && P.tXP <= x <= t + P.tXP }

  // An access may also have to wait for the cycle its bank may be opened again.
  ghost predicate Reasoned(P: Params, issued: seq<Issue>, target: Target, r: nat, b: nat, x: nat, t: int)
  {
    || Explained(P, issued, target, r, b, x)
    || (IsAccess(target) && Explained(P, issued, ToActivate, r, b, x))
    || (target != ToPrecharge && Woken(P, x, t))
  }

  ghost predicate AllReasoned(P: Params, T: Table, issued: seq<Issue>, t: int)
    requires TableShape(P, T)
  {
    forall r: nat, b: nat, target: Target :: r < P.ranks && b < P.banks ==>
      Reasoned(P, issued, target, r, b, Earliest(T[r][b], target), t)
  }

  lemma CountedEarliest(P: Params, m: BankState, target: Target)
    ensures Earliest(CountDownBank(P, m), target) == Earliest(m, target)
  {
  }

  lemma ReasonedLater(P: Params, issued: seq<Issue>, target: Target, r: nat, b: nat, x: nat, t: int, after: int)
    requires Reasoned(P, issued, target, r, b, x, t) && t <= after
    ensures Reasoned(P, issued, target, r, b, x, after)
  {
  }

  lemma CountedReasoned(P: Params, T: Table, U: Table, issued: seq<Issue>, t: int, after: int)
    requires TableShape(P, T) && TableShape(P, U) && U == CountDownTable(P, T) && AllReasoned(P, T, issued, t)
    requires t <= after
    ensures AllReasoned(P, U, issued, after)
  {
    forall r: nat, b: nat, target: Target | r < P.ranks && b < P.banks
      ensures Reasoned(P, issued, target, r, b, Earliest(U[r][b], target), after)
    {
      CountedEarliest(P, T[r][b], target);
      ReasonedLater(P, issued, target, r, b, Earliest(T[r][b], target), t, after);
    }
  }

  lemma AccessEnds(P: Params, p: Packet, r: nat, b: nat, m: BankState, target: Target, now: nat)
    requires ValidParams(P) && IsColumn(p.kind)
    ensures var u, e := IssueBank(P, p, r, b, m, now), Issue(now, p);
            || Earliest(u, target) == Earliest(m, target) || Ends(P, e, target, r, b, Earliest(u, target))
            || (IsAccess(target) && Earliest(u, target) == u.nextActivate)
  {
  }

  lemma RowEnds(P: Params, p: Packet, r: nat, b: nat, m: BankState, target: Target, now: nat)
    requires ValidParams(P) && !IsColumn(p.kind)
    ensures var u, e := IssueBank(P, p, r, b, m, now), Issue(now, p);
            || Earliest(u, target) == Earliest(m, target) || Ends(P, e, target, r, b, Earliest(u, target))
            || (IsAccess(target) && Earliest(u, target) == u.nextActivate)
  {
  }

  // A booking ends where it did, where the rule of the new command ends, or where the bank may be opened again.
  lemma BookedEnds(P: Params, p: Packet, r: nat, b: nat, m: BankState, target: Target, now: nat)
    requires ValidParams(P)
    ensures var u, e := IssueBank(P, p, r, b, m, now), Issue(now, p);
            || Earliest(u, target) == Earliest(m, target) || Ends(P, e, target, r, b, Earliest(u, target))
            || (IsAccess(target) && Earliest(u, target) == u.nextActivate)
  {
    if IsColumn(p.kind) {
      AccessEnds(P, p, r, b, m, target, now);
    } else {
      RowEnds(P, p, r, b, m, target, now);
    }
  }

  lemma ExplainedNext(P: Params, issued: seq<Issue>, e: Issue, target: Target, r: nat, b: nat, x: nat)
    requires Explained(P, issued, target, r, b, x) || Ends(P, e, target, r, b, x)
    ensures Explained(P, issued + [e], target, r, b, x)
  {
    var longer := issued + [e];
    if Ends(P, e, target, r, b, x) {
      assert Ends(P, longer[|issued|], target, r, b, x);
    } else if x != 0 {
      var n: nat :| n < |issued| && Ends(P, issued[n], target, r, b, x);
      assert Ends(P, longer[n], target, r, b, x);
    }
  }

  lemma ReasonedNext(P: Params, issued: seq<Issue>, e: Issue, target: Target, r: nat, b: nat, x: nat, t: int)
    requires Reasoned(P, issued, target, r, b, x, t) || Ends(P, e, target, r, b, x)
    ensures Reasoned(P, issued + [e], target, r, b, x, t)
  {
    if Explained(P, issued, target, r, b, x) || Ends(P, e, target, r, b, x) {
      ExplainedNext(P, issued, e, target, r, b, x);
    } else if IsAccess(target) && Explained(P, issued, ToActivate, r, b, x) {
      ExplainedNext(P, issued, e, ToActivate, r, b, x);
    }
  }

  lemma BookedReasoned(P: Params, T: Table, p: Packet, issued: seq<Issue>, r: nat, b: nat, target: Target, now: nat)
    requires ValidParams(P) && TableShape(P, T) && AllReasoned(P, T, issued, now) && r < P.ranks && b < P.banks
    ensures var u := IssueBank(P, p, r, b, T[r][b], now);
            Reasoned(P, issued + [Issue(now, p)], target, r, b, Earliest(u, target), now)
  {
    var m, e := T[r][b], Issue(now, p);
    var u := IssueBank(P, p, r, b, m, now);
    BookedEnds(P, p, r, b, m, target, now);
    BookedEnds(P, p, r, b, m, ToActivate, now);
    assert Reasoned(P, issued, target, r, b, Earliest(m, target), now);
    assert Reasoned(P, issued, ToActivate, r, b, Earliest(m, ToActivate), now);
    ReasonedNext(P, issued, e, ToActivate, r, b, u.nextActivate, now);
    if !(IsAccess(target) && Earliest(u, target) == u.nextActivate) {
      ReasonedNext(P, issued, e, target, r, b, Earliest(u, target), now);
    }
  }

  lemma IssuedReasoned(P: Params, T: Table, U: Table, p: Packet, issued: seq<Issue>, longer: seq<Issue>, now: nat)
    requires ValidParams(P) && TableShape(P, T) && TableShape(P, U) && U == IssueTable(P, p, T, now)
    requires AllReasoned(P, T, issued, now) && longer == issued + [Issue(now, p)]
    ensures AllReasoned(P, U, longer, now)
  {
    forall r: nat, b: nat, target: Target | r < P.ranks && b < P.banks
      ensures Reasoned(P, longer, target, r, b, Earliest(U[r][b], target), now)
    {
      BookedReasoned(P, T, p, issued, r, b, target, now);
    }
  }

  lemma MovedReasoned(P: Params, issued: seq<Issue>, m: BankState, u: BankState, target: Target, r: nat, b: nat,
          now: nat)
    requires Moved(P, m, u, now) && Reasoned(P, issued, target, r, b, Earliest(m, target), now)
    ensures Reasoned(P, issued, target, r, b, Earliest(u, target), now)
  {
  }

  lemma PoweredReasoned(P: Params, s: System, u: System, issued: seq<Issue>)
    requires ValidParams(P) && Shape(P, s) && Shape(P, u) && Sim(P, s, s.now) && ManagePower(P, s) == Ok(u)
    requires AllReasoned(P, s.mc.table, issued, s.now)
    ensures AllReasoned(P, u.mc.table, issued, s.now)
  {
    forall r: nat, b: nat, target: Target | r < P.ranks && b < P.banks
      ensures Reasoned(P, issued, target, r, b, Earliest(u.mc.table[r][b], target), s.now)
    {
      PowerMoves(P, s, u, r, b);
      MovedReasoned(P, issued, s.mc.table[r][b], u.mc.table[r][b], target, r, b, s.now);
    }
  }
}
