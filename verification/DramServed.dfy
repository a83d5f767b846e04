/** A refresh that is asked for is sent in the first cycle its rank is ready, or replaced by the next request. */
module DramServed {
  import opened Basics
  import opened DramTypes
  import opened MemorySystemSpec
  import opened DramTimers
  import opened DramRuns
  import opened DramTheorems
  import opened DramRefresh

  // ---------- what refreshing sees of the beginning of a cycle

  datatype Moment = Moment(issued: seq<Issue>, asked: Option<nat>, pending: Option<nat>, ready: seq<bool>)

  // The rank waiting at the pop.
  function WaitingRank(m: Moment): Option<nat> { if m.asked.Some? then m.asked else m.pending }

  predicate ReadyFor(m: Moment, o: Option<nat>) { o.Some? && o.value < |m.ready| && m.ready[o.value] }

  predicate Refreshes(e: Issue, r: nat) { e.packet.kind == REFRESH && e.packet.rank == r }

  // From one cycle, number n, to the next: the waiting rank is refreshed exactly when it is ready.
  ghost predicate Follows(m: Moment, u: Moment, n: nat)
  {
    && |m.issued| <= |u.issued| <= |m.issued| + 1 && m.issued <= u.issued
    && (|u.issued| == |m.issued| + 1 ==> u.issued[|m.issued|].time == n)
    && u.pending == (if ReadyFor(m, WaitingRank(m)) then None else WaitingRank(m))
    && (ReadyFor(m, WaitingRank(m)) <==>
          |u.issued| == |m.issued| + 1 && u.issued[|m.issued|].packet.kind == REFRESH)
    && (ReadyFor(m, WaitingRank(m)) ==> u.issued[|m.issued|].packet.rank == WaitingRank(m).value)
  }

  ghost predicate OnSchedule(P: Params, m: Moment, n: nat)
  {
    forall i: nat :: i < P.ranks ==> (m.asked == Some(i) <==> exists k: nat :: n == Due(P, i, k))
  }

  predicate Fits(P: Params, m: Moment) { |m.ready| == P.ranks && (m.asked.Some? ==> m.asked.value < P.ranks) }

  // A history of a system that starts with nothing asked for and nothing sent.
  ghost predicate History(P: Params, t: seq<Moment>)
  {
    && |t| >= 1 && t[0].issued == [] && t[0].pending == None
    && (forall n: nat :: n < |t| ==> OnSchedule(P, t[n], n) && Fits(P, t[n]))
    && (forall n: nat :: n < |t| - 1 ==> Follows(t[n], t[n + 1], n))
  }

  // No request strictly between.
  ghost predicate NoDue(P: Params, from: int, to: int)
  {
    forall j: nat, l: nat :: j < P.ranks ==> !(from < Due(P, j, l) < to)
  }

  ghost predicate ReadyBetween(t: seq<Moment>, i: nat, from: int, to: int)
  {
    exists c: nat :: from <= c < to && c < |t| && i < |t[c].ready| && t[c].ready[i]
  }

  ghost predicate RefreshedBetween(issued: seq<Issue>, i: nat, from: int, to: int)
  {
    exists n: nat :: n < |issued| && Refreshes(issued[n], i) && from <= issued[n].time < to
  }

  // ---------- histories

  lemma {:induction false} TimesPast(P: Params, t: seq<Moment>, n: nat)
    requires History(P, t) && n < |t|
    ensures forall e :: e in t[n].issued ==> e.time < n
  {
    if n > 0 {
      TimesPast(P, t, n - 1);
      assert Follows(t[n - 1], t[n], n - 1);
    }
  }

  // The latest request before cycle n waits as long as its rank has not been ready.
  ghost predicate WaitsRight(P: Params, t: seq<Moment>, n: nat)
    requires n < |t|
  {
    && (forall i: nat, k: nat :: i < P.ranks && Due(P, i, k) < n && NoDue(P, Due(P, i, k), n) ==>
          (t[n].pending == if ReadyBetween(t, i, Due(P, i, k), n) then None else Some(i)))
    && (t[n].pending.Some? ==>
          t[n].pending.value < P.ranks
          && exists k: nat :: Due(P, t[n].pending.value, k) < n && NoDue(P, Due(P, t[n].pending.value, k), n))
  }

  lemma WaitingIs(P: Params, t: seq<Moment>, n: nat, i: nat, k: nat)
    requires History(P, t) && n < |t| && WaitsRight(P, t, n) && i < P.ranks
    requires Due(P, i, k) <= n && NoDue(P, Due(P, i, k), n + 1)
    ensures WaitingRank(t[n]) == if ReadyBetween(t, i, Due(P, i, k), n) then None else Some(i)
  {
    assert OnSchedule(P, t[n], n);
    if Due(P, i, k) < n { assert NoDue(P, Due(P, i, k), n); }
  }

  lemma ReadyNext(t: seq<Moment>, i: nat, from: int, n: nat)
    requires n < |t| && i < |t[n].ready| && from <= n
    ensures ReadyBetween(t, i, from, n + 1) <==> ReadyBetween(t, i, from, n) || t[n].ready[i]
  {
  }

  lemma NotDueNow(P: Params, m: Moment, n: nat)
    requires OnSchedule(P, m, n) && m.asked.None?
    ensures forall j: nat, l: nat :: j < P.ranks ==> Due(P, j, l) != n
  {
    forall j: nat, l: nat | j < P.ranks ensures Due(P, j, l) != n { assert m.asked != Some(j); }
  }

  lemma StillNoDue(P: Params, d: int, n: nat)
    requires NoDue(P, d, n) && forall j: nat, l: nat :: j < P.ranks ==> Due(P, j, l) != n
    ensures NoDue(P, d, n + 1)
  {
  }

  // Whoever waits at the pop of cycle n was asked for at the latest request up to then.
  lemma WaitingSince(P: Params, t: seq<Moment>, n: nat) returns (k: nat)
    requires History(P, t) && n < |t| && WaitsRight(P, t, n) && WaitingRank(t[n]).Some?
    ensures var i := WaitingRank(t[n]).value;
            i < P.ranks && Due(P, i, k) <= n && NoDue(P, Due(P, i, k), n + 1)
  {
    var i := WaitingRank(t[n]).value;
    assert OnSchedule(P, t[n], n);
    if t[n].asked.Some? {
      k :| n == Due(P, i, k);
    } else {
      k :| Due(P, i, k) < n && NoDue(P, Due(P, i, k), n);
      NotDueNow(P, t[n], n);
      StillNoDue(P, Due(P, i, k), n);
    }
  }

  lemma WaitsNext(P: Params, t: seq<Moment>, n: nat)
    requires History(P, t) && n + 1 < |t| && WaitsRight(P, t, n)
    ensures WaitsRight(P, t, n + 1)
  {
    assert Follows(t[n], t[n + 1], n);
    forall i: nat, k: nat | i < P.ranks && Due(P, i, k) < n + 1 && NoDue(P, Due(P, i, k), n + 1)
      ensures t[n + 1].pending == if ReadyBetween(t, i, Due(P, i, k), n + 1) then None else Some(i)
    {
      WaitingIs(P, t, n, i, k);
      ReadyNext(t, i, Due(P, i, k), n);
    }
    if t[n + 1].pending.Some? {
      var k := WaitingSince(P, t, n);
    }
  }

  lemma {:induction false} AllWaitRight(P: Params, t: seq<Moment>, n: nat)
    requires History(P, t) && n < |t|
    ensures WaitsRight(P, t, n)
  {
    if n > 0 {
      AllWaitRight(P, t, n - 1);
      WaitsNext(P, t, n - 1);
    } else {
      forall i: nat, k: nat | i < P.ranks && Due(P, i, k) < 0 ensures false { DueNotNegative(P, i, k); }
    }
  }

  lemma DueNotNegative(P: Params, i: nat, k: nat)
    ensures Due(P, i, k) >= 0
  {
    assert P.refreshStagger * (i + 1) >= 0 && k * P.refreshCycles >= 0;
  }

  // What was logged stays logged.
  lemma {:induction false} LogGrows(P: Params, t: seq<Moment>, m: nat, n: nat)
    requires History(P, t) && m <= n < |t|
    ensures t[m].issued <= t[n].issued
    decreases n - m
  {
    if m < n {
      assert Follows(t[m], t[m + 1], m);
      LogGrows(P, t, m + 1, n);
    }
  }

  // An entry was logged in the cycle it bears.
  lemma {:induction false} LoggedThen(P: Params, t: seq<Moment>, n: nat, x: nat)
    requires History(P, t) && n < |t| && x < |t[n].issued|
    ensures var c := t[n].issued[x].time;
            c < n && |t[c].issued| == x && |t[c + 1].issued| == x + 1 && t[c + 1].issued[x] == t[n].issued[x]
  {
    assert Follows(t[n - 1], t[n], n - 1);
    if x < |t[n - 1].issued| { LoggedThen(P, t, n - 1, x); }
  }

  // A refresh in the log went to the rank asked last, in the first cycle since in which that rank was ready.
  lemma SentWhenFirstReady(P: Params, t: seq<Moment>, n: nat, x: nat) returns (k: nat)
    requires History(P, t) && n < |t| && x < |t[n].issued| && t[n].issued[x].packet.kind == REFRESH
    ensures var c, i := t[n].issued[x].time, t[n].issued[x].packet.rank;
            && i < P.ranks && c < n && Due(P, i, k) <= c && NoDue(P, Due(P, i, k), c + 1)
            && t[c].ready[i] && !ReadyBetween(t, i, Due(P, i, k), c)
  {
    LoggedThen(P, t, n, x);
    var c := t[n].issued[x].time;
    assert Follows(t[c], t[c + 1], c);
    AllWaitRight(P, t, c);
    k := WaitingSince(P, t, c);
    WaitingIs(P, t, c, WaitingRank(t[c]).value, k);
  }

  lemma {:induction false} FirstReady(t: seq<Moment>, i: nat, from: nat, end: nat) returns (c: nat)
    requires ReadyBetween(t, i, from, end)
    ensures from <= c < end && c < |t| && i < |t[c].ready| && t[c].ready[i] && !ReadyBetween(t, i, from, c)
    decreases end
  {
    c :| from <= c < end && c < |t| && i < |t[c].ready| && t[c].ready[i];
    if ReadyBetween(t, i, from, c) { c := FirstReady(t, i, from, c); }
  }

  // Between a request and the next one, the rank is refreshed if and only if it is ready in some cycle.
  lemma ServedIfReady(P: Params, t: seq<Moment>, n: nat, i: nat, k: nat, h: nat)
    requires History(P, t) && n < |t| && i < P.ranks && Due(P, i, k) < h <= n && NoDue(P, Due(P, i, k), h)
    ensures RefreshedBetween(t[n].issued, i, Due(P, i, k), h) <==> ReadyBetween(t, i, Due(P, i, k), h)
  {
    var d := Due(P, i, k);
    DueNotNegative(P, i, k);
    if ReadyBetween(t, i, d, h) {
      var c := FirstReady(t, i, d, h);
      AllWaitRight(P, t, c);
      assert NoDue(P, d, c + 1);
      WaitingIs(P, t, c, i, k);
      assert Follows(t[c], t[c + 1], c);
      LogGrows(P, t, c + 1, n);
      assert Refreshes(t[n].issued[|t[c].issued|], i);
    }
    if RefreshedBetween(t[n].issued, i, d, h) {
      var x: nat :| x < |t[n].issued| && Refreshes(t[n].issued[x], i) && d <= t[n].issued[x].time < h;
      var l := SentWhenFirstReady(P, t, n, x);
    }
  }

  // ---------- every run has such a history

  ghost function MomentOf(P: Params, s: System): Moment
    requires ValidParams(P) && Shape(P, s)
  {
    Moment(s.log.issued,
           if s.mc.refreshCountdown[s.mc.refreshRank] == 0 then Some(s.mc.refreshRank) else None,
           if s.mc.queue.refreshWaiting then Some(s.mc.queue.refreshRank) else None,
           seq(P.ranks, r requires 0 <= r < P.ranks => ReadyNow(P, s, r)))
  }

  // The moments in which the cycles of a run begin, and the one it ends in.
  ghost function Moments(P: Params, s: System, actions: seq<Action>): (t: seq<Moment>)
    requires ValidParams(P) && Shape(P, s) && RunFrom(P, s, actions).Ok?
    ensures |t| >= 1
    decreases |actions|
  {
    if actions == [] then [MomentOf(P, s)]
    else
      var rest := Moments(P, Step(P, s, actions[0]).value, actions[1..]);
      if actions[0].Cycle? then [MomentOf(P, s)] + rest else rest
  }

  lemma CycleFollows(P: Params, s: System, u: System)
    requires ValidParams(P) && Shape(P, s) && Shape(P, u) && Update(P, s) == Ok(u)
    ensures Follows(MomentOf(P, s), MomentOf(P, u), s.now) && u.now == s.now + 1
  {
    var p := CycleRefreshes(P, s, u);
    WaitingAgrees(P, s);
    OneLogged(s, u, p);
  }

  lemma WaitingAgrees(P: Params, s: System)
    requires ValidParams(P) && Shape(P, s)
    ensures Waiting(s) == WaitingRank(MomentOf(P, s))
    ensures ReadyFor(MomentOf(P, s), Waiting(s)) <==> Waiting(s).Some? && ReadyNow(P, s, Waiting(s).value)
  {
  }

  lemma OneLogged(s: System, u: System, p: Option<Packet>)
    requires IssuedIn(s, u, p)
    ensures s.log.issued <= u.log.issued && |u.log.issued| == |s.log.issued| + (if p.Some? then 1 else 0)
    ensures p.Some? ==> u.log.issued[|s.log.issued|] == Issue(s.now, p.value)
  {
  }

  lemma RequestMoment(P: Params, s: System, isRead: bool, address: nat)
    requires ValidParams(P) && Shape(P, s)
    ensures MomentOf(P, Accept(P, s, isRead, address)) == MomentOf(P, s) && Accept(P, s, isRead, address).now == s.now
  {
    var u := Accept(P, s, isRead, address);
    assert MomentOf(P, u).ready == MomentOf(P, s).ready;
  }

  lemma Scheduled(P: Params, s: System)
    requires ValidParams(P) && ValidRefresh(P) && Shape(P, s) && TimersBetween(P, s)
    ensures OnSchedule(P, MomentOf(P, s), s.now)
  {
    forall i: nat | i < P.ranks ensures MomentOf(P, s).asked == Some(i) <==> exists k: nat :: s.now == Due(P, i, k) {
      RequestIffDue(P, s.mc.refreshCountdown, s.mc.refreshRank, s.now, i);
    }
  }

  // A history that starts at m in cycle n.
  ghost predicate Regular(P: Params, m: Moment, t: seq<Moment>, n: nat)
  {
    && |t| >= 1 && t[0] == m
    && (forall c: nat :: c < |t| ==> OnSchedule(P, t[c], n + c) && Fits(P, t[c]))
    && (forall c: nat :: c < |t| - 1 ==> Follows(t[c], t[c + 1], n + c))
  }

  lemma RegularOne(P: Params, m: Moment, n: nat)
    requires OnSchedule(P, m, n) && Fits(P, m)
    ensures Regular(P, m, [m], n)
  {
  }

  lemma RegularLonger(P: Params, m: Moment, next: Moment, t: seq<Moment>, n: nat, after: nat)
    requires after == n + 1 && Regular(P, next, t, after)
    requires OnSchedule(P, m, n) && Fits(P, m) && Follows(m, next, n)
    ensures Regular(P, m, [m] + t, n) && |[m] + t| == |t| + 1 && ([m] + t)[|t|] == t[|t| - 1]
  {
    var all := [m] + t;
    forall c: nat | c < |all| ensures OnSchedule(P, all[c], n + c) && Fits(P, all[c]) {
      if c > 0 { assert all[c] == t[c - 1] && after + (c - 1) == n + c; }
    }
    forall c: nat | c < |all| - 1 ensures Follows(all[c], all[c + 1], n + c) {
      if c > 0 { assert all[c] == t[c - 1] && all[c + 1] == t[c] && after + (c - 1) == n + c; }
    }
  }

  lemma MomentFits(P: Params, s: System)
    requires ValidParams(P) && ValidRefresh(P) && Shape(P, s) && TimersBetween(P, s)
    ensures OnSchedule(P, MomentOf(P, s), s.now) && Fits(P, MomentOf(P, s))
  {
    Scheduled(P, s);
  }

  lemma MomentsUnfold(P: Params, s: System, actions: seq<Action>, u: System)
    requires ValidParams(P) && Shape(P, s) && Shape(P, u) && actions != [] && Step(P, s, actions[0]) == Ok(u)
    requires RunFrom(P, s, actions).Ok?
    ensures RunFrom(P, u, actions[1..]) == RunFrom(P, s, actions)
    ensures Moments(P, s, actions)
            == (if actions[0].Cycle? then [MomentOf(P, s)] else []) + Moments(P, u, actions[1..])
  {
  }

  lemma StepMoment(P: Params, s: System, a: Action, u: System, m: Moment, n: nat) returns (next: Moment, after: nat)
    requires ValidParams(P) && Shape(P, s) && Shape(P, u) && Step(P, s, a) == Ok(u) && m == MomentOf(P, s) && n == s.now
    ensures next == MomentOf(P, u) && after == u.now
    ensures if a.Cycle? then Follows(m, next, n) && after == n + 1 else next == m && after == n
  {
    next, after := MomentOf(P, u), u.now;
    match a
    case Request(isRead, address) => RequestMoment(P, s, isRead, address);
    case Cycle => CycleFollows(P, s, u);
  }

  // The last moment is that of the last state, and every cycle has one.
  lemma {:induction false} MomentsEnd(P: Params, s: System, actions: seq<Action>, v: System, n: nat)
    requires ValidParams(P) && Shape(P, s) && Shape(P, v) && RunFrom(P, s, actions) == Ok(v) && n == s.now
    ensures var t := Moments(P, s, actions); t[|t| - 1] == MomentOf(P, v) && n + |t| == v.now + 1
    decreases |actions|
  {
    if actions != [] {
      var u := Step(P, s, actions[0]).value;
      MomentsUnfold(P, s, actions, u);
      var m, after := StepMoment(P, s, actions[0], u, MomentOf(P, s), n);
      MomentsEnd(P, u, actions[1..], v, after);
    }
  }

  lemma {:induction false} MomentsRegular(P: Params, s: System, actions: seq<Action>, v: System, m: Moment, n: nat)
    returns (t: seq<Moment>)
    requires ValidParams(P) && ValidRefresh(P) && Shape(P, s) && Shape(P, v)
    requires Inv(P, s) && RunFrom(P, s, actions) == Ok(v) && m == MomentOf(P, s) && n == s.now
    ensures t == Moments(P, s, actions) && Regular(P, m, t, n)
    decreases |actions|
  {
    MomentFits(P, s);
    if actions == [] {
      RegularOne(P, m, n);
      t := [m];
    } else {
      var u := StepKeeps(P, s, actions[0]);
      MomentsUnfold(P, s, actions, u);
      var next, after := StepMoment(P, s, actions[0], u, m, n);
      t := MomentsRegular(P, u, actions[1..], v, next, after);
      if actions[0].Cycle? {
        RegularLonger(P, m, next, t, n, after);
        t := [m] + t;
      } else {
        assert [] + t == t;
      }
    }
  }

  // The history of a run.
  ghost function RunMoments(P: Params, actions: seq<Action>): seq<Moment>
    requires ValidParams(P)
  {
    EveryRunIsSafe(P, actions);
    InitShape(P);
    Moments(P, Init(P), actions)
  }

  lemma RegularHistory(P: Params, t: seq<Moment>)
    requires |t| >= 1 && Regular(P, t[0], t, 0) && t[0].issued == [] && t[0].pending == None
    ensures History(P, t)
  {
    forall n: nat | n < |t| ensures OnSchedule(P, t[n], n) && Fits(P, t[n]) { assert OnSchedule(P, t[n], 0 + n); }
    forall n: nat | n < |t| - 1 ensures Follows(t[n], t[n + 1], n) { assert Follows(t[n], t[n + 1], 0 + n); }
  }

  lemma RunHistory(P: Params, actions: seq<Action>, s: System)
    requires ValidParams(P) && ValidRefresh(P) && Run(P, actions) == Ok(s)
    ensures var t := RunMoments(P, actions);
            History(P, t) && |t| == s.now + 1 && t[s.now].issued == s.log.issued
  {
    InitKeeps(P);
    var t := MomentsRegular(P, Init(P), actions, s, MomentOf(P, Init(P)), 0);
    MomentsEnd(P, Init(P), actions, s, 0);
    RegularHistory(P, t);
  }

  // MAIN RESULT.  In every run, for every request due in cycle d and every h up to which no other is due: rank i is
  // refreshed in a cycle from d up to h if and only if it is ready at the pop of one of them.  Otherwise the request
  // is still waiting, to be replaced by the next one.
  lemma RequestServedIfReady(P: Params, actions: seq<Action>, s: System, i: nat, k: nat, h: nat)
    requires ValidParams(P) && ValidRefresh(P) && Run(P, actions) == Ok(s) && i < P.ranks
    requires Due(P, i, k) < h <= s.now && NoDue(P, Due(P, i, k), h)
    ensures RefreshedBetween(s.log.issued, i, Due(P, i, k), h)
            <==> ReadyBetween(RunMoments(P, actions), i, Due(P, i, k), h)
  {
    RunHistory(P, actions, s);
    ServedIfReady(P, RunMoments(P, actions), s.now, i, k, h);
  }

  // And every refresh in the log was sent to the rank asked last, in the first cycle since in which it was ready.
  lemma RefreshWhenFirstReady(P: Params, actions: seq<Action>, s: System, x: nat) returns (k: nat)
    requires ValidParams(P) && ValidRefresh(P) && Run(P, actions) == Ok(s)
    requires x < |s.log.issued| && s.log.issued[x].packet.kind == REFRESH
    ensures var t, c, i := RunMoments(P, actions), s.log.issued[x].time, s.log.issued[x].packet.rank;
            && i < P.ranks && c < s.now && Due(P, i, k) <= c && NoDue(P, Due(P, i, k), c + 1)
            && ReadyBetween(t, i, c, c + 1) && !ReadyBetween(t, i, Due(P, i, k), c)
  {
    RunHistory(P, actions, s);
    k := SentWhenFirstReady(P, RunMoments(P, actions), s.now, x);
  }
}
