/** The two timers that run beside the queues: refresh countdowns and the four-activate window. */
module DramTimers {
  import opened DramTypes
  import opened CommandQueueSpec
  import opened MemorySystemSpec

  // ---------- refresh

  // The k-th cycle at which rank i is due.
  function Due(P: Params, i: int, k: int): int { P.refreshStagger * (i + 1) + k * P.refreshCycles }

  lemma DueLater(P: Params, i: nat, k: int, j: nat, l: int)
    requires ValidParams(P) && ValidRefresh(P) && i < P.ranks && j < P.ranks && (k < l || (k == l && i < j))
    ensures Due(P, i, k) < Due(P, j, l)
  {
    var q, c := P.refreshStagger, P.refreshCycles;
    if k == l {
      assert q * (j + 1) == q * (i + 1) + q * (j - i);
      assert q * (j - i) >= 1 by { Product(q, j - i); }
    } else {
      assert l * c == k * c + (l - k) * c;
      assert (l - k) * c >= c by { Product1(l - k, c); }
      assert P.ranks * q == q * (i + 1) + q * (P.ranks - (i + 1));
      assert q * (P.ranks - (i + 1)) >= 0 by { Product0(q, P.ranks - (i + 1)); }
      assert q * (j + 1) >= 1 by { Product(q, j + 1); }
    }
  }

  lemma Product(a: int, b: int) requires a >= 1 && b >= 1 ensures a * b >= 1 {}

  lemma Product0(a: int, b: int) requires a >= 0 && b >= 0 ensures a * b >= 0 {}

  lemma Product1(a: int, b: int) requires a >= 1 && b >= 0 ensures a * b >= b
  {
    assert a * b == b + (a - 1) * b;
    Product0(a - 1, b);
  }

  // The k-th due cycle of every rank.
  function Dues(P: Params, k: int): (d: seq<int>)
    ensures |d| == P.ranks && forall i :: 0 <= i < P.ranks ==> d[i] == Due(P, i, k)
  {
    seq(P.ranks, i requires 0 <= i < P.ranks => Due(P, i, k))
  }

  lemma DuesSpread(P: Params, k: int)
    requires ValidParams(P) && ValidRefresh(P)
    ensures forall i, j :: 0 <= i < j < P.ranks ==> Dues(P, k)[i] < Dues(P, k)[j]
    ensures Dues(P, k)[P.ranks - 1] < Dues(P, k)[0] + P.refreshCycles
    ensures forall i :: 0 <= i < P.ranks ==> Dues(P, k + 1)[i] == Dues(P, k)[i] + P.refreshCycles
  {
    forall i, j | 0 <= i < j < P.ranks ensures Dues(P, k)[i] < Dues(P, k)[j] { DueLater(P, i, k, j, k); }
    forall i | 0 <= i < P.ranks ensures Due(P, i, k + 1) == Due(P, i, k) + P.refreshCycles {
      assert (k + 1) * P.refreshCycles == k * P.refreshCycles + P.refreshCycles;
    }
    DueLater(P, P.ranks - 1, k, 0, k + 1);
  }

  // Ranks below the pointer already count towards their next round; the pointer's is the earliest still to come.
  predicate OnRound(d: seq<int>, c: int, counts: seq<nat>, ptr: nat, now: int)
  {
    && |counts| == |d| && ptr < |d|
    && (forall i :: 0 <= i < |d| ==> now + counts[i] == d[i] + (if i < ptr then c else 0))
    && (ptr > 0 ==> d[ptr - 1] < now)
  }

  ghost predicate RefreshAt(P: Params, counts: seq<nat>, ptr: nat, now: nat, k: int)
  {
    0 <= k && OnRound(Dues(P, k), P.refreshCycles, counts, ptr, now)
    && (ptr == 0 ==> k == 0 || Dues(P, k - 1)[P.ranks - 1] < now)
  }

  ghost predicate RefreshOnTime(P: Params, counts: seq<nat>, ptr: nat, now: nat)
  {
    exists k :: RefreshAt(P, counts, ptr, now, k)
  }

  // One cycle of the timers: request and reload, then count down.
  function RefreshCycle(P: Params, counts: seq<nat>, ptr: nat): (seq<nat>, nat)
    requires |counts| == P.ranks && ptr < P.ranks
  {
    if counts[ptr] == 0 then (DecAll(counts[ptr := P.refreshCycles]), if ptr + 1 == P.ranks then 0 else ptr + 1)
    else (DecAll(counts), ptr)
  }

  // One turn on a round of strictly increasing due cycles that fits within one period.
  lemma RoundTurn(P: Params, d: seq<int>, counts: seq<nat>, ptr: nat, now: int)
    requires |counts| == |d| == P.ranks && ptr < P.ranks && OnRound(d, P.refreshCycles, counts, ptr, now)
    requires forall i, j :: 0 <= i < j < |d| ==> d[i] < d[j]
    requires d[|d| - 1] < d[0] + P.refreshCycles
    ensures forall i :: 0 <= i < |d| && !(i == ptr && counts[ptr] == 0) ==> counts[i] >= 1
    ensures var (e, p) := RefreshCycle(P, counts, ptr);
            |e| == |d| && p < |d|
            && (if counts[ptr] == 0 && ptr + 1 == |d| then
                  (forall i :: 0 <= i < |d| ==> now + 1 + e[i] == d[i] + P.refreshCycles) && d[|d| - 1] < now + 1
                else OnRound(d, P.refreshCycles, e, p, now + 1))
  {
    forall i | 0 <= i < |d| && !(i == ptr && counts[ptr] == 0) ensures counts[i] >= 1 {
      if i < ptr { assert d[|d| - 1] < d[i] + P.refreshCycles by { assert d[0] <= d[i]; } }
    }
  }

  lemma RefreshTurn(P: Params, counts: seq<nat>, ptr: nat, now: nat)
    requires ValidParams(P) && ValidRefresh(P) && |counts| == P.ranks && ptr < P.ranks
    requires RefreshOnTime(P, counts, ptr, now)
    ensures var (c, p) := RefreshCycle(P, counts, ptr);
            |c| == P.ranks && RefreshOnTime(P, c, p, now + 1)
    // no counter wraps
    ensures forall i :: 0 <= i < P.ranks && !(i == ptr && counts[ptr] == 0) ==> counts[i] >= 1
  {
    var k :| RefreshAt(P, counts, ptr, now, k);
    var (c, p) := RefreshCycle(P, counts, ptr);
    DuesSpread(P, k);
    RoundTurn(P, Dues(P, k), counts, ptr, now);
    assert RefreshAt(P, c, p, now + 1, if counts[ptr] == 0 && ptr + 1 == P.ranks then k + 1 else k);
  }

  lemma RefreshStart(P: Params)
    requires ValidParams(P) && ValidRefresh(P)
    ensures RefreshOnTime(P, InitController(P).refreshCountdown, 0, 0)
  {
    assert RefreshAt(P, InitController(P).refreshCountdown, 0, 0, 0);
  }

  // A rank is asked to refresh at its due cycles and at no others.
  lemma RequestIffDue(P: Params, counts: seq<nat>, ptr: nat, now: nat, i: nat)
    requires ValidParams(P) && ValidRefresh(P) && |counts| == P.ranks && RefreshOnTime(P, counts, ptr, now)
    requires i < P.ranks
    ensures (ptr == i && counts[i] == 0) <==> exists l: nat :: now == Due(P, i, l)
  {
    var k :| RefreshAt(P, counts, ptr, now, k);
    if l: nat :| now == Due(P, i, l) {
      assert Dues(P, k)[ptr] == Due(P, ptr, k) && now <= Due(P, ptr, k);
      if k < l || (k == l && ptr < i) {
        DueLater(P, ptr, k, i, l);
      } else if l < k || i < ptr {
        DuePassed(P, counts, ptr, now, k, i, l);
      }
    }
  }

  lemma DuePassed(P: Params, counts: seq<nat>, ptr: nat, now: nat, k: int, i: nat, l: nat)
    requires ValidParams(P) && ValidRefresh(P) && ptr < P.ranks && RefreshAt(P, counts, ptr, now, k) && i < P.ranks
    requires l < k || (l == k && i < ptr)
    ensures Due(P, i, l) < now
  {
    if ptr > 0 {
      assert Dues(P, k)[ptr - 1] == Due(P, ptr - 1, k);
      if !(i == ptr - 1 && l == k) { DueLater(P, i, l, ptr - 1, k); }
    } else if !(i == P.ranks - 1 && l == k - 1) {
      DueLater(P, i, l, P.ranks - 1, k - 1);
    }
  }

  // ---------- the four-activate window

  function ActTimes(issued: seq<Issue>, r: nat): seq<nat>
  {
    if issued == [] then []
    else
      var last := issued[|issued| - 1];
      ActTimes(issued[..|issued| - 1], r)
      + (if last.packet.kind == ACTIVATE && last.packet.rank == r then [last.time] else [])
  }

  // The counters are the remaining window lengths of exactly the activates still in the window.
  ghost predicate InWindow(P: Params, times: seq<nat>, counters: seq<nat>, now: int)
  {
    var out := |times| - |counters|;
    && 0 <= out
    && (forall i :: 0 <= i < out ==> times[i] + P.tFAW <= now)
    && (forall j :: out <= j < |times| ==> counters[j - out] == times[j] + P.tFAW - now)
    && (|counters| > 0 ==> 1 <= counters[0])
    && (forall i :: 0 <= i < |counters| - 1 ==> counters[i] < counters[i + 1])
  }

  // No five activates within one window.
  ghost predicate SpreadOut(P: Params, times: seq<nat>)
  {
    forall i, j :: 0 <= i && i + 4 <= j < |times| ==> times[i] + P.tFAW <= times[j]
  }

  ghost predicate WindowAt(P: Params, times: seq<nat>, counters: seq<nat>, now: int)
  {
    InWindow(P, times, counters, now) && SpreadOut(P, times) && forall i :: 0 <= i < |times| ==> times[i] <= now
  }

  lemma AllPositive(counters: seq<nat>)
    requires |counters| > 0 ==> 1 <= counters[0]
    requires forall i :: 0 <= i < |counters| - 1 ==> counters[i] < counters[i + 1]
    ensures forall i :: 0 <= i < |counters| ==> DecAll(counters)[i] + 1 == counters[i]
  {
    forall i | 0 <= i < |counters| ensures DecAll(counters)[i] + 1 == counters[i] {
      if i > 0 { assert counters[i - 1] < counters[i]; }
    }
  }

  // Removing only the head is enough: at most the head can expire in one cycle.
  lemma CountersTick(P: Params, times: seq<nat>, counters: seq<nat>, now: int)
    requires ValidParams(P) && InWindow(P, times, counters, now)
    ensures InWindow(P, times, TickFaw(counters), now + 1)
  {
    var d, u := DecAll(counters), TickFaw(counters);
    var out := |times| - |counters|;
    assert |counters| > 0 ==> counters[0] == times[out] + P.tFAW - now;
    AllPositive(counters);
    if |d| > 0 && d[0] == 0 {
      forall i | 0 <= i < |u| ensures u[i] + 1 == counters[i + 1] {
        assert u[i] == d[i + 1];
      }
    }
  }

  lemma WindowTick(P: Params, times: seq<nat>, counters: seq<nat>, now: int)
    requires ValidParams(P) && WindowAt(P, times, counters, now)
    ensures WindowAt(P, times, TickFaw(counters), now + 1)
  {
    CountersTick(P, times, counters, now);
  }

  lemma CountersPush(P: Params, times: seq<nat>, counters: seq<nat>, now: nat)
    requires ValidParams(P) && InWindow(P, times, counters, now)
    requires forall i :: 0 <= i < |times| ==> times[i] < now
    ensures InWindow(P, times + [now], counters + [P.tFAW], now)
  {
    var k := |counters|;
    if k > 0 { assert counters[k - 1] == times[|times| - 1] + P.tFAW - now; }
  }

  // An activate is sent only with fewer than four in the window, so five never share one.
  lemma WindowPush(P: Params, times: seq<nat>, counters: seq<nat>, now: nat)
    requires ValidParams(P) && WindowAt(P, times, counters, now) && |counters| < 4
    requires forall i :: 0 <= i < |times| ==> times[i] < now
    ensures WindowAt(P, times + [now], counters + [P.tFAW], now)
  {
    CountersPush(P, times, counters, now);
  }

  ghost predicate WindowsKept(P: Params, faw: seq<seq<nat>>, issued: seq<Issue>, now: int)
  {
    forall r :: 0 <= r < |faw| ==> WindowAt(P, ActTimes(issued, r), faw[r], now)
  }

  lemma ActTimesPast(issued: seq<Issue>, r: nat, now: nat)
    requires forall i :: 0 <= i < |issued| ==> issued[i].time < now
    ensures forall i :: 0 <= i < |ActTimes(issued, r)| ==> ActTimes(issued, r)[i] < now
  {
  }

  lemma PopWindows(P: Params, faw: seq<seq<nat>>, issued: seq<Issue>, now: nat, p: Packet)
    requires ValidParams(P) && WindowsKept(P, faw, issued, now) && p.rank < |faw|
    requires forall i :: 0 <= i < |issued| ==> issued[i].time < now
    requires p.kind == ACTIVATE ==> |faw[p.rank]| < 4
    ensures WindowsKept(P, if p.kind == ACTIVATE then faw[p.rank := faw[p.rank] + [P.tFAW]] else faw,
                        issued + [Issue(now, p)], now)
  {
    var more := issued + [Issue(now, p)];
    assert more[..|more| - 1] == issued;
    forall r: nat | r < |faw|
      ensures ActTimes(more, r) == if p.kind == ACTIVATE && p.rank == r then ActTimes(issued, r) + [now]
        else ActTimes(issued, r)
    {
    }
    if p.kind == ACTIVATE {
      ActTimesPast(issued, p.rank, now);
      WindowPush(P, ActTimes(issued, p.rank), faw[p.rank], now);
    }
  }
}
