/** Refreshes that are asked for: when each is sent, in every run. */
module DramRefresh {
  import opened Basics
  import opened DramTypes
  import opened CommandQueueSpec
  import opened MemorySystemSpec
  import opened DramRuns
  import opened DramPhases

  // No bank of the row is open or too early for an activate, and the rank is not powered down.
  predicate Ready(row: seq<BankState>, now: nat)
    requires |row| >= 1
  {
    && row[0].status != PowerDown
    && forall b :: 0 <= b < |row| ==> row[b].status != RowActive && row[b].nextActivate <= now
  }

  predicate IsRefresh(o: Option<Packet>) { o.Some? && o.value.kind == REFRESH }

  lemma ReadyMeans(row: seq<BankState>, now: nat)
    requires |row| >= 1
    ensures BlockingBank(row, 0, now) == |row| <==> forall i :: 0 <= i < |row| ==> !Blocks(row[i], now)
  {
  }

  lemma ChooseSendsRefresh(P: Params, T: Table, Q: QueueState, now: nat)
    requires ValidParams(P) && TableShape(P, T) && QueueShape(P, Q)
    ensures var c := Choose(P, T, Q, now);
            && (IsRefresh(c.packet) <==> Q.refreshWaiting && Ready(T[Q.refreshRank], now))
            && (IsRefresh(c.packet) ==> c.packet.value.rank == Q.refreshRank && !c.queue.refreshWaiting)
            && (!IsRefresh(c.packet) ==>
                  c.queue.refreshWaiting == Q.refreshWaiting && c.queue.refreshRank == Q.refreshRank)
  {
    if Q.refreshWaiting { ReadyMeans(T[Q.refreshRank], now); }
  }

  lemma PopFlags(P: Params, T: Table, Q: QueueState, now: nat)
    requires ValidParams(P) && TableShape(P, T) && QueueShape(P, Q)
    ensures var d, c := Choose(P, T, Ticked(Q), now), Pop(P, T, Q, now);
            c.packet == d.packet && c.queue.refreshWaiting == d.queue.refreshWaiting
            && c.queue.refreshRank == d.queue.refreshRank
  {
  }

  // The pop sends a refresh exactly when one is waiting and its rank is ready, and then none is waiting any more.
  lemma PopSendsRefresh(P: Params, T: Table, Q: QueueState, now: nat)
    requires ValidParams(P) && TableShape(P, T) && QueueShape(P, Q)
    ensures var c := Pop(P, T, Q, now);
            && (IsRefresh(c.packet) <==> Q.refreshWaiting && Ready(T[Q.refreshRank], now))
            && (IsRefresh(c.packet) ==> c.packet.value.rank == Q.refreshRank && !c.queue.refreshWaiting)
            && (!IsRefresh(c.packet) ==>
                  c.queue.refreshWaiting == Q.refreshWaiting && c.queue.refreshRank == Q.refreshRank)
  {
    ChooseSendsRefresh(P, T, Ticked(Q), now);
    PopFlags(P, T, Q, now);
  }

  // While a refresh waits, the first bank in its way is emptied and closed.  `first` is the first packet queued
  // for the open row of bank b, if there is one: an access goes as soon as it may, and with nothing or only an
  // activate queued the row is closed in open-page mode.
  lemma PopMakesWay(P: Params, T: Table, Q: QueueState, now: nat, b: nat, first: Option<nat>)
    requires ValidParams(P) && TableShape(P, T) && QueueShape(P, Q) && Routed(P, Q) && Q.refreshWaiting && b < P.banks
    requires var row, q := T[Q.refreshRank], GetQueue(P, Q, Slot(Q.refreshRank, b));
             && (forall i :: 0 <= i < b ==> row[i].status != RowActive && row[i].nextActivate <= now)
             && row[b].status == RowActive && FirstOf(q, b, row[b].openRow, first)
    ensures var m, q := T[Q.refreshRank][b], GetQueue(P, Q, Slot(Q.refreshRank, b));
            var c := Pop(P, T, Q, now);
            if first.Some? && q[first.value].kind != ACTIVATE then
              (Timely(m, q[first.value], now) && Q.rowAccess[Q.refreshRank][b] < P.totalRowAccesses ==>
                 c.packet == Some(q[first.value]))
            else
              !P.closePage && m.nextPrecharge <= now ==>
                c.packet == Some(Packet(PRECHARGE, 0, 0, Q.refreshRank, b, 0))
  {
    var Q0 := Ticked(Q);
    PopIsChoose(P, T, Q, now);
    FirstBlocking(T[Q.refreshRank], b, now);
    FirstQueued(GetQueue(P, Q, Slot(Q.refreshRank, b)), b, T[Q.refreshRank][b].openRow, first);
  }

  predicate Timely(m: BankState, p: Packet, now: nat) { (if IsRead(p.kind) then m.nextRead else m.nextWrite) <= now }

  predicate FirstOf(q: seq<Packet>, bank: nat, row: nat, first: Option<nat>)
  {
    var end := if first.Some? then first.value else |q|;
    && end <= |q| && (forall i :: 0 <= i < end ==> !(q[i].bank == bank && q[i].row == row))
    && (first.Some? ==> end < |q| && q[end].bank == bank && q[end].row == row)
  }

  lemma FirstQueued(q: seq<Packet>, bank: nat, row: nat, first: Option<nat>)
    requires FirstOf(q, bank, row, first)
    ensures FirstToRow(q, bank, row, 0) == if first.Some? then first.value else |q|
  {
  }

  lemma FirstBlocking(row: seq<BankState>, b: nat, now: nat)
    requires b < |row| && row[b].status == RowActive
    requires forall i :: 0 <= i < b ==> row[i].status != RowActive && row[i].nextActivate <= now
    ensures BlockingBank(row, 0, now) == b
  {
  }

  // ---------- one cycle

  // What the timer leaves waiting at the pop of this cycle.
  function Waiting(s: System): Option<nat>
    requires s.mc.refreshRank < |s.mc.refreshCountdown|
  {
    if s.mc.refreshCountdown[s.mc.refreshRank] == 0 then Some(s.mc.refreshRank)
    else if s.mc.queue.refreshWaiting then Some(s.mc.queue.refreshRank) else None
  }

  // The rank is ready at the pop of the cycle that begins in s.
  ghost predicate ReadyNow(P: Params, s: System, r: nat)
    requires Shape(P, s) && r < P.ranks && ValidParams(P)
  {
    Ready(CountDownTable(P, s.mc.table)[r], s.now)
  }

  // u is s after a cycle that issued p, if anything.
  ghost predicate IssuedIn(s: System, u: System, p: Option<Packet>)
  {
    u.log.issued == if p.Some? then s.log.issued + [Issue(s.now, p.value)] else s.log.issued
  }

  lemma TimerWaits(P: Params, s: System, s1: System, s2: System)
    requires ValidParams(P) && Shape(P, s) && Shape(P, s1) && Shape(P, s2)
    requires Settle(P, s) == Ok(s1) && s2 == RefreshTimer(P, s1)
    ensures s2.now == s.now && s2.log == s.log && s2.mc.table == CountDownTable(P, s.mc.table)
    ensures s2.mc.queue.refreshWaiting == Waiting(s).Some?
    ensures Waiting(s).Some? ==> s2.mc.queue.refreshRank == Waiting(s).value
  {
    SettleFrame(P, s, s1);
    RefreshFrame(P, s1);
  }

  lemma PopRefreshes(P: Params, s: System, u: System) returns (p: Option<Packet>)
    requires ValidParams(P) && Shape(P, s) && Shape(P, u) && IssueCommand(P, s) == Ok(u)
    ensures IssuedIn(s, u, p)
    ensures IsRefresh(p) <==> s.mc.queue.refreshWaiting && Ready(s.mc.table[s.mc.queue.refreshRank], s.now)
    ensures IsRefresh(p) ==> p.value.rank == s.mc.queue.refreshRank && !u.mc.queue.refreshWaiting
    ensures !IsRefresh(p) ==> u.mc.queue.refreshWaiting == s.mc.queue.refreshWaiting
                              && u.mc.queue.refreshRank == s.mc.queue.refreshRank
  {
    IssueFrame(P, s, u);
    PopSendsRefresh(P, s.mc.table, s.mc.queue, s.now);
    p := Pop(P, s.mc.table, s.mc.queue, s.now).packet;
  }

  lemma RestKeepsFlags(P: Params, s: System, s4: System, s5: System, s6: System, u: System)
    requires ValidParams(P) && Shape(P, s) && Shape(P, s4) && Shape(P, s5) && Shape(P, s6)
    requires SplitTransaction(P, s) == Ok(s4) && ManagePower(P, s4) == Ok(s5) && ReturnRead(P, s5) == Ok(s6)
    requires u == EndCycle(P, s6)
    ensures u.mc.queue.refreshWaiting == s.mc.queue.refreshWaiting && u.mc.queue.refreshRank == s.mc.queue.refreshRank
    ensures u.log.issued == s.log.issued && u.now == s.now + 1
  {
    SplitFrames(P, s, s4);
    PowerFrame(P, s4, s5);
    ReturnFrame(P, s5, s6);
  }

  // In each cycle the waiting rank gets its refresh if it is ready, and goes on waiting if it is not.
  lemma CycleRefreshes(P: Params, s: System, u: System) returns (p: Option<Packet>)
    requires ValidParams(P) && Shape(P, s) && Shape(P, u) && Update(P, s) == Ok(u)
    ensures IssuedIn(s, u, p) && u.now == s.now + 1
    ensures IsRefresh(p) <==> Waiting(s).Some? && ReadyNow(P, s, Waiting(s).value)
    ensures IsRefresh(p) ==> p.value.rank == Waiting(s).value && !u.mc.queue.refreshWaiting
    ensures !IsRefresh(p) ==> u.mc.queue.refreshWaiting == Waiting(s).Some?
    ensures u.mc.queue.refreshWaiting ==> Waiting(s) == Some(u.mc.queue.refreshRank)
  {
    var s1, s2, s3, s4, s5, s6 := CycleStates(P, s, u);
    TimerWaits(P, s, s1, s2);
    p := PopRefreshes(P, s2, s3);
    RestKeepsFlags(P, s3, s4, s5, s6, u);
  }
}
