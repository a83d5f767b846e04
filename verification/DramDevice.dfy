/** A rank by itself: whatever it is sent, it accepts no command before the rules of the earlier ones are over. */
module DramDevice {
  import opened DramTypes
  import opened RankModel
  import opened DramRules

  // What can happen to the banks of a rank.
  datatype Event = Got(time: nat, packet: Packet) | Slept(time: nat) | Woke(time: nat)

  predicate Takes(P: Params, d: RankState, e: Event)
  {
    match e
    case Got(time, p) => p.bank < |d.banks| && CanReceive(d, p, time)
    case Slept(time) => CanPowerDown(d)
    case Woke(time) => CanPowerUp(d, time)
  }

  function After(P: Params, d: RankState, e: Event): RankState
    requires ValidParams(P)
  {
    match e
    case Got(time, p) => Receive(P, d, p, time)
    case Slept(time) => EnterPowerDown(P, d, time)
    case Woke(time) => LeavePowerDown(P, d, time)
  }

  // A life of a rank: its banks before every event, each of which it took, and after the last.
  ghost predicate Life(P: Params, states: seq<RankState>, events: seq<Event>)
    requires ValidParams(P)
  {
    && |states| == |events| + 1 && states[0].banks == InitRank(P).banks
    && (forall n: nat :: n < |states| ==> |states[n].banks| == P.banks)
    && (forall n: nat :: n < |events| ==>
          Takes(P, states[n], events[n]) && states[n + 1].banks == After(P, states[n], events[n]).banks)
    && (forall m: nat, n: nat :: m < n < |events| ==> events[m].time <= events[n].time)
  }

  // An event that sets the earliest command of the target kind in bank b anew.
  predicate Forgets(e: Event, b: nat, target: Target)
  {
    if target == ToActivate then e.Woke? || (e.Got? && e.packet.kind == REFRESH)
    else e.Got? && e.packet.kind == ACTIVATE && e.packet.bank == b
  }

  ghost predicate Forgotten(events: seq<Event>, i: nat, n: nat, b: nat, target: Target)
    requires n <= |events|
  {
    exists k: nat :: i < k < n && Forgets(events[k], b, target)
  }

  // The bank minds the rule of event e.
  predicate Minds(P: Params, e: Event, m: BankState, b: nat, target: Target)
  {
    e.Got? ==>
      var gap := Spacing(P, e.packet, target, e.packet.rank, b);
      gap > 0 ==> e.time + gap <= Earliest(m, target)
  }

  lemma ReceivedMinds(P: Params, d: RankState, p: Packet, now: nat, e: Event, b: nat, target: Target)
    requires ValidParams(P) && p.bank < |d.banks| && b < |d.banks| && CanReceive(d, p, now)
    requires Minds(P, e, d.banks[b], b, target) && !Forgets(Got(now, p), b, target)
    ensures Minds(P, e, ReceiveBank(P, p, b, d.banks[b], now), b, target)
  {
  }

  lemma ReceivedBooks(P: Params, m: BankState, p: Packet, now: nat, b: nat, target: Target)
    requires ValidParams(P)
    ensures Minds(P, Got(now, p), ReceiveBank(P, p, b, m, now), b, target)
  {
  }

  lemma TakenMinds(P: Params, states: seq<RankState>, events: seq<Event>, i: nat, n: nat, b: nat, target: Target)
    requires ValidParams(P) && Life(P, states, events) && i <= n < |events| && b < P.banks
    requires i < n && !Forgets(events[n], b, target) ==> Minds(P, events[i], states[n].banks[b], b, target)
    ensures (i < n && Forgets(events[n], b, target)) || Minds(P, events[i], states[n + 1].banks[b], b, target)
  {
    var d, e := states[n], events[n];
    assert Takes(P, d, e);
    if e.Got? {
      if i == n {
        ReceivedBooks(P, d.banks[b], e.packet, e.time, b, target);
      } else if !Forgets(e, b, target) {
        ReceivedMinds(P, d, e.packet, e.time, events[i], b, target);
      }
    }
  }

  lemma {:induction false} AlwaysMinds(P: Params, states: seq<RankState>, events: seq<Event>, i: nat, n: nat, b: nat,
    target: Target)
    requires ValidParams(P) && Life(P, states, events) && i < n <= |events| && b < P.banks
    ensures Forgotten(events, i, n, b, target) || Minds(P, events[i], states[n].banks[b], b, target)
  {
    if i < n - 1 { AlwaysMinds(P, states, events, i, n - 1, b, target); }
    if !Forgotten(events, i, n, b, target) { TakenMinds(P, states, events, i, n - 1, b, target); }
  }

  // MAIN RESULT.  Of any two commands a rank accepted, the second came after the rule of the first, unless an event
  // between them made the rank forget it.  A refresh is not covered: the rank looks at no
  // time when it takes one.
  lemma DeviceEnforces(P: Params, states: seq<RankState>, events: seq<Event>, i: nat, j: nat)
    requires ValidParams(P) && Life(P, states, events) && i < j < |events| && events[i].Got? && events[j].Got?
    requires events[j].packet.kind != REFRESH && events[j].packet.kind != DATA
    ensures var p, q := events[i].packet, events[j].packet;
            var target := TargetOf(q.kind);
            || Forgotten(events, i, j, q.bank, target)
            || events[i].time + Spacing(P, p, target, p.rank, q.bank) <= events[j].time
  {
    var q := events[j].packet;
    assert Takes(P, states[j], events[j]);
    AlwaysMinds(P, states, events, i, j, q.bank, TargetOf(q.kind));
  }
}
