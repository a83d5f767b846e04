/** When a read is answered and when the data lines are taken, in every run. */
module DramLatency {
  import opened Basics
  import opened DramTypes
  import opened RankModel
  import opened MemorySystemSpec
  import opened DramBus
  import opened DramPhases
  import opened DramFlights
  import opened Totals

  // The bursts of one source: the one on the lines, and those waiting for them.
  datatype Pipe = Pipe(out: Option<Packet>, left: nat, packets: seq<Packet>, counts: seq<nat>)

  // A burst on the lines has no more than its length to go.
  predicate Bounded(P: Params, p: Pipe) { p.out.Some? ==> p.left <= Burst(P) }

  ghost predicate Flows(P: Params, p: Pipe)
  {
    |p.packets| == |p.counts| && Spaced(P, p.counts, p.out.Some?, p.left)
  }

  function Waiting(P: Params, packets: seq<Packet>, counts: seq<nat>): seq<Coming>
    requires |packets| == |counts|
  {
    seq(|counts|, i requires 0 <= i < |counts| => Coming(packets[i].address, counts[i] + Burst(P)))
  }

  function OnLines(out: Option<Packet>, left: nat): seq<Coming>
  {
    if out.Some? then [Coming(out.value.address, left)] else []
  }

  function Flight(P: Params, p: Pipe): seq<Coming>
    requires |p.packets| == |p.counts|
  {
    OnLines(p.out, p.left) + Waiting(P, p.packets, p.counts)
  }

  // What a cycle leaves of the burst on the lines.
  function OnLinesNext(p: Pipe): seq<Coming>
  {
    if p.out.Some? && p.left != 1 then [Coming(p.out.value.address, p.left - 1)] else []
  }

  // One cycle of a pipe.
  function Flowed(P: Params, p: Pipe): Pipe
    requires |p.packets| == |p.counts|
  {
    var d := DecAll(p.counts);
    var left := if p.out.Some? then Dec(p.left) else p.left;
    if |d| > 0 && d[0] == 0 then Pipe(Some(p.packets[0]), Burst(P), p.packets[1..], d[1..])
    else Pipe(if p.out.Some? && left == 0 then None else p.out, left, p.packets, d)
  }

  lemma WaitingNearer(P: Params, p: Pipe)
    requires ValidParams(P) && Flows(P, p)
    ensures Waiting(P, p.packets, DecAll(p.counts)) == Closer(Waiting(P, p.packets, p.counts))
  {
    DecAllSpaced(P, p.counts, p.out.Some?, p.left);
  }

  lemma FlowedBounded(P: Params, p: Pipe)
    requires Flows(P, p) && Bounded(P, p)
    ensures Bounded(P, Flowed(P, p))
  {
  }

  // A burst that starts leaves those waiting for the lines.
  lemma StartedFlight(P: Params, p: Pipe)
    requires ValidParams(P) && Flows(P, p) && |p.counts| > 0 && p.counts[0] == 1
    ensures |Flowed(P, p).packets| == |Flowed(P, p).counts|
    ensures Flight(P, Flowed(P, p)) == Closer(Waiting(P, p.packets, p.counts))
  {
    WaitingNearer(P, p);
    var q, d := Flowed(P, p), DecAll(p.counts);
    assert Waiting(P, q.packets, q.counts) == Waiting(P, p.packets, d)[1..];
  }

  lemma QuietFlight(P: Params, p: Pipe)
    requires ValidParams(P) && Flows(P, p) && (|p.counts| > 0 ==> p.counts[0] != 1)
    ensures |Flowed(P, p).packets| == |Flowed(P, p).counts|
    ensures Flight(P, Flowed(P, p)) == OnLinesNext(p) + Closer(Waiting(P, p.packets, p.counts))
  {
    DecAllSpaced(P, p.counts, p.out.Some?, p.left);
    WaitingNearer(P, p);
  }

  lemma NearerFlight(P: Params, p: Pipe)
    requires ValidParams(P) && Flows(P, p)
    ensures Arrived(Flight(P, p)) == if p.out.Some? && p.left == 1 then [p.out.value.address] else []
    ensures Nearer(Flight(P, p)) == OnLinesNext(p) + Closer(Waiting(P, p.packets, p.counts))
  {
    var f, w := Flight(P, p), Waiting(P, p.packets, p.counts);
    if p.out.Some? {
      assert f[0].left == p.left && f[1..] == w;
      assert p.left != 1 ==> Closer(f) == [Coming(p.out.value.address, p.left - 1)] + Closer(w);
    } else {
      assert f == w;
    }
  }

  lemma FlowedFlight(P: Params, p: Pipe)
    requires ValidParams(P) && Flows(P, p)
    ensures |Flowed(P, p).packets| == |Flowed(P, p).counts|
    ensures Flight(P, Flowed(P, p)) == Nearer(Flight(P, p))
    ensures Arrived(Flight(P, p)) == if p.out.Some? && p.left == 1 then [p.out.value.address] else []
  {
    NearerFlight(P, p);
    if |p.counts| > 0 && p.counts[0] == 1 {
      StartedFlight(P, p);
    } else {
      QuietFlight(P, p);
    }
  }

  lemma PushedFlight(P: Params, p: Pipe, packet: Packet, n: nat)
    requires |p.packets| == |p.counts|
    ensures Flight(P, p.(packets := p.packets + [packet], counts := p.counts + [n]))
            == Flight(P, p) + [Coming(packet.address, n + Burst(P))]
  {
  }

  // ---------- the pipes of a system

  predicate Real(P: Params, src: Source) { src.AllWrites? || (src.ReadsOf? && src.rank < P.ranks) }

  function PipeOf(P: Params, s: System, src: Source): Pipe
    requires Shape(P, s) && Real(P, src)
  {
    if src.AllWrites? then Pipe(s.mc.data, s.mc.dataCyclesLeft, s.mc.writePackets, s.mc.writeCountdowns)
    else
      var d := s.ranks[src.rank];
      Pipe(d.outgoing, d.dataCyclesLeft, d.returnPackets, d.returnCountdowns)
  }

  // A read still on the command bus.
  function Sending(P: Params, cmd: Option<Packet>, src: Source): seq<Coming>
  {
    if src.ReadsOf? && cmd.Some? && From(cmd.value, src) then [Coming(cmd.value.address, ReadLatency(P) + Burst(P) + 1)]
    else []
  }

  lemma PipesFlow(P: Params, s: System, src: Source, t: int)
    requires ValidParams(P) && Shape(P, s) && GoodBuses(P, s, t) && Real(P, src)
    ensures Flows(P, PipeOf(P, s, src))
  {
    if src.ReadsOf? { assert GoodPipe(P, s.ranks[src.rank]); }
  }

  // Before cycle t every pipe holds what the log leads one to expect.
  ghost predicate PipesOnTime(P: Params, s: System, t: int)
    requires Shape(P, s)
  {
    forall src :: Real(P, src) ==>
      var p := PipeOf(P, s, src);
      && |p.packets| == |p.counts| && Bounded(P, p)
      && Flight(P, p) + Sending(P, s.mc.cmd, src) == Expected(P, s.log.issued, src, t)
  }

  // And the reads handed up are those that are due.
  ghost predicate OnTime(P: Params, s: System, t: int)
    requires Shape(P, s)
  {
    && Rising(s.log.issued, t) && PipesOnTime(P, s, t)
    && |s.mc.readData| <= 1 && s.log.returned + s.mc.readData == Answered(P, s.log.issued, t)
    && forall n :: 0 <= n < |s.log.issued| ==> s.log.issued[n].packet.rank < P.ranks
  }

  // ---------- settling

  lemma TickFlows(P: Params, d: RankState)
    requires ValidParams(P) && GoodPipe(P, d)
    ensures var e, p := Tick(P, d).0, Pipe(d.outgoing, d.dataCyclesLeft, d.returnPackets, d.returnCountdowns);
            && Pipe(e.outgoing, e.dataCyclesLeft, e.returnPackets, e.returnCountdowns) == Flowed(P, p)
            && Addresses(Handed(P, d)) == Arrived(Flight(P, p))
  {
    FlowedFlight(P, Pipe(d.outgoing, d.dataCyclesLeft, d.returnPackets, d.returnCountdowns));
  }

  lemma WritesFlow(P: Params, s: System)
    requires ValidParams(P) && Shape(P, s)
    requires Spaced(P, s.mc.writeCountdowns, s.mc.data.Some?, s.mc.dataCyclesLeft)
    requires SendWriteData(P, DataBus(P, s)).Ok?
    ensures PipeOf(P, SendWriteData(P, DataBus(P, s)).value, AllWrites) == Flowed(P, PipeOf(P, s, AllWrites))
  {
    AdvanceSpaced(P, s.mc.writeCountdowns, s.mc.data.Some?, s.mc.dataCyclesLeft);
  }

  // The command on the bus joins its pipe.
  lemma CarriedPipe(P: Params, s: System, u: System, r: nat)
    requires ValidParams(P) && Shape(P, s) && Shape(P, u) && CommandBus(P, s) == Ok(u) && r < P.ranks
    requires s.mc.cmd.Some? ==> s.mc.cmdCyclesLeft == 1
    requires |PipeOf(P, s, ReadsOf(r)).packets| == |PipeOf(P, s, ReadsOf(r)).counts|
    ensures |PipeOf(P, u, ReadsOf(r)).packets| == |PipeOf(P, u, ReadsOf(r)).counts| && u.mc.cmd.None?
    ensures Flight(P, PipeOf(P, u, ReadsOf(r)))
            == Flight(P, PipeOf(P, s, ReadsOf(r))) + Closer(Sending(P, s.mc.cmd, ReadsOf(r)))
  {
    var p := PipeOf(P, s, ReadsOf(r));
    if s.mc.cmd.Some? && From(s.mc.cmd.value, ReadsOf(r)) {
      PushedFlight(P, p, s.mc.cmd.value.(kind := DATA), ReadLatency(P));
    } else {
      assert PipeOf(P, u, ReadsOf(r)) == p;
    }
  }

  lemma NearerPush(f: seq<Coming>, g: seq<Coming>)
    requires |g| > 0 ==> g[0].left != 1
    ensures Nearer(f) + Closer(g) == Nearer(f + g)
  {
    if f == [] {
      assert f + g == g;
      assert Nearer(f) + Closer(g) == Closer(g);
    } else if f[0].left == 1 {
      assert (f + g)[1..] == f[1..] + g;
      CloserConcat(f[1..], g);
    } else {
      CloserConcat(f, g);
    }
  }

  // Reads and writes settle a cycle nearer.
  lemma SettledReadPipe(P: Params, s: System, s0: System, s1: System, r: nat)
    requires ValidParams(P) && Shape(P, s) && Shape(P, s0) && Shape(P, s1) && r < P.ranks && GoodPipe(P, s.ranks[r])
    requires TickRanks(P, s) == Ok(s0) && CommandBus(P, CountDown(P, s0)) == Ok(s1) && s0.mc.cmd == s.mc.cmd
    requires s0.mc.cmdCyclesLeft == s.mc.cmdCyclesLeft && (s.mc.cmd.Some? ==> s.mc.cmdCyclesLeft == 1)
    ensures var p, q := PipeOf(P, s, ReadsOf(r)), PipeOf(P, s1, ReadsOf(r));
            && |p.packets| == |p.counts| && |q.packets| == |q.counts| && s1.mc.cmd.None?
            && Flight(P, q) == Nearer(Flight(P, p) + Sending(P, s.mc.cmd, ReadsOf(r)))
  {
    var p := PipeOf(P, s, ReadsOf(r));
    FlowedFlight(P, p);
    TickFlows(P, s.ranks[r]);
    NearerPush(Flight(P, p), Sending(P, s.mc.cmd, ReadsOf(r)));
    CarriedPipe(P, CountDown(P, s0), s1, r);
  }

  lemma SettledWritePipe(P: Params, s: System, s1: System, u: System)
    requires ValidParams(P) && Shape(P, s) && Shape(P, s1) && Shape(P, u) && Flows(P, PipeOf(P, s, AllWrites))
    requires PipeOf(P, s1, AllWrites) == PipeOf(P, s, AllWrites) && SendWriteData(P, DataBus(P, s1)) == Ok(u)
    ensures var p, q := PipeOf(P, s, AllWrites), PipeOf(P, u, AllWrites);
            |q.packets| == |q.counts| && Flight(P, q) == Nearer(Flight(P, p) + Sending(P, s.mc.cmd, AllWrites))
  {
    var p := PipeOf(P, s, AllWrites);
    FlowedFlight(P, p);
    WritesFlow(P, s1);
    assert Flight(P, p) + [] == Flight(P, p);
  }

  lemma CarriedBounded(P: Params, s: System, u: System, r: nat)
    requires ValidParams(P) && Shape(P, s) && Shape(P, u) && CommandBus(P, s) == Ok(u) && r < P.ranks
    ensures Bounded(P, PipeOf(P, s, ReadsOf(r))) ==> Bounded(P, PipeOf(P, u, ReadsOf(r)))
  {
  }

  lemma SettledBounded(P: Params, s: System, u: System, src: Source)
    requires ValidParams(P) && Shape(P, s) && Shape(P, u) && GoodBuses(P, s, s.now - 1) && Settle(P, s) == Ok(u)
    requires Real(P, src) && Bounded(P, PipeOf(P, s, src))
    ensures Bounded(P, PipeOf(P, u, src))
  {
    var s0, s1 := SettlePhases(P, s, u);
    PipesFlow(P, s, src, s.now - 1);
    FlowedBounded(P, PipeOf(P, s, src));
    if src.AllWrites? {
      WritesFlow(P, s1);
    } else {
      assert GoodPipe(P, s.ranks[src.rank]);
      TickFlows(P, s.ranks[src.rank]);
      CarriedBounded(P, CountDown(P, s0), s1, src.rank);
    }
  }

  lemma SettledPipe(P: Params, s: System, u: System, src: Source)
    requires ValidParams(P) && Shape(P, s) && Shape(P, u) && GoodBuses(P, s, s.now - 1) && Settle(P, s) == Ok(u)
    requires (s.mc.cmd.Some? ==> s.mc.cmdCyclesLeft == 1) && Real(P, src)
    ensures var p, q := PipeOf(P, s, src), PipeOf(P, u, src);
            && |p.packets| == |p.counts| && |q.packets| == |q.counts| && u.mc.cmd.None?
            && Flight(P, q) == Nearer(Flight(P, p) + Sending(P, s.mc.cmd, src))
  {
    var s0, s1 := SettlePhases(P, s, u);
    PipesFlow(P, s, src, s.now - 1);
    var r := if src.ReadsOf? then src.rank else 0;
    assert GoodPipe(P, s.ranks[r]);
    SettledReadPipe(P, s, s0, s1, r);
    if src.AllWrites? { SettledWritePipe(P, s, s1, u); }
  }

  lemma {:induction false} FlattenNone<A>(ss: seq<seq<A>>)
    requires forall i :: 0 <= i < |ss| ==> ss[i] == []
    ensures Flatten(ss) == []
  {
    if ss != [] { FlattenNone(ss[..|ss| - 1]); }
  }

  lemma {:induction false} FlattenAlone<A>(ss: seq<seq<A>>, k: nat)
    requires k < |ss| && forall i :: 0 <= i < |ss| && i != k ==> ss[i] == []
    ensures Flatten(ss) == ss[k]
  {
    var n := |ss| - 1;
    if k == n {
      FlattenNone(ss[..n]);
    } else {
      FlattenAlone(ss[..n], k);
    }
  }

  // What rank r hands up is due now.
  lemma HandedOnTime(P: Params, s: System, r: nat)
    requires ValidParams(P) && Shape(P, s) && GoodBuses(P, s, s.now - 1) && OnTime(P, s, s.now) && r < P.ranks
    ensures Addresses(Handed(P, s.ranks[r])) == Arrived(Expected(P, s.log.issued, ReadsOf(r), s.now))
  {
    assert GoodPipe(P, s.ranks[r]);
    assert Real(P, ReadsOf(r));
    TickFlows(P, s.ranks[r]);
    var f, g := Flight(P, PipeOf(P, s, ReadsOf(r))), Sending(P, s.mc.cmd, ReadsOf(r));
    if f == [] { assert f + g == g; }
  }

  // A command whose burst arrives for one source: nothing arrives for another rank.
  lemma OthersQuiet(P: Params, issued: seq<Issue>, n: nat, r: nat, t: int)
    requires Rising(issued, t) && n < |issued| && Arrives(P, issued[n], AllReads, t) && r != issued[n].packet.rank
    ensures Arrived(Expected(P, issued, ReadsOf(r), t)) == []
  {
    forall m: nat | m < |issued| ensures !Arrives(P, issued[m], ReadsOf(r), t) { OnceOnly(issued, m, n, t); }
    var o := ArrivedIs(P, issued, ReadsOf(r), t, t);
  }

  lemma OnceOnly(issued: seq<Issue>, m: nat, n: nat, t: int)
    requires Rising(issued, t) && m < |issued| && n < |issued|
    ensures issued[m].time == issued[n].time ==> m == n
  {
    if m < n {
      assert issued[m].time < issued[n].time;
    } else if n < m {
      assert issued[n].time < issued[m].time;
    }
  }

  lemma OwnRank(P: Params, issued: seq<Issue>, n: nat, t: int)
    requires Rising(issued, t) && n < |issued| && Arrives(P, issued[n], AllReads, t)
    ensures Arrived(Expected(P, issued, ReadsOf(issued[n].packet.rank), t)) == [issued[n].packet.address]
  {
    var src := ReadsOf(issued[n].packet.rank);
    assert Arrives(P, issued[n], src, t);
    var o := ArrivedIs(P, issued, src, t, t);
    OnceOnly(issued, o.value, n, t);
  }

  lemma NoneArrives(P: Params, issued: seq<Issue>, r: nat, t: int)
    requires Rising(issued, t) && forall n: nat :: n < |issued| ==> !Arrives(P, issued[n], AllReads, t)
    ensures Arrived(Expected(P, issued, ReadsOf(r), t)) == []
  {
    forall n: nat | n < |issued| ensures !Arrives(P, issued[n], ReadsOf(r), t) {
      assert !Arrives(P, issued[n], AllReads, t);
    }
    var o := ArrivedIs(P, issued, ReadsOf(r), t, t);
  }

  lemma DeliveredAlone(P: Params, ranks: seq<RankState>, k: nat)
    requires k < |ranks| && forall r :: 0 <= r < |ranks| && r != k ==> Handed(P, ranks[r]) == []
    ensures Delivered(P, ranks) == Handed(P, ranks[k])
  {
    FlattenAlone(seq(|ranks|, r requires 0 <= r < |ranks| => Handed(P, ranks[r])), k);
  }

  lemma DeliveredNone(P: Params, ranks: seq<RankState>)
    requires forall r :: 0 <= r < |ranks| ==> Handed(P, ranks[r]) == []
    ensures Delivered(P, ranks) == []
  {
    FlattenNone(seq(|ranks|, r requires 0 <= r < |ranks| => Handed(P, ranks[r])));
  }

  lemma QuietRank(P: Params, s: System, r: nat)
    requires ValidParams(P) && Shape(P, s) && GoodBuses(P, s, s.now - 1) && OnTime(P, s, s.now) && r < P.ranks
    requires Arrived(Expected(P, s.log.issued, ReadsOf(r), s.now)) == []
    ensures Handed(P, s.ranks[r]) == []
  {
    HandedOnTime(P, s, r);
    assert |Addresses(Handed(P, s.ranks[r]))| == 0;
  }

  lemma DeliveredOnTime(P: Params, s: System)
    requires ValidParams(P) && Shape(P, s) && GoodBuses(P, s, s.now - 1) && OnTime(P, s, s.now)
    ensures Addresses(Delivered(P, s.ranks)) == Arrived(Expected(P, s.log.issued, AllReads, s.now))
  {
    var issued := s.log.issued;
    var o := ArrivedIs(P, issued, AllReads, s.now, s.now);
    if o.Some? {
      var k := issued[o.value].packet.rank;
      forall r: nat | r < P.ranks && r != k ensures Handed(P, s.ranks[r]) == [] {
        OthersQuiet(P, issued, o.value, r, s.now);
        QuietRank(P, s, r);
      }
      DeliveredAlone(P, s.ranks, k);
      HandedOnTime(P, s, k);
      OwnRank(P, issued, o.value, s.now);
    } else {
      forall r: nat | r < P.ranks ensures Handed(P, s.ranks[r]) == [] {
        NoneArrives(P, issued, r, s.now);
        QuietRank(P, s, r);
      }
      DeliveredNone(P, s.ranks);
    }
  }

  // ---------- one cycle, phase by phase

  lemma TickReads(P: Params, s: System, s0: System)
    requires ValidParams(P) && Shape(P, s) && TickRanks(P, s) == Ok(s0)
    ensures s0.mc.readData == s.mc.readData + Addresses(Delivered(P, s.ranks)) && s0.log == s.log
  {
  }

  lemma SettledReads(P: Params, s: System, u: System)
    requires ValidParams(P) && Shape(P, s) && Shape(P, u) && Settle(P, s) == Ok(u)
    ensures u.mc.readData == s.mc.readData + Addresses(Delivered(P, s.ranks)) && u.log == s.log
  {
    var s0, s1 := SettlePhases(P, s, u);
    TickReads(P, s, s0);
    CommandFrame(P, CountDown(P, s0));
    WritesFrame(P, s1);
  }

  lemma SettledOnTime(P: Params, s: System, u: System, src: Source, f: seq<Coming>, after: int)
    requires ValidParams(P) && Shape(P, s) && Shape(P, u) && GoodBuses(P, s, s.now - 1) && Settle(P, s) == Ok(u)
    requires (s.mc.cmd.Some? ==> s.mc.cmdCyclesLeft == 1) && Real(P, src) && Rising(s.log.issued, s.now)
    requires |PipeOf(P, s, src).packets| == |PipeOf(P, s, src).counts|
    requires f == Flight(P, PipeOf(P, s, src)) + Sending(P, s.mc.cmd, src)
    requires f == Expected(P, s.log.issued, src, s.now) && after == s.now + 1
    ensures var p := PipeOf(P, u, src);
            u.mc.cmd.None? && |p.packets| == |p.counts| && Flight(P, p) == Expected(P, s.log.issued, src, after)
  {
    ExpectedNext(P, s.log.issued, src, s.now, after, s.now);
    SettledPipe(P, s, u, src);
  }

  lemma NothingSent(P: Params, f: seq<Coming>, src: Source)
    ensures f + Sending(P, None, src) == f
  {
    assert f + [] == f;
  }

  lemma PipeExpects(P: Params, s: System, src: Source, t: int) returns (f: seq<Coming>)
    requires Shape(P, s) && OnTime(P, s, t) && Real(P, src)
    ensures |PipeOf(P, s, src).packets| == |PipeOf(P, s, src).counts| && Bounded(P, PipeOf(P, s, src))
    ensures f == Flight(P, PipeOf(P, s, src)) + Sending(P, s.mc.cmd, src) == Expected(P, s.log.issued, src, t)
  {
    f := Expected(P, s.log.issued, src, t);
  }

  lemma SettleOnTime(P: Params, s: System, u: System, after: int)
    requires ValidParams(P) && Shape(P, s) && Shape(P, u) && GoodBuses(P, s, s.now - 1) && Settle(P, s) == Ok(u)
    requires (s.mc.cmd.Some? ==> s.mc.cmdCyclesLeft == 1) && OnTime(P, s, s.now) && s.mc.readData == []
    requires after == s.now + 1
    ensures OnTime(P, u, after) && Rising(u.log.issued, s.now) && u.mc.cmd.None?
  {
    DeliveredOnTime(P, s);
    SettledReads(P, s, u);
    AnsweredNext(P, s.log.issued, s.now, after, s.now);
    var w := PipeExpects(P, s, AllWrites, s.now);
    SettledOnTime(P, s, u, AllWrites, w, after);
    forall src | Real(P, src)
      ensures var p := PipeOf(P, u, src);
              && |p.packets| == |p.counts| && Bounded(P, p)
              && Flight(P, p) + Sending(P, u.mc.cmd, src) == Expected(P, u.log.issued, src, after)
    {
      var f := PipeExpects(P, s, src, s.now);
      SettledOnTime(P, s, u, src, f, after);
      SettledBounded(P, s, u, src);
      NothingSent(P, Flight(P, PipeOf(P, u, src)), src);
    }
  }

  // Phases that leave every pipe alone, and the log.
  ghost predicate SamePipes(P: Params, s: System, u: System)
    requires Shape(P, s) && Shape(P, u)
  {
    && u.mc.cmd == s.mc.cmd && u.log.issued == s.log.issued
    && (forall src :: Real(P, src) ==> PipeOf(P, u, src) == PipeOf(P, s, src))
  }

  lemma SameOnTime(P: Params, s: System, u: System, t: int)
    requires Shape(P, s) && Shape(P, u) && SamePipes(P, s, u) && OnTime(P, s, t)
    requires |u.mc.readData| <= 1 && u.log.returned + u.mc.readData == s.log.returned + s.mc.readData
    ensures OnTime(P, u, t)
  {
    forall src | Real(P, src)
      ensures var p := PipeOf(P, u, src);
              && |p.packets| == |p.counts| && Bounded(P, p)
              && Flight(P, p) + Sending(P, u.mc.cmd, src) == Expected(P, u.log.issued, src, t)
    {
      assert PipeOf(P, u, src) == PipeOf(P, s, src);
    }
  }

  lemma RefreshOnTime(P: Params, s: System, u: System, t: int)
    requires ValidParams(P) && Shape(P, s) && Shape(P, u) && u == RefreshTimer(P, s) && OnTime(P, s, t)
    ensures OnTime(P, u, t)
  {
    SameOnTime(P, s, u, t);
  }

  lemma SplitOnTime(P: Params, s: System, u: System, t: int)
    requires ValidParams(P) && Shape(P, s) && Shape(P, u) && SplitTransaction(P, s) == Ok(u) && OnTime(P, s, t)
    ensures OnTime(P, u, t)
  {
    SplitFrames(P, s, u);
    SameOnTime(P, s, u, t);
  }

  lemma PowerPipes(P: Params, s: System, u: System)
    requires ValidParams(P) && Shape(P, s) && Shape(P, u) && ManagePower(P, s) == Ok(u)
    ensures SamePipes(P, s, u)
  {
    PowerFrame(P, s, u);
    forall src | Real(P, src) ensures PipeOf(P, u, src) == PipeOf(P, s, src) {
      if src.ReadsOf? {
        var r := src.rank;
        assert u.ranks[r] == PowerDevice(P, PowerDecision(P, s, r), s.ranks[r], s.now);
      }
    }
  }

  lemma PowerOnTime(P: Params, s: System, u: System, t: int)
    requires ValidParams(P) && Shape(P, s) && Shape(P, u) && ManagePower(P, s) == Ok(u) && OnTime(P, s, t)
    ensures OnTime(P, u, t)
  {
    PowerPipes(P, s, u);
    PowerFrame(P, s, u);
    SameOnTime(P, s, u, t);
  }

  // Nothing is left to hand up at the end of a cycle.
  lemma ReturnOnTime(P: Params, s: System, u: System, t: int)
    requires ValidParams(P) && Shape(P, s) && Shape(P, u) && ReturnRead(P, s) == Ok(u) && OnTime(P, s, t)
    ensures OnTime(P, u, t) && u.mc.readData == []
  {
    ReturnFrame(P, s, u);
    if s.mc.readData != [] { assert s.mc.readData == [s.mc.readData[0]] && s.mc.readData[1..] == []; }
    SameOnTime(P, s, u, t);
  }

  // The command popped joins the log, and its burst a pipe.
  lemma SentPipe(P: Params, s: System, u: System, p: Packet, src: Source, t: int)
    requires ValidParams(P) && Shape(P, s) && Shape(P, u) && Real(P, src) && OnTime(P, s, t) && t == s.now + 1
    requires s.mc.cmd.None? && u.mc.cmd == Some(p) && u.ranks == s.ranks
    requires u.mc.data == s.mc.data && u.mc.dataCyclesLeft == s.mc.dataCyclesLeft
    requires u.mc.writeCountdowns == s.mc.writeCountdowns + (if IsWrite(p.kind) then [WriteLatency(P)] else [])
    requires u.mc.writePackets == s.mc.writePackets + (if IsWrite(p.kind) then [p.(kind := DATA)] else [])
    requires u.log.issued == s.log.issued + [Issue(s.now, p)]
    ensures var q := PipeOf(P, u, src);
            && |q.packets| == |q.counts| && Bounded(P, q)
            && Flight(P, q) + Sending(P, u.mc.cmd, src) == Expected(P, u.log.issued, src, t)
  {
    SentExpected(P, s.log.issued, Issue(s.now, p), src, t);
    var q := PipeOf(P, s, src);
    assert |q.packets| == |q.counts|;
    assert Flight(P, q) + [] == Flight(P, q);
    if src.AllWrites? && IsWrite(p.kind) {
      PushedFlight(P, q, p.(kind := DATA), WriteLatency(P));
    } else {
      assert PipeOf(P, u, src) == q by { assert q.counts + [] == q.counts && q.packets + [] == q.packets; }
    }
  }
}
