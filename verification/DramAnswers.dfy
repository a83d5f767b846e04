/** Reads are answered, and the data lines taken, at fixed distances from their commands. */
module DramAnswers {
  import opened Basics
  import opened DramTypes
  import opened CommandQueueSpec
  import opened MemorySystemSpec
  import opened DramSafety
  import opened DramBus
  import opened DramRuns
  import opened DramTheorems
  import opened DramPhases
  import opened DramFlights
  import opened DramLatency

  // Before a cycle: nothing waits to be handed up.
  ghost predicate Prompt(P: Params, s: System)
    requires Shape(P, s)
  {
    OnTime(P, s, s.now) && s.mc.readData == []
  }

  lemma StillPrompt(P: Params, s: System, t: int)
    requires Shape(P, s) && OnTime(P, s, t) && s.mc.readData == [] && t == s.now
    ensures Prompt(P, s)
  {
  }

  lemma IssueWrites(P: Params, s: System, u: System)
    requires ValidParams(P) && Shape(P, s) && Shape(P, u) && IssueCommand(P, s) == Ok(u)
    ensures u.mc.data == s.mc.data && u.mc.dataCyclesLeft == s.mc.dataCyclesLeft
    ensures var c := Pop(P, s.mc.table, s.mc.queue, s.now).packet;
            var writes := c.Some? && IsWrite(c.value.kind);
            && u.mc.writeCountdowns == s.mc.writeCountdowns + (if writes then [WriteLatency(P)] else [])
            && u.mc.writePackets == s.mc.writePackets + (if writes then [c.value.(kind := DATA)] else [])
  {
  }

  // The command popped in this cycle, which ends `after`.
  lemma SentPrompt(P: Params, s: System, u: System, p: Packet, after: int)
    requires ValidParams(P) && Shape(P, s) && Shape(P, u) && s.mc.cmd.None? && OnTime(P, s, after)
    requires after == s.now + 1 && Rising(s.log.issued, s.now) && p.rank < P.ranks
    requires u.mc.cmd == Some(p) && u.ranks == s.ranks && u.mc.readData == s.mc.readData
    requires u.mc.data == s.mc.data && u.mc.dataCyclesLeft == s.mc.dataCyclesLeft
    requires u.mc.writeCountdowns == s.mc.writeCountdowns + (if IsWrite(p.kind) then [WriteLatency(P)] else [])
    requires u.mc.writePackets == s.mc.writePackets + (if IsWrite(p.kind) then [p.(kind := DATA)] else [])
    requires u.log == s.log.(issued := s.log.issued + [Issue(s.now, p)])
    ensures OnTime(P, u, after)
  {
    SentExpected(P, s.log.issued, Issue(s.now, p), AllWrites, after);
    forall src | Real(P, src)
      ensures var p := PipeOf(P, u, src);
              && |p.packets| == |p.counts| && Bounded(P, p)
              && Flight(P, p) + Sending(P, u.mc.cmd, src) == Expected(P, u.log.issued, src, after)
    {
      SentPipe(P, s, u, p, src, after);
    }
  }

  lemma IssuePrompt(P: Params, s: System, u: System, after: int)
    requires ValidParams(P) && Shape(P, s) && Shape(P, u) && IssueCommand(P, s) == Ok(u) && s.mc.cmd.None?
    requires after == s.now + 1 && OnTime(P, s, after) && Rising(s.log.issued, s.now)
    requires var c := Pop(P, s.mc.table, s.mc.queue, s.now).packet; c.Some? ==> c.value.rank < P.ranks
    ensures OnTime(P, u, after)
  {
    IssueFrame(P, s, u);
    IssueWrites(P, s, u);
    var c := Pop(P, s.mc.table, s.mc.queue, s.now).packet;
    if c.Some? {
      SentPrompt(P, s, u, c.value, after);
    } else {
      assert s.mc.writeCountdowns + [] == s.mc.writeCountdowns && s.mc.writePackets + [] == s.mc.writePackets;
      SameOnTime(P, s, u, after);
    }
  }

  // One cycle, in two halves.
  lemma ThroughPrompt(P: Params, s: System, after: int) returns (u: System)
    requires ValidParams(P) && Shape(P, s) && Between(P, s) && Core(P, s) && Prompt(P, s) && after == s.now + 1
    ensures ThroughIssue(P, s) == Ok(u) && Shape(P, u) && Within(P, u) && Core(P, u) && Busy(P, u)
    ensures OnTime(P, u, after) && u.now == s.now
  {
    BetweenMeans(P, s);
    var s1 := SettleHalf(P, s);
    SettleOnTime(P, s, s1, after);
    var s2 := RefreshHalf(P, s1);
    RefreshOnTime(P, s1, s2, after);
    u := PopPrompt(P, s2, after);
  }

  lemma PopPrompt(P: Params, s: System, after: int) returns (u: System)
    requires ValidParams(P) && Shape(P, s) && Within(P, s) && Core(P, s)
    requires s.mc.cmd.None? && WriteHorizon(P, s.mc) < WriteLatency(P) + Burst(P)
    requires after == s.now + 1 && OnTime(P, s, after) && Rising(s.log.issued, s.now)
    ensures IssueCommand(P, s) == Ok(u) && Shape(P, u) && Within(P, u) && Core(P, u) && Busy(P, u)
    ensures OnTime(P, u, after) && u.now == s.now
  {
    var e := PopExplained(P, s);
    u := PopHalf(P, s);
    IssueFrame(P, s, u);
    IssuePrompt(P, s, u, after);
  }

  lemma EndPrompt(P: Params, s: System, u: System, after: int)
    requires Shape(P, s) && Shape(P, u) && OnTime(P, s, after) && s.mc.readData == [] && u == EndCycle(P, s)
    requires after == s.now + 1
    ensures Prompt(P, u)
  {
    SameOnTime(P, s, u, after);
    StillPrompt(P, u, after);
  }

  lemma AfterPrompt(P: Params, s: System, u: System, after: int)
    requires ValidParams(P) && Shape(P, s) && Within(P, s) && Core(P, s) && Busy(P, s)
    requires OnTime(P, s, after) && after == s.now + 1 && AfterIssue(P, s) == Ok(u)
    ensures Prompt(P, u)
  {
    var s4 := SplitHalf(P, s);
    SplitOnTime(P, s, s4, after);
    var s5 := PowerHalf(P, s4);
    PowerOnTime(P, s4, s5, after);
    var s6 := ReturnHalf(P, s5);
    ReturnOnTime(P, s5, s6, after);
    EndPrompt(P, s6, u, after);
  }

  lemma CyclePrompt(P: Params, s: System, u: System, after: int)
    requires ValidParams(P) && Shape(P, s) && Inv(P, s) && Prompt(P, s) && Update(P, s) == Ok(u) && after == s.now + 1
    ensures Prompt(P, u)
  {
    var s3 := ThroughPrompt(P, s, after);
    AfterPrompt(P, s3, u, after);
  }

  lemma AcceptPrompt(P: Params, s: System, isRead: bool, address: nat)
    requires Shape(P, s) && Prompt(P, s)
    ensures Prompt(P, Accept(P, s, isRead, address))
  {
    SameOnTime(P, s, Accept(P, s, isRead, address), s.now);
  }

  lemma StepPrompt(P: Params, s: System, a: Action, u: System)
    requires ValidParams(P) && Shape(P, s) && Inv(P, s) && Prompt(P, s) && Step(P, s, a) == Ok(u)
    ensures Prompt(P, u)
  {
    match a
    case Request(isRead, address) =>
      AcceptPrompt(P, s, isRead, address);
    case Cycle =>
      CyclePrompt(P, s, u, s.now + 1);
  }

  lemma {:induction false} RunPrompt(P: Params, s: System, actions: seq<Action>, u: System)
    requires ValidParams(P) && Shape(P, s) && Inv(P, s) && Prompt(P, s) && RunFrom(P, s, actions) == Ok(u)
    ensures Prompt(P, u)
    decreases |actions|
  {
    if actions != [] {
      var v := StepKeeps(P, s, actions[0]);
      StepPrompt(P, s, actions[0], v);
      RunUnfold(P, s, actions, v);
      RunPrompt(P, v, actions[1..], u);
    }
  }

  lemma InitPrompt(P: Params)
    requires ValidParams(P) && Shape(P, Init(P))
    ensures Prompt(P, Init(P))
  {
  }

  lemma ReachedPrompt(P: Params, actions: seq<Action>, s: System)
    requires ValidParams(P) && Run(P, actions) == Ok(s)
    ensures Prompt(P, s)
  {
    InitKeeps(P);
    InitPrompt(P);
    RunPrompt(P, Init(P), actions, s);
  }

  // MAIN RESULT.  In every run the answers are, in order, the addresses of the reads issued long enough ago: a read
  // issued in cycle t is answered in cycle t + CL + AL + BL / 2 + 1.
  lemma ReadsAnsweredOnTime(P: Params, actions: seq<Action>, s: System)
    requires ValidParams(P) && Run(P, actions) == Ok(s)
    ensures s.log.returned == Answered(P, s.log.issued, s.now)
  {
    ReachedPrompt(P, actions, s);
    assert s.log.returned + [] == s.log.returned;
  }

  // ---------- the lines

  lemma {:induction false} ExpectedHas(P: Params, issued: seq<Issue>, src: Source, t: int, k: nat) returns (n: nat)
    requires k < |Expected(P, issued, src, t)|
    ensures n < |issued| && From(issued[n].packet, src)
    ensures var c := Expected(P, issued, src, t)[k];
            c.address == issued[n].packet.address && c.left == issued[n].time + Span(P, src) - t
  {
    var before := issued[..|issued| - 1];
    if k < |Expected(P, before, src, t)| {
      n := ExpectedHas(P, before, src, t, k);
    } else {
      n := |issued| - 1;
    }
  }

  lemma {:induction false} HasExpected(P: Params, issued: seq<Issue>, src: Source, t: int, n: nat) returns (k: nat)
    requires n < |issued| && From(issued[n].packet, src) && t < issued[n].time + Span(P, src)
    ensures k < |Expected(P, issued, src, t)|
    ensures Expected(P, issued, src, t)[k] == Coming(issued[n].packet.address, issued[n].time + Span(P, src) - t)
  {
    var before := issued[..|issued| - 1];
    if n < |before| {
      k := HasExpected(P, before, src, t, n);
    } else {
      k := |Expected(P, before, src, t)|;
    }
  }

  // The burst of e is on the lines before cycle t.
  predicate Bursting(P: Params, e: Issue, src: Source, t: int)
  {
    From(e.packet, src) && e.time + Span(P, src) - P.BL / 2 <= t < e.time + Span(P, src)
  }

  lemma OnlyFirstBursts(P: Params, p: Pipe, cmd: Option<Packet>, src: Source, k: nat)
    requires ValidParams(P) && Flows(P, p) && k < |Flight(P, p) + Sending(P, cmd, src)|
    requires (Flight(P, p) + Sending(P, cmd, src))[k].left <= Burst(P)
    ensures k == 0 && p.out.Some? && (Flight(P, p) + Sending(P, cmd, src))[0] == Coming(p.out.value.address, p.left)
  {
    forall i: nat | i < |p.counts| ensures 1 <= p.counts[i] {
      SpacedAllPositive(P, p.counts, p.out.Some?, p.left, i);
    }
  }

  lemma TakenExactly(P: Params, s: System, src: Source, address: nat, p: Pipe, f: seq<Coming>)
    requires ValidParams(P) && Flows(P, p) && Bounded(P, p) && f == Flight(P, p) + Sending(P, s.mc.cmd, src)
    requires f == Expected(P, s.log.issued, src, s.now)
    ensures p.out.Some? && p.out.value.address == address
            <==> exists n: nat :: n < |s.log.issued| && s.log.issued[n].packet.address == address
                                  && Bursting(P, s.log.issued[n], src, s.now)
  {
    if p.out.Some? && p.out.value.address == address {
      assert f[0] == Coming(address, p.left);
      var n := ExpectedHas(P, s.log.issued, src, s.now, 0);
      assert Bursting(P, s.log.issued[n], src, s.now);
    }
    forall n: nat | n < |s.log.issued| && s.log.issued[n].packet.address == address
                    && Bursting(P, s.log.issued[n], src, s.now)
      ensures p.out.Some? && p.out.value.address == address
    {
      var k := HasExpected(P, s.log.issued, src, s.now, n);
      OnlyFirstBursts(P, p, s.mc.cmd, src, k);
    }
  }

  // MAIN RESULT.  In every run a burst of some address is on a rank's lines, or on the controller's, exactly in the
  // cycles its command asks for.
  lemma LinesTaken(P: Params, actions: seq<Action>, s: System, src: Source, address: nat)
    requires ValidParams(P) && Run(P, actions) == Ok(s) && Real(P, src)
    ensures var out := PipeOf(P, s, src).out;
            out.Some? && out.value.address == address
            <==> exists n: nat :: n < |s.log.issued| && s.log.issued[n].packet.address == address
                                  && Bursting(P, s.log.issued[n], src, s.now)
  {
    ReachedPrompt(P, actions, s);
    ReachedFlows(P, actions, s, src);
    var p := PipeOf(P, s, src);
    TakenExactly(P, s, src, address, p, Flight(P, p) + Sending(P, s.mc.cmd, src));
  }

  lemma ReachedFlows(P: Params, actions: seq<Action>, s: System, src: Source)
    requires ValidParams(P) && Run(P, actions) == Ok(s) && Real(P, src)
    ensures Flows(P, PipeOf(P, s, src))
  {
    EveryRunIsSafe(P, actions);
    BetweenMeans(P, s);
    PipesFlow(P, s, src, s.now - 1);
  }
}
