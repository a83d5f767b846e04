/** When the bursts of the commands in a log are over. */
module DramFlights {
  import opened Basics
  import opened DramTypes
  import opened MemorySystemSpec

  // A burst on its way, and the cycles until it is over.
  datatype Coming = Coming(address: nat, left: int)

  // Whose bursts: one rank's reads, all reads, or the writes.
  datatype Source = ReadsOf(rank: nat) | AllReads | AllWrites

  predicate From(p: Packet, src: Source)
  {
    match src
    case ReadsOf(r) => IsRead(p.kind) && p.rank == r
    case AllReads => IsRead(p.kind)
    case AllWrites => IsWrite(p.kind)
  }

  // From a command to the end of its burst: a read is a cycle on the bus, CL + AL in the device and BL / 2 on the
  // lines, and is handed up in the cycle after; a write starts a cycle before a read would.
  function Span(P: Params, src: Source): int
  {
    if src.AllWrites? then P.CL + P.AL + P.BL / 2 else P.CL + P.AL + P.BL / 2 + 2
  }

  // Before cycle t: what is left of the burst of e.
  function Rest(P: Params, e: Issue, src: Source, t: int): seq<Coming>
  {
    var left := e.time + Span(P, src) - t;
    if From(e.packet, src) && 0 < left then [Coming(e.packet.address, left)] else []
  }

  // Before cycle t: the bursts that are not over.
  function Expected(P: Params, issued: seq<Issue>, src: Source, t: int): seq<Coming>
  {
    if issued == [] then []
    else Expected(P, issued[..|issued| - 1], src, t) + Rest(P, issued[|issued| - 1], src, t)
  }

  // Before cycle t: the addresses of the reads that have been answered.
  function Answered(P: Params, issued: seq<Issue>, t: int): seq<nat>
  {
    if issued == [] then []
    else
      var e, before := issued[|issued| - 1], Answered(P, issued[..|issued| - 1], t);
      if IsRead(e.packet.kind) && e.time + P.CL + P.AL + P.BL / 2 + 2 <= t then before + [e.packet.address] else before
  }

  ghost predicate Rising(issued: seq<Issue>, t: int)
  {
    && (forall i: nat, j: nat :: i < j < |issued| ==> issued[i].time < issued[j].time)
    && (forall i: nat :: i < |issued| ==> issued[i].time < t)
  }

  // What a cycle completes, and what it leaves, a cycle nearer.
  function Arrived(f: seq<Coming>): seq<nat> { if |f| > 0 && f[0].left == 1 then [f[0].address] else [] }

  function Nearer(f: seq<Coming>): seq<Coming> { Closer(if |f| > 0 && f[0].left == 1 then f[1..] else f) }

  function Closer(f: seq<Coming>): (g: seq<Coming>)
    ensures |g| == |f| && forall i :: 0 <= i < |f| ==> g[i] == Coming(f[i].address, f[i].left - 1)
  {
    seq(|f|, i requires 0 <= i < |f| => Coming(f[i].address, f[i].left - 1))
  }

  lemma RisingPrefix(issued: seq<Issue>, t: int)
    requires Rising(issued, t) && issued != []
    ensures Rising(issued[..|issued| - 1], issued[|issued| - 1].time)
  {
  }

  // Everything still expected is over after this cycle or later, and before a command sent later.
  lemma {:induction false} ExpectedBefore(P: Params, issued: seq<Issue>, src: Source, t: int, x: int)
    requires Rising(issued, x)
    ensures forall k :: 0 <= k < |Expected(P, issued, src, t)| ==>
      1 <= Expected(P, issued, src, t)[k].left < x + Span(P, src) - t
  {
    if issued != [] {
      RisingPrefix(issued, x);
      ExpectedBefore(P, issued[..|issued| - 1], src, t, issued[|issued| - 1].time);
    }
  }

  // The burst of e is over with cycle t.
  predicate Arrives(P: Params, e: Issue, src: Source, t: int)
  {
    From(e.packet, src) && e.time + Span(P, src) == t + 1
  }

  lemma RestNearer(P: Params, e: Issue, src: Source, t: int, after: int)
    requires after == t + 1
    ensures Nearer(Rest(P, e, src, t)) == Rest(P, e, src, after)
    ensures 1 < e.time + Span(P, src) - t ==> Closer(Rest(P, e, src, t)) == Rest(P, e, src, after)
  {
  }

  lemma CloserConcat(f: seq<Coming>, g: seq<Coming>)
    ensures Closer(f + g) == Closer(f) + Closer(g)
  {
  }

  lemma NearerAppend(P: Params, f: seq<Coming>, e: Issue, src: Source, t: int, after: int)
    requires after == t + 1 && (|f| > 0 ==> 1 <= f[0].left < e.time + Span(P, src) - t)
    ensures Nearer(f + Rest(P, e, src, t)) == Nearer(f) + Rest(P, e, src, after)
  {
    var g := Rest(P, e, src, t);
    RestNearer(P, e, src, t, after);
    if f == [] {
      assert f + g == g;
    } else if f[0].left == 1 {
      assert (f + g)[1..] == f[1..] + g;
      CloserConcat(f[1..], g);
    } else {
      CloserConcat(f, g);
    }
  }

  lemma ArrivedAppend(P: Params, f: seq<Coming>, e: Issue, src: Source, t: int)
    requires |f| > 0 ==> 1 <= f[0].left < e.time + Span(P, src) - t
    ensures Arrived(f + Rest(P, e, src, t)) == if Arrives(P, e, src, t) then [e.packet.address] else Arrived(f)
  {
    var g := Rest(P, e, src, t);
    if f == [] {
      assert f + g == g;
    } else {
      assert (f + g)[0] == f[0];
    }
  }

  lemma ExpectedFirst(P: Params, issued: seq<Issue>, src: Source, t: int, x: int)
    requires Rising(issued, x)
    ensures var f := Expected(P, issued, src, t); |f| > 0 ==> 1 <= f[0].left < x + Span(P, src) - t
  {
    ExpectedBefore(P, issued, src, t, x);
  }

  lemma {:induction false} ExpectedNext(P: Params, issued: seq<Issue>, src: Source, t: int, after: int, x: int)
    requires Rising(issued, x) && after == t + 1
    ensures Expected(P, issued, src, after) == Nearer(Expected(P, issued, src, t))
  {
    if issued != [] {
      var e, before := issued[|issued| - 1], issued[..|issued| - 1];
      RisingPrefix(issued, x);
      ExpectedNext(P, before, src, t, after, e.time);
      ExpectedBefore(P, before, src, t, e.time);
      NearerAppend(P, Expected(P, before, src, t), e, src, t, after);
    }
  }

  // Which command it is, if any.
  lemma {:induction false} ArrivedIs(P: Params, issued: seq<Issue>, src: Source, t: int, x: int)
    returns (o: Option<nat>)
    requires Rising(issued, x)
    ensures match o
            case None =>
              Arrived(Expected(P, issued, src, t)) == []
              && forall n: nat :: n < |issued| ==> !Arrives(P, issued[n], src, t)
            case Some(n) =>
              n < |issued| && Arrives(P, issued[n], src, t)
              && Arrived(Expected(P, issued, src, t)) == [issued[n].packet.address]
  {
    o := None;
    if issued != [] {
      var e, before := issued[|issued| - 1], issued[..|issued| - 1];
      RisingPrefix(issued, x);
      o := ArrivedIs(P, before, src, t, e.time);
      ExpectedFirst(P, before, src, t, e.time);
      var f := Expected(P, before, src, t);
      ArrivedAppend(P, f, e, src, t);
      assert Expected(P, issued, src, t) == f + Rest(P, e, src, t);
      if Arrives(P, e, src, t) {
        o := Some(|before|);
      } else if o.None? {
        NotYet(P, issued, src, t);
      }
    }
  }

  lemma NotYet(P: Params, issued: seq<Issue>, src: Source, t: int)
    requires issued != [] && !Arrives(P, issued[|issued| - 1], src, t)
    requires var before := issued[..|issued| - 1]; forall n: nat :: n < |before| ==> !Arrives(P, before[n], src, t)
    ensures forall n: nat :: n < |issued| ==> !Arrives(P, issued[n], src, t)
  {
    var before := issued[..|issued| - 1];
    forall n: nat | n < |issued| ensures !Arrives(P, issued[n], src, t) {
      if n < |before| { assert issued[n] == before[n]; }
    }
  }

  lemma {:induction false} AnsweredNext(P: Params, issued: seq<Issue>, t: int, after: int, x: int)
    requires Rising(issued, x) && after == t + 1
    ensures Answered(P, issued, after) == Answered(P, issued, t) + Arrived(Expected(P, issued, AllReads, t))
  {
    if issued != [] {
      var e, before := issued[|issued| - 1], issued[..|issued| - 1];
      RisingPrefix(issued, x);
      AnsweredNext(P, before, t, after, e.time);
      ExpectedFirst(P, before, AllReads, t, e.time);
      AnswerJoins(P, issued, t, after);
    }
  }

  // The last read of the log.
  lemma AnswerJoins(P: Params, issued: seq<Issue>, t: int, after: int)
    requires after == t + 1 && issued != []
    requires var before := issued[..|issued| - 1];
             Answered(P, before, after) == Answered(P, before, t) + Arrived(Expected(P, before, AllReads, t))
    requires var e, f := issued[|issued| - 1], Expected(P, issued[..|issued| - 1], AllReads, t);
             |f| > 0 ==> 1 <= f[0].left < e.time + Span(P, AllReads) - t
    ensures Answered(P, issued, after) == Answered(P, issued, t) + Arrived(Expected(P, issued, AllReads, t))
  {
    var e, before := issued[|issued| - 1], issued[..|issued| - 1];
    ArrivedAppend(P, Expected(P, before, AllReads, t), e, AllReads, t);
    assert Answered(P, before, t) + [] == Answered(P, before, t);
  }

  // A command just sent.
  lemma SentExpected(P: Params, issued: seq<Issue>, e: Issue, src: Source, t: int)
    requires t == e.time + 1
    ensures Expected(P, issued + [e], src, t) == Expected(P, issued, src, t) + Rest(P, e, src, t)
    ensures Answered(P, issued + [e], t) == Answered(P, issued, t)
  {
    assert (issued + [e])[..|issued|] == issued;
  }
}
