/** The cache as its sets: how an address is split and put together again, and which line an insertion evicts. */
module FunctionalCache {
  import opened Basics
  import opened LruSpec
  import opened AddressBits

  // How addresses of w bits map to sets, tags and offsets.
  datatype Geometry = Geometry(w: nat, sets: nat, ways: nat, setOf: nat -> nat, tagOf: nat -> nat, offsetOf: nat -> nat)

  ghost predicate ValidGeometry(g: Geometry)
  {
    1 <= g.ways && forall a: nat :: a < Pow2(g.w) ==> g.setOf(a) < g.sets
  }

  // 2^lineBits bytes in a line, 2^setBits sets of `ways` lines; shifted is what the undefined shift gives.
  function PowersOfTwo(w: nat, shifted: nat, lineBits: nat, setBits: nat, ways: nat): (g: Geometry)
    requires 1 <= ways && shifted <= 1 && lineBits + setBits < w
    ensures ValidGeometry(g)
  {
    var hi := setBits + lineBits;
    AllMiddlesInRange(lineBits, setBits, hi);
    Geometry(w, Pow2(setBits), ways,
             a requires 0 <= a => Extract(hi, lineBits, a),
             a requires 0 <= a => ExtractTop(w, shifted, hi, a),
             a requires 0 <= a => Extract(lineBits, 0, a))
  }

  // The address `insert` reports of an evicted line: none when the tag, as a signed word, is -1.
  function Reported(w: nat, lineBits: nat, setBits: nat, line: Line): Option<nat>
  {
    if line.tag == Pow2(w) - 1 then None else Some(Recomposed(lineBits, setBits, line.tag, line.setid, line.offset))
  }

  datatype Op = Access(address: nat, nodeId: int, isLoad: bool) | Insert(address: nat, nodeId: int, isLoad: bool)
    | Invalidate(address: nat) | Evict(address: nat)

  type Cache = seq<seq<Line>>

  function Empty(g: Geometry): Cache { seq(g.sets, i => []) }

  ghost predicate Fits(g: Geometry, C: Cache)
  {
    |C| == g.sets && forall k :: 0 <= k < |C| ==> |C[k]| <= g.ways
  }

  // A caller inserts no line that would stay in its set, and invalidates only present ones.
  ghost predicate Allowed(g: Geometry, C: Cache, op: Op)
    requires ValidGeometry(g) && Fits(g, C)
  {
    op.address < Pow2(g.w)
    && (op.Insert? ==> !Present(Kept(C[g.setOf(op.address)], g.ways), g.tagOf(op.address)))
    && (op.Invalidate? ==> Present(C[g.setOf(op.address)], g.tagOf(op.address)))
  }

  function NewLine(g: Geometry, op: Op): Line
    requires op.Insert?
  {
    Line(g.tagOf(op.address), g.offsetOf(op.address), g.setOf(op.address), op.nodeId, !op.isLoad)
  }

  function SetAfter(g: Geometry, lines: seq<Line>, op: Op): seq<Line>
    requires 1 <= g.ways && |lines| <= g.ways
  {
    match op
    case Access(a, nodeId, isLoad) => AfterAccess(lines, g.tagOf(a), g.offsetOf(a), nodeId, isLoad)
    case Insert(a, _, _) => AfterInsert(lines, g.ways, NewLine(g, op))
    case Invalidate(a) => AfterRemove(lines, g.tagOf(a))
    case Evict(a) => AfterRemove(lines, g.tagOf(a))
  }

  function Step(g: Geometry, C: Cache, op: Op): (D: Cache)
    requires ValidGeometry(g) && Fits(g, C) && op.address < Pow2(g.w)
    ensures Fits(g, D)
  {
    C[g.setOf(op.address) := SetAfter(g, C[g.setOf(op.address)], op)]
  }

  // What a run of operations makes of the empty cache, as long as each is allowed where it comes.
  ghost function Run(g: Geometry, ops: seq<Op>): (C: Option<Cache>)
    requires ValidGeometry(g)
    ensures C.Some? ==> Fits(g, C.value)
    decreases |ops|
  {
    if ops == [] then Some(Empty(g))
    else
      var n := |ops| - 1;
      var B := Run(g, ops[..n]);
      if B.Some? && Allowed(g, B.value, ops[n]) then Some(Step(g, B.value, ops[n])) else None
  }

  // An access or insertion of any address of the line with this tag in set k.
  predicate Touches(g: Geometry, op: Op, k: nat, tag: nat)
  {
    (op.Access? || op.Insert?) && g.setOf(op.address) == k && g.tagOf(op.address) == tag
  }

  // The number of the last operation that touched the line, or -1.
  function LastTouch(g: Geometry, ops: seq<Op>, k: nat, tag: nat): (t: int)
    ensures -1 <= t < |ops| && (t >= 0 ==> Touches(g, ops[t], k, tag))
    ensures forall i :: t < i < |ops| ==> !Touches(g, ops[i], k, tag)
  {
    if ops == [] then -1
    else if Touches(g, ops[|ops| - 1], k, tag) then |ops| - 1
    else LastTouch(g, ops[..|ops| - 1], k, tag)
  }

  // The number of the last insertion of the line, or -1.
  function LastInsert(g: Geometry, ops: seq<Op>, k: nat, tag: nat): (t: int)
    ensures -1 <= t < |ops| && (t >= 0 ==> ops[t].Insert? && Touches(g, ops[t], k, tag))
    ensures forall i :: t < i < |ops| ==> !(ops[i].Insert? && Touches(g, ops[i], k, tag))
  {
    if ops == [] then -1
    else if ops[|ops| - 1].Insert? && Touches(g, ops[|ops| - 1], k, tag) then |ops| - 1
    else LastInsert(g, ops[..|ops| - 1], k, tag)
  }

  predicate Stores(g: Geometry, op: Op, k: nat, tag: nat) { Touches(g, op, k, tag) && !op.isLoad }

  // Some touch since the line was last inserted, the insertion included, was a store.
  ghost predicate StoredSince(g: Geometry, ops: seq<Op>, k: nat, tag: nat)
  {
    exists i: nat :: LastInsert(g, ops, k, tag) <= i < |ops| && Stores(g, ops[i], k, tag)
  }

  // The line remembers where it was touched last and by whom, and whether it was stored to.
  ghost predicate Remembers(g: Geometry, ops: seq<Op>, k: nat, line: Line)
  {
    var t := LastTouch(g, ops, k, line.tag);
    && t >= 0 && line.setid == k && line.offset == g.offsetOf(ops[t].address) && line.tag == g.tagOf(ops[t].address)
    && g.setOf(ops[t].address) == k && ops[t].address < Pow2(g.w) && line.nodeId == ops[t].nodeId
    && LastInsert(g, ops, k, line.tag) >= 0 && (line.dirty <==> StoredSince(g, ops, k, line.tag))
  }

  function Times(g: Geometry, ops: seq<Op>, k: nat, lines: seq<Line>): (ts: seq<int>)
    ensures |ts| == |lines| && forall i :: 0 <= i < |ts| ==> ts[i] == LastTouch(g, ops, k, lines[i].tag)
  {
    seq(|lines|, i requires 0 <= i < |lines| => LastTouch(g, ops, k, lines[i].tag))
  }

  ghost predicate Falling(ts: seq<int>)
  {
    forall i, j :: 0 <= i < j < |ts| ==> ts[i] > ts[j]
  }

  // A set lists its lines by their last touch, the latest first.
  ghost predicate ByRecency(g: Geometry, ops: seq<Op>, k: nat, lines: seq<Line>)
  {
    (forall i :: 0 <= i < |lines| ==> Remembers(g, ops, k, lines[i])) && Falling(Times(g, ops, k, lines))
  }

  lemma TouchLater(g: Geometry, ops: seq<Op>, op: Op, k: nat, tag: nat)
    ensures LastTouch(g, ops + [op], k, tag) == if Touches(g, op, k, tag) then |ops| else LastTouch(g, ops, k, tag)
  {
    assert (ops + [op])[..|ops|] == ops;
  }

  // What one more operation does to the two histories of a line.
  lemma StoredLater(g: Geometry, ops: seq<Op>, op: Op, k: nat, tag: nat)
    ensures LastInsert(g, ops + [op], k, tag)
            == if op.Insert? && Touches(g, op, k, tag) then |ops| else LastInsert(g, ops, k, tag)
    ensures StoredSince(g, ops + [op], k, tag)
            <==> Stores(g, op, k, tag) || (!(op.Insert? && Touches(g, op, k, tag)) && StoredSince(g, ops, k, tag))
  {
    var more := ops + [op];
    assert more[..|ops|] == ops;
    if Stores(g, op, k, tag) { assert Stores(g, more[|ops|], k, tag); }
    if StoredSince(g, ops, k, tag) {
      var i: nat :| LastInsert(g, ops, k, tag) <= i < |ops| && Stores(g, ops[i], k, tag);
      assert Stores(g, more[i], k, tag);
    }
    if StoredSince(g, more, k, tag) {
      var i: nat :| LastInsert(g, more, k, tag) <= i < |more| && Stores(g, more[i], k, tag);
      if i < |ops| { assert Stores(g, ops[i], k, tag); }
    }
  }

  // Lines the operation leaves alone keep their order.
  lemma KeptByRecency(g: Geometry, ops: seq<Op>, op: Op, k: nat, lines: seq<Line>)
    requires ByRecency(g, ops, k, lines)
    requires forall i :: 0 <= i < |lines| ==> !Touches(g, op, k, lines[i].tag)
    ensures ByRecency(g, ops + [op], k, lines) && Times(g, ops + [op], k, lines) == Times(g, ops, k, lines)
  {
    forall i | 0 <= i < |lines| ensures Remembers(g, ops + [op], k, lines[i])
      ensures LastTouch(g, ops + [op], k, lines[i].tag) == LastTouch(g, ops, k, lines[i].tag)
    {
      assert Remembers(g, ops, k, lines[i]);
      TouchLater(g, ops, op, k, lines[i].tag);
      StoredLater(g, ops, op, k, lines[i].tag);
    }
    assert Times(g, ops + [op], k, lines) == Times(g, ops, k, lines);
  }

  // Taking a line out, or the last ones off, keeps the order of the rest.
  lemma DropByRecency(g: Geometry, ops: seq<Op>, k: nat, lines: seq<Line>, i: nat)
    requires ByRecency(g, ops, k, lines) && i < |lines|
    ensures ByRecency(g, ops, k, RemoveAt(lines, i))
    ensures forall j :: 0 <= j < |lines| - 1 ==> RemoveAt(lines, i)[j].tag != lines[i].tag
  {
    var ts, us := Times(g, ops, k, lines), Times(g, ops, k, RemoveAt(lines, i));
    assert forall j :: 0 <= j < |us| ==> us[j] == ts[if j < i then j else j + 1];
    forall j | 0 <= j < |us| ensures RemoveAt(lines, i)[j].tag != lines[i].tag { assert us[j] != ts[i]; }
  }

  lemma TakeByRecency(g: Geometry, ops: seq<Op>, k: nat, lines: seq<Line>, n: nat)
    requires ByRecency(g, ops, k, lines) && n <= |lines|
    ensures ByRecency(g, ops, k, lines[..n])
  {
    var ts, us := Times(g, ops, k, lines), Times(g, ops, k, lines[..n]);
    assert forall j :: 0 <= j < n ==> us[j] == ts[j];
  }

  lemma LaterFirst(n: int, ts: seq<int>)
    requires Falling(ts) && forall i :: 0 <= i < |ts| ==> ts[i] < n
    ensures Falling([n] + ts)
  {
  }

  lemma FrontByRecency(g: Geometry, ops: seq<Op>, op: Op, k: nat, line: Line, rest: seq<Line>)
    requires ByRecency(g, ops, k, rest) && Touches(g, op, k, line.tag) && op.address < Pow2(g.w)
    requires line.offset == g.offsetOf(op.address) && line.setid == k && line.nodeId == op.nodeId
    requires op.Insert? || LastInsert(g, ops, k, line.tag) >= 0
    requires line.dirty <==> !op.isLoad || (!op.Insert? && StoredSince(g, ops, k, line.tag))
    requires forall i :: 0 <= i < |rest| ==> rest[i].tag != line.tag
    ensures ByRecency(g, ops + [op], k, [line] + rest)
  {
    KeptByRecency(g, ops, op, k, rest);
    TouchLater(g, ops, op, k, line.tag);
    StoredLater(g, ops, op, k, line.tag);
    var all := [line] + rest;
    assert Times(g, ops + [op], k, all) == [|ops|] + Times(g, ops, k, rest);
    LaterFirst(|ops|, Times(g, ops, k, rest));
    assert Remembers(g, ops + [op], k, line);
    forall i | 0 <= i < |all|
      ensures Remembers(g, ops + [op], k, all[i])
    {
      assert all[i] == if i == 0 then line else rest[i - 1];
    }
  }

  lemma InsertByRecency(g: Geometry, ops: seq<Op>, op: Op, k: nat, lines: seq<Line>)
    requires 1 <= g.ways && |lines| <= g.ways && ByRecency(g, ops, k, lines) && g.setOf(op.address) == k
    requires op.Insert? && op.address < Pow2(g.w) && !Present(Kept(lines, g.ways), g.tagOf(op.address))
    ensures ByRecency(g, ops + [op], k, AfterInsert(lines, g.ways, NewLine(g, op)))
  {
    if |lines| == g.ways {
      TakeByRecency(g, ops, k, lines, g.ways - 1);
      FrontByRecency(g, ops, op, k, NewLine(g, op), lines[..g.ways - 1]);
    } else {
      FrontByRecency(g, ops, op, k, NewLine(g, op), lines);
    }
  }

  lemma StepByRecency(g: Geometry, ops: seq<Op>, op: Op, k: nat, lines: seq<Line>)
    requires 1 <= g.ways && |lines| <= g.ways && ByRecency(g, ops, k, lines) && g.setOf(op.address) == k
    requires op.address < Pow2(g.w) && (op.Insert? ==> !Present(Kept(lines, g.ways), g.tagOf(op.address)))
    ensures ByRecency(g, ops + [op], k, SetAfter(g, lines, op))
  {
    var i := Find(lines, g.tagOf(op.address));
    if op.Insert? {
      InsertByRecency(g, ops, op, k, lines);
    } else if i == |lines| {
      KeptByRecency(g, ops, op, k, lines);
    } else {
      DropByRecency(g, ops, k, lines, i);
      if op.Access? {
        FrontByRecency(g, ops, op, k, Touched(lines[i], g.offsetOf(op.address), op.nodeId, op.isLoad),
          RemoveAt(lines, i));
      } else {
        KeptByRecency(g, ops, op, k, RemoveAt(lines, i));
      }
    }
  }

  ghost predicate AllByRecency(g: Geometry, ops: seq<Op>, C: Cache)
  {
    forall k: nat :: k < |C| ==> ByRecency(g, ops, k, C[k])
  }

  lemma CacheByRecency(g: Geometry, ops: seq<Op>, op: Op, B: Cache)
    requires ValidGeometry(g) && Fits(g, B) && AllByRecency(g, ops, B) && Allowed(g, B, op)
    ensures AllByRecency(g, ops + [op], Step(g, B, op))
  {
    var C := Step(g, B, op);
    forall k: nat | k < |C| ensures ByRecency(g, ops + [op], k, C[k]) {
      assert ByRecency(g, ops, k, B[k]);
      if k == g.setOf(op.address) {
        StepByRecency(g, ops, op, k, B[k]);
      } else {
        KeptByRecency(g, ops, op, k, B[k]);
      }
    }
  }

  lemma {:induction false} RunByRecency(g: Geometry, ops: seq<Op>)
    requires ValidGeometry(g) && Run(g, ops).Some?
    ensures AllByRecency(g, ops, Run(g, ops).value)
    decreases |ops|
  {
    if ops == [] {
      forall k: nat | k < |Empty(g)| ensures ByRecency(g, ops, k, Empty(g)[k]) {}
    } else {
      var n := |ops| - 1;
      RunByRecency(g, ops[..n]);
      assert ops == ops[..n] + [ops[n]];
      CacheByRecency(g, ops[..n], ops[n], Run(g, ops[..n]).value);
    }
  }

  // In every run, a line carries the node of its last touch, and it is dirty exactly when some touch since it was
  // last inserted, the insertion included, was a store.
  lemma DirtyIffStored(g: Geometry, ops: seq<Op>, C: Cache, k: nat, line: Line)
    requires ValidGeometry(g) && Run(g, ops) == Some(C) && k < |C| && line in C[k]
    ensures var last, first := LastTouch(g, ops, k, line.tag), LastInsert(g, ops, k, line.tag);
            && 0 <= first <= last && line.nodeId == ops[last].nodeId
            && (line.dirty <==>
                  exists i: nat :: first <= i <= last && Touches(g, ops[i], k, line.tag) && !ops[i].isLoad)
  {
    RunByRecency(g, ops);
    assert ByRecency(g, ops, k, C[k]);
    assert Remembers(g, ops, k, line);
    if StoredSince(g, ops, k, line.tag) {
      var i: nat :| LastInsert(g, ops, k, line.tag) <= i < |ops| && Stores(g, ops[i], k, line.tag);
      assert Touches(g, ops[i], k, line.tag) && !ops[i].isLoad;
    }
    if i: nat :| LastInsert(g, ops, k, line.tag) <= i < |ops| && Touches(g, ops[i], k, line.tag) && !ops[i].isLoad {
      assert Stores(g, ops[i], k, line.tag);
    }
  }

  // A line filed under an address is reported as that address, except in a cache of one set of one-byte
  // lines: there the tag is the whole address, all ones meaning "nothing", or, if the shift wraps, zero.
  lemma ReportedExactly(w: nat, shifted: nat, lineBits: nat, setBits: nat, a: nat, line: Line)
    requires shifted <= 1 && lineBits + setBits < w && a < Pow2(w)
    requires line.tag == ExtractTop(w, shifted, setBits + lineBits, a)
    requires line.setid == Extract(setBits + lineBits, lineBits, a) && line.offset == Extract(lineBits, 0, a)
    ensures Reported(w, lineBits, setBits, line) == Some(a)
            <==> lineBits + setBits >= 1 || (if shifted == 0 then a != Pow2(w) - 1 else a == 0)
  {
    if lineBits + setBits >= 1 {
      RecomposedAddress(w, shifted, lineBits, setBits, a);
      ExtractTopIs(w, shifted, setBits + lineBits, a);
      TagBelow(w, setBits + lineBits, a);
    } else {
      NoBits(w, a);
      NoField(a);
      Pow2Grows(1, w);
    }
  }

  lemma TagBelow(w: nat, lo: nat, a: nat)
    requires 1 <= lo < w && a < Pow2(w)
    ensures Quotient(a, Pow2(lo)) < Pow2(w) - 1
  {
    HalvedQuotient(a, Pow2(lo - 1), Pow2(lo));
    QuotientSmall(a / 2, Pow2(lo - 1));
    Pow2Grows(1, w);
  }

  lemma {:induction false} QuotientSmall(a: nat, b: nat)
    requires b >= 1
    ensures Quotient(a, b) <= a
  {
    if a >= b { QuotientSmall(a - b, b); }
  }

  lemma NoField(a: nat)
    ensures Extract(0, 0, a) == 0
  {
    ExtractIs(0, 0, a);
    Division(a, 1);
    ByOne(0);
  }

  // In every run, an insertion into a full set evicts the line touched longest ago.
  lemma EvictedIsOldest(g: Geometry, ops: seq<Op>, C: Cache, k: nat) returns (e: Line)
    requires ValidGeometry(g) && Run(g, ops) == Some(C) && k < |C| && |C[k]| == g.ways
    ensures Evicted(C[k], g.ways) == Some(e) && Remembers(g, ops, k, e)
    ensures forall f :: f in C[k] && f != e ==> LastTouch(g, ops, k, f.tag) > LastTouch(g, ops, k, e.tag)
  {
    RunByRecency(g, ops);
    LastIsOldest(g, ops, k, C[k]);
    e := C[k][g.ways - 1];
  }

  // And the address reported for it is the last address that touched it.
  lemma EvictsLeastRecent(g: Geometry, w: nat, shifted: nat, lineBits: nat, setBits: nat, ways: nat, ops: seq<Op>,
          C: Cache, k: nat)
    requires 1 <= ways && shifted <= 1 && 1 <= lineBits + setBits < w
    requires g == PowersOfTwo(w, shifted, lineBits, setBits, ways)
    requires Run(g, ops) == Some(C) && k < |C| && |C[k]| == ways
    ensures Evicted(C[k], ways).Some?
    ensures var e := Evicted(C[k], ways).value;
            var t := LastTouch(g, ops, k, e.tag);
            && t >= 0 && Reported(w, lineBits, setBits, e) == Some(ops[t].address)
            && forall f :: f in C[k] && f != e ==> LastTouch(g, ops, k, f.tag) > t
  {
    var e := EvictedIsOldest(g, ops, C, k);
    RememberedAddress(g, w, shifted, lineBits, setBits, ways, ops, k, e);
  }

  lemma RememberedAddress(g: Geometry, w: nat, shifted: nat, lineBits: nat, setBits: nat, ways: nat, ops: seq<Op>,
          k: nat, e: Line)
    requires 1 <= ways && shifted <= 1 && 1 <= lineBits + setBits < w
    requires g == PowersOfTwo(w, shifted, lineBits, setBits, ways) && Remembers(g, ops, k, e)
    ensures var t := LastTouch(g, ops, k, e.tag);
            t >= 0 && Reported(w, lineBits, setBits, e) == Some(ops[t].address)
  {
    var t := LastTouch(g, ops, k, e.tag);
    ReportedExactly(w, shifted, lineBits, setBits, ops[t].address, e);
  }

  lemma LastIsOldest(g: Geometry, ops: seq<Op>, k: nat, lines: seq<Line>)
    requires ByRecency(g, ops, k, lines) && lines != []
    ensures var e := lines[|lines| - 1];
            Remembers(g, ops, k, e) && forall f :: f in lines && f != e ==>
              LastTouch(g, ops, k, f.tag) > LastTouch(g, ops, k, e.tag)
  {
    var ts, e := Times(g, ops, k, lines), lines[|lines| - 1];
    forall f | f in lines && f != e ensures LastTouch(g, ops, k, f.tag) > LastTouch(g, ops, k, e.tag) {
      var i :| 0 <= i < |lines| && lines[i] == f;
      assert ts[i] > ts[|lines| - 1];
    }
  }
}
