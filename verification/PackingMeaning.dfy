/** What the rewriter makes of a block, and why every surviving operand still reads its old value. */
module PackingMeaning {
  import opened Basics
  import opened BlockOrder
  import opened PackingIR
  import opened Convexity

  // One outlined component: its instructions in program order, the values passed in, the results
  // used outside, and the instructions created for it.
  datatype Plan = Plan(comp: seq<Id>, args: seq<Value>, outputs: seq<Id>, packs: seq<Id>, call: Id, extracts: seq<Id>,
          T: nat)

  // Up to four arguments and results together travel in registers.
  predicate Packed(p: Plan) { |p.args| + |p.outputs| > 4 }

  predicate Single(p: Plan) { |p.outputs| == 1 }

  function IndexOf<A(==)>(s: seq<A>, v: A): (i: nat)
    requires v in s
    ensures i < |s| && s[i] == v
  {
    if s[0] == v then 0 else 1 + IndexOf(s[1..], v)
  }

  lemma IndexAt<A>(s: seq<A>, i: nat)
    requires Distinct(s) && i < |s|
    ensures IndexOf(s, s[i]) == i
  {
  }

  predicate Created(p: Plan, x: Id) { x in p.packs || x == p.call || x in p.extracts }

  function Replacement(p: Plan, o: Id): Id
    requires o in p.outputs && |p.extracts| == if Single(p) then 0 else |p.outputs|
  {
    if Single(p) then p.call else p.extracts[IndexOf(p.outputs, o)]
  }

  function Redirect(p: Plan, v: Value): Value
    requires |p.extracts| == if Single(p) then 0 else |p.outputs|
  {
    if v.Insn? && v.id in p.outputs then Insn(Replacement(p, v.id)) else v
  }

  function Formalize(args: seq<Value>, v: Value): Value
  {
    if v in args then Formal(IndexOf(args, v)) else v
  }

  function FormalizeAll(args: seq<Value>, vs: seq<Value>): seq<Value>
  {
    seq(|vs|, i requires 0 <= i < |vs| => Formalize(args, vs[i]))
  }

  function BodyOf(F: Func, p: Plan): Body
    requires forall c :: c in p.comp ==> c in F.operands
  {
    Body(Packed(p), p.T, p.comp, map c | c in p.comp :: FormalizeAll(p.args, F.operands[c]), p.outputs)
  }

  // A value a component instruction needs from outside: not a constant, not another component instruction.
  predicate External(comp: seq<Id>, v: Value) { !v.Const? && !(v.Insn? && v.id in comp) }

  // The component is pure code of the block and the plan lists exactly its inputs and outputs.
  ghost predicate WellPlanned(F: Func, p: Plan)
    requires Known(F)
  {
    && Distinct(p.comp) && InProgramOrder(F.operands, p.comp) && p.T >= 1
    && (forall c :: c in p.comp ==> c in F.order && F.code[c] == Pure)
    && Distinct(p.args)
    && (forall v :: v in p.args <==> External(p.comp, v) && exists c :: c in p.comp && v in F.operands[c])
    && Distinct(p.outputs)
    && (forall c: Id :: c in p.outputs <==> c in p.comp && exists u :: u !in p.comp && Reads(F.operands, u, c))
    && Distinct(p.packs) && |p.packs| == (if Packed(p) then NumStructs(|p.args|, p.T) else 0)
    && Distinct(p.extracts) && |p.extracts| == (if Single(p) then 0 else |p.outputs|)
    && (forall x: Id :: !(x in p.packs && x in p.extracts)) && p.call !in p.packs && p.call !in p.extracts
    && (forall x: Id :: Created(p, x) ==> x !in F.operands && x !in F.order && forall u :: !Reads(F.operands, u, x))
    && (forall c, k :: c in p.comp && 0 <= k < |F.operands[c]| ==> !F.operands[c][k].Formal?)
  }

  function PackOperands(p: Plan, i: nat): seq<Value>
    requires i < |p.packs| && i * p.T <= |p.args|
  {
    Slice(p.args, p.T, i) + (if i > 0 then [Insn(p.packs[i - 1])] else [])
  }

  lemma StructInRange(n: nat, T: nat, i: nat)
    requires T >= 1 && i < NumStructs(n, T)
    ensures i * T < n
  {
    var m := n + T - 1;
    var q := m / T;
    assert m == q * T + m % T;
    var d := q - i - 1;
    assert q * T == i * T + T + d * T;
    assert d * T >= 0;
  }

  function ResultsOf(xs: seq<Id>): seq<Value>
  {
    seq(|xs|, i requires 0 <= i < |xs| => Insn(xs[i]))
  }

  // What the call is given: the structs, or the arguments themselves.
  function CallOperands(p: Plan): seq<Value>
  {
    if Packed(p) then ResultsOf(p.packs) else p.args
  }

  // The block after the rewrite, against the block before it.
  ghost predicate Rewritten(F: Func, G: Func, p: Plan)
    requires Known(F) && Known(G) && WellPlanned(F, p)
  {
    && (forall x: Id :: x in G.order <==> (x in F.order && x !in p.comp) || Created(p, x))
    && (forall u :: u in F.operands && u !in p.comp && u in F.code ==>
          u in G.operands && u in G.code && G.code[u] == F.code[u] && RedirectedAt(F, G, p, u))
    && (forall i: nat :: i < |p.packs| ==> PackAt(G, p, i))
    && p.call in G.order && G.code[p.call] == Call(BodyOf(F, p))
    && G.operands[p.call] == CallOperands(p)
    && (forall i: nat :: i < |p.extracts| ==> ExtractAt(G, p, i))
  }

  ghost predicate RedirectedAt(F: Func, G: Func, p: Plan, u: Id)
    requires u in F.operands && u in G.operands && |p.extracts| == if Single(p) then 0 else |p.outputs|
  {
    && |G.operands[u]| == |F.operands[u]|
    && forall k :: 0 <= k < |F.operands[u]| ==> G.operands[u][k] == Redirect(p, F.operands[u][k])
  }

  ghost predicate PackAt(G: Func, p: Plan, i: nat)
    requires i < |p.packs| && p.T >= 1
  {
    var x := p.packs[i];
    && i * p.T <= |p.args| && x in G.code && x in G.operands
    && G.code[x] == Pack(|Slice(p.args, p.T, i)|) && G.operands[x] == PackOperands(p, i)
  }

  ghost predicate ExtractAt(G: Func, p: Plan, i: nat)
    requires i < |p.extracts|
  {
    var x := p.extracts[i];
    x in G.code && x in G.operands && G.code[x] == Extract(i) && G.operands[x] == [Insn(p.call)]
  }

  // ---------- the round trip through the structs

  // What the first m structs hold.
  function FirstStructs<A>(vals: seq<A>, T: nat, m: nat): seq<A>
  {
    vals[..if m * T <= |vals| then m * T else |vals|]
  }

  lemma OneMoreStruct<A>(vals: seq<A>, T: nat, m: nat)
    requires T >= 1 && m < NumStructs(|vals|, T)
    ensures m * T <= |vals| && FirstStructs(vals, T, m + 1) == FirstStructs(vals, T, m) + Slice(vals, T, m)
  {
    StructInRange(|vals|, T, m);
    var lo := m * T;
    assert (m + 1) * T == lo + T;
    var hi := if lo + T <= |vals| then lo + T else |vals|;
    assert vals[..hi] == vals[..lo] + vals[lo..hi];
  }

  ghost predicate Holds(boxes: seq<Data>, vals: seq<Data>, T: nat, i: nat)
    requires i < |boxes|
  {
    i * T <= |vals| && boxes[i] == Box(Slice(vals, T, i))
  }

  lemma {:induction false} UnpackSlices(boxes: seq<Data>, vals: seq<Data>, T: nat, m: nat)
    requires T >= 1 && m <= |boxes| == NumStructs(|vals|, T)
    requires forall i: nat :: i < |boxes| ==> Holds(boxes, vals, T, i)
    ensures Unpack(boxes[..m]) == FirstStructs(vals, T, m)
    decreases m
  {
    if m == 0 {
      assert FirstStructs(vals, T, 0) == [];
    } else {
      UnpackSlices(boxes, vals, T, m - 1);
      OneMoreStruct(vals, T, m - 1);
      assert Holds(boxes, vals, T, m - 1);
      assert boxes[..m][..m - 1] == boxes[..m - 1];
    }
  }

  // For every threshold, what comes out of the structs is what went in.
  lemma RoundTrip(boxes: seq<Data>, vals: seq<Data>, T: nat)
    requires T >= 1 && |boxes| == NumStructs(|vals|, T)
    requires forall i: nat :: i < |boxes| ==> Holds(boxes, vals, T, i)
    ensures Unpack(boxes) == vals
  {
    UnpackSlices(boxes, vals, T, |boxes|);
    assert boxes[..|boxes|] == boxes;
    AllStructs(|vals|, T);
    assert vals[..|vals|] == vals;
  }

  lemma AllStructs(n: nat, T: nat)
    requires T >= 1
    ensures NumStructs(n, T) * T >= n
  {
    var m := n + T - 1;
    assert m == m / T * T + m % T;
  }

  // ---------- the outlined body computes the component's old values

  lemma FormalRead(M: Semantics, e: Env, all: Env, p: Plan, v: Value)
    requires Distinct(p.args) && (External(p.comp, v) ==> v in p.args) && (v in p.args ==> External(p.comp, v))
    requires v.Insn? && v.id in p.comp ==> Get(e, v.id) == Get(all, v.id)
    ensures Read(M, e, ReadAll(M, all, [], p.args), Formalize(p.args, v)) == Read(M, all, [], v)
  {
  }

  ghost predicate Agree(e: Env, all: Env, comp: seq<Id>, n: nat)
    requires n <= |comp|
  {
    forall i :: 0 <= i < n ==> Get(e, comp[i]) == Get(all, comp[i])
  }

  // Instruction n of the body gets its old value whenever those before it did.
  ghost predicate StepRight(M: Semantics, body: Body, formals: seq<Data>, all: Env, n: nat)
    requires n < |body.insns|
  {
    var c := body.insns[n];
    c in body.operands &&
    forall e: Env :: Agree(e, all, body.insns, n) ==> M.op(c, ReadAll(M, e, formals, body.operands[c])) == Get(all, c)
  }

  lemma {:induction false} BodyComputes(M: Semantics, body: Body, formals: seq<Data>, all: Env, n: nat)
    requires n <= |body.insns| && Distinct(body.insns)
    requires forall i: nat :: i < n ==> StepRight(M, body, formals, all, i)
    ensures Agree(RunInsns(M, body, formals, n), all, body.insns, n)
    decreases n
  {
    if n > 0 {
      BodyComputes(M, body, formals, all, n - 1);
      var e := RunInsns(M, body, formals, n - 1);
      assert StepRight(M, body, formals, all, n - 1);
      OneMoreAgrees(e, all, body.insns, n - 1);
    }
  }

  lemma StepsRight(M: Semantics, F: Func, p: Plan, entry: Env, n: nat)
    requires Known(F) && Distinct(F.order) && Topological(F) && WellPlanned(F, p) && n < |p.comp|
    ensures var all := Run(M, F, entry);
            StepRight(M, BodyOf(F, p), ReadAll(M, all, [], p.args), all, n)
  {
    var all := Run(M, F, entry);
    ComponentValue(M, F, p, entry, p.comp[n]);
    forall e: Env | Agree(e, all, p.comp, n)
      ensures var c := p.comp[n];
              ReadAll(M, e, ReadAll(M, all, [], p.args), BodyOf(F, p).operands[c]) == ReadAll(M, all, [], F.operands[c])
    {
      BodyReads(M, F, p, all, e, n);
    }
  }

  lemma OneMoreAgrees(e: Env, all: Env, comp: seq<Id>, n: nat)
    requires n < |comp| && Distinct(comp) && Agree(e, all, comp, n)
    ensures Agree(e[comp[n] := Get(all, comp[n])], all, comp, n + 1)
  {
  }

  lemma ComponentValue(M: Semantics, F: Func, p: Plan, entry: Env, c: Id)
    requires Known(F) && Distinct(F.order) && Topological(F) && WellPlanned(F, p) && c in p.comp
    ensures var all := Run(M, F, entry);
            Get(all, c) == M.op(c, ReadAll(M, all, [], F.operands[c]))
  {
    RunSolvesAt(M, F, entry, Pos(F.order, c));
  }

  lemma BodyReads(M: Semantics, F: Func, p: Plan, all: Env, e: Env, n: nat)
    requires Known(F) && WellPlanned(F, p) && n < |p.comp| && Agree(e, all, p.comp, n)
    ensures var c := p.comp[n];
            ReadAll(M, e, ReadAll(M, all, [], p.args), BodyOf(F, p).operands[c]) == ReadAll(M, all, [], F.operands[c])
  {
    var c := p.comp[n];
    var vs, formals := F.operands[c], ReadAll(M, all, [], p.args);
    forall k | 0 <= k < |vs| ensures Read(M, e, formals, Formalize(p.args, vs[k])) == Read(M, all, [], vs[k]) {
      var v := vs[k];
      if v.Insn? && v.id in p.comp {
        assert Reads(F.operands, c, v.id);
        var j :| 0 <= j < |p.comp| && p.comp[j] == v.id;
        assert j < n;
      }
      FormalRead(M, e, all, p, v);
    }
    assert ReadAll(M, e, formals, FormalizeAll(p.args, vs)) == ReadAll(M, all, [], vs);
  }

  function Results(env: Env, p: Plan): Data
  {
    if Single(p) then Get(env, p.outputs[0])
    else Struct(seq(|p.outputs|, i requires 0 <= i < |p.outputs| => Get(env, p.outputs[i])))
  }

  lemma BodyValues(M: Semantics, F: Func, p: Plan, entry: Env)
    requires Known(F) && Distinct(F.order) && Topological(F) && WellPlanned(F, p)
    ensures var all := Run(M, F, entry);
            var e := RunInsns(M, BodyOf(F, p), ReadAll(M, all, [], p.args), |p.comp|);
            forall c :: c in p.comp ==> Get(e, c) == Get(all, c)
  {
    var all := Run(M, F, entry);
    forall i: nat | i < |p.comp| ensures StepRight(M, BodyOf(F, p), ReadAll(M, all, [], p.args), all, i) {
      StepsRight(M, F, p, entry, i);
    }
    BodyComputes(M, BodyOf(F, p), ReadAll(M, all, [], p.args), all, |p.comp|);
  }

  lemma BodyResult(M: Semantics, F: Func, p: Plan, entry: Env, inputs: seq<Data>)
    requires Known(F) && Distinct(F.order) && Topological(F) && WellPlanned(F, p)
    requires var vals := ReadAll(M, Run(M, F, entry), [], p.args);
             if Packed(p) then Unpack(inputs) == vals else inputs == vals
    ensures RunBody(M, BodyOf(F, p), inputs) == Results(Run(M, F, entry), p)
  {
    var all := Run(M, F, entry);
    BodyValues(M, F, p, entry);
    forall i | 0 <= i < |p.outputs| ensures p.outputs[i] in p.comp { assert p.outputs[i] in p.outputs; }
    if !Single(p) {
      assert Results(all, p).fields == RunBody(M, BodyOf(F, p), inputs).fields;
    }
  }

  // ---------- the values of the new block

  // What every instruction is expected to compute after the rewrite.
  ghost function Expected(M: Semantics, F: Func, p: Plan, all: Env, x: Id): Data
    requires Known(F) && WellPlanned(F, p)
  {
    if x in p.packs then
      StructInRange(|p.args|, p.T, IndexOf(p.packs, x));
      Box(Slice(ReadAll(M, all, [], p.args), p.T, IndexOf(p.packs, x)))
    else if x == p.call then Results(all, p)
    else if x in p.extracts then Get(all, p.outputs[IndexOf(p.extracts, x)])
    else Get(all, x)
  }

  ghost function NewValues(M: Semantics, F: Func, p: Plan, all: Env): (w: Env)
    requires Known(F) && WellPlanned(F, p)
    ensures forall x: Id :: Get(w, x) == Expected(M, F, p, all, x)
  {
    map x | x in all.Keys + Members(p.packs) + {p.call} + Members(p.extracts) :: Expected(M, F, p, all, x)
  }

  lemma RedirectedRead(M: Semantics, F: Func, p: Plan, all: Env, v: Value)
    requires Known(F) && WellPlanned(F, p) && (v.Insn? ==> !Created(p, v.id))
    ensures Read(M, NewValues(M, F, p, all), [], Redirect(p, v)) == Read(M, all, [], v)
  {
    if v.Insn? && v.id in p.outputs {
      var i := IndexOf(p.outputs, v.id);
      if !Single(p) { IndexAt(p.extracts, i); }
    }
  }

  lemma ArgumentRead(M: Semantics, F: Func, p: Plan, all: Env, v: Value)
    requires Known(F) && WellPlanned(F, p) && v in p.args
    ensures Read(M, NewValues(M, F, p, all), [], v) == Read(M, all, [], v)
  {
    var c :| c in p.comp && v in F.operands[c];
    if v.Insn? { assert Reads(F.operands, c, v.id); }
  }

  lemma ArgumentsRead(M: Semantics, F: Func, p: Plan, all: Env, vs: seq<Value>)
    requires Known(F) && WellPlanned(F, p) && forall v :: v in vs ==> v in p.args
    ensures ReadAll(M, NewValues(M, F, p, all), [], vs) == ReadAll(M, all, [], vs)
  {
    forall i | 0 <= i < |vs| ensures Read(M, NewValues(M, F, p, all), [], vs[i]) == Read(M, all, [], vs[i]) {
      ArgumentRead(M, F, p, all, vs[i]);
    }
  }

  lemma OldSolves(M: Semantics, F: Func, G: Func, p: Plan, entry: Env, x: Id)
    requires Known(F) && Known(G) && Distinct(F.order) && Topological(F) && WellPlanned(F, p) && Rewritten(F, G, p)
    requires x in F.order && x !in p.comp
    ensures x in G.order && SolvesAt(M, G, entry, NewValues(M, F, p, Run(M, F, entry)), x)
  {
    var all := Run(M, F, entry);
    var w := NewValues(M, F, p, all);
    RunSolvesAt(M, F, entry, Pos(F.order, x));
    assert RedirectedAt(F, G, p, x);
    var vs, us := F.operands[x], G.operands[x];
    forall k | 0 <= k < |vs| ensures Read(M, w, [], us[k]) == Read(M, all, [], vs[k]) {
      if vs[k].Insn? { assert Reads(F.operands, x, vs[k].id); }
      RedirectedRead(M, F, p, all, vs[k]);
    }
    assert ReadAll(M, w, [], us) == ReadAll(M, all, [], vs);
  }

  lemma PackReads(M: Semantics, F: Func, p: Plan, all: Env, i: nat)
    requires Known(F) && WellPlanned(F, p) && i < |p.packs| && i * p.T <= |p.args|
    ensures var n, ds := |Slice(p.args, p.T, i)|, ReadAll(M, NewValues(M, F, p, all), [], PackOperands(p, i));
            n <= |ds| && ds[..n] == Slice(ReadAll(M, all, [], p.args), p.T, i)
  {
    var s, w := Slice(p.args, p.T, i), NewValues(M, F, p, all);
    ArgumentsRead(M, F, p, all, s);
    assert ReadAll(M, w, [], PackOperands(p, i))[..|s|] == ReadAll(M, w, [], s);
    assert ReadAll(M, all, [], s) == Slice(ReadAll(M, all, [], p.args), p.T, i);
  }

  lemma PackSolves(M: Semantics, F: Func, G: Func, p: Plan, entry: Env, i: nat)
    requires Known(F) && Known(G) && WellPlanned(F, p) && Rewritten(F, G, p) && i < |p.packs|
    ensures SolvesAt(M, G, entry, NewValues(M, F, p, Run(M, F, entry)), p.packs[i])
  {
    assert Created(p, p.packs[i]);
    assert PackAt(G, p, i);
    IndexAt(p.packs, i);
    PackReads(M, F, p, Run(M, F, entry), i);
  }

  function CallInputs(M: Semantics, p: Plan, w: Env): seq<Data>
  {
    if Packed(p) then seq(|p.packs|, i requires 0 <= i < |p.packs| => Get(w, p.packs[i])) else ReadAll(M, w, [], p.args)
  }

  lemma InputsUnpack(M: Semantics, F: Func, p: Plan, all: Env)
    requires Known(F) && WellPlanned(F, p)
    ensures var vals, inputs := ReadAll(M, all, [], p.args), CallInputs(M, p, NewValues(M, F, p, all));
            if Packed(p) then Unpack(inputs) == vals else inputs == vals
  {
    var vals, inputs := ReadAll(M, all, [], p.args), CallInputs(M, p, NewValues(M, F, p, all));
    if Packed(p) {
      forall i: nat | i < |inputs| ensures Holds(inputs, vals, p.T, i) {
        StructInRange(|p.args|, p.T, i);
        IndexAt(p.packs, i);
      }
      RoundTrip(inputs, vals, p.T);
    } else {
      ArgumentsRead(M, F, p, all, p.args);
    }
  }

  lemma CallReads(M: Semantics, F: Func, G: Func, p: Plan, w: Env)
    requires Known(F) && Known(G) && WellPlanned(F, p) && Rewritten(F, G, p)
    ensures ReadAll(M, w, [], G.operands[p.call]) == CallInputs(M, p, w)
  {
  }

  lemma CallSolves(M: Semantics, F: Func, G: Func, p: Plan, entry: Env)
    requires Known(F) && Known(G) && Distinct(F.order) && Topological(F) && WellPlanned(F, p) && Rewritten(F, G, p)
    ensures SolvesAt(M, G, entry, NewValues(M, F, p, Run(M, F, entry)), p.call)
  {
    var all := Run(M, F, entry);
    var w := NewValues(M, F, p, all);
    InputsUnpack(M, F, p, all);
    CallReads(M, F, G, p, w);
    BodyResult(M, F, p, entry, CallInputs(M, p, w));
  }

  lemma ExtractSolves(M: Semantics, F: Func, G: Func, p: Plan, entry: Env, i: nat)
    requires Known(F) && Known(G) && WellPlanned(F, p) && Rewritten(F, G, p) && i < |p.extracts|
    ensures SolvesAt(M, G, entry, NewValues(M, F, p, Run(M, F, entry)), p.extracts[i])
  {
    var x := p.extracts[i];
    assert Created(p, x);
    assert ExtractAt(G, p, i);
    IndexAt(p.extracts, i);
    var w := NewValues(M, F, p, Run(M, F, entry));
    assert ReadAll(M, w, [], [Insn(p.call)]) == [Get(w, p.call)];
  }

  lemma NewSolution(M: Semantics, F: Func, G: Func, p: Plan, entry: Env)
    requires Known(F) && Known(G) && Distinct(F.order) && Topological(F) && WellPlanned(F, p) && Rewritten(F, G, p)
    ensures Solution(M, G, entry, NewValues(M, F, p, Run(M, F, entry)))
  {
    var all := Run(M, F, entry);
    var w := NewValues(M, F, p, all);
    forall x | x in G.order ensures SolvesAt(M, G, entry, w, x) {
      if x in p.packs {
        PackSolves(M, F, G, p, entry, IndexOf(p.packs, x));
      } else if x == p.call {
        CallSolves(M, F, G, p, entry);
      } else if x in p.extracts {
        ExtractSolves(M, F, G, p, entry, IndexOf(p.extracts, x));
      } else {
        OldSolves(M, F, G, p, entry, x);
      }
    }
    forall u, d | u in G.order && d !in G.order && Reads(G.operands, u, d) ensures Get(w, d) == Get(entry, d) {
      OutsideRead(F, G, p, u, d);
      ExecFrame(M, F, entry, |F.order|, d);
    }
  }

  // What the new block reads from outside lay outside the old block too.
  lemma OutsideRead(F: Func, G: Func, p: Plan, u: Id, d: Id)
    requires Known(F) && Known(G) && WellPlanned(F, p) && Rewritten(F, G, p)
    requires u in G.order && d !in G.order && Reads(G.operands, u, d)
    ensures d !in F.order && !Created(p, d)
  {
    if u in p.packs {
      PackReadsWhat(F, G, p, u, d);
      ArgumentNotMember(F, p, d);
    } else if u == p.call {
      ArgumentNotMember(F, p, d);
    } else if u in p.extracts {
      ExtractReads(F, G, p, u, d);
    } else {
      assert RedirectedAt(F, G, p, u);
      var k :| 0 <= k < |G.operands[u]| && G.operands[u][k] == Insn(d);
      var v := F.operands[u][k];
      assert v.Insn? && Reads(F.operands, u, v.id);
    }
  }

  lemma PackReadsWhat(F: Func, G: Func, p: Plan, u: Id, d: Id)
    requires Known(F) && Known(G) && WellPlanned(F, p) && Rewritten(F, G, p) && u in p.packs
    ensures Reads(G.operands, u, d) ==> Insn(d) in p.args || d in p.packs
  {
    assert PackAt(G, p, IndexOf(p.packs, u));
  }

  lemma ExtractReads(F: Func, G: Func, p: Plan, u: Id, d: Id)
    requires Known(F) && Known(G) && WellPlanned(F, p) && Rewritten(F, G, p) && u in p.extracts
    ensures Reads(G.operands, u, d) ==> d == p.call && d in G.order
  {
    assert ExtractAt(G, p, IndexOf(p.extracts, u));
  }

  lemma ArgumentNotMember(F: Func, p: Plan, d: Id)
    requires Known(F) && WellPlanned(F, p)
    ensures Insn(d) in p.args ==> d !in p.comp && !Created(p, d)
  {
    if Insn(d) in p.args {
      var c :| c in p.comp && Insn(d) in F.operands[c];
      assert Reads(F.operands, c, d);
    }
  }

  // MEANING PRESERVED.  For every meaning of the operators and every state on entry: each surviving
  // instruction, in the block or not, finds its old value behind every one of its operands, and the
  // instructions of the block compute their old values.
  lemma MeaningPreserved(M: Semantics, F: Func, G: Func, p: Plan, entry: Env, u: Id)
    requires Known(F) && Distinct(F.order) && Topological(F) && WellPlanned(F, p)
    requires Known(G) && Distinct(G.order) && Topological(G) && Rewritten(F, G, p)
    requires u in F.operands && u in F.code && u !in p.comp
    ensures u in G.operands && |G.operands[u]| == |F.operands[u]|
    ensures ReadAll(M, Run(M, G, entry), [], G.operands[u]) == ReadAll(M, Run(M, F, entry), [], F.operands[u])
    ensures Get(Run(M, G, entry), u) == Get(Run(M, F, entry), u)
  {
    var all, new_ := Run(M, F, entry), Run(M, G, entry);
    var w := NewValues(M, F, p, all);
    assert RedirectedAt(F, G, p, u);
    forall k | 0 <= k < |F.operands[u]|
      ensures Read(M, new_, [], G.operands[u][k]) == Read(M, all, [], F.operands[u][k])
    {
      var v := F.operands[u][k];
      if v.Insn? {
        assert Reads(F.operands, u, v.id);
        SameEverywhere(M, F, G, p, entry, Redirect(p, v).id);
      }
      RedirectedRead(M, F, p, all, v);
    }
    SameEverywhere(M, F, G, p, entry, u);
    assert !Created(p, u);
  }

  lemma SameEverywhere(M: Semantics, F: Func, G: Func, p: Plan, entry: Env, d: Id)
    requires Known(F) && Distinct(F.order) && Topological(F) && WellPlanned(F, p)
    requires Known(G) && Distinct(G.order) && Topological(G) && Rewritten(F, G, p) && d !in p.comp
    ensures Get(Run(M, G, entry), d) == Get(NewValues(M, F, p, Run(M, F, entry)), d)
  {
    var w := NewValues(M, F, p, Run(M, F, entry));
    if d in G.order {
      NewSolution(M, F, G, p, entry);
      SolutionUnique(M, G, entry, w, Pos(G.order, d));
    } else {
      assert !Created(p, d);
      ExecFrame(M, G, entry, |G.order|, d);
      ExecFrame(M, F, entry, |F.order|, d);
    }
  }

  // What instruction u reads and computes in the new block is what it reads and computes in the old one.
  ghost predicate SameValues(M: Semantics, F: Func, G: Func, entry: Env, u: Id)
    requires Known(F) && Known(G)
  {
    && u in F.operands && u in G.operands && u in F.code && u in G.code
    && ReadAll(M, Run(M, G, entry), [], G.operands[u]) == ReadAll(M, Run(M, F, entry), [], F.operands[u])
    && Get(Run(M, G, entry), u) == Get(Run(M, F, entry), u)
  }

  // Whatever the operators mean and whatever the state on entry, for every instruction but those gone.
  ghost predicate KeepsMeaning(F: Func, G: Func, gone: set<Id>)
    requires Known(F) && Known(G)
  {
    forall M: Semantics, entry: Env, u: Id :: u in F.operands && u in F.code && u !in gone ==>
      SameValues(M, F, G, entry, u)
  }

  lemma RewriteKeepsMeaning(F: Func, G: Func, p: Plan)
    requires Known(F) && Distinct(F.order) && Topological(F) && WellPlanned(F, p)
    requires Known(G) && Distinct(G.order) && Topological(G) && Rewritten(F, G, p)
    ensures KeepsMeaning(F, G, Members(p.comp))
  {
    forall M: Semantics, entry: Env, u: Id | u in F.operands && u in F.code && u !in Members(p.comp)
      ensures SameValues(M, F, G, entry, u)
    {
      MeaningPreserved(M, F, G, p, entry, u);
    }
  }

  lemma MeaningComposes(F: Func, G: Func, H: Func, gone: set<Id>, more: set<Id>)
    requires Known(F) && Known(G) && Known(H) && KeepsMeaning(F, G, gone) && KeepsMeaning(G, H, more)
    ensures KeepsMeaning(F, H, gone + more)
  {
    forall M: Semantics, entry: Env, u: Id | u in F.operands && u in F.code && u !in gone + more
      ensures SameValues(M, F, H, entry, u)
    {
      assert SameValues(M, F, G, entry, u);
      assert SameValues(M, G, H, entry, u);
    }
  }

  lemma MeaningSame(F: Func)
    requires Known(F)
    ensures KeepsMeaning(F, F, {})
  {
  }
}
