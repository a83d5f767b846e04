/** How many instructions the rewrite of a component adds, and what its call reads. */
module PackingCounts {
  import opened Basics
  import opened BlockOrder
  import opened PackingIR
  import opened Convexity
  import opened PackingMeaning
  import opened CustomizePlan

  ghost function NewPacks(F: Func, G: Func): set<Id>
    requires Known(G)
  {
    set x | x in G.order && x !in F.order && G.code[x].Pack?
  }

  ghost function NewExtracts(F: Func, G: Func): set<Id>
    requires Known(G)
  {
    set x | x in G.order && x !in F.order && G.code[x].Extract?
  }

  // Every pack but one reads, behind its fields, one other pack.
  ghost predicate Chained(G: Func, packs: set<Id>, first: Id)
    requires Known(G) && forall x :: x in packs ==> x in G.order && G.code[x].Pack?
  {
    && first in packs
    && forall x :: x in packs ==>
         if x == first then |G.operands[x]| == G.code[x].count
         else |G.operands[x]| == G.code[x].count + 1
              && exists y :: y in packs && y != x && G.operands[x][G.code[x].count] == Insn(y)
  }

  // n arguments in structs of T, and the call reads the structs.
  ghost predicate AllPacked(G: Func, packs: set<Id>, n: nat, T: nat, call: Id)
    requires Known(G) && call in G.order && forall x :: x in packs ==> x in G.order && G.code[x].Pack?
  {
    && (|packs| - 1) * T < n <= |packs| * T
    && (forall x :: x in packs ==> 1 <= G.code[x].count <= T)
    && (packs != {} ==> exists first :: Chained(G, packs, first))
    && |G.operands[call]| == |packs| && forall v :: v in G.operands[call] <==> v.Insn? && v.id in packs
  }

  // The new instructions of block G against block F, in numbers: up to four arguments and results need no
  // struct and the call reads the arguments; more are packed, T to a struct, and the call reads the structs.
  ghost predicate Counted(F: Func, G: Func, args: seq<Value>, outputs: seq<Id>, call: Id, T: nat)
    requires Known(G)
  {
    && (forall x :: x in G.order && x !in F.order ==> x in NewPacks(F, G) || x in NewExtracts(F, G) || x == call)
    && call in G.order && call !in F.order && G.code[call].Call?
    && |NewExtracts(F, G)| == (if |outputs| == 1 then 0 else |outputs|)
    && if |args| + |outputs| <= 4 then NewPacks(F, G) == {} && G.operands[call] == args
       else AllPacked(G, NewPacks(F, G), |args|, T, call)
  }

  lemma {:induction false} MembersCounted(s: seq<Id>)
    requires Distinct(s)
    ensures |Members(s)| == |s|
  {
    if s != [] {
      var t := s[..|s| - 1];
      MembersCounted(t);
      assert s == t + [s[|s| - 1]];
      assert Members(s) == Members(t) + {s[|s| - 1]};
    }
  }

  // Rounding up: one struct fewer would not hold the arguments.
  lemma StructsSuffice(n: nat, T: nat)
    requires T >= 1
    ensures (NumStructs(n, T) - 1) * T < n <= NumStructs(n, T) * T
  {
    var m := n + T - 1;
    var q := m / T;
    assert m == q * T + m % T;
    assert (q - 1) * T == q * T - T;
  }

  lemma SliceCounted(args: seq<Value>, T: nat, i: nat)
    requires T >= 1 && i < NumStructs(|args|, T)
    ensures i * T < |args| && 1 <= |Slice(args, T, i)| <= T
  {
    StructInRange(|args|, T, i);
  }

  lemma CountedFrom(F: Func, G: Func, p: Plan)
    requires Known(F) && Known(G) && WellPlanned(F, p) && Rewritten(F, G, p)
    ensures Counted(F, G, p.args, p.outputs, p.call, p.T)
  {
    NewCodes(F, G, p);
    assert NewExtracts(F, G) == Members(p.extracts);
    MembersCounted(p.extracts);
    if Packed(p) { PacksCounted(F, G, p); } else { assert NewPacks(F, G) == Members(p.packs); }
  }

  lemma PacksCounted(F: Func, G: Func, p: Plan)
    requires Known(F) && Known(G) && WellPlanned(F, p) && Rewritten(F, G, p) && Packed(p)
    ensures AllPacked(G, NewPacks(F, G), |p.args|, p.T, p.call)
  {
    PacksFit(F, G, p);
    CallReadsPacks(F, G, p);
    StructsSuffice(|p.args|, p.T);
    if p.packs != [] {
      PacksChained(F, G, p);
    } else {
      assert NewPacks(F, G) == {};
    }
  }

  lemma PacksFit(F: Func, G: Func, p: Plan)
    requires Known(F) && Known(G) && WellPlanned(F, p) && Rewritten(F, G, p)
    ensures |NewPacks(F, G)| == |p.packs| && forall x :: x in NewPacks(F, G) ==> 1 <= G.code[x].count <= p.T
  {
    NewCodes(F, G, p);
    assert NewPacks(F, G) == Members(p.packs);
    MembersCounted(p.packs);
    forall x | x in p.packs ensures 1 <= G.code[x].count <= p.T {
      var i := IndexOf(p.packs, x);
      assert PackAt(G, p, i);
      SliceCounted(p.args, p.T, i);
    }
  }

  lemma CallReadsPacks(F: Func, G: Func, p: Plan)
    requires Known(F) && Known(G) && WellPlanned(F, p) && Rewritten(F, G, p) && Packed(p)
    ensures |G.operands[p.call]| == |p.packs|
    ensures forall v :: v in G.operands[p.call] <==> v.Insn? && v.id in NewPacks(F, G)
  {
    NewCodes(F, G, p);
    assert NewPacks(F, G) == Members(p.packs);
    forall v: Value | v.Insn? && v.id in p.packs ensures v in ResultsOf(p.packs) {
      assert ResultsOf(p.packs)[IndexOf(p.packs, v.id)] == v;
    }
  }

  lemma PacksChained(F: Func, G: Func, p: Plan)
    requires Known(F) && Known(G) && WellPlanned(F, p) && Rewritten(F, G, p) && p.packs != []
    ensures Chained(G, NewPacks(F, G), p.packs[0])
  {
    NewCodes(F, G, p);
    assert NewPacks(F, G) == Members(p.packs);
    forall x | x in p.packs
      ensures if x == p.packs[0] then |G.operands[x]| == G.code[x].count
              else |G.operands[x]| == G.code[x].count + 1
                   && exists y :: y in NewPacks(F, G) && y != x && G.operands[x][G.code[x].count] == Insn(y)
    {
      var i := IndexOf(p.packs, x);
      assert PackAt(G, p, i);
      IndexAt(p.packs, i);
      if i > 0 { assert p.packs[i - 1] in NewPacks(F, G) && G.operands[x][G.code[x].count] == Insn(p.packs[i - 1]); }
    }
  }

  lemma NewCodes(F: Func, G: Func, p: Plan)
    requires Known(F) && Known(G) && WellPlanned(F, p) && Rewritten(F, G, p)
    ensures forall x :: x in G.order && x !in F.order <==> Created(p, x)
    ensures forall x :: x in p.packs ==> G.code[x].Pack?
    ensures forall x :: x in p.extracts ==> G.code[x].Extract?
  {
    forall x | x in p.packs ensures G.code[x].Pack? { assert PackAt(G, p, IndexOf(p.packs, x)); }
    forall x | x in p.extracts ensures G.code[x].Extract? { assert ExtractAt(G, p, IndexOf(p.extracts, x)); }
  }

  // The names and operands of the call when the free names begin at n0, in numbers.
  predicate CalledAs(args: seq<Value>, outputs: seq<Id>, T: nat, n0: Id, call: Id, inputs: seq<Value>)
  {
    if |args| + |outputs| <= 4 then call == n0 && inputs == args
    else
      && n0 <= call && (call - n0 - 1) * T < |args| <= (call - n0) * T && |inputs| == call - n0
      && forall i :: 0 <= i < |inputs| ==> inputs[i] == Insn(n0 + i)
  }

  lemma PlanCalledAs(p: Plan, n0: Id)
    requires p.T >= 1 && p == PlanFor(p.comp, p.args, p.outputs, p.T, n0)
    ensures CalledAs(p.args, p.outputs, p.T, n0, p.call, CallOperands(p))
  {
    StructsSuffice(|p.args|, p.T);
  }
}
