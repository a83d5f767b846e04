/** What `customize` works out about a component before it changes anything. */
module ComponentAnalysis {
  import opened Basics
  import opened BlockOrder
  import opened PackingIR
  import opened PackingMeaning

  // One use of a result: which operand of which instruction.
  datatype Use = Use(user: Id, slot: nat)

  type Uses = map<Id, seq<Use>>

  function UsesOf(uses: Uses, d: Id): seq<Use> { if d in uses then uses[d] else [] }

  predicate HasSlot(operands: map<Id, seq<Value>>, u: Id, k: nat, d: Id)
  {
    u in operands && k < |operands[u]| && operands[u][k] == Insn(d)
  }

  ghost predicate UsesMatch(operands: map<Id, seq<Value>>, uses: Uses)
  {
    forall d: Id, u: Id, k: nat :: Use(u, k) in UsesOf(uses, d) <==> HasSlot(operands, u, k, d)
  }

  function WithUse(uses: Uses, v: Value, w: Use): Uses
  {
    if v.Insn? then uses[v.id := [w] + UsesOf(uses, v.id)] else uses
  }

  lemma UsesAdded(operands: map<Id, seq<Value>>, uses: Uses, x: Id, v: Value)
    requires UsesMatch(operands, uses) && x in operands
    ensures UsesMatch(operands[x := operands[x] + [v]], WithUse(uses, v, Use(x, |operands[x]|)))
  {
    var after, w := operands[x := operands[x] + [v]], WithUse(uses, v, Use(x, |operands[x]|));
    forall d: Id, u: Id, k: nat ensures Use(u, k) in UsesOf(w, d) <==> HasSlot(after, u, k, d) {
      assert Use(u, k) in UsesOf(uses, d) <==> HasSlot(operands, u, k, d);
    }
  }

  lemma NoUsesYet(operands: map<Id, seq<Value>>, uses: Uses, x: Id)
    requires UsesMatch(operands, uses) && x !in operands
    ensures UsesMatch(operands[x := []], uses)
  {
    forall d: Id, u: Id, k: nat ensures Use(u, k) in UsesOf(uses, d) <==> HasSlot(operands[x := []], u, k, d) {
      assert Use(u, k) in UsesOf(uses, d) <==> HasSlot(operands, u, k, d);
    }
  }

  lemma UsesChanged(operands: map<Id, seq<Value>>, uses: Uses, u: Id, k: nat, v: Value)
    requires UsesMatch(operands, uses) && u in operands && k < |operands[u]|
    ensures var was := operands[u][k];
            var gone := if was.Insn? then uses[was.id := Without(UsesOf(uses, was.id), Use(u, k))] else uses;
            UsesMatch(operands[u := operands[u][k := v]], WithUse(gone, v, Use(u, k)))
  {
    var was, after := operands[u][k], operands[u := operands[u][k := v]];
    var gone := if was.Insn? then uses[was.id := Without(UsesOf(uses, was.id), Use(u, k))] else uses;
    forall d: Id, x: Id, j: nat
      ensures Use(x, j) in UsesOf(WithUse(gone, v, Use(u, k)), d) <==> HasSlot(after, x, j, d)
    {
      assert Use(x, j) in UsesOf(uses, d) <==> HasSlot(operands, x, j, d);
    }
  }

  lemma SlotReads(operands: map<Id, seq<Value>>, after: map<Id, seq<Value>>, u: Id, k: nat, v: Value, limit: Id)
    requires u in operands && k < |operands[u]| && after == operands[u := operands[u][k := v]]
    requires (v.Insn? ==> v.id < limit)
    requires forall x: Id, d: Id :: Reads(operands, x, d) ==> d < limit
    ensures forall x: Id, d: Id :: Reads(after, x, d) ==> d < limit
  {
    forall x: Id, d: Id | Reads(after, x, d) ensures d < limit {
      assert Reads(operands, x, d) || v == Insn(d);
    }
  }

  function Without(us: seq<Use>, w: Use): (r: seq<Use>)
    ensures forall x :: x in r <==> x in us && x != w
  {
    if us == [] then [] else Without(us[..|us| - 1], w) + (if us[|us| - 1] == w then [] else [us[|us| - 1]])
  }

  // `isLaterInBlock(A, B)` for an instruction B.
  method IsLaterInBlock(order: seq<Id>, a: Id, b: Id) returns (later: bool)
    requires Distinct(order)
    ensures later == Before(order, b, a)
  {
    if a !in order || b !in order { return false; }
    for i := 0 to |order|
      invariant forall k :: 0 <= k < i ==> order[k] != a && order[k] != b
    {
      if order[i] == a { PosAt(order, i); return false; }
      if order[i] == b { PosAt(order, i); return true; }
    }
    later := false;
  }

  ghost predicate UsedOutside(operands: map<Id, seq<Value>>, comp: seq<Id>, c: Id)
  {
    exists u :: u !in comp && Reads(operands, u, c)
  }

  method IsOutput(operands: map<Id, seq<Value>>, uses: Uses, comp: seq<Id>, c: Id) returns (isOutput: bool)
    requires UsesMatch(operands, uses)
    ensures isOutput == UsedOutside(operands, comp, c)
  {
    var us := UsesOf(uses, c);
    for i := 0 to |us|
      invariant forall k :: 0 <= k < i ==> us[k].user in comp
    {
      if us[i].user !in comp {
        assert Use(us[i].user, us[i].slot) in us;
        assert HasSlot(operands, us[i].user, us[i].slot, c);
        assert Reads(operands, us[i].user, c);
        return true;
      }
    }
    forall u | Reads(operands, u, c) ensures u in comp {
      var k: nat :| k < |operands[u]| && operands[u][k] == Insn(c);
      assert HasSlot(operands, u, k, c);
      assert Use(u, k) in us;
    }
    isOutput := false;
  }

  // The results used outside the component, in program order.
  method FindOutputs(operands: map<Id, seq<Value>>, uses: Uses, comp: seq<Id>) returns (outputs: seq<Id>)
    requires UsesMatch(operands, uses) && Distinct(comp)
    ensures Distinct(outputs) && forall c: Id :: c in outputs <==> c in comp && UsedOutside(operands, comp, c)
  {
    outputs := [];
    for i := 0 to |comp|
      invariant Distinct(outputs) && forall c: Id :: c in outputs <==> c in comp[..i] && UsedOutside(operands, comp, c)
    {
      var isOutput := IsOutput(operands, uses, comp, comp[i]);
      assert comp[..i + 1] == comp[..i] + [comp[i]];
      if isOutput { outputs := outputs + [comp[i]]; }
    }
    assert comp[..|comp|] == comp;
  }

  // The last argument of the call among the instructions of the block.
  ghost predicate IsLastDep(order: seq<Id>, args: seq<Value>, lastDep: Option<Id>)
  {
    match lastDep
    case None => forall x: Id :: Insn(x) in args ==> x !in order
    case Some(d) => Insn(d) in args && d in order && forall x: Id :: Insn(x) in args && x in order ==>
      x == d || Before(order, x, d)
  }

  // Operands 0..k of component instruction i, and all operands of those before it.
  ghost predicate Seen(operands: map<Id, seq<Value>>, comp: seq<Id>, i: nat, k: nat, v: Value)
    requires i <= |comp|
  {
    || (exists j: nat :: j < i && comp[j] in operands && v in operands[comp[j]])
    || (i < |comp| && comp[i] in operands && k <= |operands[comp[i]]| && v in operands[comp[i]][..k])
  }

  // The arguments of the outlined function, each once, and the last of them in the block.
  method CollectArgs(order: seq<Id>, operands: map<Id, seq<Value>>, comp: seq<Id>)
    returns (args: seq<Value>, lastDep: Option<Id>)
    requires Distinct(order) && forall c :: c in comp ==> c in operands
    ensures Distinct(args) && IsLastDep(order, args, lastDep)
    ensures forall v :: v in args <==> External(comp, v) && exists c :: c in comp && v in operands[c]
  {
    args, lastDep := [], None;
    for i := 0 to |comp|
      invariant Distinct(args) && IsLastDep(order, args, lastDep)
      invariant forall v :: v in args <==> External(comp, v) && Seen(operands, comp, i, 0, v)
    {
      var ops := operands[comp[i]];
      for k := 0 to |ops|
        invariant Distinct(args) && IsLastDep(order, args, lastDep)
        invariant forall v :: v in args <==> External(comp, v) && Seen(operands, comp, i, k, v)
      {
        SeenOneMore(operands, comp, i, k);
        args, lastDep := AddArg(order, comp, ops[k], args, lastDep);
      }
      SeenNext(operands, comp, i);
    }
    AllSeen(operands, comp);
  }

  method AddArg(order: seq<Id>, comp: seq<Id>, v: Value, was: seq<Value>, wasLast: Option<Id>)
    returns (args: seq<Value>, lastDep: Option<Id>)
    requires Distinct(order) && Distinct(was) && IsLastDep(order, was, wasLast)
    ensures Distinct(args) && IsLastDep(order, args, lastDep)
    ensures forall u :: u in args <==> u in was || (u == v && External(comp, v))
  {
    args, lastDep := was, wasLast;
    if External(comp, v) && v !in args {
      args := args + [v];
      if v.Insn? && v.id in order {
        var later := true;
        if lastDep.Some? { later := IsLaterInBlock(order, v.id, lastDep.value); }
        if later { lastDep := Some(v.id); }
      }
    }
  }

  lemma SeenOneMore(operands: map<Id, seq<Value>>, comp: seq<Id>, i: nat, k: nat)
    requires i < |comp| && comp[i] in operands && k < |operands[comp[i]]|
    ensures forall v :: Seen(operands, comp, i, k + 1, v) <==>
      Seen(operands, comp, i, k, v) || v == operands[comp[i]][k]
  {
    var ops := operands[comp[i]];
    assert ops[..k + 1] == ops[..k] + [ops[k]];
    forall v ensures Seen(operands, comp, i, k + 1, v) <==> Seen(operands, comp, i, k, v) || v == ops[k] {}
  }

  lemma SeenNext(operands: map<Id, seq<Value>>, comp: seq<Id>, i: nat)
    requires i < |comp| && comp[i] in operands
    ensures forall v :: Seen(operands, comp, i, |operands[comp[i]]|, v) <==> Seen(operands, comp, i + 1, 0, v)
  {
    var ops := operands[comp[i]];
    assert ops[..|ops|] == ops;
    forall v ensures Seen(operands, comp, i, |ops|, v) <==> Seen(operands, comp, i + 1, 0, v) {
      if v in ops { assert comp[i] in operands && v in operands[comp[i]]; }
    }
  }

  lemma AllSeen(operands: map<Id, seq<Value>>, comp: seq<Id>)
    requires forall c :: c in comp ==> c in operands
    ensures forall v :: Seen(operands, comp, |comp|, 0, v) <==> exists c :: c in comp && v in operands[c]
  {
    forall v ensures Seen(operands, comp, |comp|, 0, v) <==> exists c :: c in comp && v in operands[c] {
      if c :| c in comp && v in operands[c] {
        var j: nat :| j < |comp| && comp[j] == c;
        assert v in operands[comp[j]];
      }
    }
  }

  // Where the call goes: directly before the returned instruction, behind every argument.
  method InsertPoint(F: Func, comp: seq<Id>, args: seq<Value>, lastDep: Option<Id>) returns (n: Id)
    requires Known(F) && Distinct(F.order) && Topological(F) && PhisFirst(F) && comp != []
    requires forall c :: c in comp ==> c in F.order && F.code[c] != Phi
    requires IsLastDep(F.order, args, lastDep) && F.order != [] && F.order[|F.order| - 1] !in comp
    requires forall v :: v in args ==> exists c :: c in comp && v in F.operands[c]
    ensures n in F.order && F.code[n] != Phi
    ensures forall x: Id :: Insn(x) in args && x in F.order ==> Before(F.order, x, n)
  {
    if lastDep.None? { return comp[|comp| - 1]; }
    var p := Pos(F.order, lastDep.value);
    ghost var q := UserBehind(F, comp, args, lastDep.value);
    while F.code[F.order[p]] == Phi
      invariant Pos(F.order, lastDep.value) <= p <= q && q < |F.order| - 1 && F.code[F.order[q]] != Phi
      decreases q - p
    {
      p := p + 1;
    }
    n := F.order[p + 1];
    PosAt(F.order, p);
    PosAt(F.order, p + 1);
    assert F.code[n] == Phi ==> Before(F.order, n, F.order[p]);
  }

  // Some component instruction stands at or behind the last argument, and something behind it.
  lemma UserBehind(F: Func, comp: seq<Id>, args: seq<Value>, d: Id) returns (q: nat)
    requires Known(F) && Distinct(F.order) && Topological(F)
    requires forall c :: c in comp ==> c in F.order && F.code[c] != Phi
    requires d in F.order && F.order[|F.order| - 1] !in comp && Insn(d) in args
    requires forall v :: v in args ==> exists c :: c in comp && v in F.operands[c]
    ensures Pos(F.order, d) < q < |F.order| - 1 && F.code[F.order[q]] != Phi
  {
    var c :| c in comp && Insn(d) in F.operands[c];
    assert Reads(F.operands, c, d);
    q := Pos(F.order, c);
  }
}
