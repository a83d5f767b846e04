/** The object whose instruction list, operands and use lists the rewriter changes in place. */
module RewriterObject {
  import opened Basics
  import opened BlockOrder
  import opened PackingIR
  import opened Convexity
  import opened PackingMeaning
  import opened ComponentAnalysis
  import opened BlockRepair
  import opened CustomizePlan
  import opened PackingCounts

  class Rewriter {
    var order: seq<Id>
    var operands: map<Id, seq<Value>>
    var code: map<Id, Code>
    var uses: Uses
    var next: Id  // every instruction created so far is below it

    ghost function State(): Func
      reads this
    {
      Func(order, operands, code)
    }

    ghost predicate Valid()
      reads this
    {
      && Distinct(order) && Known(State()) && UsesMatch(operands, uses)
      && (forall x :: x in operands ==> x < next && x in code)
      && (forall u: Id, d: Id :: Reads(operands, u, d) ==> d < next)
    }

    // `moveInstructionAfter`.  S holds the results still being repaired, the last of them T; mv bounds
    // the recursion.
    method MoveInstructionAfter(I: Id, T: Id, ghost S: set<Id>, ghost mv: map<Id, nat>)
      requires Valid() && Movable(State(), mv) && OrderedBut(State(), S)
      requires I in mv && Before(order, I, T) && T in S && I !in S && T != Last(order)
      requires forall s :: s in S ==> (s == T || Before(order, s, T)) && (s in mv ==> mv[s] > mv[I])
      modifies this`order
      ensures Valid() && SameMembers(old(order), order)
      ensures OrderedBut(State(), S) && Keeps(old(order), order, S, mv) && Before(order, T, I)
      ensures Last(order) == old(Last(order))
      decreases mv[I], 2
    {
      ghost var F := State();
      Relocate(I, T, S, mv);
      var us := UsesOf(uses, I);
      for j := 0 to |us|
        invariant Valid() && Movable(State(), mv) && SameMembers(F.order, order) && OrderedBut(State(), S + {I})
        invariant Keeps(F.order, order, S, mv) && Before(order, T, I)
        invariant forall s :: s in S ==> Before(order, s, I)
        invariant Last(order) == Last(F.order) != I
        invariant SettledUpTo(State(), us, j, I)
      {
        RepairRound(F, us, j, I, T, S, mv);
      }
      AllSettled(us, I, S);
    }

    // The body of that loop; F is the state before the move.
    method RepairRound(ghost F: Func, us: seq<Use>, j: nat, I: Id, T: Id, ghost S: set<Id>, ghost mv: map<Id, nat>)
      requires Valid() && Movable(State(), mv) && OrderedBut(State(), S + {I}) && j < |us| && us == UsesOf(uses, I)
      requires Known(F) && SameMembers(F.order, order) && Keeps(F.order, order, S, mv) && SettledUpTo(State(), us, j, I)
      requires I in mv && I !in S && T in S && forall s :: s in S ==> Before(order, s, I) && (s in mv ==> mv[s] > mv[I])
      requires I != Last(order)
      modifies this`order
      ensures Valid() && Movable(State(), mv) && OrderedBut(State(), S + {I}) && Last(order) == old(Last(order))
      ensures SameMembers(F.order, order) && Keeps(F.order, order, S, mv) && SettledUpTo(State(), us, j + 1, I)
      ensures forall s :: s in S ==> Before(order, s, I)
      decreases mv[I], 1
    {
      ghost var G := State();
      RepairUse(us[j], I, S, mv);
      RoundKept(F, G, State(), us, j, I, T, S, mv);
    }

    // Taking I out of the list and putting it back after T.
    method Relocate(I: Id, T: Id, ghost S: set<Id>, ghost mv: map<Id, nat>)
      requires Valid() && Movable(State(), mv) && OrderedBut(State(), S)
      requires I in mv && Before(order, I, T) && T in S && I !in S && T != Last(order)
      requires forall s :: s in S ==> s == T || Before(order, s, T)
      modifies this`order
      ensures Valid() && Movable(State(), mv) && SameMembers(old(order), order) && OrderedBut(State(), S + {I})
      ensures Keeps(old(order), order, S, mv) && Before(order, T, I)
      ensures forall s :: s in S ==> Before(order, s, I)
      ensures Last(order) == old(Last(order)) != I
    {
      ghost var F := State();
      MovedRelation(order, I, T);
      MovedLast(order, I, T);
      order := MoveRight(order, I, T);
      MoveOrders(F, State(), I, S, mv);
    }

    // One round of the loop over the uses of the moved instruction.
    method RepairUse(use: Use, I: Id, ghost S: set<Id>, ghost mv: map<Id, nat>)
      requires Valid() && Movable(State(), mv) && OrderedBut(State(), S + {I}) && use in UsesOf(uses, I)
      requires I in mv && I in order && I !in S && I != Last(order)
      requires forall s :: s in S ==> Before(order, s, I) && (s in mv ==> mv[s] > mv[I])
      modifies this`order
      ensures Valid() && Movable(State(), mv) && SameMembers(old(order), order) && OrderedBut(State(), S + {I})
      ensures Keeps(old(order), order, S + {I}, mv) && Settled(State(), use.user, I) && Last(order) == old(Last(order))
      decreases mv[I], 0
    {
      var u := use.user;
      assert HasSlot(operands, u, use.slot, I);
      if u in order && code[u] != Phi {
        assert Reads(operands, u, I);
        var later := IsLaterInBlock(order, u, I);
        if !later { MoveInstructionAfter(u, I, S + {I}, mv); }
      }
    }

    lemma AllSettled(us: seq<Use>, I: Id, S: set<Id>)
      requires Valid() && us == UsesOf(uses, I) && OrderedBut(State(), S + {I})
      requires SettledUpTo(State(), us, |us|, I)
      ensures OrderedBut(State(), S)
    {
      forall u, d | u in order && d in order && code[u] != Phi && Reads(operands, u, d)
        ensures d in S || Before(order, d, u)
      {
        if d == I {
          var k: nat :| k < |operands[u]| && operands[u][k] == Insn(I);
          assert HasSlot(operands, u, k, I);
          assert Use(u, k) in us;
        }
      }
    }

    // Overwriting one operand, which moves the use from one list to the head of another.
    method SetOperand(u: Id, k: nat, v: Value)
      requires Valid() && u in operands && k < |operands[u]| && (v.Insn? ==> v.id < next)
      modifies this`operands, this`uses
      ensures Valid() && operands == old(operands)[u := old(operands)[u][k := v]]
    {
      var was := operands[u][k];
      UsesChanged(operands, uses, u, k, v);
      if was.Insn? { uses := uses[was.id := Without(UsesOf(uses, was.id), Use(u, k))]; }
      operands := operands[u := operands[u][k := v]];
      if v.Insn? { uses := uses[v.id := [Use(u, k)] + UsesOf(uses, v.id)]; }
      SlotReads(old(operands), operands, u, k, v, next);
    }

    // The operands of a new instruction, each entered in the use list of what it reads.
    method AppendOperands(x: Id, ops: seq<Value>)
      requires UsesMatch(operands, uses) && x !in operands
      modifies this`operands, this`uses
      ensures UsesMatch(operands, uses) && operands == old(operands)[x := ops]
    {
      NoUsesYet(operands, uses, x);
      operands := operands[x := []];
      for k := 0 to |ops|
        invariant operands == old(operands)[x := ops[..k]] && UsesMatch(operands, uses)
      {
        UsesAdded(operands, uses, x, ops[k]);
        assert ops[..k + 1] == ops[..k] + [ops[k]];
        operands := operands[x := operands[x] + [ops[k]]];
        if ops[k].Insn? { uses := uses[ops[k].id := [Use(x, k)] + UsesOf(uses, ops[k].id)]; }
      }
      assert ops[..|ops|] == ops;
    }

    // A new instruction before n, as the builder inserts one.
    method CreateInsn(n: Id, c: Code, ops: seq<Value>) returns (x: Id)
      requires Valid() && n in order && forall v :: v in ops && v.Insn? ==> v.id < next
      modifies this
      ensures Valid() && x == old(next) && next == x + 1 && x !in old(order) && n in old(order)
      ensures order == InsertBefore(old(order), n, x) && operands == old(operands)[x := ops]
      ensures code == old(code)[x := c]
    {
      x := next;
      next := next + 1;
      code := code[x := c];
      AppendOperands(x, ops);
      CreatedKnown(old(State()), n, x, c, ops);
      order := InsertBefore(order, n, x);
    }

    // Inside the outlined function the arguments are formals.
    method DetachArguments(comp: seq<Id>, args: seq<Value>)
      requires Valid() && Distinct(comp) && Distinct(args) && forall c :: c in comp ==> c in operands
      requires forall v :: v in args ==> !v.Formal?
      modifies this`operands, this`uses
      ensures Valid() && operands.Keys == old(operands).Keys
      ensures forall c :: c in comp ==> operands[c] == FormalizeAll(args, old(operands)[c])
      ensures forall u :: u in operands && u !in comp ==> operands[u] == old(operands)[u]
    {
      for i := 0 to |comp|
        invariant Valid() && operands.Keys == old(operands).Keys
        invariant forall k :: 0 <= k < i ==> operands[comp[k]] == FormalizeAll(args, old(operands)[comp[k]])
        invariant forall u :: u in operands && u !in comp[..i] ==> operands[u] == old(operands)[u]
      {
        DetachOne(comp[i], args);
      }
      assert comp[..|comp|] == comp;
    }

    method DetachOne(c: Id, args: seq<Value>)
      requires Valid() && c in operands && forall v :: v in args ==> !v.Formal?
      modifies this`operands, this`uses
      ensures Valid() && operands == old(operands)[c := FormalizeAll(args, old(operands)[c])]
    {
      ghost var was := operands[c];
      for k := 0 to |operands[c]|
        invariant Valid() && operands.Keys == old(operands).Keys && |operands[c]| == |was|
        invariant forall j :: 0 <= j < k ==> operands[c][j] == Formalize(args, was[j])
        invariant forall j :: k <= j < |was| ==> operands[c][j] == was[j]
        invariant forall u :: u in operands && u != c ==> operands[u] == old(operands)[u]
      {
        var v := operands[c][k];
        if v in args { SetOperand(c, k, Formal(IndexOf(args, v))); }
      }
      assert operands[c] == FormalizeAll(args, was);
    }

    // The builder's next instruction, directly before n.
    method Add(n: Id, c: Code, ops: seq<Value>, ghost F: Func, ghost p: Plan, ghost n0: Id, ghost mv: map<Id, nat>,
            ghost m: nat)
      returns (x: Id)
      requires Valid() && Fresh(F, n0) && Planned(F, p, n0) && Progress(F, State(), p, n0, next, m)
      requires next < n0 + CustomizePlan.Total(p)
      requires InOrder(State(), mv, n) && c != Phi && (forall x :: x in mv ==> x < n0)
      requires forall H: Func :: MadeAs(H, next, c, ops) ==> CreatedAt(F, H, p, n0, next)
      requires forall v :: v in ops && v.Insn? ==>
        v.id < next && v.id !in mv && (v.id in order ==> Before(order, v.id, n))
      modifies this
      ensures Valid() && x == old(next) && next == x + 1 && Progress(F, State(), p, n0, next, m)
      ensures InOrder(State(), mv, n)
      ensures Before(order, x, n) && forall a, b :: Before(old(order), a, b) ==> Before(order, a, b)
      ensures forall a :: a in order <==> a in old(order) || a == x
      ensures code == old(code)[x := c] && operands == old(operands)[x := ops] && Last(order) == old(Last(order))
    {
      ghost var G := State();
      x := CreateInsn(n, c, ops);
      CreateInOrder(G, State(), mv, n, x, c, ops);
      ProgressCreates(F, G, State(), p, n0, x, c, ops, m);
    }

    // The first i packs of the plan are in place before n.
    ghost predicate PacksMade(F: Func, p: Plan, n0: Id, mv: map<Id, nat>, n: Id, i: nat)
      reads this
    {
      && Valid() && Fresh(F, n0) && Planned(F, p, n0) && i <= |p.packs| && next == n0 + i
      && Progress(F, State(), p, n0, next, 0) && InOrder(State(), mv, n) && ArgsReady(F, p, order, mv, n, n0)
      && forall x: Id :: n0 <= x < next ==> Before(order, x, n)
    }

    method AddPack(i: nat, n: Id, args: seq<Value>, T: nat, packs: seq<Id>,
                   ghost done: nat, ghost F: Func, ghost p: Plan, ghost n0: Id, ghost mv: map<Id, nat>)
      returns (x: Id)
      requires PacksMade(F, p, n0, mv, n, i) && i < |p.packs| && done == i + 1 && packs == p.packs[..i]
      requires p.args == args && p.T == T && Packed(p)
      modifies this
      ensures PacksMade(F, p, n0, mv, n, done) && x == p.packs[i] && Last(order) == old(Last(order))
    {
      StructInRange(|args|, T, i);
      PackName(p, n0, i);
      var fields := Slice(args, T, i);
      var ops := fields + (if i > 0 then [Insn(packs[i - 1])] else []);
      PackPlanned(F, p, n0, i, next, ops);
      PackReady(F, p, order, mv, n, n0, i, ops);
      ghost var was := order;
      x := Add(n, Pack(|fields|), ops, F, p, n0, mv, 0);
      PackPlaced(F, p, was, order, mv, n, n0, x, next);
    }

    // The packing calls, each chained to the one before it.
    method CreatePacks(n: Id, args: seq<Value>, T: nat, ghost F: Func, ghost p: Plan, ghost n0: Id, ghost mv: map<Id,
            nat>)
      returns (packs: seq<Id>)
      requires PacksMade(F, p, n0, mv, n, 0) && p.args == args && p.T == T && Packed(p)
      modifies this
      ensures PacksMade(F, p, n0, mv, n, |p.packs|) && packs == p.packs && Last(order) == old(Last(order))
    {
      packs := [];
      var i := 0;
      while i != NumStructs(|args|, T)
        invariant i <= |p.packs| && PacksMade(F, p, n0, mv, n, i)
        invariant packs == p.packs[..i] && Last(order) == old(Last(order))
        decreases |p.packs| - i
      {
        var done := i + 1;
        var x := AddPack(i, n, args, T, packs, done, F, p, n0, mv);
        TakeOne(p.packs, i);
        packs := packs + [x];
        i := done;
      }
    }

    // What the call is given: the structs, or the arguments themselves.
    method CreateInputs(n: Id, packed: bool, args: seq<Value>, T: nat, ghost F: Func, ghost p: Plan, ghost n0: Id,
            ghost mv: map<Id, nat>)
      returns (inputs: seq<Value>)
      requires PacksMade(F, p, n0, mv, n, 0) && p.args == args && p.T == T && packed == Packed(p)
      modifies this
      ensures PacksMade(F, p, n0, mv, n, |p.packs|) && inputs == CallOperands(p) && Last(order) == old(Last(order))
      ensures next == p.call < n0 + CustomizePlan.Total(p)
    {
      inputs := args;
      if packed {
        var packs := CreatePacks(n, args, T, F, p, n0, mv);
        inputs := ResultsOf(packs);
      }
      CallName(p, n0);
    }

    // The packing calls, if any, and the call of the outlined function.
    method CreateCall(n: Id, comp: seq<Id>, args: seq<Value>, outputs: seq<Id>, T: nat,
                      ghost F: Func, ghost p: Plan, ghost n0: Id, ghost mv: map<Id, nat>)
      returns (call: Id)
      requires PacksMade(F, p, n0, mv, n, 0) && p.comp == comp && p.args == args && p.outputs == outputs && p.T == T
      modifies this
      ensures Valid() && call == p.call && next == call + 1 && Progress(F, State(), p, n0, next, 0)
      ensures InOrder(State(), mv, n)
      ensures Before(order, call, n) && Last(order) == old(Last(order))
      ensures CalledAs(args, outputs, T, n0, call, operands[call])
    {
      PlanCalledAs(p, n0);
      var packed := |args| + |outputs| > 4;
      var inputs := CreateInputs(n, packed, args, T, F, p, n0, mv);
      var body := Body(packed, T, comp, map c | c in comp :: operands[c], outputs);
      BodyIs(F, State(), p, n0, next, body);
      CallReady(F, p, order, mv, n, n0, inputs);
      call := Add(n, Call(body), inputs, F, p, n0, mv, 0);
    }

    // The user of a redirected use moves behind e where it has to.
    method MoveBehind(u: Id, e: Id, n: Id, ghost mv: map<Id, nat>)
      requires Valid() && OnlyOut(State(), u, e) && PhisFirst(State()) && Movable(State(), mv)
      requires n in order && code[n] != Phi && e in order && e !in mv && u != e
      requires (u in order && code[u] != Phi ==> u in mv)
      requires e != Last(order)
      modifies this`order
      ensures Valid() && InOrder(State(), mv, n) && SameMembers(old(order), order)
      ensures Last(order) == old(Last(order))
      ensures forall a, b :: Before(old(order), a, b) && a !in mv ==> Before(order, a, b)
    {
      ghost var H := State();
      var later := IsLaterInBlock(order, u, e);
      if !later && u in order && code[u] != Phi {
        MoveInstructionAfter(u, e, {e}, mv);
        MovedInOrder(H, State(), mv, n, u, e);
      } else {
        NothingOut(H, mv, n, u, e);
      }
    }

    // Operand k of u now reads e, and u moves behind e where it has to.
    method RedirectSlot(u: Id, k: nat, e: Id, n: Id, ghost mv: map<Id, nat>)
      requires Valid() && InOrder(State(), mv, n) && u in operands && k < |operands[u]|
      requires e in order && e !in mv && e < next && e != Last(order) && u != e
      requires (u in order && code[u] != Phi ==> u in mv)
      modifies this`order, this`operands, this`uses
      ensures Valid() && InOrder(State(), mv, n) && operands == old(operands)[u := old(operands)[u][k := Insn(e)]]
      ensures SameMembers(old(order), order) && Last(order) == old(Last(order))
      ensures forall a, b :: Before(old(order), a, b) && a !in mv ==> Before(order, a, b)
    {
      ghost var G := State();
      SetOperand(u, k, Insn(e));
      RedirectInOrder(G, State(), mv, n, u, k, e);
      MoveBehind(u, e, n, mv);
    }

    // One use now reads e, and its user moves behind e where it has to; G is the state before the first of them.
    method RedirectUse(us: seq<Use>, j: nat, e: Id, comp: seq<Id>, n: Id, ghost G: Func, ghost mv: map<Id, nat>)
      requires Valid() && InOrder(State(), mv, n) && j < |us| && UsersMove(G, us, comp, e, mv)
      requires operands == RedirectUses(G.operands, us[..j], comp, e) && code == G.code && SameMembers(G.order, order)
      requires e in order && e !in mv && e < next && e != Last(order)
      modifies this`order, this`operands, this`uses
      ensures Valid() && InOrder(State(), mv, n)
      ensures operands == RedirectUses(G.operands, us[..j + 1], comp, e) && SameMembers(G.order, order)
      ensures Last(order) == old(Last(order))
      ensures forall a, b :: Before(old(order), a, b) && a !in mv ==> Before(order, a, b)
    {
      NextRedirected(G.operands, us, j, comp, e);
      if us[j].user !in comp { RedirectSlot(us[j].user, us[j].slot, e, n, mv); }
    }

    // Every use of o outside the component now reads e.
    method RedirectUsesOf(o: Id, e: Id, comp: seq<Id>, n: Id, ghost mv: map<Id, nat>)
      requires Valid() && InOrder(State(), mv, n) && UsersMove(State(), UsesOf(uses, o), comp, e, mv)
      requires e in order && e !in mv && e < next && e != Last(order)
      modifies this`order, this`operands, this`uses
      ensures Valid() && InOrder(State(), mv, n) && Members(order) == old(Members(order))
      ensures Last(order) == old(Last(order))
      ensures operands == RedirectUses(old(operands), old(UsesOf(uses, o)), comp, e)
      ensures forall a, b :: Before(old(order), a, b) && a !in mv ==> Before(order, a, b)
    {
      ghost var G := State();
      var us := UsesOf(uses, o);
      for j := 0 to |us|
        invariant Valid() && InOrder(State(), mv, n) && SameMembers(G.order, order) && Last(order) == Last(G.order)
        invariant operands == RedirectUses(G.operands, us[..j], comp, e)
        invariant forall a, b :: Before(G.order, a, b) && a !in mv ==> Before(order, a, b)
      {
        RedirectUse(us, j, e, comp, n, G, mv);
      }
      assert us[..|us|] == us;
    }

    method RedirectOutput(e: Id, comp: seq<Id>, o: Id, n: Id,
                          ghost F: Func, ghost p: Plan, ghost n0: Id, ghost mv: map<Id, nat>, ghost m: nat)
      requires Valid() && Fresh(F, n0) && Planned(F, p, n0) && Progress(F, State(), p, n0, next, m)
      requires InOrder(State(), mv, n)
      requires p.comp == comp && m < |p.outputs| && o == p.outputs[m] && e == StandIn(p, m) && e in order && e !in mv
      requires e < next
      requires ReadersMove(F, comp, mv) && e != Last(order)
      modifies this`order, this`operands, this`uses
      ensures Valid() && Progress(F, State(), p, n0, next, m + 1) && InOrder(State(), mv, n)
      ensures Last(order) == old(Last(order))
      ensures forall a, b :: Before(old(order), a, b) && a !in mv ==> Before(order, a, b)
    {
      ghost var G, us := State(), UsesOf(uses, o);
      UsersAre(F, G, p, n0, next, m, uses, mv);
      RedirectUsesOf(o, e, comp, n, mv);
      OutputRedirected(F, G, State(), p, n0, next, m, us);
    }

    method RedirectOutputs(call: Id, comp: seq<Id>, outputs: seq<Id>, n: Id,
                           ghost F: Func, ghost p: Plan, ghost n0: Id, ghost mv: map<Id, nat>)
      requires Valid() && Fresh(F, n0) && Planned(F, p, n0) && Progress(F, State(), p, n0, next, 0)
      requires InOrder(State(), mv, n)
      requires p.comp == comp && p.outputs == outputs && call == p.call && next == call + 1 && Before(order, call, n)
      requires ReadersMove(F, comp, mv) && forall x :: x in mv ==> x < n0
      modifies this
      ensures Valid() && Progress(F, State(), p, n0, next, |outputs|) && InOrder(State(), mv, n)
      ensures next == NameAfter(p, |outputs|) && Last(order) == old(Last(order))
    {
      var singleRet := |outputs| == 1;
      var m := 0;
      while m != |outputs|
        invariant m <= |outputs| && Valid() && Progress(F, State(), p, n0, next, m) && InOrder(State(), mv, n)
        invariant Before(order, call, n) && next == NameAfter(p, m) && Last(order) == old(Last(order))
      {
        var done := m + 1;
        ReplaceOutput(m, done, singleRet, call, comp, outputs[m], n, F, p, n0, mv);
        m := done;
      }
    }

    method ReplaceOutput(m: nat, ghost done: nat, singleRet: bool, call: Id, comp: seq<Id>, o: Id, n: Id,
                         ghost F: Func, ghost p: Plan, ghost n0: Id, ghost mv: map<Id, nat>)
      requires Valid() && Fresh(F, n0) && Planned(F, p, n0) && Progress(F, State(), p, n0, next, m)
      requires InOrder(State(), mv, n)
      requires p.comp == comp && m < |p.outputs| && done == m + 1 && o == p.outputs[m] && singleRet == Single(p)
      requires call == p.call
      requires next == NameAfter(p, m) && Before(order, call, n)
      requires ReadersMove(F, comp, mv) && forall x :: x in mv ==> x < n0
      modifies this
      ensures Valid() && Progress(F, State(), p, n0, next, done) && InOrder(State(), mv, n) && Before(order, call, n)
      ensures next == NameAfter(p, done) && Last(order) == old(Last(order))
    {
      var e := StandInFor(m, singleRet, call, n, F, p, n0, mv);
      RedirectOutput(e, comp, o, n, F, p, n0, mv, m);
    }

    // Result m taken out of what the call returns.
    method AddExtract(m: nat, call: Id, n: Id, ghost F: Func, ghost p: Plan, ghost n0: Id, ghost mv: map<Id, nat>)
      returns (e: Id)
      requires Valid() && Fresh(F, n0) && Planned(F, p, n0) && Progress(F, State(), p, n0, next, m)
      requires InOrder(State(), mv, n)
      requires m < |p.extracts| && call == p.call && next == call + 1 + m
      requires Before(order, call, n) && forall x :: x in mv ==> x < n0
      modifies this
      ensures Valid() && Progress(F, State(), p, n0, next, m) && InOrder(State(), mv, n) && Before(order, call, n)
      ensures e == p.extracts[m] && Before(order, e, n) && next == e + 1 && Last(order) == old(Last(order))
    {
      ExtractPlanned(F, p, n0, m, next);
      e := Add(n, Extract(m), [Insn(call)], F, p, n0, mv, m);
    }

    // What replaces output m: the call itself, or a new extract of its result.
    method StandInFor(m: nat, singleRet: bool, call: Id, n: Id, ghost F: Func, ghost p: Plan, ghost n0: Id,
            ghost mv: map<Id, nat>)
      returns (e: Id)
      requires Valid() && Fresh(F, n0) && Planned(F, p, n0) && Progress(F, State(), p, n0, next, m)
      requires InOrder(State(), mv, n)
      requires m < |p.outputs| && singleRet == Single(p) && call == p.call && next == NameAfter(p, m)
      requires Before(order, call, n) && forall x :: x in mv ==> x < n0
      modifies this
      ensures Valid() && Progress(F, State(), p, n0, next, m) && InOrder(State(), mv, n) && Before(order, call, n)
      ensures e == StandIn(p, m) && e in order && e !in mv && e < next && next == NameAfter(p, m + 1)
      ensures Last(order) == old(Last(order)) != e
    {
      e := call;
      if !singleRet {
        e := AddExtract(m, call, n, F, p, n0, mv);
      }
      NotLast(order, e, n);
    }

    // The component leaves the block for the outlined function.
    method RemoveComponent(comp: seq<Id>)
      requires Valid() && Distinct(comp) && (forall c :: c in comp ==> c in order) && order != []
      requires Last(order) !in comp
      modifies this`order
      ensures Valid() && forall x :: x in order <==> x in old(order) && x !in comp
      ensures forall a, b :: Before(old(order), a, b) && a !in comp && b !in comp ==> Before(order, a, b)
      ensures order != [] && Last(order) == old(Last(order))
    {
      for i := 0 to |comp|
        invariant order != [] && Last(order) == old(Last(order))
        invariant Valid() && forall x :: x in order <==> x in old(order) && x !in comp[..i]
        invariant forall a, b :: Before(old(order), a, b) && a !in comp && b !in comp ==> Before(order, a, b)
      {
        assert comp[..i + 1] == comp[..i] + [comp[i]];
        RemovedRelation(order, comp[i]);
        order := Remove(order, comp[i]);
      }
      assert comp[..|comp|] == comp;
    }

    // The outlined instructions read formals; everything is ready for the new instructions.
    method Detach(comp: seq<Id>, args: seq<Value>, n: Id, ghost p: Plan, ghost mv: map<Id, nat>)
      requires Valid() && Topological(State()) && PhisFirst(State()) && Planned(State(), p, next) && p.comp == comp
      requires p.args == args
      requires Movable(State(), mv) && forall c, d :: c in comp && Reads(operands, c, d) ==> d !in mv
      requires n in order && code[n] != Phi && forall x: Id :: Insn(x) in args && x in order ==> Before(order, x, n)
      modifies this`operands, this`uses
      ensures PacksMade(old(State()), p, next, mv, n, 0)
    {
      ghost var F := State();
      DetachArguments(comp, args);
      Started(F, State(), p, next);
      StartInOrder(F, State(), p, mv, n);
      StartReady(F, p, mv, n, next);
    }

    // The component leaves the block, and what is left is the rewritten block.
    method FinishOutline(comp: seq<Id>, n: Id, ghost F: Func, ghost p: Plan, ghost n0: Id, ghost mv: map<Id, nat>)
      requires Valid() && Fresh(F, n0) && Planned(F, p, n0) && p.comp == comp && next == NameAfter(p, |p.outputs|)
      requires Progress(F, State(), p, n0, next, |p.outputs|) && InOrder(State(), mv, n) && Last(order) !in comp
      modifies this`order
      ensures Valid() && Topological(State()) && PhisFirst(State()) && Rewritten(F, State(), p)
      ensures order != [] && Last(order) == old(Last(order))
    {
      ghost var G := State();
      NamesUsed(p, n0);
      RemoveComponent(comp);
      Finished(F, G, State(), p, n0);
      EndInOrder(G, State(), comp, mv, n);
    }

    // The changes of `customize` once the plan is known.
    method Outline(comp: seq<Id>, args: seq<Value>, outputs: seq<Id>, T: nat, n: Id, ghost p: Plan)
      requires Valid() && Topological(State()) && PhisFirst(State()) && Planned(State(), p, next)
      requires p.comp == comp && p.args == args && p.outputs == outputs && p.T == T
      requires Convex(operands, PhisOf(State()), Members(comp))
      requires n in order && code[n] != Phi && forall x: Id :: Insn(x) in args && x in order ==> Before(order, x, n)
      requires Last(order) !in comp
      modifies this
      ensures Valid() && Topological(State()) && PhisFirst(State()) && Rewritten(old(State()), State(), p)
      ensures order != [] && Last(order) == old(Last(order))
    {
      ghost var F, n0, mv := State(), next, Dependents(State(), comp);
      DependentsMove(F, comp);
      Detach(comp, args, n, p, mv);
      var call := CreateCall(n, comp, args, outputs, T, F, p, n0, mv);
      RedirectOutputs(call, comp, outputs, n, F, p, n0, mv);
      FinishOutline(comp, n, F, p, n0, mv);
    }

    // `customize` for one component: nothing when it is not convex, else the rewrite of the block.
    method CustomizeOne(comp: seq<Id>, T: nat) returns (done: bool, ghost p: Plan)
      requires Valid() && Topological(State()) && PhisFirst(State()) && Ready(State(), comp) && T >= 1
      modifies this
      ensures Valid() && Topological(State()) && PhisFirst(State())
      ensures order != [] && Last(order) == old(Last(order))
      ensures done == Convex(old(operands), PhisOf(old(State())), Members(comp))
      ensures !done ==> State() == old(State())
      ensures done ==> p.comp == comp && p.T == T && WellPlanned(old(State()), p) && Rewritten(old(State()), State(), p)
      ensures done ==> Counted(old(State()), State(), p.args, p.outputs, p.call, T)
    {
      p := PlanFor(comp, [], [], T, 0);
      done := CheckConvex(operands, PhisOf(Func(order, operands, code)), comp, next);
      if done {
        var outputs := FindOutputs(operands, uses, comp);
        var args, lastDep := CollectArgs(order, operands, comp);
        var n := InsertPoint(Func(order, operands, code), comp, args, lastDep);
        p := PlanFor(comp, args, outputs, T, next);
        PlanIsWell(State(), comp, args, outputs, T, next);
        Outline(comp, args, outputs, T, n, p);
        CountedFrom(old(State()), State(), p);
      }
    }

    // One round of the loop over the components.
    method CustomizeNext(ghost F: Func, ghost gone: set<Id>, comp: seq<Id>, ghost others: seq<seq<Id>>, T: nat)
      requires Valid() && Topological(State()) && PhisFirst(State()) && Ready(State(), comp) && T >= 1
      requires Known(F) && KeepsMeaning(F, State(), gone)
      requires forall other :: other in others ==> Ready(State(), other) && forall c :: c in other ==> c !in comp
      modifies this
      ensures Valid() && Topological(State()) && PhisFirst(State())
      ensures order != [] && Last(order) == old(Last(order))
      ensures KeepsMeaning(F, State(), gone + Members(comp))
      ensures forall other :: other in others ==> Ready(State(), other)
    {
      ghost var G := State();
      var done, p := CustomizeOne(comp, T);
      if done {
        RewriteKeepsMeaning(G, State(), p);
        MeaningComposes(F, G, State(), gone, Members(comp));
        forall other | other in others ensures Ready(State(), other) { OthersStayReady(G, State(), p, other); }
      }
    }

    // `customize`: the components of a candidate one after the other.  Whatever the operators mean, every
    // instruction that was in none of them reads and computes what it did.
    method Customize(components: seq<seq<Id>>, T: nat)
      requires Valid() && Topological(State()) && PhisFirst(State()) && T >= 1 && order != []
      requires Disjoint(components) && forall comp :: comp in components ==> Ready(State(), comp)
      modifies this
      ensures Valid() && Topological(State()) && PhisFirst(State())
      ensures order != [] && Last(order) == old(Last(order))
      ensures KeepsMeaning(old(State()), State(), AllMembers(components))
    {
      MeaningSame(State());
      for i := 0 to |components|
        invariant Valid() && Topological(State()) && PhisFirst(State()) && order != []
        invariant Last(order) == old(Last(order))
        invariant KeepsMeaning(old(State()), State(), AllMembers(components[..i]))
        invariant forall comp :: comp in components[i..] ==> Ready(State(), comp)
      {
        TakeOne(components, i);
        assert components[i..] == [components[i]] + components[i + 1..];
        CustomizeNext(old(State()), AllMembers(components[..i]), components[i], components[i + 1..], T);
      }
      assert components[..|components|] == components;
    }
  }

  lemma CreatedKnown(F: Func, n: Id, x: Id, c: Code, ops: seq<Value>)
    requires Known(F) && Distinct(F.order) && n in F.order
    requires (forall u :: u in F.operands ==> u < x && u in F.code)
    requires forall u: Id, d: Id :: Reads(F.operands, u, d) ==> d < x
    requires forall v :: v in ops && v.Insn? ==> v.id < x
    ensures var G := Func(InsertBefore(F.order, n, x), F.operands[x := ops], F.code[x := c]);
            && Known(G) && Distinct(G.order)
            && (forall u :: u in G.operands ==> u < x + 1 && u in G.code)
            && forall u: Id, d: Id :: Reads(G.operands, u, d) ==> d < x + 1
  {
    Inserted(F.order, n, x);
    var operands := F.operands[x := ops];
    forall u: Id, d: Id | Reads(operands, u, d) ensures d < x + 1 {
      assert u == x || Reads(F.operands, u, d);
    }
  }

  lemma NotLast(B: seq<Id>, e: Id, n: Id)
    requires Distinct(B) && Before(B, e, n)
    ensures e != Last(B)
  {
    PosAt(B, |B| - 1);
  }

  lemma TakeOne<A>(s: seq<A>, i: nat)
    requires i < |s|
    ensures s[..i + 1] == s[..i] + [s[i]]
  {
  }
}
