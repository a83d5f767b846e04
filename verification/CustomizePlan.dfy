/** How far the rewrite of one component has come, as a relation between the block before it and now. */
module CustomizePlan {
  import opened Basics
  import opened BlockOrder
  import opened PackingIR
  import opened Convexity
  import opened PackingMeaning
  import opened ComponentAnalysis
  import opened BlockRepair

  // New instructions get the next free names: packs, then the call, then the extracts.
  function PlanFor(comp: seq<Id>, args: seq<Value>, outputs: seq<Id>, T: nat, n0: Id): (p: Plan)
    requires T >= 1
  {
    var packs := if |args| + |outputs| > 4 then NumStructs(|args|, T) else 0;
    Plan(comp, args, outputs, seq(packs, i requires 0 <= i < packs => n0 + i), n0 + packs,
         if |outputs| == 1 then [] else seq(|outputs|, i requires 0 <= i < |outputs| => n0 + packs + 1 + i), T)
  }

  // The number of names the plan uses.
  function Total(p: Plan): nat { |p.packs| + 1 + |p.extracts| }

  // The instruction that stands in for output i.
  function StandIn(p: Plan, i: nat): Id
    requires i < |p.outputs| && |p.extracts| == if Single(p) then 0 else |p.outputs|
  {
    if Single(p) then p.call else p.extracts[i]
  }

  // What an operand has become when the first m outputs are redirected.
  function RedirectUpTo(p: Plan, m: nat, v: Value): Value
    requires |p.extracts| == if Single(p) then 0 else |p.outputs|
  {
    if v.Insn? && v.id in p.outputs && IndexOf(p.outputs, v.id) < m then Insn(StandIn(p, IndexOf(p.outputs, v.id)))
      else v
  }

  // Instruction u outside the component, its operands redirected for the first m outputs.
  ghost predicate OutsideAt(F: Func, G: Func, p: Plan, m: nat, u: Id)
    requires |p.extracts| == if Single(p) then 0 else |p.outputs|
  {
    && u in F.operands && u in F.code && u in G.operands && u in G.code && G.code[u] == F.code[u]
    && |G.operands[u]| == |F.operands[u]|
    && forall k :: 0 <= k < |F.operands[u]| ==> G.operands[u][k] == RedirectUpTo(p, m, F.operands[u][k])
  }

  ghost predicate InsideAt(F: Func, G: Func, p: Plan, c: Id)
  {
    && c in F.operands && c in F.code && c in G.operands && c in G.code && G.code[c] == F.code[c]
    && G.operands[c] == FormalizeAll(p.args, F.operands[c])
  }

  // The new instruction with name x is what the plan says.
  ghost predicate CreatedAt(F: Func, G: Func, p: Plan, n0: Id, x: Id)
    requires p.T >= 1 && forall c :: c in p.comp ==> c in F.operands
  {
    && x in G.operands && x in G.code
    && (n0 <= x < n0 + |p.packs| ==> PackAt(G, p, x - n0))
    && (x == p.call ==> G.code[x] == Call(BodyOf(F, p)) && G.operands[x] == CallOperands(p))
    && (p.call < x <= p.call + |p.extracts| ==> ExtractAt(G, p, x - p.call - 1))
  }

  // The names below next are given out, and m outputs are redirected.
  ghost predicate Progress(F: Func, G: Func, p: Plan, n0: Id, next: Id, m: nat)
    requires Known(F) && WellPlanned(F, p)
  {
    && n0 <= next <= n0 + Total(p)
    && (forall x :: x in G.order <==> x in F.order || n0 <= x < next)
    && (forall u :: u in G.operands <==> u in F.operands || n0 <= u < next)
    && (forall u :: u in F.operands && u !in p.comp ==> OutsideAt(F, G, p, m, u))
    && (forall c :: c in p.comp ==> InsideAt(F, G, p, c))
    && (forall x: Id :: n0 <= x < next ==> CreatedAt(F, G, p, n0, x))
  }

  // The names of a plan are the next free ones.
  ghost predicate Fresh(F: Func, n0: Id)
  {
    && (forall x :: x in F.operands ==> x < n0 && x in F.code)
    && (forall x :: x in F.order ==> x in F.operands)
    && (forall u: Id, d: Id :: Reads(F.operands, u, d) ==> d < n0)
  }

  lemma PlanIsWell(F: Func, comp: seq<Id>, args: seq<Value>, outputs: seq<Id>, T: nat, n0: Id)
    requires Known(F) && Fresh(F, n0) && T >= 1
    requires Distinct(comp) && InProgramOrder(F.operands, comp)
    requires forall c :: c in comp ==> c in F.order && F.code[c] == Pure
    requires Distinct(args)
    requires forall v :: v in args <==> External(comp, v) && exists c :: c in comp && v in F.operands[c]
    requires Distinct(outputs) && forall c: Id :: c in outputs <==> c in comp && UsedOutside(F.operands, comp, c)
    requires forall c, k :: c in comp && 0 <= k < |F.operands[c]| ==> !F.operands[c][k].Formal?
    ensures WellPlanned(F, PlanFor(comp, args, outputs, T, n0))
  {
    var p := PlanFor(comp, args, outputs, T, n0);
    forall x: Id | Created(p, x) ensures x >= n0 {}
  }

  // The component's operands replaced by formal arguments, nothing else yet.
  lemma Started(F: Func, G: Func, p: Plan, n0: Id)
    requires Known(F) && WellPlanned(F, p) && Fresh(F, n0)
    requires G.order == F.order && G.code == F.code && forall u :: u in G.operands <==> u in F.operands
    requires forall u :: u in F.operands && u !in p.comp ==> G.operands[u] == F.operands[u]
    requires forall c :: c in p.comp ==> G.operands[c] == FormalizeAll(p.args, F.operands[c])
    ensures Progress(F, G, p, n0, n0, 0)
  {
    forall u | u in F.operands && u !in p.comp ensures OutsideAt(F, G, p, 0, u) {}
  }

  lemma OthersKept(F: Func, G: Func, H: Func, p: Plan, n0: Id, x: Id, c: Code, ops: seq<Value>, m: nat)
    requires p.T >= 1 && |p.extracts| == (if Single(p) then 0 else |p.outputs|)
    requires forall c :: c in p.comp ==> c in F.operands
    requires x !in G.operands && H.operands == G.operands[x := ops] && H.code == G.code[x := c]
    ensures forall u :: OutsideAt(F, G, p, m, u) ==> OutsideAt(F, H, p, m, u)
    ensures forall u :: InsideAt(F, G, p, u) ==> InsideAt(F, H, p, u)
    ensures forall y: Id :: y < x && CreatedAt(F, G, p, n0, y) ==> CreatedAt(F, H, p, n0, y)
  {
  }

  lemma ProgressCreates(F: Func, G: Func, H: Func, p: Plan, n0: Id, x: Id, c: Code, ops: seq<Value>, m: nat)
    requires Known(F) && WellPlanned(F, p) && Progress(F, G, p, n0, x, m) && Fresh(F, n0) && x < n0 + Total(p)
    requires H.operands == G.operands[x := ops] && H.code == G.code[x := c]
    requires forall y :: y in H.order <==> y in G.order || y == x
    requires CreatedAt(F, H, p, n0, x)
    ensures Progress(F, H, p, n0, x + 1, m)
  {
    OthersKept(F, G, H, p, n0, x, c, ops, m);
  }

  // Once every output is redirected and the component is gone, the block is the rewritten one.
  lemma Finished(F: Func, G: Func, H: Func, p: Plan, n0: Id)
    requires Known(F) && WellPlanned(F, p) && Progress(F, G, p, n0, n0 + Total(p), |p.outputs|) && Fresh(F, n0)
    requires p == PlanFor(p.comp, p.args, p.outputs, p.T, n0)
    requires H.operands == G.operands && H.code == G.code && Known(H)
    requires forall x :: x in H.order <==> x in G.order && x !in p.comp
    ensures Rewritten(F, H, p)
  {
    MembersAre(F, G, H, p, n0);
    forall u | u in F.operands && u !in p.comp && u in F.code
      ensures u in H.operands && u in H.code && H.code[u] == F.code[u] && RedirectedAt(F, H, p, u)
    {
      assert OutsideAt(F, G, p, |p.outputs|, u);
      OutsideDone(F, G, H, p, u);
    }
    assert CreatedAt(F, G, p, n0, p.call);
    CreatedDone(F, G, H, p, n0);
  }

  lemma OutsideDone(F: Func, G: Func, H: Func, p: Plan, u: Id)
    requires Known(F) && WellPlanned(F, p) && OutsideAt(F, G, p, |p.outputs|, u) && H.operands == G.operands
    requires H.code == G.code
    ensures RedirectedAt(F, H, p, u)
  {
  }

  lemma CreatedDone(F: Func, G: Func, H: Func, p: Plan, n0: Id)
    requires Known(F) && WellPlanned(F, p) && p == PlanFor(p.comp, p.args, p.outputs, p.T, n0)
    requires H.operands == G.operands && H.code == G.code
    requires forall x: Id :: n0 <= x < n0 + Total(p) ==> CreatedAt(F, G, p, n0, x)
    ensures forall i: nat :: i < |p.packs| ==> PackAt(H, p, i)
    ensures forall i: nat :: i < |p.extracts| ==> ExtractAt(H, p, i)
  {
    forall i: nat | i < |p.packs| ensures PackAt(H, p, i) { assert CreatedAt(F, G, p, n0, n0 + i); }
    forall i: nat | i < |p.extracts| ensures ExtractAt(H, p, i) { assert CreatedAt(F, G, p, n0, p.call + 1 + i); }
  }

  lemma MembersAre(F: Func, G: Func, H: Func, p: Plan, n0: Id)
    requires Fresh(F, n0) && p.T >= 1 && p == PlanFor(p.comp, p.args, p.outputs, p.T, n0)
    requires forall c :: c in p.comp ==> c in F.order
    requires forall x :: x in G.order <==> x in F.order || n0 <= x < n0 + Total(p)
    requires forall x :: x in H.order <==> x in G.order && x !in p.comp
    ensures forall x: Id :: x in H.order <==> (x in F.order && x !in p.comp) || Created(p, x)
  {
    forall x: Id ensures x in H.order <==> (x in F.order && x !in p.comp) || Created(p, x) {
      NamesAre(p, n0, x);
    }
  }

  lemma CallName(p: Plan, n0: Id)
    requires p.T >= 1 && p == PlanFor(p.comp, p.args, p.outputs, p.T, n0)
    ensures n0 + |p.packs| == p.call < n0 + Total(p)
  {
  }

  lemma PackName(p: Plan, n0: Id, i: nat)
    requires p.T >= 1 && p == PlanFor(p.comp, p.args, p.outputs, p.T, n0) && i < |p.packs|
    ensures p.packs[i] == n0 + i < n0 + Total(p)
  {
  }

  // The next free name once the first m outputs have what stands in for them.
  function NameAfter(p: Plan, m: nat): Id { p.call + 1 + if Single(p) then 0 else m }

  lemma NamesUsed(p: Plan, n0: Id)
    requires p.T >= 1 && p == PlanFor(p.comp, p.args, p.outputs, p.T, n0)
    ensures NameAfter(p, |p.outputs|) == n0 + Total(p)
  {
  }

  lemma NamesAre(p: Plan, n0: Id, x: Id)
    requires p.T >= 1 && p == PlanFor(p.comp, p.args, p.outputs, p.T, n0)
    ensures Created(p, x) <==> n0 <= x < n0 + Total(p)
  {
    if n0 <= x < p.call { assert p.packs[x - n0] == x; }
    if p.call < x < n0 + Total(p) { assert p.extracts[x - p.call - 1] == x; }
  }

  // ---------- redirecting the uses of output m

  // The uses found for output m are the uses it had before the rewrite.
  ghost predicate OriginalUses(F: Func, p: Plan, m: nat, us: seq<Use>)
    requires m < |p.outputs|
  {
    && (forall i :: 0 <= i < |us| && us[i].user !in p.comp ==>
         HasSlot(F.operands, us[i].user, us[i].slot, p.outputs[m]))
    && (forall u: Id, k: nat :: u !in p.comp && HasSlot(F.operands, u, k, p.outputs[m]) ==> Use(u, k) in us)
  }

  // The operands once every listed use outside the component reads e.
  function RedirectUses(operands: map<Id, seq<Value>>, us: seq<Use>, comp: seq<Id>, e: Id): (r: map<Id, seq<Value>>)
    ensures r.Keys == operands.Keys && forall u :: u in operands ==> |r[u]| == |operands[u]|
  {
    if us == [] then operands
    else
      var before, last := RedirectUses(operands, us[..|us| - 1], comp, e), us[|us| - 1];
      if last.user in comp || last.user !in operands || last.slot >= |operands[last.user]| then before
      else before[last.user := before[last.user][last.slot := Insn(e)]]
  }

  lemma {:induction false} RedirectedSlot(operands: map<Id, seq<Value>>, us: seq<Use>, comp: seq<Id>, e: Id, u: Id,
          k: nat)
    requires u in operands && k < |operands[u]|
    ensures RedirectUses(operands, us, comp, e)[u][k] == if u !in comp && Use(u, k) in us then Insn(e)
      else operands[u][k]
  {
    if us != [] {
      RedirectedSlot(operands, us[..|us| - 1], comp, e, u, k);
      assert us == us[..|us| - 1] + [us[|us| - 1]];
    }
  }

  lemma NextRedirected(operands: map<Id, seq<Value>>, us: seq<Use>, j: nat, comp: seq<Id>, e: Id)
    requires j < |us| && us[j].user in operands && us[j].slot < |operands[us[j].user]|
    ensures var u, k, before := us[j].user, us[j].slot, RedirectUses(operands, us[..j], comp, e);
            RedirectUses(operands, us[..j + 1], comp, e) == if u in comp then before
              else before[u := before[u][k := Insn(e)]]
  {
    assert us[..j + 1][..j] == us[..j];
  }

  ghost predicate MovesIfPlaced(G: Func, u: Id, mv: map<Id, nat>)
  {
    u in G.order && u in G.code && G.code[u] != Phi ==> u in mv
  }

  // The users of the listed uses exist, and may move behind e if they have to.
  ghost predicate UsersMove(G: Func, us: seq<Use>, comp: seq<Id>, e: Id, mv: map<Id, nat>)
  {
    forall i :: 0 <= i < |us| ==>
      && us[i].user in G.operands && us[i].slot < |G.operands[us[i].user]|
      && (us[i].user !in comp ==> us[i].user != e && MovesIfPlaced(G, us[i].user, mv))
  }

  lemma UsesAreOriginal(F: Func, G: Func, p: Plan, n0: Id, next: Id, m: nat, uses: Uses)
    requires Known(F) && WellPlanned(F, p) && Progress(F, G, p, n0, next, m) && Fresh(F, n0)
    requires p == PlanFor(p.comp, p.args, p.outputs, p.T, n0)
    requires m < |p.outputs| && UsesMatch(G.operands, uses)
    ensures OriginalUses(F, p, m, UsesOf(uses, p.outputs[m]))
  {
    var o := p.outputs[m];
    IndexAt(p.outputs, m);
    assert o in p.comp && o in F.operands;
    forall u: Id, k: nat
      ensures u !in p.comp && HasSlot(G.operands, u, k, o) <==> u !in p.comp && HasSlot(F.operands, u, k, o)
    {
      if u in F.operands && u !in p.comp {
        assert OutsideAt(F, G, p, m, u);
      } else if n0 <= u < next {
        assert CreatedAt(F, G, p, n0, u);
        CreatedReads(F, G, p, n0, u, o);
      }
    }
    forall i | 0 <= i < |UsesOf(uses, o)| && UsesOf(uses, o)[i].user !in p.comp
      ensures HasSlot(F.operands, UsesOf(uses, o)[i].user, UsesOf(uses, o)[i].slot, o)
    {
      var w := UsesOf(uses, o)[i];
      assert Use(w.user, w.slot) in UsesOf(uses, o);
      assert HasSlot(G.operands, w.user, w.slot, o);
    }
    forall u: Id, k: nat | u !in p.comp && HasSlot(F.operands, u, k, o) ensures Use(u, k) in UsesOf(uses, o) {
      assert HasSlot(G.operands, u, k, o);
    }
  }

  // New instructions never read the component itself.
  lemma CreatedReads(F: Func, G: Func, p: Plan, n0: Id, x: Id, o: Id)
    requires Known(F) && WellPlanned(F, p) && Fresh(F, n0) && p == PlanFor(p.comp, p.args, p.outputs, p.T, n0)
    requires n0 <= x < n0 + Total(p) && CreatedAt(F, G, p, n0, x) && o in p.comp
    ensures !Reads(G.operands, x, o)
  {
    assert Insn(o) !in p.args;
    assert o < n0;
  }

  // With every use of output m redirected, m + 1 outputs are.
  lemma OutputRedirected(F: Func, G: Func, H: Func, p: Plan, n0: Id, next: Id, m: nat, us: seq<Use>)
    requires Known(F) && WellPlanned(F, p) && Progress(F, G, p, n0, next, m) && Fresh(F, n0) && m < |p.outputs|
    requires OriginalUses(F, p, m, us)
    requires Members(H.order) == Members(G.order) && H.code == G.code
    requires H.operands == RedirectUses(G.operands, us, p.comp, StandIn(p, m))
    ensures Progress(F, H, p, n0, next, m + 1)
  {
    forall x ensures x in H.order <==> x in G.order { assert x in Members(H.order) <==> x in Members(G.order); }
    forall u | u in F.operands && u !in p.comp
      ensures OutsideAt(F, H, p, m + 1, u)
    {
      OutsideRedirected(F, G, H, p, m, us, u);
    }
    forall u | u in G.operands && (u in p.comp || u !in F.operands) ensures H.operands[u] == G.operands[u] {
      NotRedirected(F, G, p, m, us, u);
    }
    forall c | c in p.comp ensures InsideAt(F, H, p, c) { assert InsideAt(F, G, p, c); }
    forall x: Id | n0 <= x < next ensures CreatedAt(F, H, p, n0, x) { assert CreatedAt(F, G, p, n0, x); }
  }

  lemma NotRedirected(F: Func, G: Func, p: Plan, m: nat, us: seq<Use>, u: Id)
    requires Known(F) && WellPlanned(F, p) && m < |p.outputs| && OriginalUses(F, p, m, us)
    requires u in G.operands && (u in p.comp || u !in F.operands)
    ensures RedirectUses(G.operands, us, p.comp, StandIn(p, m))[u] == G.operands[u]
  {
    var r := RedirectUses(G.operands, us, p.comp, StandIn(p, m));
    forall k: nat | k < |G.operands[u]| ensures r[u][k] == G.operands[u][k] {
      RedirectedSlot(G.operands, us, p.comp, StandIn(p, m), u, k);
      assert u !in p.comp ==> !HasSlot(F.operands, u, k, p.outputs[m]);
    }
  }

  lemma OutsideRedirected(F: Func, G: Func, H: Func, p: Plan, m: nat, us: seq<Use>, u: Id)
    requires Known(F) && WellPlanned(F, p) && m < |p.outputs| && OriginalUses(F, p, m, us)
    requires u !in p.comp && OutsideAt(F, G, p, m, u)
    requires H.code == G.code && H.operands == RedirectUses(G.operands, us, p.comp, StandIn(p, m))
    ensures OutsideAt(F, H, p, m + 1, u)
  {
    IndexAt(p.outputs, m);
    forall k: nat | k < |F.operands[u]| ensures H.operands[u][k] == RedirectUpTo(p, m + 1, F.operands[u][k]) {
      RedirectedSlot(G.operands, us, p.comp, StandIn(p, m), u, k);
      assert Use(u, k) in us <==> HasSlot(F.operands, u, k, p.outputs[m]);
    }
  }

  // ---------- what the creation steps need

  ghost predicate Planned(F: Func, p: Plan, n0: Id)
  {
    Known(F) && WellPlanned(F, p) && p == PlanFor(p.comp, p.args, p.outputs, p.T, n0)
  }

  // Every argument is available before the insertion point and is not a dependent of the component.
  ghost predicate ArgsReady(F: Func, p: Plan, order: seq<Id>, mv: map<Id, nat>, n: Id, n0: Id)
  {
    (forall x :: x in mv ==> x < n0)
    && forall v :: v in p.args && v.Insn? ==> v.id < n0 && v.id !in mv && (v.id in order ==> Before(order, v.id, n))
  }

  predicate MadeAs(H: Func, x: Id, c: Code, ops: seq<Value>)
  {
    x in H.operands && x in H.code && H.operands[x] == ops && H.code[x] == c
  }

  // A new instruction before n leaves the arguments, and the packs so far, available.
  lemma PackPlaced(F: Func, p: Plan, order: seq<Id>, D: seq<Id>, mv: map<Id, nat>, n: Id, n0: Id, x: Id, next: Id)
    requires ArgsReady(F, p, order, mv, n, n0) && x >= n0 && next == x + 1 && Before(D, x, n)
    requires forall y: Id :: n0 <= y < x ==> Before(order, y, n)
    requires forall a, b :: Before(order, a, b) ==> Before(D, a, b)
    requires forall a :: a in D <==> a in order || a == x
    ensures ArgsReady(F, p, D, mv, n, n0)
    ensures forall y: Id :: n0 <= y < next ==> Before(D, y, n)
  {
  }

  lemma PackPlanned(F: Func, p: Plan, n0: Id, i: nat, x: Id, ops: seq<Value>)
    requires Planned(F, p, n0) && Packed(p) && i < |p.packs| && i * p.T <= |p.args| && ops == PackOperands(p, i)
    requires x == n0 + i
    ensures forall H: Func :: MadeAs(H, x, Pack(|Slice(p.args, p.T, i)|), ops) ==> CreatedAt(F, H, p, n0, x)
  {
    forall H: Func | MadeAs(H, x, Pack(|Slice(p.args, p.T, i)|), ops) ensures CreatedAt(F, H, p, n0, x) {
      assert p.packs[i] == x && PackAt(H, p, i);
    }
  }

  lemma PackReady(F: Func, p: Plan, order: seq<Id>, mv: map<Id, nat>, n: Id, n0: Id, i: nat, ops: seq<Value>)
    requires Planned(F, p, n0) && i < |p.packs| && i * p.T <= |p.args| && ops == PackOperands(p, i)
    requires ArgsReady(F, p, order, mv, n, n0)
    requires forall x: Id :: n0 <= x < n0 + i ==> Before(order, x, n)
    ensures forall v :: v in ops && v.Insn? ==>
      v.id < n0 + i && v.id !in mv && (v.id in order ==> Before(order, v.id, n))
  {
    forall v | v in Slice(p.args, p.T, i) ensures v in p.args {}
  }

  lemma BodyIs(F: Func, G: Func, p: Plan, n0: Id, next: Id, body: Body)
    requires Known(F) && WellPlanned(F, p) && Progress(F, G, p, n0, next, 0)
    requires body == Body(Packed(p), p.T, p.comp, map c | c in p.comp :: G.operands[c], p.outputs)
    ensures body == BodyOf(F, p)
  {
    forall c | c in p.comp ensures G.operands[c] == FormalizeAll(p.args, F.operands[c]) { assert InsideAt(F, G, p, c); }
    assert body.operands == BodyOf(F, p).operands;
  }

  lemma CallReady(F: Func, p: Plan, order: seq<Id>, mv: map<Id, nat>, n: Id, n0: Id, inputs: seq<Value>)
    requires Planned(F, p, n0) && ArgsReady(F, p, order, mv, n, n0) && inputs == CallOperands(p)
    requires forall x: Id :: n0 <= x < p.call ==> Before(order, x, n)
    ensures forall v :: v in inputs && v.Insn? ==>
      v.id < p.call && v.id !in mv && (v.id in order ==> Before(order, v.id, n))
    ensures forall H: Func :: MadeAs(H, p.call, Call(BodyOf(F, p)), inputs) ==> CreatedAt(F, H, p, n0, p.call)
  {
  }

  lemma ExtractPlanned(F: Func, p: Plan, n0: Id, m: nat, x: Id)
    requires Planned(F, p, n0) && m < |p.extracts| && x == p.call + 1 + m
    ensures forall H: Func :: MadeAs(H, x, Extract(m), [Insn(p.call)]) ==> CreatedAt(F, H, p, n0, x)
  {
    forall H: Func | MadeAs(H, x, Extract(m), [Insn(p.call)]) ensures CreatedAt(F, H, p, n0, x) {
      assert p.extracts[m] == x && ExtractAt(H, p, m);
    }
  }

  // A use of output m is by an instruction that may move if it has to.
  lemma UsersAre(F: Func, G: Func, p: Plan, n0: Id, next: Id, m: nat, uses: Uses, mv: map<Id, nat>)
    requires Known(F) && WellPlanned(F, p) && Progress(F, G, p, n0, next, m) && Fresh(F, n0)
    requires p == PlanFor(p.comp, p.args, p.outputs, p.T, n0)
    requires m < |p.outputs| && UsesMatch(G.operands, uses) && ReadersMove(F, p.comp, mv)
    ensures OriginalUses(F, p, m, UsesOf(uses, p.outputs[m]))
    ensures UsersMove(G, UsesOf(uses, p.outputs[m]), p.comp, StandIn(p, m), mv)
  {
    var us := UsesOf(uses, p.outputs[m]);
    UsesAreOriginal(F, G, p, n0, next, m, uses);
    forall i | 0 <= i < |us| ensures HasSlot(G.operands, us[i].user, us[i].slot, p.outputs[m]) {
      assert Use(us[i].user, us[i].slot) in us;
    }
    assert Created(p, StandIn(p, m));
    forall i | 0 <= i < |us| && us[i].user !in p.comp
      ensures us[i].user != StandIn(p, m) && MovesIfPlaced(G, us[i].user, mv)
    {
      assert HasSlot(F.operands, us[i].user, us[i].slot, p.outputs[m]);
      assert Reads(F.operands, us[i].user, p.outputs[m]);
      assert OutsideAt(F, G, p, m, us[i].user);
    }
  }

  lemma StartInOrder(F: Func, G: Func, p: Plan, mv: map<Id, nat>, n: Id)
    requires Known(F) && Distinct(F.order) && Topological(F) && PhisFirst(F) && Movable(F, mv) && n in F.order
    requires F.code[n] != Phi
    requires G.order == F.order && G.code == F.code && G.operands.Keys == F.operands.Keys
    requires forall c :: c in p.comp ==> c in F.operands && G.operands[c] == FormalizeAll(p.args, F.operands[c])
    requires forall u :: u in G.operands && u !in p.comp ==> G.operands[u] == F.operands[u]
    ensures InOrder(G, mv, n)
  {
    forall u, d | Reads(G.operands, u, d) ensures Reads(F.operands, u, d) {
      var k :| 0 <= k < |G.operands[u]| && G.operands[u][k] == Insn(d);
      if u in p.comp { assert F.operands[u][k] == Insn(d); }
    }
    assert InOrder(F, mv, n);
    FewerReads(F, G, mv, n);
  }

  lemma StartReady(F: Func, p: Plan, mv: map<Id, nat>, n: Id, n0: Id)
    requires Planned(F, p, n0) && Fresh(F, n0) && (forall x :: x in mv ==> x in F.order)
    requires forall c, d :: c in p.comp && Reads(F.operands, c, d) ==> d !in mv
    requires forall x: Id :: Insn(x) in p.args && x in F.order ==> Before(F.order, x, n)
    ensures ArgsReady(F, p, F.order, mv, n, n0)
  {
    forall v | v in p.args && v.Insn?
      ensures v.id < n0 && v.id !in mv && (v.id in F.order ==> Before(F.order, v.id, n))
    {
      var c :| c in p.comp && v in F.operands[c];
      assert Reads(F.operands, c, v.id);
    }
  }

  // ---------- components one after the other

  // A component that can still be outlined: pure code of the block in program order, without its terminator.
  ghost predicate Ready(F: Func, comp: seq<Id>)
  {
    && Known(F) && comp != [] && InProgramOrder(F.operands, comp) && F.order != [] && Last(F.order) !in comp
    && (forall c :: c in comp ==> c in F.order && F.code[c] == Pure)
    && (forall c, k :: c in comp && 0 <= k < |F.operands[c]| ==> !F.operands[c][k].Formal?)
  }

  // Outlining one component leaves the others ready.
  lemma OthersStayReady(F: Func, G: Func, p: Plan, other: seq<Id>)
    requires Known(F) && Known(G) && WellPlanned(F, p) && Rewritten(F, G, p) && Ready(F, other)
    requires (forall c :: c in other ==> c !in p.comp && c in F.operands && c in F.code)
    requires G.order != [] && Last(G.order) == Last(F.order)
    ensures Ready(G, other)
  {
    forall c | c in other ensures RedirectedAt(F, G, p, c) {}
    forall i, j | 0 <= i < |other| && 0 <= j < |other| && Reads(G.operands, other[i], other[j]) ensures j < i {
      assert RedirectedAt(F, G, p, other[i]);
      var k :| 0 <= k < |G.operands[other[i]]| && G.operands[other[i]][k] == Insn(other[j]);
      assert !Created(p, other[j]);
      assert F.operands[other[i]][k] == Insn(other[j]);
      assert Reads(F.operands, other[i], other[j]);
    }
    forall c, k | c in other && 0 <= k < |G.operands[c]| ensures !G.operands[c][k].Formal? {
      assert RedirectedAt(F, G, p, c);
    }
  }

  function AllMembers(components: seq<seq<Id>>): set<Id>
  {
    if components == [] then {}
    else AllMembers(components[..|components| - 1]) + Members(components[|components| - 1])
  }

  // No instruction is in two components.
  ghost predicate Disjoint(components: seq<seq<Id>>)
  {
    forall i, j, c :: 0 <= i < j < |components| && c in components[i] ==> c !in components[j]
  }
}
