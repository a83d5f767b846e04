/** The order of a block while results are redirected: what may be out of place, and what moving repairs. */
module BlockRepair {
  import opened Basics
  import opened BlockOrder
  import opened PackingIR
  import opened Convexity
  import opened ComponentAnalysis

  // Instructions that may have to move: they only feed each other, ever further down.
  ghost predicate Movable(F: Func, mv: map<Id, nat>)
    requires Known(F)
  {
    && (forall x :: x in mv ==> x in F.order && F.code[x] != Phi)
    && (forall x, u :: x in mv && u in F.order && F.code[u] != Phi && Reads(F.operands, u, x) ==>
         u in mv && mv[u] < mv[x])
  }

  // Only results in S may still come after one of their uses.
  ghost predicate OrderedBut(F: Func, S: set<Id>)
    requires Known(F)
  {
    forall u, d :: u in F.order && d in F.order && F.code[u] != Phi && Reads(F.operands, u, d) ==>
      d in S || Before(F.order, d, u)
  }

  // What stood behind an instruction of S, or behind one that never moves, still does.
  ghost predicate Keeps(B: seq<Id>, D: seq<Id>, S: set<Id>, mv: map<Id, nat>)
  {
    forall x, y :: Before(B, x, y) && (x in S || x !in mv) ==> Before(D, x, y)
  }

  ghost predicate SameMembers(B: seq<Id>, D: seq<Id>)
  {
    Distinct(D) && forall x :: x in D <==> x in B
  }

  // Moving I down past T only takes I out of the way of what was behind it.
  lemma MovedRelation(B: seq<Id>, I: Id, T: Id)
    requires Distinct(B) && Before(B, I, T)
    ensures T in Remove(B, I) && I !in Remove(B, I) && SameMembers(B, MoveRight(B, I, T))
    ensures forall x, y :: Before(B, x, y) && x != I ==> Before(MoveRight(B, I, T), x, y)
    ensures forall x :: (x == T || Before(B, x, T)) && x != I ==> Before(MoveRight(B, I, T), x, I)
  {
    MovedRight(B, I, T);
    var D := MoveRight(B, I, T);
    forall x, y | Before(B, x, y) && x != I ensures Before(D, x, y) {
      assert x in D && y in D;
    }
  }

  // The terminator stays last as long as nothing is moved behind it.
  lemma MovedLast(B: seq<Id>, I: Id, T: Id)
    requires Distinct(B) && Before(B, I, T) && T != Last(B)
    ensures T in Remove(B, I) && MoveRight(B, I, T) != [] && Last(MoveRight(B, I, T)) == Last(B) && I != Last(B)
  {
    MovedRight(B, I, T);
    PosAt(B, |B| - 1);
    var D, x := MoveRight(B, I, T), Last(B);
    assert x in D && Pos(D, x) == |B| - 1;
    assert |Remove(B, I)| == |B| - 1 && |D| == |B|;
  }

  lemma MoveOrders(F: Func, G: Func, I: Id, S: set<Id>, mv: map<Id, nat>)
    requires Known(F) && Known(G) && OrderedBut(F, S) && Keeps(F.order, G.order, S, mv) && SameMembers(F.order, G.order)
    requires G.operands == F.operands && G.code == F.code && I in mv
    requires forall x, y :: Before(F.order, x, y) && x != I ==> Before(G.order, x, y)
    ensures OrderedBut(G, S + {I})
  {
  }

  // User u needs no move for I.
  ghost predicate Settled(F: Func, u: Id, I: Id)
    requires Known(F)
  {
    u in F.order && F.code[u] != Phi ==> Before(F.order, I, u)
  }

  ghost predicate SettledUpTo(F: Func, us: seq<Use>, j: nat, I: Id)
    requires Known(F) && j <= |us|
  {
    forall k :: 0 <= k < j ==> Settled(F, us[k].user, I)
  }

  // What a round of repairs leaves of the rounds before it.
  lemma RoundKept(F: Func, G: Func, H: Func, us: seq<Use>, j: nat, I: Id, T: Id, S: set<Id>, mv: map<Id, nat>)
    requires Known(F) && Known(G) && Known(H) && j < |us|
    requires G.code == H.code && SameMembers(F.order, G.order) && SameMembers(G.order, H.order)
    requires Keeps(F.order, G.order, S, mv) && Keeps(G.order, H.order, S + {I}, mv)
    requires T in S && Before(G.order, T, I) && forall s :: s in S ==> Before(G.order, s, I)
    requires SettledUpTo(G, us, j, I) && Settled(H, us[j].user, I)
    ensures SameMembers(F.order, H.order) && Keeps(F.order, H.order, S, mv)
    ensures forall s :: s in S ==> Before(H.order, s, I)
    ensures SettledUpTo(H, us, j + 1, I)
  {
  }

  // Uses of component results outside the component are by instructions that may move.
  ghost predicate ReadersMove(F: Func, comp: seq<Id>, mv: map<Id, nat>)
    requires Known(F)
  {
    forall u, o :: u in F.order && F.code[u] != Phi && u !in comp && o in comp && Reads(F.operands, u, o) ==> u in mv
  }

  // Between two redirections the block is in order, and whatever may still have to move is known.
  ghost predicate InOrder(F: Func, mv: map<Id, nat>, n: Id)
  {
    && Known(F) && Distinct(F.order) && OrderedBut(F, {}) && PhisFirst(F) && Movable(F, mv)
    && n in F.order && F.code[n] != Phi
  }

  lemma FewerReads(F: Func, G: Func, mv: map<Id, nat>, n: Id)
    requires InOrder(F, mv, n) && G.order == F.order && G.code == F.code && Known(G)
    requires forall u, d :: Reads(G.operands, u, d) ==> Reads(F.operands, u, d)
    ensures InOrder(G, mv, n)
  {
  }

  lemma InsertedRelation(B: seq<Id>, n: Id, x: Id)
    requires Distinct(B) && n in B && x !in B
    ensures var D := InsertBefore(B, n, x);
            && Distinct(D) && Before(D, x, n) && (forall y :: y in D <==> y in B || y == x) && Last(D) == Last(B)
    ensures forall a, b :: Before(B, a, b) ==> Before(InsertBefore(B, n, x), a, b)
    ensures forall a :: Before(B, a, n) ==> Before(InsertBefore(B, n, x), a, x)
  {
    Inserted(B, n, x);
  }

  // A new instruction before n, all of whose operands stand before n already.
  ghost predicate NewBefore(F: Func, G: Func, n: Id, x: Id, c: Code, ops: seq<Value>)
  {
    && Known(F) && x !in F.order && x !in F.operands && c != Phi && n in F.order
    && G == Func(InsertBefore(F.order, n, x), F.operands[x := ops], F.code[x := c])
    && (forall u :: !Reads(F.operands, u, x))
    && (forall d: Id :: Insn(d) in ops && d in F.order ==> Before(F.order, d, n))
  }

  lemma NewReads(F: Func, G: Func, n: Id, x: Id, c: Code, ops: seq<Value>)
    requires NewBefore(F, G, n, x, c, ops) && Distinct(F.order)
    ensures Known(G) && forall y :: y in G.order <==> y in F.order || y == x
    ensures forall u, d :: u != x ==> Reads(G.operands, u, d) == Reads(F.operands, u, d)
    ensures forall d :: Reads(G.operands, x, d) <==> Insn(d) in ops
  {
    InsertedRelation(F.order, n, x);
  }

  lemma NewOrdered(F: Func, G: Func, n: Id, x: Id, c: Code, ops: seq<Value>)
    requires NewBefore(F, G, n, x, c, ops) && Distinct(F.order) && OrderedBut(F, {}) && Insn(x) !in ops
    ensures Known(G) && Distinct(G.order) && OrderedBut(G, {})
  {
    NewReads(F, G, n, x, c, ops);
    InsertedRelation(F.order, n, x);
    forall u, d | u in G.order && d in G.order && G.code[u] != Phi && Reads(G.operands, u, d)
      ensures Before(G.order, d, u)
    {
      if u != x { assert Reads(F.operands, u, d); }
    }
  }

  lemma NewMovable(F: Func, G: Func, mv: map<Id, nat>, n: Id, x: Id, c: Code, ops: seq<Value>)
    requires NewBefore(F, G, n, x, c, ops) && Distinct(F.order) && Movable(F, mv)
    requires x !in mv && forall d: Id :: Insn(d) in ops ==> d !in mv
    ensures Known(G) && Movable(G, mv)
  {
    NewReads(F, G, n, x, c, ops);
    forall y, u | y in mv && u in G.order && G.code[u] != Phi && Reads(G.operands, u, y)
      ensures u in mv && mv[u] < mv[y]
    {
      if u != x { assert Reads(F.operands, u, y); }
    }
  }

  lemma NewPhis(F: Func, G: Func, n: Id, x: Id, c: Code, ops: seq<Value>)
    requires NewBefore(F, G, n, x, c, ops) && Distinct(F.order) && PhisFirst(F) && F.code[n] != Phi
    ensures Known(G) && PhisFirst(G) && G.code[n] != Phi
  {
    InsertedRelation(F.order, n, x);
  }

  lemma CreateInOrder(F: Func, G: Func, mv: map<Id, nat>, n: Id, x: Id, c: Code, ops: seq<Value>)
    requires InOrder(F, mv, n) && NewBefore(F, G, n, x, c, ops) && x !in mv
    requires forall d: Id :: Insn(d) in ops ==> d != x && d !in mv
    ensures InOrder(G, mv, n)
    ensures Before(G.order, x, n) && forall a, b :: Before(F.order, a, b) ==> Before(G.order, a, b)
    ensures Last(G.order) == Last(F.order) && forall y :: y in G.order <==> y in F.order || y == x
  {
    NewOrdered(F, G, n, x, c, ops);
    NewMovable(F, G, mv, n, x, c, ops);
    NewPhis(F, G, n, x, c, ops);
    InsertedRelation(F.order, n, x);
  }

  // Only the use of e by u may be out of place.
  ghost predicate OnlyOut(F: Func, u: Id, e: Id)
    requires Known(F)
  {
    forall x, d :: x in F.order && d in F.order && F.code[x] != Phi && Reads(F.operands, x, d) ==>
      (x == u && d == e) || Before(F.order, d, x)
  }

  lemma RedirectInOrder(F: Func, G: Func, mv: map<Id, nat>, n: Id, u: Id, k: nat, e: Id)
    requires InOrder(F, mv, n) && u in F.operands && k < |F.operands[u]| && e !in mv
    requires G == F.(operands := F.operands[u := F.operands[u][k := Insn(e)]])
    ensures Known(G) && OnlyOut(G, u, e) && PhisFirst(G) && Movable(G, mv)
  {
    forall x, d | Reads(G.operands, x, d) ensures Reads(F.operands, x, d) || (x == u && d == e) {}
  }

  // Nothing is out of place after all.
  lemma NothingOut(F: Func, mv: map<Id, nat>, n: Id, u: Id, e: Id)
    requires Known(F) && Distinct(F.order) && OnlyOut(F, u, e) && PhisFirst(F) && Movable(F, mv) && n in F.order
    requires F.code[n] != Phi
    requires u in F.order && F.code[u] != Phi && e in F.order ==> Before(F.order, e, u)
    ensures InOrder(F, mv, n)
  {
  }

  // Moving u behind e, and what has to follow behind it, puts everything in place.
  lemma MovedInOrder(F: Func, G: Func, mv: map<Id, nat>, n: Id, u: Id, e: Id)
    requires Known(F) && OnlyOut(F, u, e) && PhisFirst(F) && Movable(F, mv) && n in F.order && F.code[n] != Phi
    requires G.operands == F.operands && G.code == F.code && SameMembers(F.order, G.order)
    requires Keeps(F.order, G.order, {e}, mv)
    requires Known(G) && OrderedBut(G, {e}) && Before(G.order, e, u)
    ensures InOrder(G, mv, n)
  {
  }

  // The instructions behind the component that depend on it, and how far each is from the end.
  ghost function Dependents(F: Func, comp: seq<Id>): map<Id, nat>
    requires Known(F)
  {
    map x | x in F.order && x !in comp && F.code[x] != Phi
      && Reaches(F.operands, x, Members(comp)) :: |F.order| - Pos(F.order, x)
  }

  function PhisOf(F: Func): set<Id> { set x | x in F.code && F.code[x] == Phi }

  // A convex component's dependents feed only each other, and no argument of the component is one.
  lemma DependentsMove(F: Func, comp: seq<Id>)
    requires Known(F) && Distinct(F.order) && Topological(F) && forall c :: c in comp ==> c in F.order
    requires Convex(F.operands, PhisOf(F), Members(comp))
    ensures Movable(F, Dependents(F, comp)) && ReadersMove(F, comp, Dependents(F, comp))
    ensures forall c, d :: c in comp && Reads(F.operands, c, d) ==> d !in Dependents(F, comp)
  {
    var mv, C := Dependents(F, comp), Members(comp);
    forall c, d | c in comp && Reads(F.operands, c, d) ensures d !in mv {
      assert !LeavesAndReturns(F.operands, PhisOf(F), C, c, d);
    }
    forall x, u | x in mv && u in F.order && F.code[u] != Phi && Reads(F.operands, u, x)
      ensures u in mv && mv[u] < mv[x]
    {
      ReachesThrough(F.operands, u, x, C);
    }
    forall u, o | u in F.order && F.code[u] != Phi && u !in comp && o in comp && Reads(F.operands, u, o)
      ensures u in mv
    {
      ReachesMember(F.operands, o, C);
      ReachesThrough(F.operands, u, o, C);
    }
  }

  // Taking instructions out leaves the others in order.
  lemma RemovedRelation(B: seq<Id>, x: Id)
    requires Distinct(B) && x in B
    ensures Distinct(Remove(B, x)) && forall y :: y in Remove(B, x) <==> y in B && y != x
    ensures x != Last(B) ==> Remove(B, x) != [] && Last(Remove(B, x)) == Last(B)
    ensures forall a, b :: Before(B, a, b) && a != x && b != x ==> Before(Remove(B, x), a, b)
  {
    Removed(B, x);
  }

  lemma EndInOrder(G: Func, H: Func, comp: seq<Id>, mv: map<Id, nat>, n: Id)
    requires InOrder(G, mv, n) && Known(H) && H.operands == G.operands && H.code == G.code
    requires forall x :: x in H.order <==> x in G.order && x !in comp
    requires forall a, b :: Before(G.order, a, b) && a !in comp && b !in comp ==> Before(H.order, a, b)
    ensures Topological(H) && PhisFirst(H)
  {
  }
}
