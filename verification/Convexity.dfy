/** The check that a component can be contracted: no dependency leaves it and comes back. */
module Convexity {
  import opened Basics
  import opened BlockOrder
  import opened PackingIR

  type Graph = map<Id, seq<Value>>

  // A chain of at most n operands leads from x into C.
  ghost predicate ReachesIn(G: Graph, x: Id, C: set<Id>, n: nat)
    decreases n
  {
    x in C || (n > 0 && exists d: Id :: Reads(G, x, d) && ReachesIn(G, d, C, n - 1))
  }

  ghost predicate Reaches(G: Graph, x: Id, C: set<Id>)
  {
    exists n: nat :: ReachesIn(G, x, C, n)
  }

  lemma ReachesMember(G: Graph, x: Id, C: set<Id>)
    requires x in C
    ensures Reaches(G, x, C)
  {
    assert ReachesIn(G, x, C, 0);
  }

  lemma ReachesThrough(G: Graph, x: Id, d: Id, C: set<Id>)
    requires Reads(G, x, d) && Reaches(G, d, C)
    ensures Reaches(G, x, C)
  {
    var n: nat :| ReachesIn(G, d, C, n);
    assert ReachesIn(G, x, C, n + 1);
  }

  // Operand d of component instruction c lies outside and depends on the component.
  ghost predicate LeavesAndReturns(G: Graph, phis: set<Id>, C: set<Id>, c: Id, d: Id)
  {
    Reads(G, c, d) && d !in C && d !in phis && Reaches(G, d, C)
  }

  ghost predicate Convex(G: Graph, phis: set<Id>, C: set<Id>)
  {
    forall c: Id, d: Id :: c in C ==> !LeavesAndReturns(G, phis, C, c, d)
  }

  // Everything an explored set leads to is explored or still on the worklist.
  ghost predicate Explored(G: Graph, visited: set<Id>, worklist: seq<Id>)
  {
    forall x: Id, d: Id :: x in visited && Reads(G, x, d) ==> d in visited || d in worklist
  }

  lemma {:induction false} ClosedAvoids(G: Graph, visited: set<Id>, C: set<Id>, x: Id, n: nat)
    requires Explored(G, visited, []) && visited !! C && x in visited
    ensures !ReachesIn(G, x, C, n)
    decreases n
  {
    if n > 0 {
      forall d: Id | Reads(G, x, d) ensures !ReachesIn(G, d, C, n - 1) {
        ClosedAvoids(G, visited, C, d, n - 1);
      }
    }
  }

  ghost function Below(n: nat): (r: set<Id>)
    ensures forall x: Id :: x in r <==> x < n
  {
    if n == 0 then {} else Below(n - 1) + {n - 1}
  }

  // `hasDependencyEndingInVector`: a depth-first search with an explicit stack.
  method HasDependencyEndingIn(G: Graph, inst: Id, C: set<Id>, limit: nat) returns (found: bool)
    requires inst < limit && forall x: Id, d: Id :: Reads(G, x, d) ==> d < limit
    ensures found == Reaches(G, inst, C)
  {
    var worklist, visited := [inst], {};
    ghost var all := Below(limit);
    while worklist != []
      invariant visited !! C && visited <= all && forall x: Id :: x in worklist ==> x in all
      invariant Explored(G, visited, worklist) && (inst in visited || inst in worklist)
      invariant forall x :: x in worklist && Reaches(G, x, C) ==> Reaches(G, inst, C)
      decreases |all - visited|, |worklist|
    {
      var current := worklist[|worklist| - 1];
      ghost var before := worklist;
      worklist := worklist[..|worklist| - 1];
      assert before == worklist + [current];
      if current !in visited {
        if current in C {
          ReachesMember(G, current, C);
          return true;
        }
        Fewer(all, visited, current);
        ghost var seen := visited;
        visited := visited + {current};
        worklist := PushOperands(G, C, inst, current, visited, worklist);
      }
    }
    forall n: nat ensures !ReachesIn(G, inst, C, n) { ClosedAvoids(G, visited, C, inst, n); }
    found := false;
  }

  lemma Fewer(all: set<Id>, visited: set<Id>, x: Id)
    requires x in all && x !in visited
    ensures |all - (visited + {x})| < |all - visited|
  {
    assert all - visited == (all - (visited + {x})) + {x};
  }

  method PushOperands(G: Graph, C: set<Id>, inst: Id, current: Id, visited: set<Id>, before: seq<Id>)
    returns (worklist: seq<Id>)
    requires Reaches(G, current, C) ==> Reaches(G, inst, C)
    requires forall x :: x in before && Reaches(G, x, C) ==> Reaches(G, inst, C)
    requires forall x: Id, d: Id :: x in visited && x != current && Reads(G, x, d) ==> d in visited || d in before
    ensures before <= worklist && Explored(G, visited, worklist)
    ensures forall x :: x in worklist ==> x in before || Reads(G, current, x)
    ensures forall x :: x in worklist && Reaches(G, x, C) ==> Reaches(G, inst, C)
  {
    worklist := before;
    if current in G {
      var ops := G[current];
      for i := 0 to |ops|
        invariant before <= worklist
        invariant forall x :: x in worklist ==> x in before || Reads(G, current, x)
        invariant forall k :: 0 <= k < i && ops[k].Insn? ==> ops[k].id in visited || ops[k].id in worklist
      {
        if ops[i].Insn? && ops[i].id !in visited { worklist := worklist + [ops[i].id]; }
      }
      forall d | Reads(G, current, d) ensures d in visited || d in worklist {
        var k :| 0 <= k < |ops| && ops[k] == Insn(d);
      }
    }
    forall x | x in worklist && Reaches(G, x, C) ensures Reaches(G, inst, C) {
      if x !in before { ReachesThrough(G, current, x, C); }
    }
  }

  // The component as the rewriter sees it: its instructions in program order.
  ghost predicate InProgramOrder(G: Graph, comp: seq<Id>)
  {
    Distinct(comp) && forall i, j :: 0 <= i < |comp| && 0 <= j < |comp| && Reads(G, comp[i], comp[j]) ==> j < i
  }

  function Members(comp: seq<Id>): set<Id> { set x | x in comp }

  // `dfsCheckConvex`, true for a dependency that leaves the component and comes back.
  method DfsCheckConvex(G: Graph, phis: set<Id>, comp: seq<Id>, i: nat, limit: nat) returns (bad: bool)
    requires InProgramOrder(G, comp) && i < |comp| && forall x: Id, d: Id :: Reads(G, x, d) ==> d < limit
    ensures bad ==> !Convex(G, phis, Members(comp))
    ensures !bad ==> forall d: Id :: !LeavesAndReturns(G, phis, Members(comp), comp[i], d)
    decreases i
  {
    bad := false;
    if comp[i] !in G { return; }
    var ops, C := G[comp[i]], Members(comp);
    for k := 0 to |ops|
      invariant bad ==> !Convex(G, phis, C)
      invariant forall j :: 0 <= j < k && ops[j].Insn? ==> !LeavesAndReturns(G, phis, C, comp[i], ops[j].id)
    {
      if ops[k].Insn? {
        var d := ops[k].id;
        assert Reads(G, comp[i], d);
        if d !in C {
          if d !in phis {
            var back := HasDependencyEndingIn(G, d, C, limit);
            if back {
              assert LeavesAndReturns(G, phis, C, comp[i], d);
              return true;
            }
          }
        } else {
          var inner := DfsCheckConvex(G, phis, comp, Pos(comp, d), limit);
          bad := bad || inner;
        }
      }
    }
  }

  // The loop of `customize` over the whole component.
  method CheckConvex(G: Graph, phis: set<Id>, comp: seq<Id>, limit: nat) returns (convex: bool)
    requires InProgramOrder(G, comp) && forall x: Id, d: Id :: Reads(G, x, d) ==> d < limit
    ensures convex == Convex(G, phis, Members(comp))
  {
    var nonConvex := false;
    for i := 0 to |comp|
      invariant nonConvex ==> !Convex(G, phis, Members(comp))
      invariant !nonConvex ==> forall j: nat, d: Id :: j < i ==> !LeavesAndReturns(G, phis, Members(comp), comp[j], d)
    {
      var bad := DfsCheckConvex(G, phis, comp, i, limit);
      nonConvex := nonConvex || bad;
    }
    convex := !nonConvex;
  }
}
