/** The objects put together, driven through any run. */
module DramMachine {
  import opened DramTypes
  import opened RankModel
  import opened CommandQueueSpec
  import opened MemorySystemSpec
  import opened MemoryControllerObject
  import opened DramTheorems

  method BuildRanks(P: Params) returns (ranks: seq<Rank>)
    requires ValidParams(P)
    ensures RanksValid(P, ranks, 0) && StatesOf(ranks) == seq(P.ranks, r => InitRank(P))
    ensures fresh(ranks) && fresh(ArraysOf(ranks))
  {
    ranks := [];
    for i := 0 to P.ranks
      invariant |ranks| == i && Apart(ranks) && fresh(ranks) && fresh(ArraysOf(ranks))
      invariant forall k :: 0 <= k < i ==>
        ranks[k].Valid() && ranks[k].P == P && ranks[k].currentClockCycle == 0 && ranks[k].State() == InitRank(P)
    {
      var rank := new Rank(P);
      assert ArraysOf(ranks + [rank]) == ArraysOf(ranks) + {rank.bankStates};
      ranks := ranks + [rank];
    }
  }

  // From any state the invariant allows, no method ever reports one of the exits of the source.
  method Perform(mc: MemoryController, a: Action)
    requires mc.Valid() && Inv(mc.P, mc.State())
    modifies mc, mc.table.cells, mc.commandQueue, mc.ranks, ArraysOf(mc.ranks)
    ensures mc.Valid() && Step(mc.P, old(mc.State()), a) == Ok(mc.State()) && Inv(mc.P, mc.State())
  {
    ghost var u := StepKeeps(mc.P, mc.State(), a);
    match a {
      case Request(isRead, address) =>
        var accepted := mc.AddTransaction(isRead, address);
      case Cycle =>
        QueuesRouted(mc.P, mc.State());
        var ok := mc.Update();
        assert ok;
    }
  }

  lemma QueuesRouted(P: Params, s: System)
    requires ValidParams(P) && Shape(P, s) && Inv(P, s)
    ensures Routed(P, s.mc.queue)
  {
  }

  // The objects go through every run of the model, exit-free.
  method Simulate(P: Params, actions: seq<Action>) returns (mc: MemoryController)
    requires ValidParams(P)
    ensures mc.Valid() && mc.P == P && Run(P, actions) == Ok(mc.State())
  {
    var ranks := BuildRanks(P);
    mc := new MemoryController(P, ranks);
    InitKeeps(P);
    assert actions[0..] == actions;
    for i := 0 to |actions|
      invariant fresh(mc) && fresh(mc.table.cells) && fresh(mc.commandQueue) && fresh(mc.ranks)
      invariant fresh(ArraysOf(mc.ranks))
      invariant mc.P == P && mc.Valid() && Inv(P, mc.State())
      invariant RunFrom(P, mc.State(), actions[i..]) == Run(P, actions)
    {
      ghost var s := mc.State();
      Perform(mc, actions[i]);
      RunUnfold(P, s, actions[i..], mc.State());
      assert actions[i..][1..] == actions[i + 1..];
    }
  }
}
