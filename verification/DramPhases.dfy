/** The states one cycle goes through, and what each of its phases leaves alone. */
module DramPhases {
  import opened Basics
  import opened DramTypes
  import opened CommandQueueSpec
  import opened MemorySystemSpec
  import opened DramBus
  import opened DramRuns

  // The states between the phases of a cycle that ends in u.
  lemma CycleStates(P: Params, s: System, u: System)
    returns (s1: System, s2: System, s3: System, s4: System, s5: System, s6: System)
    requires ValidParams(P) && Shape(P, s) && Update(P, s) == Ok(u)
    ensures Settle(P, s) == Ok(s1) && Shape(P, s1) && s2 == RefreshTimer(P, s1) && Shape(P, s2)
    ensures IssueCommand(P, s2) == Ok(s3) && Shape(P, s3) && SplitTransaction(P, s3) == Ok(s4) && Shape(P, s4)
    ensures ManagePower(P, s4) == Ok(s5) && Shape(P, s5) && ReturnRead(P, s5) == Ok(s6) && Shape(P, s6)
    ensures u == EndCycle(P, s6)
  {
    s1 := Settle(P, s).value;
    s2 := RefreshTimer(P, s1);
    s3 := IssueCommand(P, s2).value;
    s4 := SplitTransaction(P, s3).value;
    s5 := ManagePower(P, s4).value;
    s6 := ReturnRead(P, s5).value;
  }

  lemma CommandFrame(P: Params, s: System)
    requires ValidParams(P) && Shape(P, s)
    ensures var o := CommandBus(P, s);
            o.Ok? ==>
              && o.value.mc == s.mc.(cmd := o.value.mc.cmd, cmdCyclesLeft := o.value.mc.cmdCyclesLeft)
              && o.value.now == s.now && o.value.log == s.log
  {
  }

  // The states between the phases of settling, and what they leave alone.
  lemma SettlePhases(P: Params, s: System, u: System) returns (s0: System, s1: System)
    requires ValidParams(P) && Shape(P, s) && Settle(P, s) == Ok(u)
    ensures TickRanks(P, s) == Ok(s0) && CommandBus(P, CountDown(P, s0)) == Ok(s1)
    ensures SendWriteData(P, DataBus(P, s1)) == Ok(u)
    ensures Shape(P, s0) && Shape(P, s1)
    ensures s0.mc == s.mc.(readData := s0.mc.readData) && u.ranks == s1.ranks && u.mc.cmd == s1.mc.cmd
    ensures s1.mc.writeCountdowns == s.mc.writeCountdowns && s1.mc.data == s.mc.data
    ensures s1.mc.dataCyclesLeft == s.mc.dataCyclesLeft && s1.mc.writePackets == s.mc.writePackets
    ensures s0.now == s.now && s1.now == s.now && u.now == s.now && u.log == s.log
  {
    s0 := TickRanks(P, s).value;
    s1 := CommandBus(P, CountDown(P, s0)).value;
    CommandFrame(P, CountDown(P, s0));
    WritesFrame(P, s1);
  }

  // What settling the buses leaves of the controller.
  lemma SettleFrame(P: Params, s: System, u: System)
    requires ValidParams(P) && Shape(P, s) && Settle(P, s) == Ok(u)
    ensures u.now == s.now && u.log == s.log && u.mc.table == CountDownTable(P, s.mc.table)
    ensures u.mc.queue == s.mc.queue && u.mc.powerDown == s.mc.powerDown && u.mc.transactions == s.mc.transactions
    ensures u.mc.refreshCountdown == s.mc.refreshCountdown && u.mc.refreshRank == s.mc.refreshRank
    ensures u.mc.pendingReads == s.mc.pendingReads
  {
    var s0, s1 := SettlePhases(P, s, u);
    CommandFrame(P, CountDown(P, s0));
    WritesFrame(P, s1);
  }

  lemma RefreshFrame(P: Params, s: System)
    requires ValidParams(P) && Shape(P, s)
    ensures var u := RefreshTimer(P, s);
            && u.now == s.now && u.log == s.log && u.mc.table == s.mc.table && u.mc.cmd == s.mc.cmd
            && u.mc.powerDown == s.mc.powerDown && u.mc.transactions == s.mc.transactions
            && u.mc.queue == s.mc.queue.(refreshRank := u.mc.queue.refreshRank,
                                         refreshWaiting := u.mc.queue.refreshWaiting)
  {
  }

  // Whatever is popped: it is booked, logged and put on the bus, and nothing else happens.
  lemma IssueFrame(P: Params, s: System, u: System)
    requires ValidParams(P) && Shape(P, s) && IssueCommand(P, s) == Ok(u)
    ensures var c := Pop(P, s.mc.table, s.mc.queue, s.now);
            && u.now == s.now && u.ranks == s.ranks && u.mc.queue == c.queue
            && u.log == s.log.(issued := if c.packet.Some? then s.log.issued + [Issue(s.now, c.packet.value)]
                                         else s.log.issued)
            && u.mc.table == (if c.packet.Some? then IssueTable(P, c.packet.value, s.mc.table, s.now) else s.mc.table)
            && u.mc.cmd == (if c.packet.Some? then c.packet else s.mc.cmd)
            && u.mc.powerDown == s.mc.powerDown && u.mc.transactions == s.mc.transactions
            && u.mc.readData == s.mc.readData && u.mc.pendingReads == s.mc.pendingReads
  {
  }

  lemma SplitFrames(P: Params, s: System, u: System)
    requires ValidParams(P) && Shape(P, s) && SplitTransaction(P, s) == Ok(u)
    ensures u.now == s.now && u.ranks == s.ranks && u.log == s.log
    ensures u.mc == s.mc.(transactions := u.mc.transactions, queue := u.mc.queue, pendingReads := u.mc.pendingReads)
    ensures u.mc.queue == s.mc.queue.(queues := u.mc.queue.queues)
  {
  }

  lemma PowerFrame(P: Params, s: System, u: System)
    requires ValidParams(P) && Shape(P, s) && ManagePower(P, s) == Ok(u)
    ensures u.now == s.now && u.log == s.log
    ensures u.mc == s.mc.(table := u.mc.table, powerDown := u.mc.powerDown)
  {
  }

  lemma ReturnFrame(P: Params, s: System, u: System)
    requires ValidParams(P) && Shape(P, s) && ReturnRead(P, s) == Ok(u)
    ensures u == s.(mc := u.mc, log := u.log) && u.log == s.log.(returned := u.log.returned)
    ensures u.mc == s.mc.(pendingReads := u.mc.pendingReads, readData := u.mc.readData)
  {
  }

  lemma SplitDevices(P: Params, s: System, u: System)
    requires ValidParams(P) && Shape(P, s) && SplitTransaction(P, s) == Ok(u)
    ensures SameDevices(P, s, u)
  {
  }

  lemma ReturnDevices(P: Params, s: System, u: System)
    requires ValidParams(P) && Shape(P, s) && ReturnRead(P, s) == Ok(u)
    ensures SameDevices(P, s, u)
  {
  }

  lemma NothingDispatched(P: Params, s: System, c: Popped, u: System)
    requires ValidParams(P) && Shape(P, s) && Shape(P, u) && QueueShape(P, c.queue) && c.packet.None?
    requires Dispatch(P, s, c) == Ok(u)
    ensures SameDevices(P, s, u)
  {
  }
}
