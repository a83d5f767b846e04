# Verified models of the simulator's memory system and of the instruction packer

The simulator couples an out-of-order core to a cycle-level DRAM model; a compiler-side tool
outlines groups of instructions into custom instructions. This project models the parts whose
correctness is least obvious, and proves what they are relied on for.

**The DRAM controller and its devices.** The controller keeps a shadow table of every bank and pops
at most one command a cycle; the command reaches the device a cycle later over a one-slot bus; the
device keeps a second table and exits on any command that is illegal there. The two tables are
meant to differ: an auto-precharge leaves the controller at row-active while the device is already
idle, an activate assigns times in the device and takes maxima in the controller, and power-down
and power-up bypass the bus. `DramSafety` states the simulation between them, `DramQueues` and
`DramPop` what a command queue may hold and what a pop may choose, `DramBus` the spacing on the two
data buses, `DramLedger` the conservation of reads and commands, `DramOrder` the order of
accesses, `DramTimers` the refresh and activation-window counters. `DramTheorems` puts them together:
no run reaches an exit.

Other modules say what every run does, in the parameters alone and over the log of its commands.
`DramRules`, `DramDistances` and `DramIntervals` give the distance between any two commands,
`DramReasons` and `DramCounts` that no bank waits longer than that, `DramDevice` what a rank enforces
by itself; `DramFlights`, `DramLatency` and `DramAnswers` give the cycle of every burst and answer,
`DramLines` the data lines all ranks share, `DramRefresh` and `DramServed` when a refresh is sent,
`DramChoice` which command a pop chooses, `DramBudget` how many accesses an open row gets, `DramSplit`
which transaction is split, and `DramPower` which ranks sleep.

`Rank`, `CommandQueue` and `MemoryController` are the objects, updated in
place by the loops of the source and proved to do what the functions of `RankModel`,
`CommandQueueSpec` and `MemorySystemSpec` say; `DramMachine` runs the objects through any run.

**The instruction packer.** `Rewriter` is the block whose instruction list, operands and use lists
`customize` rewrites: a convexity check, an outlined call with packed arguments, redirected uses,
and recursive moves that repair the order of the block. `BlockRepair` follows the order,
`CustomizePlan` the contents, and `PackingMeaning` shows that every surviving operand reads its old
value; `PackingCounts` counts what the rewrite adds. `Knapsack` is the selection of candidates.

**The functional cache.** `CacheSet` is the linked list, the address map and the free list of one
set; `LruSpec` the sequence it implements; `FunctionalCache` the runs of the whole cache.

**Two fast forms.** `FoldedHistory` is the incremental folded branch history against the full fold,
`ClockDomain` the clock crosser against the rounded-up ratio.

Run parameters are those of a valid configuration (`DramTypes.ValidParams`): at least one rank and one
bank, fewer ranks than the largest 32-bit index, every address located within them, a command bus of
one cycle, AL at most tRCD, an even positive burst length, tRP, tRFC, tFAW, the row-access limit and
the write latency at least one, a read-to-precharge delay within the auto-precharge delay, and
1 + tRCD - AL at least half a burst length. The refresh schedule alone also needs `ValidRefresh`: a stagger of
at least one cycle, and no more than one period for all ranks together. The shared data lines alone
also need `ValidLines`: tRTRS at least one, and half a burst length below tRCD - AL. The
rules in numbers alone also need `RulesLast`: with auto-precharge a row takes at least as long to
reopen as the column rules last, and in low-power mode a rank takes at least as long to sleep and
wake as the rules last that waking forgets.
The timing rules are those of JEDEC JESD79-3 (DDR3 SDRAM), sections 4.11, 4.12, 4.15,
4.17 and 13.

## Model

| member | source | states |
|---|---|---|
| DramTheorems.EveryRunIsSafe | sim/DRAMSim2/MemoryController.cpp:156-706 | in every run of requests and cycles, for both page policies, both queue structures, refresh and low-power mode, no error exit or abort of controller or rank is reached, and the invariant holds at the end |
| DramTheorems.UpdateKeeps | sim/DRAMSim2/MemorySystem.cpp:210-239 | one cycle from any state of the invariant succeeds and keeps it |
| DramTheorems.StepKeeps | sim/DRAMSim2/MemoryController.cpp:768-780 | so does accepting or refusing a transaction |
| DramTheorems.InitKeeps | sim/DRAMSim2/MemoryController.cpp:62-111 | the constructors establish the invariant |
| DramTheorems.RunKeeps | sim/DRAMSim2/MemorySystem.cpp:210-239 | any sequence of actions from a good state succeeds and ends in a good state |
| DramResults.ReadsConserved | sim/DRAMSim2/MemoryController.cpp:492-570 | after any run the accepted reads are, address by address, those answered, still whole, queued, on the command bus, in a rank's pipeline or waiting to go up: none lost, none answered twice |
| DramResults.ColumnsConserved | sim/DRAMSim2/CommandQueue.cpp:415-459 | no column access is dropped, whatever activates the open-page path discards |
| DramResults.SameAddressInOrder | sim/DRAMSim2/CommandQueue.cpp:264-297 | accesses to one address are issued in the order their transactions were accepted |
| DramResults.FourActivateWindow | sim/DRAMSim2/CommandQueue.cpp:171-184 | the fifth activate of a rank comes at least tFAW after the first |
| DramResults.RefreshSchedule | sim/DRAMSim2/MemoryController.cpp:264-274 | rank i is asked to refresh in exactly the cycles q(i+1)+kP |
| DramResults.NeverStranded | sim/DRAMSim2/CommandQueue.cpp:131-160 | a queued access still has its own activate directly before it or finds its row open with a fresh budget; queues stay within their depth |
| DramResults.NoBurstOverwritten | sim/DRAMSim2/Rank.cpp:299-342 | no rank replaces a burst still on its read bus |
| DramIntervals.CommandsKeepTheirDistance | sim/DRAMSim2/MemoryController.cpp:303-472 | in every run any two commands are as far apart as the rule between them asks, cut short only by reopening the row or by sleeping and waking; other ranks' accesses bind a row that stays open |
| DramIntervals.RulesInNumbers | sim/DRAMSim2/MemoryController.cpp:303-472 | in every run, between commands of one rank: tRRD, tRC, tRAS, tRCD - AL, tRP, tRFC, tCCD, the turnarounds with tRTRS and tWTR, and read and write to precharge, activate and refresh with tRTP and tWR |
| DramIntervals.RulesLastExactly | sim/DRAMSim2/MemoryController.cpp:594-616 | the condition for that is exact: the controller keeps every rule to its end if and only if reopening, and sleeping and waking, take at least as long |
| DramIntervals.NoNeedlessWait | sim/DRAMSim2/MemoryController.cpp:303-472 | in every run the earliest activate, precharge, read and write of every bank is zero, the end of a rule of a command in the log, or the end of a wake-up |
| DramIntervals.NoNeedlessClosing | sim/DRAMSim2/MemoryController.cpp:159-191 | in every run a bank that closes or refreshes does so for a command in the log, to the cycle that command asks for |
| DramDevice.DeviceEnforces | sim/DRAMSim2/Rank.cpp:94-266 | whatever a rank is sent, of two commands it accepts the second comes after the rule of the first is over, unless an activate of the bank, a refresh or a wake-up between them set the time anew |
| DramAnswers.ReadsAnsweredOnTime | sim/DRAMSim2/Rank.cpp:299-342 | in every run the answers so far are, in order, the addresses of the reads issued in a cycle t with t + CL + AL + BL/2 + 1 past |
| DramAnswers.LinesTaken | sim/DRAMSim2/MemoryController.cpp:205-260 | in every run a burst is on a rank's or the controller's data lines exactly in the BL/2 cycles its command asks for |
| DramRefresh.PopSendsRefresh | sim/DRAMSim2/CommandQueue.cpp:186-248 | a pop sends a refresh if and only if one waits and no bank of its rank is open, too early or powered down |
| DramRefresh.PopMakesWay | sim/DRAMSim2/CommandQueue.cpp:336-402 | while one waits, the first open bank in its way gets the first access queued for its row as soon as that may go, or is closed |
| DramServed.RequestServedIfReady | sim/DRAMSim2/MemoryController.cpp:264-274 | in every run a requested refresh is sent before the next request if and only if its rank is ready in some cycle before that; otherwise the next request replaces it |
| DramServed.RefreshWhenFirstReady | sim/DRAMSim2/CommandQueue.cpp:242-248 | in every run a refresh goes to the rank asked last, in the first cycle since then in which the rank is ready |
| DramChoice.PopChooses | sim/DRAMSim2/CommandQueue.cpp:252-530 | a pop serves the rank waiting for a refresh, or takes the first entry that can go from the queue whose turn comes first, or closes the first row that idles; it sends nothing only when there is nothing of that kind |
| DramChoice.TurnMovesOn | sim/DRAMSim2/CommandQueue.cpp:534-547 | after a command the turn passes to the position after the queue served, with posted accesses after every second one |
| DramBudget.RowBudget | sim/DRAMSim2/CommandQueue.cpp:415-459 | in every run a row gets at most one access more than the configured number before it is closed |
| DramBudget.RoomInWindow | sim/DRAMSim2/CommandQueue.cpp:171-184 | in every run the window admits an activate exactly when the rank has not had four in the last tFAW cycles |
| DramSplit.CycleSplits | sim/DRAMSim2/MemoryController.cpp:492-570 | in every cycle of every run the transaction split is the first whose queue has room for two, its activate and access go behind everything there, and nothing is split only if none has room |
| DramPower.PowerFollowsDemand | sim/DRAMSim2/MemoryController.cpp:575-616 | in every cycle of every run, in low-power mode: a rank that is wanted is down afterwards only if it was and may not wake yet; one that is not wanted is down exactly when all its banks are idle; sleep lasts tCKE and waking tXP on both sides |
| DramPower.WaitsUntilRefreshed | sim/DRAMSim2/MemoryController.cpp:262-279 | in every cycle of every run a rank waits for a refresh if and only if the timer just asked it or it waited before and no refresh has reached it |
| DramLines.OneBurstAtATime | sim/DRAMSim2/MemoryController.cpp:284-472 | in every run at most one burst is on the shared data lines, one rank's read or the controller's write, given a turnaround cycle and a row-to-column delay longer than a burst |
| DramLines.ClearanceExactly | sim/DRAMSim2/MemoryController.cpp:303-472 | those two demands are exact: the bookings keep every usable bank clear of every burst, whatever is issued, if and only if both hold |
| DramLines.UpdateFree | sim/DRAMSim2/MemorySystem.cpp:210-239 | one cycle keeps the bursts of all sources apart, now and for as long as they are on their way |
| DramLines.IssuedApart | sim/DRAMSim2/MemoryController.cpp:284-297 | the burst of a command that is sent stays apart from every burst of every other rank and of the controller |
| DramSafety.IssueSim | sim/DRAMSim2/MemoryController.cpp:303-472 | a legal command keeps the controller's bank ahead of the device's across the bus delay |
| DramSafety.IssueLegal | sim/DRAMSim2/Rank.cpp:94-266 | a command legal for the shadow bank is legal for the device when it arrives |
| DramSafety.CountDownSim | sim/DRAMSim2/MemoryController.cpp:159-191 | the implicit state changes of the shadow table keep the simulation |
| DramSafety.TickRanksSim | sim/DRAMSim2/Rank.cpp:299-342 | a tick of the ranks keeps it |
| DramSafety.CommandBusSim | sim/DRAMSim2/MemoryController.cpp:194-203 | the command that arrives is accepted, and the simulation holds again with an empty bus |
| DramSafety.PopLegal | sim/DRAMSim2/CommandQueue.cpp:625-690 | what a pop chooses is legal for the shadow table |
| DramSafety.PowerMovesLegal | sim/DRAMSim2/Rank.cpp:345-385 | every rank the controller puts down is idle there, every rank it wakes has been down long enough |
| DramSafety.ManagePowerSim | sim/DRAMSim2/MemoryController.cpp:575-616 | the direct power moves keep the simulation although they bypass the bus |
| DramQueues.TakeActivate | sim/DRAMSim2/CommandQueue.cpp:264-297 | taking an activate from a good queue leaves its access alone in front of an open row |
| DramQueues.TakePair | sim/DRAMSim2/CommandQueue.cpp:415-459 | taking an access together with its activate leaves a good queue |
| DramQueues.TakeLone | sim/DRAMSim2/CommandQueue.cpp:343-372 | taking a lone access leaves a good queue |
| DramQueues.AppendPair | sim/DRAMSim2/MemoryController.cpp:513-540 | appending an activate and its access keeps a good queue |
| DramPop.ChooseExplained | sim/DRAMSim2/CommandQueue.cpp:164-555 | every choice is one of six moves, and the activate an open-page pop discards is the one paired with the access it issues |
| DramEdits.EditKeeps | sim/DRAMSim2/CommandQueue.cpp:164-555 | every such move, with its booking in the shadow table, keeps every queue good |
| DramBus.IssuedBuses | sim/DRAMSim2/MemoryController.cpp:284-297 | an issued access keeps bursts on the read and the write bus apart |
| DramBus.SettleEffect | sim/DRAMSim2/MemoryController.cpp:205-260 | no data-bus collision, and only data comes back from a rank |
| DramLedgerSteps.DispatchAccounts | sim/DRAMSim2/MemoryController.cpp:284-490 | issuing a command moves it from the queues to the bus and loses nothing |
| DramLedgerSteps.SplitAccounts | sim/DRAMSim2/MemoryController.cpp:492-570 | splitting a transaction conserves its read and its access |
| DramLedgerSteps.ReturnReadAccounts | sim/DRAMSim2/MemoryController.cpp:661-700 | returned data always finds a pending read of its address |
| DramOrder.DispatchOrder | sim/DRAMSim2/CommandQueue.cpp:485-530 | the access issued is older than every one left for its address |
| DramTimers.RefreshTurn | sim/DRAMSim2/MemoryController.cpp:264-279 | the counters and the round-robin pointer stay in lockstep, and no counter wraps |
| DramTimers.RequestIffDue | sim/DRAMSim2/MemoryController.cpp:702-706 | a counter is zero under the pointer exactly when a refresh is due |
| DramTimers.PopWindows | sim/DRAMSim2/CommandQueue.cpp:549-552 | the activation counters are exactly the activates of the last tFAW cycles, oldest first, so dropping the head suffices |
| CommandQueueSpec.InitQueueShape | sim/DRAMSim2/CommandQueue.cpp:48-109 | the queues the constructor builds, longer lists for later ranks included, have the shape the scans need |
| RoundRobin.PositionNext | sim/DRAMSim2/CommandQueue.cpp:721-756 | one step of the round robin advances the scheduling position by one |
| RoundRobin.WalkReturns | sim/DRAMSim2/CommandQueue.cpp:485-530 | a walk is back at its start after all ranks and banks and not before |
| RoundRobin.ScanReturns | sim/DRAMSim2/CommandQueue.cpp:264-297 | an issue scan is back at its start after one full round and not before |
| RankModel.Rank.ReceiveFromBus | sim/DRAMSim2/Rank.cpp:82-292 | the error exits are exactly the illegal commands; otherwise the new bank table, vectors and flag |
| RankModel.Rank.ReceiveRead | sim/DRAMSim2/Rank.cpp:96-153 | reads, with and without auto-precharge |
| RankModel.Rank.ReceiveWrite | sim/DRAMSim2/Rank.cpp:154-203 | writes, with and without auto-precharge |
| RankModel.Rank.ReceiveActivate | sim/DRAMSim2/Rank.cpp:204-240 | activates: the check, the bank that opens, and tRC or tRRD before the next activate of every bank |
| RankModel.Rank.ReceivePrecharge | sim/DRAMSim2/Rank.cpp:241-253 | precharges |
| RankModel.Rank.ReceiveRefresh | sim/DRAMSim2/Rank.cpp:254-266 | refreshes |
| RankModel.Rank.Update | sim/DRAMSim2/Rank.cpp:299-342 | the read-return pipeline: what goes up and what is left |
| RankModel.Rank.PowerDownRank | sim/DRAMSim2/Rank.cpp:345-361 | power-down, or its exit |
| RankModel.Rank.PowerUpRank | sim/DRAMSim2/Rank.cpp:364-385 | power-up, or its exits |
| CommandQueueObject.CommandQueue.constructor | sim/DRAMSim2/CommandQueue.cpp:48-109 | the initial queues |
| CommandQueueObject.CommandQueue.Enqueue | sim/DRAMSim2/CommandQueue.cpp:131-160 | the packet goes to the back of its queue; the overflow exit exactly when the depth is passed |
| DramRuns.SplitFits | sim/DRAMSim2/CommandQueue.cpp:558-562 | whatever passes the room test, with its unsigned subtraction, fits: splitting the transaction it picks never reaches the overflow exit of a queue |
| DramEdits.ExplainedIsGood | sim/DRAMSim2/CommandQueue.cpp:625-690 | a packet chosen through the issue test may be sent: its bank, and for a refresh every bank of its rank, allows it this cycle |
| CommandQueueObject.CommandQueue.IsEmpty | sim/DRAMSim2/CommandQueue.cpp:693-712 | whether a rank has nothing queued |
| CommandQueueObject.CommandQueue.NeedRefresh | sim/DRAMSim2/CommandQueue.cpp:715-719 | the refresh request |
| CommandQueueObject.CommandQueue.NextIndices | sim/DRAMSim2/CommandQueue.cpp:721-756 | both round-robin policies |
| CommandQueueObject.CommandQueue.TickWindows | sim/DRAMSim2/CommandQueue.cpp:171-184 | the activation-window counters of every rank |
| CommandQueueObject.CommandQueue.SearchQueue | sim/DRAMSim2/CommandQueue.cpp:264-297 | the first entry of a queue that may go, under each policy |
| CommandQueueObject.CommandQueue.HasDependency | sim/DRAMSim2/CommandQueue.cpp:415-459 | whether an earlier access to the same row is queued |
| CommandQueueObject.CommandQueue.FindOffer | sim/DRAMSim2/CommandQueue.cpp:264-297 | the scan stops at the first queue with an entry to offer, or comes back to its start |
| CommandQueueObject.CommandQueue.FindClosable | sim/DRAMSim2/CommandQueue.cpp:485-530 | the search for an idle open row, one full round |
| CommandQueueObject.CommandQueue.IssueRefreshWork | sim/DRAMSim2/CommandQueue.cpp:343-402 | what is sent while a rank waits for its refresh |
| CommandQueueObject.CommandQueue.FinishPop | sim/DRAMSim2/CommandQueue.cpp:534-552 | posted-CAS flag, round robin and activation window after a choice |
| CommandQueueObject.CommandQueue.PopPacket | sim/DRAMSim2/CommandQueue.cpp:164-555 | the packet and the whole new state of a pop |
| MemoryControllerObject.BankTable.CountDownBanks | sim/DRAMSim2/MemoryController.cpp:159-191 | the countdown of every bank |
| MemoryControllerObject.BankTable.UpdateTable | sim/DRAMSim2/MemoryController.cpp:300-472 | the booking of a popped command in every bank of the table |
| MemoryControllerObject.BankTable.PowerRow | sim/DRAMSim2/MemoryController.cpp:594-616 | the booking of a power move |
| MemoryControllerObject.MemoryController.constructor | sim/DRAMSim2/MemoryController.cpp:62-111 | the initial controller, refresh counters staggered |
| MemoryControllerObject.MemoryController.StepRanks | sim/DRAMSim2/MemoryController.cpp:114-135 | ticking the ranks and receiving their data |
| MemoryControllerObject.MemoryController.StepCommandBus | sim/DRAMSim2/MemoryController.cpp:194-203 | the command bus |
| MemoryControllerObject.MemoryController.StepDataBus | sim/DRAMSim2/MemoryController.cpp:205-220 | the data bus |
| MemoryControllerObject.MemoryController.StepWriteData | sim/DRAMSim2/MemoryController.cpp:223-260 | write data going onto the bus, or a collision |
| MemoryControllerObject.MemoryController.StepRefreshTimer | sim/DRAMSim2/MemoryController.cpp:262-279 | refresh requests and wake-ups |
| MemoryControllerObject.MemoryController.StepIssue | sim/DRAMSim2/MemoryController.cpp:284-490 | popping, booking and sending a command |
| MemoryControllerObject.MemoryController.StepSplit | sim/DRAMSim2/MemoryController.cpp:492-570 | splitting the first transaction with room |
| MemoryControllerObject.MemoryController.StepPower | sim/DRAMSim2/MemoryController.cpp:573-616 | power management of every rank |
| MemoryControllerObject.MemoryController.StepReturn | sim/DRAMSim2/MemoryController.cpp:661-700 | returning a finished read |
| MemoryControllerObject.MemoryController.Update | sim/DRAMSim2/MemoryController.cpp:153-706 | a whole cycle on the objects is the cycle of the model, exits included |
| MemoryControllerObject.MemoryController.AddTransaction | sim/DRAMSim2/MemoryController.cpp:768-780 | a transaction is accepted exactly when the queue has room |
| DramMachine.Simulate | sim/DRAMSim2/MemorySystem.cpp:210-239 | the objects go through any run of the model and none of them ever reports an exit |
| Convexity.HasDependencyEndingIn | custom_adaptor/packing.cpp:126-162 | the worklist search answers whether some chain of operands ends in the component |
| Convexity.DfsCheckConvex | custom_adaptor/packing.cpp:165-188 | true only for a component that is not convex, false only when no operand of the instruction leaves it and returns |
| Convexity.CheckConvex | custom_adaptor/packing.cpp:333-340 | the loop over the component decides convexity |
| ComponentAnalysis.IsLaterInBlock | custom_adaptor/packing.cpp:71-95 | the linear scan decides which instruction stands first |
| ComponentAnalysis.FindOutputs | custom_adaptor/packing.cpp:342-369 | the outputs are exactly the component instructions used outside, each once |
| ComponentAnalysis.CollectArgs | custom_adaptor/packing.cpp:371-408 | the arguments are exactly the values the component needs from outside, each once, and the last of them in the block |
| ComponentAnalysis.InsertPoint | custom_adaptor/packing.cpp:585-601 | every argument in the block stands before the call's place, which is behind the phis |
| BlockOrder.MovedRight | custom_adaptor/packing.cpp:100-104 | where every instruction stands after one is moved |
| BlockRepair.MovedRelation | custom_adaptor/packing.cpp:97-124 | a move takes only the moved instruction out of the way |
| BlockRepair.DependentsMove | custom_adaptor/packing.cpp:333-340 | in a convex component's block the instructions that may move feed only each other and are no arguments of the call |
| RewriterObject.Rewriter.MoveInstructionAfter | custom_adaptor/packing.cpp:97-124 | the recursion ends, puts every use of what it moved behind it again, and moves nothing else |
| RewriterObject.Rewriter.SetOperand | custom_adaptor/packing.cpp:638-654 | redirecting one use keeps operands and use lists consistent |
| RewriterObject.Rewriter.DetachArguments | custom_adaptor/packing.cpp:522-533 | the component's operands become formal arguments, nothing else changes |
| RewriterObject.Rewriter.CreateCall | custom_adaptor/packing.cpp:603-624 | packing calls and the call, each before the insertion point and behind its operands; how many there are and what the call reads, in numbers |
| RewriterObject.Rewriter.RedirectUsesOf | custom_adaptor/packing.cpp:638-690 | every listed use outside the component reads the stand-in and no other operand changes; the block is in order again |
| RewriterObject.Rewriter.RedirectOutput | custom_adaptor/packing.cpp:633-690 | one more output is redirected everywhere outside the component, measured against the block before the rewrite |
| RewriterObject.Rewriter.RemoveComponent | custom_adaptor/packing.cpp:698-702 | the component leaves the block, the rest keeps its order |
| RewriterObject.Rewriter.CustomizeOne | custom_adaptor/packing.cpp:330-727 | one component: nothing happens exactly when it is not convex; otherwise the block is the rewritten one, in topological order, phis first, its terminator still last, and the packing calls are those the number of arguments and outputs asks for |
| RewriterObject.Rewriter.Customize | custom_adaptor/packing.cpp:302-727 | the loop: after any list of disjoint components the block is in topological order, phis first, its terminator still last, and every instruction in none of them reads its old operand values and computes its old value |
| CustomizePlan.PlanIsWell | custom_adaptor/packing.cpp:410-444 | the plan lists inputs, outputs, structs and result kind as the source computes them |
| CustomizePlan.Finished | custom_adaptor/packing.cpp:585-702 | with every output redirected and the component removed the block is the rewritten one |
| CustomizePlan.UsesAreOriginal | custom_adaptor/packing.cpp:638-648 | the uses found for an output are those it had before anything was rewritten |
| CustomizePlan.OutputRedirected | custom_adaptor/packing.cpp:638-690 | with all its uses redirected the contents are those of the rewrite with one more output done |
| PackingCounts.CountedFrom | custom_adaptor/packing.cpp:433-624 | in numbers: with at most four arguments and outputs no packing call is added and the call reads the arguments; otherwise exactly as many as structs of T fields hold the arguments, none wider, and the call reads those |
| PackingIR.RunSolves | custom_adaptor/packing.cpp:97-124 | running a block in topological order solves its equations |
| PackingIR.SolutionUnique | custom_adaptor/packing.cpp:97-124 | and they have no other solution, so the order of the moved instructions cannot matter |
| PackingMeaning.RoundTrip | custom_adaptor/packing.cpp:501-583 | for every threshold at least one, unpacking the structs gives back the arguments |
| PackingMeaning.BodyResult | custom_adaptor/packing.cpp:704-726 | the outlined function returns the component's old results |
| PackingMeaning.NewSolution | custom_adaptor/packing.cpp:585-702 | the old values, with the packs, the call and the extracts added, solve the rewritten block |
| PackingMeaning.MeaningPreserved | custom_adaptor/packing.cpp:330-727 | for every meaning of the operators, every surviving instruction reads its old operand values and computes its old value |
| PackingMeaning.RewriteKeepsMeaning | custom_adaptor/packing.cpp:330-727 | one rewrite keeps the meaning of everything but its component |
| CustomizePlan.OthersStayReady | custom_adaptor/packing.cpp:314-331 | outlining one component leaves every other, disjoint one ready to be outlined |
| Knapsack.Knapsack01WithItems | custom_adaptor/packing.cpp:729-774 | the value is the maximum over all selections within the capacity, and the items returned are such a selection |
| Knapsack.BestIsUpperBound | custom_adaptor/packing.cpp:735-760 | no selection that fits is worth more than the table says |
| Knapsack.RecoveredIsBest | custom_adaptor/packing.cpp:762-773 | the items read back fit and are worth exactly that |
| CacheSetObject.CacheSet.constructor | sim/src/mem/FunctionalCache.cpp:4-23 | an empty set |
| CacheSetObject.CacheSet.DeleteNode | sim/src/mem/FunctionalCache.cpp:214-218 | unlinking a line keeps the rest of the list |
| CacheSetObject.CacheSet.InsertFront | sim/src/mem/FunctionalCache.cpp:169-175 | linking a line in front |
| CacheSetObject.CacheSet.Access | sim/src/mem/FunctionalCache.cpp:32-58 | a hit moves its line to the front, a miss changes nothing |
| CacheSetObject.CacheSet.Invalidate | sim/src/mem/FunctionalCache.cpp:60-81 | the line goes to the free list, its dirtiness is returned |
| CacheSetObject.CacheSet.Insert | sim/src/mem/FunctionalCache.cpp:83-139 | any tag: the new line is first, a full set evicts exactly its last line, and list and map agree again if and only if no line that stays has the tag |
| CacheSetObject.CacheSet.Evict | sim/src/mem/FunctionalCache.cpp:141-162 | the named line goes if it is there |
| CacheSetObject.CacheSet.IsPresent | sim/src/mem/FunctionalCache.cpp:164-167 | the map knows exactly the listed lines |
| FunctionalCache.RunByRecency | sim/src/mem/FunctionalCache.cpp:32-139 | after any run of allowed operations every set lists its lines by last touch, each remembering where it was touched |
| FunctionalCache.DirtyIffStored | sim/src/mem/FunctionalCache.cpp:32-139 | in every run a listed line is dirty if and only if some access or insertion since its last insertion, that one included, was a store, and it names the node that touched it last |
| FunctionalCache.EvictsLeastRecent | sim/src/mem/FunctionalCache.cpp:266-287 | with an index or offset bit, in every run: the line evicted was touched longest ago, and the address reported for it is the last address that touched it |
| FunctionalCache.ReportedExactly | sim/src/mem/FunctionalCache.cpp:271-283 | a line filed under an address is reported as that address if and only if there is an index or offset bit, or the address is not all ones (zero, if the undefined shift wraps) |
| AddressBits.ExtractIs | sim/src/mem/FunctionalCache.cpp:231-240 | the mask and shift of two defined bounds cut out the bit field between them |
| AddressBits.ExtractTopIs | sim/src/mem/FunctionalCache.cpp:231-240 | the tag is the quotient by set and line size whatever the shift by the word width gives, when an index or offset bit exists |
| AddressBits.TagIsDefined | sim/src/mem/FunctionalCache.cpp:231-240 | and it depends on that undefined shift exactly when none exists |
| AddressBits.RecomposedAddress | sim/src/mem/FunctionalCache.cpp:278-282 | tag, set and offset put the address together again |
| FoldedHistory.FoldShift | sim/include/tage/tage.h:28-64 | shifting the history rotates the full fold, adds one bit and cancels one |
| FoldedHistory.RotationFolds | sim/include/tage/tage.h:56-63 | the incremental update of the word is the full fold of the new history |
| FoldedHistory.CompressedHist.UpdateCompHist | sim/include/tage/tage.h:28-64 | the update in place |
| FoldedHistory.Predictor.UpdateHistory | sim/src/tage/tage.cpp:447-461 | after any branches all twelve folds are full folds of the last outcomes they look at |
| FoldedHistory.Predictor.constructor | sim/src/tage/tage.cpp:75-141 | the initial register and folds |
| ClockDomain.ClockDomainCrosser.Update | sim/DRAMSim2/ClockDomain.cpp:59-88 | the loop ends, and however the counters were reset the callbacks so far are the rounded-up ratio |
| ClockDomain.Drive | sim/DRAMSim2/ClockDomain.cpp:59-88 | n updates make ceil(n*clock1/clock2) callbacks |

## Left out

- The column field of a packet, data payloads and `Bank` storage: no decision reads them.
- Address mapping is the parameter `locate`; the seven schemes are not modelled.
- Clocks and times are unbounded integers; a 64-bit cycle count does not wrap in a run.
- Counters that the source decrements are 32-bit and wrap at zero in the model; with `ValidRefresh` refresh counters never wrap (`DramTimers.RefreshTurn`).
- A command bus of more than one cycle: tCMD is one.
- DramServed.RequestServedIfReady: how long a rank takes to become ready is not bounded; the next request replaces one whose rank has not been.
- DramDevice.DeviceEnforces: refreshes are exempt, since a rank looks only at the state of its banks when it takes one.
- DramLines.OneBurstAtATime: the two demands are shown exact for the booking rule, and no run with two bursts at once is exhibited.
- `MemorySystem::pendingTransactions`, whose entries direct additions can overtake.
- Statistics, energy, histograms and printing.
- Transactions carry an acceptance number in the model; nothing decides by it.
- CommandQueueObject.CommandQueue.PopPacket: asks that every queued packet is routed to its own queue, which every reachable state satisfies (`DramMachine.QueuesRouted`).
- DramChoice.PopChooses: asks the same, and so do the other two statements on a single pop, `TurnMovesOn` and `DramRefresh.PopMakesWay`.
- RewriterObject.Rewriter.Customize: the components are given; `removeCycle`, which picks them, and the calls that create LLVM functions and metadata are not modelled.
- RewriterObject.Rewriter.Customize: all components lie in one block; each is pure code of it, without phis or the terminator, in program order, and not yet outlined; block names are taken as distinct, since the source compares blocks by name.
- PackingMeaning.MeaningPreserved: instructions are pure, as the rewriter tracks data dependencies only; a pointer to a packed struct is the struct, since nobody writes it again.
- Knapsack.Knapsack01WithItems: values are real numbers, not rounded; capacity and weights are non-negative.
- CacheSetObject.CacheSet.Insert: `insertByNumAccesses`, `RRIP` and their counters are unused and left out.
- FunctionalCache.RunByRecency: a run ends where an insertion would leave two lines of one tag in a set (`CacheSet.Insert` says when), or where an absent line is invalidated, which the source asserts against.
- FunctionalCache.EvictsLeastRecent: the cache as a whole is a sequence of sets, each refined by the set object; the reported address is a number, not its reading as a signed word.
- AddressBits.TagIsDefined: of the shift by the full word width, which the language leaves undefined, two outcomes are modelled, 0 and 1.
- FoldedHistory.CompressedHist.UpdateCompHist: words are sequences of bits.
- Predictor tables, counters and allocation.
- ClockDomain.ClockDomainCrosser.Update: the callback is present; the constructor from a floating ratio is not modelled.
- The MSHR, load/store queue, issue unit, reorder buffer and token-dataflow unit.
