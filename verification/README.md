# Hybrid-memory remapping: a Dafny model

This project models the parts of a hybrid-memory simulator whose correctness spans whole runs, and
proves what they keep: the engines that remap pages and lines between fast and slow memory, the
unit that moves their data while processor requests keep arriving, and the DRAM timing tree with
the request controller above it. `dafny verify dfyconfig.toml` checks everything.

Code that changes tables, buffers and queues in place is modelled twice: as functions on values
that say what one operation does, and as a class whose methods, with the loops of the source, are
proved equal to those functions. The invariants and run properties are lemmas about the functions.

## The modules

**Variable-granularity placement** (`PlacementEntry`, `MigrationPlan`, `PlanOutcomes`,
`VariableGranularity`, `AccessRequests`, `PlacementRuns`, `PageHeat`, `PlacementFailures`). A set
has up to five groups packed end to end in a fast page of 64 lines; a group says which lines of a
slow page have traded places with which fast lines. The options are flexible placement, flexible
granularity and eviction on, immediate eviction off. An entry is the sequence of its live groups: no
slot at or behind the cursor is ever read. The main results are exact. A move into fast memory
changes translation by exactly the exchange of its two intervals if and only if the interval
overlaps no group of the page and, when it extends a group, leaves no gap; an eviction does so if
and only if no other group claims a line of the evicted one. Over a whole run every physical line
keeps its value when every completed request is sound in this sense, and at every point of any run
the next completion keeps all values if and only if its request is. Unsound requests are reachable.
The planner can move the end of an interval over a group it has already examined, it can move the
front past a group and then grow the last group back over it, and it clamps a size after it has
fixed the end the start is computed from; and a move carried out over a group leaves two groups that
claim one line, so that calling the first of them home loses a value as well. `PlacementFailures`
has a run from empty tables for each of the four, in the order in which the program counts, cools
and completes. Whether a plan is sound is decided, whatever groups the page has, by `Keeps`, a
condition on the entry and the lines that are wanted (`PlanSound`); for a page with one group it
comes down to growing for no more lines than are left. `PlanOutcomes` says when a plan is a hit, an
eviction or a move, and of which lines, and `AccessRequests` which requests an access adds to the
queue: what a plan asks for, the eviction of the group that occupies an accessed fast line, or the
groups of a cold page. Over whole runs counters, hot bits and accessed lines are told by the
accesses and cycles alone (`PageHeat`). The branch the source calls case two of an interval to the
left of a group cannot be reached, because the guard of case one already covers it.

**Swapping unit** (`SwappingUnit`, `SwappingInvariants`, `SwappingRuns`, `SwappingMachine`,
`MemoryExchange`). A buffer of 64 entries exchanges two segments of memory lines. In every round
the memory accepts or refuses each send as it likes, answers to reads arrive in any order, and
processor writes are absorbed, which un-finishes entries. `orig1`, `orig2`, `log` and `flushed`
record history: the lines as they joined the swap, the absorbed writes, and how many of these a
line in memory contains. Results are about hardware lines: a read served from the buffer returns
what the line is to hold after the swap. Completion does not test the dirty flag, so it is exact
with a condition: the line is right unless, before the final round, it is dirty with a word other
than the one in memory and either its entry is finished already or the memory refuses its
write-back in that round (`LeftBehind`); `DirtyWordLost` is a run in which a word is lost.
`MemoryExchange` joins this with the placement: a swap of a request's segments, under any processor
writes, carries out the exchange the tables assume, with what the processor wrote on top.

**The whole machine** (`SwappingValues`, `HybridMemory`, `StrayStores`, `HybridMachine`). Remapper and
swapping unit step together, as one cycle of the memory controller does: cooling, a round of the
unit on the oldest request, and the tables when a swap has ended. The unit stays on that request
however it grows, and after every cycle it carries exactly that request. Over whole runs a physical
line holds what the stores that landed on it have made of it (`RunHolds`), as long as the swaps that
end are for sound requests and leave no word of the line behind; given a sound request, a line keeps
its value through a cycle if and only if no word of it is left behind. The tables keep the old
translation until a swap has ended, while the buffer already stands for the new one: a store
reaches its own line if and only if that line is not being swapped, and during its swap loads and
stores go to the line it trades places with (`LoadShows`, `StoreOwn`; `StoreStrays` is a run).

**DRAM timing** (`DramTree`, `DramTiming`, `DramNodes`). The tree keeps, per node, the earliest
clock of each command and a bounded history. Spec tables are arbitrary; sibling entries have
distance one, as the source asserts. The check passes if and only if no constraint from the whole
run forbids the command at any node in its scope, and it agrees with the iterative bound.

**Controller** (`Controller`, `ControllerInvariants`, `ControllerIssue`, `ControllerMode`,
`ControllerMachine`). Queues, write mode and the order of one clock. Scheduler picks, first commands,
refreshes and speculative precharges come from an arbitrary oracle in every clock, so the results
hold for any policy. Read latency is at least one. `ControllerIssue` says which queue a clock
serves and what the issue does to it, and gives for every run the clock in which each read that waits
for data is called back.

**History-based page remapper** (`HistoryRemap`, `HistoryPlanning`, `HistoryCompleteness`,
`HistoryCounts`, `HistoryReach`, `HistoryMachine`). Hot-page choice, the two planning passes at an
epoch's end and at a garbage collection with unmarked pages, and carrying out the queue. The
program's error exits are an explicit outcome. A collection drops a plan that is still queued, an
epoch does not: `StalePlanExact` says for every queue exactly when carrying out an epoch's plan goes
through. The second pass meets the untouched pages of the first again and drops a hot page with each
repeated request; `PlanExact` says exactly when a plan leaves out a hot page although a candidate is
left, a full queue included. `EpochMoves`, `GcMoves` and `CollectionMoves` say which pages trade
places. `HistoryCounts` tells counters and flags of a run by its accesses. `StalePlanStops` and
`SecondPassDrops` are such plans, and `HistoryReach` has the runs that lead there.

**CAMEO line location table** (`Cameo`, `CameoPacked`, `CameoMachine`). The array form for any
number of slots, with counters and hot bits told by the accesses of a run, and the packed
sixteen-bit form, proved to take the same steps. Total capacity is a multiple of fast capacity with
at most one member per slot.

**MemPod's counter** (`MeaCounter`). Sixteen counters that saturate at five, with the accounting of
every update since the last reset.

## Model

| member | source | states |
|---|---|---|
| PlacementEntry.TranslateInvolution | source/variable_granularity.cc:573-675 | on an entry whose groups claim no slow line twice, translation keeps a line in its page range and is undone by translating again |
| PlacementEntry.InjectiveIffDisjoint | source/variable_granularity.cc:573-675 | two physical lines share a hardware line if and only if two groups claim the same slow line |
| PlacementEntry.FindSlow | source/variable_granularity.cc:589-611 | the first group that covers a slow line, and none before it does |
| PlacementEntry.FindFast | source/variable_granularity.cc:637-659 | the first group ending behind a fast line, and all before it end at or below it |
| PlacementEntry.MoveInExact | source/variable_granularity.cc:804-943 | finishing a move changes translation by exactly the exchange of its two intervals if and only if the request is sound |
| PlacementEntry.MoveInOverlapFails | source/variable_granularity.cc:240-251 | a move over lines already in fast memory sends some line to the wrong place |
| PlacementEntry.MoveInGapFails | source/variable_granularity.cc:345-356 | growing a group across a gap sends the first new fast line to the wrong place |
| PlacementEntry.MovedInShape | source/variable_granularity.cc:804-943 | a fitting move leaves the entry within slots, lines and page bounds, the last group live |
| PlacementEntry.MovedInDisjoint | source/variable_granularity.cc:804-943 | a move disjoint from the page's groups keeps all groups disjoint |
| PlacementEntry.TrimHoles | source/variable_granularity.cc:1003-1026 | the cursor steps back exactly over trailing holes |
| PlacementEntry.EvictExact | source/variable_granularity.cc:944-1048 | finishing an eviction changes translation by exactly the exchange of its two intervals if and only if no other group of the page claims a line of the evicted group |
| PlacementEntry.EvictOverlapFails | source/variable_granularity.cc:944-1048 | when another group claims a line of the evicted group, some line does not go home |
| PlacementEntry.EvictedWellFormed | source/variable_granularity.cc:944-1048 | an eviction keeps the entry well formed, disjoint, and its last group live |
| PlacementEntry.EvictionKeepsNames | source/variable_granularity.cc:944-1026 | finishing one eviction leaves every other queued eviction naming a live group, though holes appear and the cursor moves |
| PlacementEntry.NamesUnique | source/variable_granularity.cc:953-975 | the group an eviction names is determined by its fast line |
| MigrationPlan.Granularity | source/variable_granularity.cc:1347-1394 | the smallest supported size above the distance of two lines |
| MigrationPlan.Adjust | source/variable_granularity.cc:1396-1448 | end line and size after adjusting to the page's end |
| MigrationPlan.RoundDown | source/variable_granularity.cc:1450-1505 | end line and size after the loop: the size is kept when it fits the interval, and otherwise becomes the interval itself, which flexible granularity allows |
| MigrationPlan.FreeSpace | source/variable_granularity.cc:172-178 | the lines left in a fast page, as the loop computes them |
| MigrationPlan.AccessedSpan | source/variable_granularity.cc:193-213 | first and last accessed line of a page |
| MigrationPlan.MakePlan | source/variable_granularity.cc:215-461 | the planning loop computes the plan that PlanOutcomes and PlanSound speak about |
| MigrationPlan.PlanGrowth | source/variable_granularity.cc:288-385 | the branch that extends the page's last group computes the extension the plan function gives |
| MigrationPlan.PlanFits | source/variable_granularity.cc:396-461 | every planned move stays inside both pages, the free space and the slots |
| MigrationPlan.NewPagePlan | source/variable_granularity.cc:193-461 | the plan for a page without groups starts at its first accessed line, reaches the last unless space runs out, and is sound |
| MigrationPlan.OneGroupPlanSound | source/variable_granularity.cc:288-461 | for a page with one group the plan is sound if and only if growing that group asks for no more lines than the fast page has left, the guard of the clamping branch |
| MigrationPlan.GrowSound | source/variable_granularity.cc:288-385 | growing the last group is sound if and only if the space suffices and no earlier group of the page claims a line up to the new end |
| MigrationPlan.LastCutSound | source/variable_granularity.cc:240-251 | a plan cut at the last of the page's groups is sound if and only if the stretched span, cut to the space left, stays clear of the groups examined before |
| MigrationPlan.PlanSound | source/variable_granularity.cc:215-461 | whatever groups the page has, the plan is sound if and only if the walk keeps clear of them: no line a cut brings in behind the wanted ones is claimed by an examined group, and growing reaches over none and asks for no more than the space left |
| PlanOutcomes.OneGroupPlanExact | source/variable_granularity.cc:288-461 | for a page with one group: a hit if and only if the group has all wanted lines; else the entry's last group grows to the stretched end, or the wanted lines in front of or behind the group move in, cut to the room; an eviction exactly when there is no room, or no slot for a new group |
| PlanOutcomes.PlanAnswers | source/variable_granularity.cc:215-461 | whatever groups the page has: a hit only if a group has the first wanted line or one right behind a group, an eviction only for want of room or of a slot, and a move starts where wanted lines begin and reaches the last of them, the next group, or the end of the room |
| PlacementFailures.OverlapIsReachable | source/variable_granularity.cc:240-251 | a run from empty tables in the program's order, cooling at cycle 0 and after a full interval, that queues a move over a group the planner had examined, which changes some value when it completes |
| PlacementFailures.UnsoundEvictionIsReachable | source/variable_granularity.cc:504-559 | the same run carried on to an eviction that sends a line to another group's place |
| PlacementFailures.ReachBackIsReachable | source/variable_granularity.cc:307-341 | a run of the same kind that queues growth of the last group back over a group the span had been cut at |
| PlacementFailures.GapIsReachable | source/variable_granularity.cc:345-356 | a run of the same kind that queues growth which leaves a gap after clamping |
| VariableGranularity.TrackKeeps | source/variable_granularity.cc:108-571 | an access keeps the invariant of table and queue and changes no translation |
| VariableGranularity.EnqueueKeeps | source/variable_granularity.cc:1264-1345 | queueing, with duplicates and in-place growth, keeps every queued request one that can be finished |
| VariableGranularity.EnqueueExact | source/variable_granularity.cc:1264-1345 | a request joins the queue if and only if it may stand beside every queued one and there is room, a larger move to the same lines replaces the queued one, and nothing else changes |
| VariableGranularity.FindCold | source/variable_granularity.cc:1149-1200 | the first group of another page that is not hot, and none before it is such a one |
| VariableGranularity.EvictColdKeeps | source/variable_granularity.cc:1149-1262 | an eviction of a page keeps the invariant and changes the queue only |
| AccessRequests.EvictColdExact | source/variable_granularity.cc:1149-1262 | every added request is the eviction of a group of the first cold page, and all of its groups that the queue allows are added; nothing changes when the queue is busy or no other page is cold |
| AccessRequests.EvictColdIdle | source/variable_granularity.cc:1149-1262 | no request is added if and only if the queue is busy or full, no other page is cold, or queued requests rule out every group of the first cold page |
| AccessRequests.CallHomeExact | source/variable_granularity.cc:504-559 | an access to a fast line queues the eviction of exactly the group that occupies it, if the queue allows |
| AccessRequests.TrackExact | source/variable_granularity.cc:108-571 | beyond counting an access changes the queue only: a fast line calls its group home, a hot slow block follows the plan for the lines accessed so far, a cold one that no group holds makes room |
| PageHeat.HeatExact | source/variable_granularity.cc:108-169 | over any run from empty tables the counter is the number of accesses, saturated and halved at every interval; a page is hot if and only if an access brought that to the threshold and it has not gone down to zero since; a line counts as accessed if and only if it was and the page has not gone cold since |
| VariableGranularity.QueuePerSet | source/variable_granularity.cc:1264-1345 | per set the queue holds one move, or only evictions of different live groups |
| VariableGranularity.CompletedOk | source/variable_granularity.cc:792-1063 | completing the head keeps cursor, sizes and bounds in order, so no assertion there fails |
| VariableGranularity.OthersStayOk | source/variable_granularity.cc:944-1026 | every other queued request survives the completion of the head |
| VariableGranularity.FinishKeeps | source/variable_granularity.cc:792-1063 | a completion keeps the whole invariant |
| VariableGranularity.TickKeeps | source/variable_granularity.cc:1065-1116 | a cycle with its cooling of counters keeps the invariant |
| VariableGranularity.Remapper.constructor | source/variable_granularity.cc:6-22 | a new remapper has empty entries and satisfies the invariant |
| VariableGranularity.Remapper.LocateSlow | source/variable_granularity.cc:589-611 | the loop over groups returns the slow line's translation |
| VariableGranularity.Remapper.LocateFast | source/variable_granularity.cc:637-659 | the loop over groups returns the fast line's translation |
| VariableGranularity.Remapper.PhysicalToHardware | source/variable_granularity.cc:677-779 | translation of a block and line stays in its set and is the entry's translation |
| VariableGranularity.Remapper.EnqueueRemappingRequest | source/variable_granularity.cc:1264-1345 | the queue after the duplicate scan is the one the enqueue function gives |
| VariableGranularity.Remapper.ColdDataEviction | source/variable_granularity.cc:1149-1262 | the queue after the scan is that of the eviction function, whose requests EvictColdExact tells |
| VariableGranularity.Remapper.MemoryActivityTracking | source/variable_granularity.cc:108-571 | counters, access bits and queue after an access are those of the tracking function, and the invariant holds |
| VariableGranularity.Remapper.TrackHot | source/variable_granularity.cc:170-462 | a hot slow block plans and queues its move or asks for an eviction |
| VariableGranularity.Remapper.TrackCold | source/variable_granularity.cc:463-503 | a cold slow block that has groups in fast memory is handled as the tracking function says |
| VariableGranularity.Remapper.TrackFast | source/variable_granularity.cc:504-559 | an access to a line of the fast page that a group occupies calls that group home |
| VariableGranularity.Remapper.ColdDataDetection | source/variable_granularity.cc:1065-1116 | counters, hot bits and access bits after a cycle, those HeatExact tells |
| VariableGranularity.Remapper.FinishRemappingRequest | source/variable_granularity.cc:792-1063 | tables and queue after a completion; each assertion of the source is proved |
| PlacementRuns.CompletionExact | source/variable_granularity.cc:792-1063 | a completion with its exchange keeps every value for every memory if and only if the request, move or eviction, is sound |
| PlacementRuns.ExchangesExact | source/variable_granularity.cc:792-1063 | a completion changes translation by exactly the exchange of its two intervals if and only if the request is sound |
| PlacementRuns.DisjointKeeps | source/variable_granularity.cc:792-1063 | while no slow line is claimed twice every eviction is sound, and sound requests keep it so |
| PlacementRuns.StateAfter | source/variable_granularity.cc:108-571 | after any run of accesses, cycles and completions the invariant holds |
| PlacementRuns.RunKeepsValues | source/variable_granularity.cc:792-1063 | over a whole run of sound completions every physical line keeps its value |
| PlacementRuns.FreshRunKeepsValues | source/variable_granularity.cc:6-22 | from empty tables every physical line shows its own value throughout such a run |
| PlacementRuns.RunNextExact | source/variable_granularity.cc:792-1063 | at every point of any run the next completion keeps all values if and only if its request is sound |
| PlacementRuns.RunTranslationInverse | source/variable_granularity.cc:573-675 | at every point of such a run translation is its own inverse within set and page |
| SwappingInvariants.SendReadKeeps | include/ChampSim/dram_controller.h:1431-1481 | issuing a read, or being refused, keeps the invariant of buffer, memory and reads on their way |
| SwappingInvariants.SendWriteCells | include/ChampSim/dram_controller.h:1483-1547 | writing a line back brings memory up to date with every write absorbed so far |
| SwappingInvariants.MarkKeeps | include/ChampSim/dram_controller.h:1549-1554 | finishing an entry keeps the finish counter equal to the number of finished entries |
| SwappingInvariants.OperatedKeeps | include/ChampSim/dram_controller.h:1418-1573 | a round keeps the invariant, touches no line outside the segments, and reports completion only when every entry is finished |
| SwappingInvariants.ReturnedFills | include/ChampSim/dram_controller.h:1577-1641 | an answer is never late or foreign and fills the cell that waits with the other side's original line |
| SwappingInvariants.ReturnedKeeps | include/ChampSim/dram_controller.h:1577-1641 | an answer keeps the invariant |
| SwappingInvariants.WrittenKeeps | include/ChampSim/dram_controller.h:1685-1701 | a processor write, absorbed, held back or passed on, keeps the invariant, also when it un-finishes an entry |
| SwappingInvariants.StartKeeps | include/ChampSim/dram_controller.h:1244-1260 | starting a swap on an idle unit keeps the invariant |
| SwappingInvariants.UpdateKeeps | include/ChampSim/dram_controller.h:1264-1290 | growing a swap, also one that has just completed, keeps the invariant |
| SwappingRuns.Rounded | include/ChampSim/dram_controller.h:453-524 | a cycle that operates and then starts, grows or ends a swap keeps the invariant |
| SwappingRuns.StateAfter | include/ChampSim/dram_controller.h:453-524 | the invariant holds after any run of rounds, answers and processor writes |
| SwappingRuns.SideCompletes | include/ChampSim/dram_controller.h:1549-1565 | a finished line contains the writes up to its last write-back, is dirty exactly when a later one was absorbed, and is up to date when clean |
| SwappingRuns.DoneIsQuiet | include/ChampSim/dram_controller.h:1549-1565 | when a swap completes every entry is finished and no read is outstanding |
| SwappingRuns.CompletionExact | include/ChampSim/dram_controller.h:1549-1565 | on completion a line holds the other side's original with the last absorbed word if and only if it was not, before the round, dirty with another word while its entry was finished or its write-back refused; nothing outside the segments changed |
| SwappingRuns.CompletionExchanges | include/ChampSim/dram_controller.h:1418-1573 | with no absorbed write, memory ends with the two segments exchanged |
| SwappingRuns.ReadsServed | include/ChampSim/dram_controller.h:1644-1684 | a read goes to memory exactly when outside the segments; inside it gets the word the line is to hold as soon as that has arrived, and waits before |
| SwappingRuns.DoneExact | include/ChampSim/dram_controller.h:1549-1565 | a round ends the swap if and only if it leaves every entry finished |
| SwappingRuns.RoundTakes | include/ChampSim/dram_controller.h:453-524 | an idle unit takes the oldest request, a swap of the same segments grows with it even when it has just ended, and any other swap goes on until every entry is finished |
| SwappingRuns.WritesAbsorbed | include/ChampSim/dram_controller.h:1685-1701 | a write inside the segments is absorbed if and only if the lines of both sides have arrived, never reaches memory, and is seen by the next read once absorbed; a stalled write changes nothing |
| SwappingRuns.FinishedCounts | include/ChampSim/dram_controller.h:1549-1565 | in every run the finish counter is the number of finished active entries |
| SwappingRuns.SwapCompletes | include/ChampSim/dram_controller.h:1418-1573 | from an idle unit to completion, under any stalls, late answers, growth and processor writes, every line of the segments holds the other side's line as it was when it joined, with the last absorbed word, unless the final round leaves that word behind |
| SwappingRuns.RunOrig | include/ChampSim/dram_controller.h:1264-1290 | a line that joins a growing swap is recorded with what the processor's writes had made of it by then |
| SwappingRuns.SwapLeavesOthers | include/ChampSim/dram_controller.h:905-925 | outside the segments memory holds what the processor's own writes leave there |
| SwappingRuns.NoReadLost | include/ChampSim/dram_controller.h:1577-1641 | when no read is on its way every issued read has been answered |
| SwappingRuns.AnsweredCompletes | include/ChampSim/dram_controller.h:1483-1565 | once all reads are answered one accepting round completes the swap |
| SwappingRuns.TwoRoundsSuffice | include/ChampSim/dram_controller.h:1418-1573 | from any state, two accepting rounds with the answers between them complete the swap |
| SwappingRuns.DirtyWordLost | include/ChampSim/dram_controller.h:1549-1554 | a run in which a write served from the buffer never reaches memory |
| SwappingMachine.Swapper.constructor | include/ChampSim/dram_controller.h:1194-1221 | a new unit is idle and empty |
| SwappingMachine.Swapper.InitializeSwapping | include/ChampSim/dram_controller.h:1194-1221 | the loop clears every entry and nothing in memory |
| SwappingMachine.Swapper.StartSwappingSegments | include/ChampSim/dram_controller.h:1244-1260 | the unit takes the segments exactly when idle |
| SwappingMachine.Swapper.UpdateSwappingSegments | include/ChampSim/dram_controller.h:1264-1290 | the swap grows exactly for the same segments and a larger size |
| SwappingMachine.Swapper.IssueReads | include/ChampSim/dram_controller.h:1431-1481 | the read loop sends what the memory accepts |
| SwappingMachine.Swapper.IssueEntryWrites | include/ChampSim/dram_controller.h:1483-1556 | write-backs and finish mark of one entry |
| SwappingMachine.Swapper.OperateSwapping | include/ChampSim/dram_controller.h:1418-1573 | buffer, memory, counter and status after a round |
| SwappingMachine.Swapper.ReturnSwappingData | include/ChampSim/dram_controller.h:1577-1641 | the answered cell is filled; an answer for another line cannot happen |
| SwappingMachine.Swapper.CheckReadRequest | include/ChampSim/dram_controller.h:1644-1684 | what a processor read gets |
| SwappingMachine.Swapper.CheckWriteRequest | include/ChampSim/dram_controller.h:1685-1701 | what a processor write gets, and the buffer after absorbing it |
| SwappingMachine.Swapper.AddWriteRequest | include/ChampSim/dram_controller.h:905-925 | only a write outside the segments is sent to memory |
| SwappingMachine.Swapper.Operate | include/ChampSim/dram_controller.h:453-524 | the unit after one cycle of the controller |
| MemoryExchange.AddressUnique | source/variable_granularity.cc:677-779 | different lines of different pages and sets have different addresses |
| MemoryExchange.SwapIsExchange | include/ChampSim/dram_controller.h:453-524 | a completed swap of a request's segments carries out exactly the exchange the placement assumes: inside, each line is the facing one with the absorbed word on top unless it is left behind; outside, memory holds the processor's writes |
| MemoryExchange.QuietSwapIsExchange | include/ChampSim/dram_controller.h:453-524 | without processor writes every line of memory is the one the exchange puts there |
| SwappingValues.RoundKeepsLines | include/ChampSim/dram_controller.h:1418-1573 | a cycle that does not end a swap, growth and start included, changes no line |
| SwappingValues.RoundMovesLines | include/ChampSim/dram_controller.h:1549-1565 | a cycle that ends a swap takes a line to the other side if and only if it leaves no word of it behind |
| SwappingValues.WriteLands | include/ChampSim/dram_controller.h:1685-1701 | a write that is taken goes to the line facing its address and to no other |
| SwappingValues.ReadShows | include/ChampSim/dram_controller.h:1644-1684 | a read that is answered, by memory or buffer, gets the line facing its address |
| HybridMemory.AskFits | include/ChampSim/dram_controller.h:1244-1260 | the oldest request always names a stretch of fast and one of slow memory that fit the buffer |
| HybridMemory.TrackHead | source/variable_granularity.cc:1264-1345 | an access keeps the oldest request at the head of the queue, at most grown |
| HybridMemory.OperatedKeeps | include/ChampSim/dram_controller.h:345-524 | a cycle of the whole machine keeps its invariant, and a busy unit then carries exactly the oldest request, however it has grown |
| HybridMemory.HomeFaces | source/variable_granularity.cc:792-1063 | when a swap for a sound request ends the tables find every line on the side it was taken to |
| HybridMemory.OperateHolds | include/ChampSim/dram_controller.h:345-524 | through a cycle whose ended request is sound a physical line keeps its value if and only if no word of it is left behind |
| HybridMemory.StepHolds | include/ChampSim/dram_controller.h:345-524 | an event changes a physical line only if it is a store that lands on it |
| HybridMemory.IdleHolds | include/ChampSim/dram_controller.h:905-925 | while no swap is under way a physical line is the memory line its translation names |
| HybridMemory.LoadShows | include/ChampSim/dram_controller.h:638-720 | an answered load gets the line itself from memory, and from the buffer the line it trades places with |
| HybridMemory.StoreOwn | include/ChampSim/dram_controller.h:891-930 | a store reaches its own line if and only if that line is not being swapped and memory accepts |
| HybridMemory.StateAfter | include/ChampSim/dram_controller.h:345-524 | the invariant of tables, queue, buffer and memory together holds after any run |
| HybridMemory.RunHolds | include/ChampSim/dram_controller.h:345-524 | over whole runs a physical line holds what the stores that landed on it have made of it |
| HybridMemory.InitialHolds | include/ChampSim/dram_controller.h:1194-1221 | at the start every physical line is the memory line of the same address |
| StrayStores.StoreStrays | include/ChampSim/dram_controller.h:891-930 | a run after which a load of one line is answered with another's word, and a store to it goes to that other line |
| HybridMachine.MemoryController.constructor | include/ChampSim/dram_controller.h:1194-1221 | the controller as built is the initial machine |
| HybridMachine.MemoryController.NextRequest | include/ChampSim/dram_controller.h:453-470 | the head of the queue in hardware addresses, if there is one |
| HybridMachine.MemoryController.Operate | include/ChampSim/dram_controller.h:345-524 | the machine after one cycle, without meeting the error exit for a missing request |
| HybridMachine.MemoryController.ReturnData | include/ChampSim/dram_controller.h:1577-1641 | the machine after an answer |
| HybridMachine.MemoryController.AddWrite | include/ChampSim/dram_controller.h:891-930 | a write translates, tracks and is sent, in this order |
| DramTree.NewTreeShape | include/Ramulator/DRAM.h:189-227 | the constructed tree has the levels, the number of children per level and the table sizes of the spec |
| DramTree.UpdateAt | include/Ramulator/DRAM.h:351-411 | an update changes a node as target, as sibling of a target, or not at all, by its path alone |
| DramTree.ServeAt | include/Ramulator/DRAM.h:413-460 | exactly the nodes the address passes through count the request, down to the level below the bank, one further than the source's comment says; rows are no nodes there |
| DramTiming.WaitStep | include/Ramulator/DRAM.h:351-411 | how one more issue changes what a timing entry waits for |
| DramTiming.TreeExact | include/Ramulator/DRAM.h:351-411 | after any run the earliest clocks and histories of every node are those its run of commands dictates |
| DramTiming.CheckExact | include/Ramulator/DRAM.h:265-277 | the check passes if and only if every constraint of the run is met at every node the address leads to, down to the level of the command's scope |
| DramTiming.NoConstraintViolated | include/Ramulator/DRAM.h:265-277 | in a run of checked commands each comes at least `val` after the `dist`-th most recent constraining command at every node in its scope |
| DramNodes.DramNode.constructor | include/Ramulator/DRAM.h:189-227 | the linked tree is the constructed tree |
| DramNodes.DramNode.Ready | include/Ramulator/DRAM.h:265-277 | the recursive check over linked nodes |
| DramNodes.DramNode.GetNext | include/Ramulator/DRAM.h:313-324 | for every clock from the last update on, the check holds if and only if the clock is at least the iterative bound |
| DramNodes.DramNode.Update | include/Ramulator/DRAM.h:327-333 | the linked tree after an update, its clock included |
| DramNodes.DramNode.UpdateTiming | include/Ramulator/DRAM.h:351-411 | tables of all nodes below after a command |
| DramNodes.DramNode.RaiseFromSiblings | include/Ramulator/DRAM.h:355-368 | earliest clocks of a sibling after the loop |
| DramNodes.DramNode.RaiseFromHistory | include/Ramulator/DRAM.h:378-402 | earliest clocks of a target after the loop |
| DramNodes.DramNode.UpdateServing | include/Ramulator/DRAM.h:413-460 | counters on the way down to the bank |
| ControllerInvariants.EnqueueKeeps | include/Ramulator/Controller.h:303-322 | accepting, forwarding or rejecting a request keeps conservation, counters and bounds |
| ControllerInvariants.CompleteKeeps | include/Ramulator/Controller.h:345-360 | a call-back keeps them, and a forwarded read was never counted |
| ControllerInvariants.IssuedKeeps | include/Ramulator/Controller.h:425-505 | issuing a checked command keeps them, through promotion, completion and removal |
| ControllerInvariants.IssuedServed | include/Ramulator/Controller.h:425-432 | counters follow a request from its first command to its last |
| ControllerInvariants.Tick | include/Ramulator/Controller.h:338-506 | one clock keeps the whole invariant for any oracle |
| ControllerInvariants.StateAfter | include/Ramulator/Controller.h:338-506 | the invariant holds after any run of arrivals and clocks |
| ControllerInvariants.NothingLost | include/Ramulator/Controller.h:303-506 | every accepted request is in exactly one queue or completed once, no read is called back twice, and the read and write queues never exceed their maximum |
| ControllerInvariants.ServingCounts | include/Ramulator/Controller.h:425-505 | at every node down to the bank the counter is the number of unfinished started reads and writes through it |
| ControllerInvariants.ControllerTiming | include/Ramulator/Controller.h:508-517 | every command the controller ever issues meets all timing constraints of the commands before |
| ControllerIssue.ScheduleExact | include/Ramulator/Controller.h:379-505 | an activated request goes before all others, then the requests that are neither reads nor writes, then the writes in write mode or the reads out of it; the pick is issued if and only if its command passes the check, and then its queue, the activated requests, the reads that wait and the requests done are as stated; nothing else is touched |
| ControllerIssue.ClockServes | include/Ramulator/Controller.h:338-505 | after any run a clock changes the queue of writes only in write mode, that of reads only out of it, and neither while other requests wait or refreshes come in |
| ControllerIssue.ArrivalExact | include/Ramulator/Controller.h:303-322 | after any run a read is turned away if its queue is full, waits for the next clock if a write to its address is queued, and else joins its queue; a write joins its queue unless that is full |
| ControllerIssue.CallBacksExact | include/Ramulator/Controller.h:345-360 | over any run reads are called back in the order in which they came to wait, each in the first clock in which it is due and the one before it has been called back earlier; each was forwarded on arrival or departs the read latency after a command issued for it |
| ControllerMode.ModeExact | include/Ramulator/Controller.h:365-377 | over any run, for any watermarks, the mode is what the last clock to find exactly one of the two called for, changed once by every clock since that found both called for |
| ControllerMode.BandExact | include/Ramulator/Controller.h:365-377 | with watermarks that leave a band the controller is in write mode if and only if some clock found the writes above the high one or no read waiting, and no later clock found them below the low one with a read waiting |
| ControllerMachine.RequestController.constructor | include/Ramulator/Controller.h:111-131 | a new controller satisfies the invariant |
| ControllerMachine.RequestController.FindWrite | include/Ramulator/Controller.h:312-316 | a waiting write to the address is found if and only if there is one |
| ControllerMachine.RequestController.Accept | include/Ramulator/Controller.h:303-322 | queues after an arrival; rejected exactly when full |
| ControllerMachine.RequestController.CallBack | include/Ramulator/Controller.h:345-360 | pending reads and counters after a call-back |
| ControllerMachine.RequestController.IssueOne | include/Ramulator/Controller.h:379-505 | the search over the queues does what the scheduling function says, whose choice ScheduleExact tells |
| ControllerMachine.RequestController.Move | include/Ramulator/Controller.h:474-505 | the queues after an issue: promoted, completed or kept |
| ControllerMachine.RequestController.Tick | include/Ramulator/Controller.h:338-506 | the controller after one clock |
| HistoryRemap.AccessKeeps | source/history_based_page_selection.cc:57-108 | translating and counting an access keeps table, flags, counters and queue in order |
| HistoryRemap.ListedExact | source/history_based_page_selection.cc:132-175 | the listing loop stops only at capacity, threshold or the limit of slow pages |
| HistoryRemap.HotListExact | source/history_based_page_selection.cc:110-178 | the hot list is the top of the ranking, at or above the threshold, with at most one slow page more than the limit |
| HistoryRemap.NoneHotter | source/history_based_page_selection.cc:214-287 | no page left off is hotter than one listed, or reaches the threshold when there was room |
| HistoryPlanning.PassKeeps | source/history_based_page_selection.cc:331-445 | a planning pass names no page twice, takes candidates out and listed slow pages in |
| HistoryPlanning.PlannedExact | source/history_based_page_selection.cc:323-548 | a plan made on an empty queue has distinct victims in fast memory and distinct comers in slow memory, and spares spared pages |
| HistoryPlanning.PassComplete | source/history_based_page_selection.cc:331-394 | a first pass that is not held up places every slow hot page or uses every candidate |
| HistoryCompleteness.PlanExact | source/history_based_page_selection.cc:323-445 | a plan places every slow hot page or uses every untouched page if and only if the queue holds the first pass; with the cold pages the same holds if and only if the queue holds both passes and, with n slow hot pages more than untouched ones, the first n candidates of the second pass include no untouched page or no accessed cold page follows them |
| HistoryCompleteness.EpochPlans | source/history_based_page_selection.cc:323-445 | an epoch on a quiet memory plans a place for every hot page of slow memory or uses every untouched page of fast memory if and only if one of the two is at most 4096 pages; on a busy one it plans nothing; it clears the counters |
| HistoryCompleteness.GcPlans | source/history_based_page_selection.cc:551-761 | a garbage collection always plans a place for every listed page of slow memory or uses every marked untouched page of fast memory |
| HistoryCompleteness.HeldExact | source/history_based_page_selection.cc:901-961 | the queue turns no request away if and only if it is as long as the number of requests both passes make |
| HistoryCompleteness.BusyPlan | source/history_based_page_selection.cc:385-394 | on a busy memory nothing is planned |
| HistoryCompleteness.SecondPassDrops | source/history_based_page_selection.cc:394-445 | an epoch's plan that leaves out a hot page and a cold page |
| HistoryReach.ShortIsReachable | source/history_based_page_selection.cc:57-108 | accesses from the start lead to the state of that plan |
| HistoryPlanning.DrainBlocked | source/history_based_page_selection.cc:800-861 | a page already in fast memory stops every later request for it |
| HistoryPlanning.DrainExact | include/ChampSim/dram_controller.h:1296-1337 | a queue of requests possible when planned goes through if and only if no page comes in twice; then pairs trade frames and all others stay put |
| HistoryPlanning.EpochMoves | source/history_based_page_selection.cc:323-548 | each planned hot page ends in fast memory in exchange for an untouched or cold page |
| HistoryPlanning.EpochKeeps | source/history_based_page_selection.cc:323-548 | an epoch's planning keeps the invariant |
| HistoryPlanning.DrainKeeps | source/history_based_page_selection.cc:984-1042 | carrying out never stops, the exit for two never-accessed pages included, and empties the queue |
| HistoryPlanning.DrainRefuses | source/history_based_page_selection.cc:984-1042 | a garbage collection carries out a queue of requests for distinct, placed pages if and only if none names two pages that were never accessed, and then exactly the pairs trade frames |
| HistoryPlanning.GcKeeps | source/history_based_page_selection.cc:984-1042 | a garbage collection keeps the invariant, never stops and leaves the queue empty |
| HistoryPlanning.GcMoves | source/history_based_page_selection.cc:984-1042 | a garbage collection carries out its plan: each planned marked hot page ends in fast memory with mark 3 in exchange for a marked, unlisted page that was never accessed or is cold, and no other page moves |
| HistoryPlanning.CollectionKeeps | source/ChampSim/ooo_cpu.cc:488-509 | a garbage collection drops what is queued, never stops, and leaves queue and counters empty |
| HistoryPlanning.CollectionMoves | source/ChampSim/ooo_cpu.cc:488-509 | whatever was queued before, exactly the pairs of the collection's own plan trade places and the counters are cleared |
| HistoryPlanning.GcSparesUnmarked | source/history_based_page_selection.cc:551-761 | no request of a collection has an unmarked page on either side |
| HistoryPlanning.StepKeeps | include/ChampSim/dram_controller.h:1296-1337 | no event meets an error exit, and each keeps the invariant |
| HistoryPlanning.RunKeepsTable | source/history_based_page_selection.cc:836-845 | in every run frames stay distinct, unmoved pages are at home, and a counted page has been accessed |
| HistoryPlanning.StalePlanStops | source/history_based_page_selection.cc:323-548 | planning before the last plan was carried out stops the program at a concrete state |
| HistoryPlanning.StalePlanExact | source/history_based_page_selection.cc:323-548 | whatever is still queued when an epoch plans, carrying out goes through if and only if no page is named that is to come in already, and then the named pairs trade frames; it does when no such page is hot again |
| HistoryCounts.CountsExact | source/history_based_page_selection.cc:57-108 | in every run the counter of a page is the number of accesses to it since an epoch or collection last cleared the counters, up to 65535; an accessed page is flagged, and the flag is 1 only for one |
| HistoryReach.StaleIsReachable | source/ChampSim/ooo_cpu.cc:1298-1316 | accesses, an epoch and more accesses lead to the state of the stopping plan |
| HistoryMachine.PageRemapper.constructor | source/history_based_page_selection.cc:7-46 | every page starts in its home frame with nothing counted |
| HistoryMachine.PageRemapper.PhysicalToHardware | source/history_based_page_selection.cc:765-787 | the page's frame, and its flag after the access |
| HistoryMachine.PageRemapper.TrackActivity | source/history_based_page_selection.cc:57-108 | the saturating counter after an access |
| HistoryMachine.PageRemapper.ChooseHotPages | source/history_based_page_selection.cc:110-178 | list and marks after the loop, and the program's own order check holds |
| HistoryMachine.PageRemapper.EnqueueRequest | source/history_based_page_selection.cc:901-961 | the queue after the duplicate scan |
| HistoryMachine.PageRemapper.PopFast | source/history_based_page_selection.cc:346-350 | leading pages in fast memory are dropped |
| HistoryMachine.PageRemapper.PlanPass | source/history_based_page_selection.cc:331-394 | queue and remaining list after one pass |
| HistoryMachine.PageRemapper.EndEpoch | source/history_based_page_selection.cc:323-548 | plan made, marks and counters cleared, invariant kept |
| HistoryMachine.PageRemapper.FinishRequest | source/history_based_page_selection.cc:800-861 | the table after one exchange, or where the program stops |
| HistoryMachine.PageRemapper.MigrateAll | source/history_based_page_selection.cc:984-1042 | the table after the whole queue, or where the program stops |
| HistoryMachine.PageRemapper.MigrationAllStart | include/ChampSim/dram_controller.h:1296-1337 | the epoch's plan is carried out without stopping and trades exactly the planned pairs |
| HistoryMachine.PageRemapper.CollectGarbage | source/ChampSim/ooo_cpu.cc:488-509 | a collection does what the function says, whose moves CollectionMoves tells |
| Cameo.TrackedKeeps | source/cameo.cc:190-322 | tracking never meets an error exit and queues at most one request per group |
| Cameo.TrackedExact | source/cameo.cc:190-322 | an access queues the exchange of the line's place with its group's fast line if and only if the line was hot or this access brings its counter to the threshold, it is in slow memory, the queue has room and is not busy, and the group has no request; otherwise the queue is unchanged |
| Cameo.CountsExact | source/cameo.cc:212-240 | over any run from the start a counter is the number of accesses to its line, up to 255, and the line is hot if and only if it was accessed and that is at least the threshold |
| Cameo.TrackedAfter | source/cameo.cc:190-322 | so after any run an access queues its exchange if and only if the accesses to the line, with this one and up to 255, reach the threshold, and place and queue allow it |
| Cameo.EnqueuedKeeps | source/cameo.cc:459-506 | queueing keeps at most one request per group, each describing its group |
| Cameo.SwappedKeeps | source/cameo.cc:399-437 | the exchange of two slots keeps a permutation that maps members in use onto themselves, and the eight-bit sum |
| Cameo.FinishedKeeps | source/cameo.cc:376-447 | at finish the fast slot still holds location 0, afterwards the requested line does, and no check fails |
| Cameo.MembersStay | source/cameo.cc:399-411 | a member in use is at a location in use |
| Cameo.TranslateUnique | source/cameo.cc:347-363 | translation is injective, stays within total capacity and keeps groups |
| Cameo.TranslateOnto | source/cameo.cc:347-363 | every hardware line is the translation of a line |
| Cameo.FinishedExact | source/cameo.cc:376-447 | finishing changes translation by exactly the exchange of the two lines the request names |
| Cameo.WrapSumExact | source/cameo.cc:413-437 | the wrapping sum is the sum modulo 256 |
| Cameo.StateAfter | source/cameo.cc:190-322 | the invariant holds after any run |
| Cameo.RunKeepsValues | source/cameo.cc:376-447 | over whole runs every physical line keeps its value |
| CameoPacked.ReplacedField | source/cameo.cc:387-397 | a written field reads back, and no other field or spare bit changes |
| CameoPacked.SwappedWordExact | source/cameo.cc:387-397 | the two field writes are the array's exchange of two slots |
| CameoPacked.DefaultIsIdentity | include/cameo.h:36-41 | the default word unpacks to the identity |
| CameoPacked.TrackedRefines | source/cameo.cc:190-322 | tracking on packed words takes the array form's step, its counter and hot bit included |
| CameoPacked.FinishedRefines | source/cameo.cc:376-447 | finishing on packed words takes the array form's step |
| CameoPacked.RunRefines | source/cameo.cc:376-447 | at every point of every run the packed table says what the array form says |
| CameoPacked.PackedRun | source/cameo.cc:6-34 | from tables of the default word the packed form follows the array form through any run |
| CameoMachine.LineLocator.constructor | source/cameo.cc:6-34 | a new table is the identity in every group |
| CameoMachine.LineLocator.PhysicalToHardware | source/cameo.cc:347-363 | the hardware line of a physical line |
| CameoMachine.LineLocator.FindFastSlot | source/cameo.cc:260-284 | the loop finds the first slot that holds location 0 |
| CameoMachine.LineLocator.EnqueueRequest | source/cameo.cc:459-506 | the queue after the scan for the same group |
| CameoMachine.LineLocator.MemoryActivityTracking | source/cameo.cc:190-322 | counter, hot bit and queue after an access, those CountsExact and TrackedExact tell, without an error exit |
| CameoMachine.LineLocator.SumLocations | source/cameo.cc:413-430 | the loop's eight-bit sum |
| CameoMachine.LineLocator.FinishRequest | source/cameo.cc:376-447 | the entry after a finish, with the sum check proved |
| MeaCounter.AfterKeeps | source/ideal_single_mempod.cc:94-133 | the table never exceeds its counters, which stay between one and five |
| MeaCounter.Accounted | source/ideal_single_mempod.cc:94-133 | the updates since the reset are exactly the counters' sum, seventeen per round, and the saturated ones |
| MeaCounter.CountBounds | source/ideal_single_mempod.cc:94-133 | a segment's unsaturated occurrences lie between its counter and its counter plus the rounds |
| MeaCounter.FrequentKept | source/ideal_single_mempod.cc:94-133 | a segment that occurs unsaturated in more than one in seventeen updates is in the table |
| MeaCounter.SumDropped | source/ideal_single_mempod.cc:107-121 | a round takes exactly one from every counter |
| MeaCounter.Counter.DecrementAll | source/ideal_single_mempod.cc:109-116 | all counters one lower, and the list of those at zero |
| MeaCounter.Counter.Erase | source/ideal_single_mempod.cc:117-121 | exactly the listed segments leave |
| MeaCounter.Counter.Update | source/ideal_single_mempod.cc:94-133 | the table after an update |

## Left out

- Statistics, output, trace reading, configuration parsing, processor pipeline, caches and virtual memory.
- Concrete DRAM standards, state functions of nodes (prerequisites, row hits, row openness) and command decoding: the first command of a request comes from the oracle.
- Autoprecharge upgrades, row policies, refresh statistics and the refresh scheduler: refreshes come from the oracle, and that the refresh queue has room is not proved.
- The busy degree of a queue is a floating-point ratio compared with a constant; here it is the result of that comparison.
- Watermarks of the write queue are the numbers the floating-point products round to.
- Addresses are tuples of page, set and line (or line and group) instead of words with bit fields; that replacing bits builds them needs a fast capacity that is a power of two. `include/ChampSim/util/bits.h` is not part of this model.
- A set has at most 64 pages, the width of the page field; the source does not check it.
- Soundness of requests in variable granularity: neither planner nor eviction establishes it, so it is a condition of the value theorems, with runs that break it.
- Immediate eviction and cold-data detection inside a group: switched off in the source's configuration.
- Memory below the swapping unit is a sequence of lines that a send reads or writes at once; answers carry the value read at the send. Reordering of two accesses to one line inside the memory is not modelled.
- A processor request carries one word of a line; the rest of the line is one value.
- The history-based mode moves no data through the swapping unit; its results are about frames, not contents.
- HybridMemory.RunHolds: for runs whose ended swaps are for sound requests and leave no word of the line behind; the other runs are those of the exact results about single cycles.
- Sorting by counter is any ranking that falls by counter; pages with equal counters may come in any order.
- The marked-object variant of garbage collection, switched off in the source's configuration.
- Migration counts and overheads of the history-based remapper.
- MemPod's pairing of hot and cold segments: a request in progress survives the end of an interval while planning reads the old table, so no claim is made beyond the counter.
- Co-located CAMEO queues: they keep hardware addresses from before a later exchange.
- Threads are joined at once in the source and are modelled as plain calls.
- PlacementRuns.RunKeepsValues: completions exchange memory in one step; with the swapping unit's interleaving the same is HybridMemory.RunHolds.
