# A model of the build engine and its logs

This project models the parts of ninja-extended on which a correct build rests, in the form
the C++ code has (classes whose methods change fields, loops over arrays), and proves what these
parts are for. `dafny verify dfyconfig.toml` checks all of it.

## What is modelled

**The build plan** (`Graph`, `PlanModel`, `PlanSteps`, `PlanCascade`, `PlanTargets`, `PlanCycles`,
`PlanPruning`, `Plan`, `PlanLiveness`, `PlanPools`, `PlanExamples`, `Build`). The class `Plan` has
the fields of `Plan` in src/build.h (`want`, `ready`, the two counters), over mutable `Edge`, `Node`
and `Pool` objects. A ghost field `s` holds the same state as one value, with the sets of running,
failed and flushed edges and a trace of starts and ends added; `Linked()` ties the two together, and
the lemmas are about the value. `Core` is the invariant that every method keeps: each live wanted
entry is in exactly one of waiting, delayed, ready, running and failed; the trace starts and ends no
edge twice and none before the planned producers of its inputs have ended; the use of each bounded
pool is the number of its busy edges less the number of edges that were flushed through it; a pool
holds edges back only when it has no free slot. `Steady` is what holds between two turns of the main
loop. `Build.NewBuilder` establishes what `Builder.RunBuild` asks for on any freshly loaded graph
that has an order or whose edges have one output each, and `RunBuild` leads from there to the end of
the build without further assumptions.

**The dirty scan** (`Staleness`, `Scan`, `ScanToPlan`, `ScanExamples`). `NodeDirty` and `Blocked` say by paths
through the graph what the flags should be. The scan, with its visited guard hidden in the cached
file times, computes just that on every graph that has an order, and ends on all graphs. Where edges
have one output each, `Loose` says what it computes on cycles: less, but enough for a plan with one
target (`ScanExamples` shows what goes wrong with a second). `ScanToPlan` shows that the flags it leaves are what planning relies on, so that `Builder.RunBuild`
needs no assumption about flags.

**Incremental marking by the daemon** (`Marking`, `Rebuild`). Within the part of the graph that was
scanned, the dirty set grows by exactly what depends on the changed files. `Rebuild` shows that a
successful build leaves the state that marking starts from.

**The deps log** (`DepsLogFormat`, `DepsLogRecovery`, `DepsLog`). A byte-exact format; `Valid` says
that the file is the log of the records whose replay is in memory. Writing, loading after a crash
at any byte, and compaction are proved against it.

**The build log** (`LineReader`, `BuildLog`): the buffered line reader against plain splitting,
decimal and hexadecimal fields, and the round trip through the file, from one process to the next,
after a crash at any character, and through compaction.

**Two in-place algorithms** (`Canonicalize`, `EditDistance`), each against a definition that does
not mention the algorithm: component stacks and directory walks, and edit scripts.

## Where the code does less than one would expect

Each of these is kept as the code has it. A member shows it on a concrete case, and another says
exactly when the code does meet the expectation.

| expectation | case | condition |
|---|---|---|
| A cyclic plan is reported (src/build.cc:314-332 compares files, not edges). | `PlanExamples.UndetectedCycle` | `Plan.Plan.AddTarget`: where all cycles run through the edge of the target, one is reported iff the target itself is needed to make that edge, or else a missing input is. For any graph: a closed walk of files is reported iff it runs through the files by which edges came into the plan; so the plan has an order if each output of an edge on a cycle is needed to make that edge (`PlanCycles.CaughtIsAcyclic`) |
| A cycle of edges with one output each is reported (src/graph.cc:77 looks at each file once, so that an edge may be found ready before a producer is found out of date). | `ScanExamples.UnseenCycle` | `Build.Builder.AddTarget`: for the first target, a reported cycle is one of edges that are not ready, and without an error no entry of the plan is on such a cycle and the plan has an order |
| A pool runs at most `depth` commands (src/build.cc:360-375 gives slots back for edges that never had one). | `PlanExamples.PoolOverrun` | `PlanPools.BusyWhileWaiting`: while an edge waits, iff none was flushed. `Build.Builder.Build`: without heeded restat rules a bounded pool ends overdrawn iff some entry of it was unwanted at the start; if none was, the depth is kept at every moment (`PlanPools.NothingToFlush`, `PlanPools.NeverTooMany`) |
| Marking reaches all that depends on a changed file (src/daemon.cc:635-640 stops at edges that are not ready). | `Marking.Daemon.OverlooksSecondOutput`, `Marking.Daemon.OverlooksBehindUnready` | `Marking.Daemon.MarkChanged`: if all that is made from outputs of unready edges is dirty, as after a successful build, and where edges have several outputs, iff what depends on one output depends on each (`Marking.HarmfulPair`, for graphs with an order) |
| After a crash the deps log can be appended to (src/deps_log.cc:203-208 takes one to three stray bytes for the end of the file). | `DepsLogRecovery.StrayByte` | `DepsLogRecovery.RecoveryIsExact`: iff the cut is at a record's end or at least four bytes behind one |
| After a crash the build log can be appended to (src/build_log.cc:129 only looks whether the file is empty). | `BuildLog.BehindStartTime`, `BuildLog.BehindEndTime` | `BuildLog.Session`: iff the cut is at the end of a line, or before the header says the version, or the log is compacted |
| Loading stays within its buffer (src/deps_log.cc:212 reads the bytes of a record before it judges their number, and src/deps_log.cc:239-241 strip NULs without looking where the path starts). | `DepsLogRecovery.OverrunInput`, `DepsLogFormat.NulPath` | `DepsLog.DepsLog.Load`: iff no size word that is met, and what is left behind it, both exceed 524288, and no path that is met consists of one or two NULs; never for a log that was only cut off (`DepsLogRecovery.NoOverrun`) |
| Canonicalization keeps the location. | `Canonicalize.RootVanishes` | `Canonicalize.SameLocation`: iff the path is not a rooted one whose components cancel out |
| A missing source file that is asked for is reported (src/build.cc:582 looks up its time without judging it). | `Build.Builder.AddSource` | `Build.Builder.AddTarget`: iff a scan has come across the file before |
| The line reader yields the lines of the file (its comment at src/build_log.cc:179-182 allows for long lines, `Load` skips them). | `LineReader.DeliversLines` | the same lemma: iff every complete line fits the buffer together with its newline |

## Model

| member | source | states |
|---|---|---|
| Graph.Pool.RetrieveReadyEdges | src/state.cc:41-52 | moves delayed edges to the ready queue while a slot is free: afterwards either none is delayed or no slot is free, exactly the moved edges are counted, and they never take more than the free slots |
| Graph.Pool.EdgeScheduled | src/state.cc:26-29 | a bounded pool counts the weight of the edge; an unbounded one counts nothing |
| Graph.Pool.EdgeFinished | src/state.cc:31-34 | a bounded pool gives the weight of the edge back |
| Plan.Plan.constructor | src/build.cc:255-256 | an empty plan over unused pools satisfies every invariant of the plan |
| Plan.Plan.AddTarget | src/build.cc:258-261 | without an error the plan is closed under producers that are not ready, wants exactly its dirty edges and has scheduled all it can; a reported cycle is a closed dependency walk, and after an error-free call none is left among the files by which edges came into the plan; such a plan has an order if each output of an edge on a cycle is needed to make that edge; a target that is needed to make its own edge is never accepted, and where all cycles run through that edge, no other target makes a cycle known; a reported missing input is a dirty file that nothing makes |
| Plan.Plan.AddSubTarget | src/build.cc:263-312 | the search below a stack of open nodes: an input by which its edge came into the plan is closed before the edges that use it; the edge of the target is closed last; the search ends on every graph, cyclic ones included |
| Plan.Plan.AddInputs | src/build.cc:302-307 | the loop over the inputs leaves all of them visited |
| Plan.Plan.Find | src/build.cc:315-316 | the position of the node on the stack, if it is there |
| Plan.Plan.Enter | src/build.cc:282-297 | an edge gets at most one entry, wanted iff the output it was reached by is dirty |
| Plan.Plan.Want | src/build.cc:290-297 | a newly wanted edge is counted, as a command unless it is phony, and is scheduled iff all producers are ready |
| PlanTargets.StackWithCycle | src/build.cc:322-331 | the part of the stack from the repeated node on is a closed walk through inputs and producers |
| PlanTargets.CycleOnStack | src/build.cc:314-332 | a node found again on the stack gives a genuine cycle, through nodes by which edges came into the plan |
| PlanTargets.TrapIsCyclic | src/build.cc:279-300 | edges that each need another of them cannot be put in order, whatever else is in the plan |
| PlanTargets.NoFalseAlarm | src/build.cc:314-332 | on a graph with an order no cycle can be reported |
| PlanCycles.NoneOverlooked | src/build.cc:314-332 | an error-free search leaves no closed walk of files that runs through the files by which edges came into the plan |
| PlanCycles.NoneOnCycle | src/build.cc:279-318 | if each output of an edge on a cycle is needed to make that edge, no edge of a plan made without an error is on a cycle |
| PlanCycles.CaughtIsAcyclic | src/build.cc:279-318 | and the plan can be put in order |
| PlanCycles.UsedIsRefused | src/build.cc:314-332 | a target that is needed to make its own edge is never added without an error |
| PlanCycles.OnlyUsedIsReported | src/build.cc:314-332 | where all cycles run through the edge of the target, a cycle is reported only if the target itself is needed to make that edge |
| PlanCycles.OnCycleIsCyclic | src/build.cc:299-300 | a plan with an entry on a cycle has no order |
| PlanCycles.TrapHasCycle | src/build.cc:279-300 | edges that each need another of them contain a cycle |
| PlanLiveness.PlanIsReady | src/build.cc:258-332 | after error-free calls nothing is overdue and the source inputs of all entries are clean; the plan has an order iff the search holds no set of edges that each need another, and with single outputs it holds none |
| PlanLiveness.TopologicalIsAcyclic | src/build.cc:263-312 | the order in which the search leaves its edges ranks every producer below its consumers |
| PlanExamples.UndetectedCycle | src/build.cc:314-318 | an edge that uses its own second output is added without an error: the plan is cyclic, has work to do, and nothing is ready |
| Plan.Plan.FindWork | src/build.cc:334-341 | takes a ready edge and records its start; nothing iff no edge is ready; the trace invariant (no edge starts twice, none before its planned producers have finished) is kept |
| Plan.Plan.ScheduleWork | src/build.cc:343-358 | the edge becomes ready or delayed and no edge is lost, even if it was scheduled before; slots of bounded pools are accounted for |
| Plan.Plan.Resume | src/build.cc:360-363 | handing out free slots loses no edge and leaves a pool either without delayed edges or full |
| Plan.Plan.Leave | src/build.cc:365-374 | the edge leaves the plan as ready, and its pool gives a slot back, for scheduled and for flushed edges alike |
| Plan.Plan.EdgeFinished | src/build.cc:365-381 | exactly the edge and the unwanted entries that become ready through it leave the plan, each once, with clean outputs; everything else that becomes ready is scheduled; the recursion ends because the plan shrinks |
| Plan.Plan.NodeFinished | src/build.cc:383-411 | afterwards no edge that uses the node is overdue, whatever duplicates its list of out-edges holds |
| Plan.Plan.CheckConsumer | src/build.cc:394-410 | one consumer is scheduled, or flushed, or still has to wait |
| Plan.Plan.AllInputsReady | src/graph.cc:208-215 | all producers of all inputs, order-only ones included, are ready |
| PlanCascade.CascadeTransitive | src/build.cc:383-411 | flushing can be composed: what two cascades do is what one does |
| PlanCascade.CascadeIsFinish | src/build.cc:365-411 | releasing an edge and the cascade from its outputs together are the declared effect of its end |
| PlanCascade.FinishKeepsClosed | src/build.cc:365-411 | the end of an edge keeps the plan closed under producers that are not ready |
| PlanCascade.FinishKeepsCounts | src/build.cc:365-375 | the end of an edge keeps the number of wanted entries and of commands right |
| PlanCascade.FinishKeepsClean | src/build.cc:365-384 | the outputs of every edge that left the plan are clean |
| PlanSteps.Record | src/build.cc:334-411 | a start or an end that respects the order extends a trace in which every edge starts and finishes at most once and after its producers, and pools stay within their bounds |
| PlanSteps.Start | src/build.cc:334-341 | taking an edge keeps the plan invariant: an edge is in one of waiting, delayed, ready, running, failed |
| PlanSteps.MakeReady | src/build.cc:355-356 | scheduling outside bounded pools keeps the plan invariant |
| PlanSteps.Delay | src/build.cc:352-353 | delaying keeps the plan invariant but for the pool that has yet to hand out its slots |
| PlanSteps.Retrieve | src/state.cc:41-52 | handing out the slots of a pool restores the invariant: it is full or nobody waits |
| PlanSteps.Fail | src/build.cc:744-746 | a failed command keeps its entry and its slot, and the invariant |
| PlanSteps.ReleaseKeepsCore | src/build.cc:365-375 | the end of an edge keeps the invariant, also for an edge that never took the slot it gives back |
| PlanLiveness.UseIsOccupancy | src/state.cc:26-34 | the use count of a bounded pool is the number of its ready, running and failed edges iff none of its edges was flushed |
| PlanPools.NeverTooMany | src/state.cc:26-52 | if no edge of a bounded pool was flushed, then at every moment of the run at most `depth` of its edges had been started and had not finished |
| PlanPools.BusyWhileWaiting | src/state.cc:41-52 | while an edge waits in a pool, its busy edges are as many as its depth and its flushed edges together: no more than the depth iff none was flushed |
| PlanPools.Overdrawn | src/build.cc:360-375 | a build that ran to the end without heeding restat rules has overdrawn a bounded pool iff some entry of the pool was unwanted at the start |
| PlanPools.NothingToFlush | src/build.cc:400-407 | where all entries of a pool are wanted at the start, none of its edges is flushed |
| PlanPools.FinishCarries | src/build.cc:365-411 | the end of a wanted edge changes the flag of no entry and flushes exactly the unwanted entries that leave with it |
| PlanPools.StartedWanted | src/build.cc:620-681 | a build that ran to the end without heeding restat rules has started exactly the edges that were wanted at the start |
| PlanExamples.BuildDiamond | src/build.cc:371-374 | a plan in which a flushed edge gives back a slot it never took: two edges of a pool of depth 1 are ready at once |
| PlanExamples.PoolOverrun | src/build.cc:371-374 | constructed and run, that plan has two commands of a pool of depth 1 running at once |
| Plan.Plan.CleanNode | src/build.cc:413-456 | turns off only edges whose regular inputs are all clean, whose deps are known and whose outputs are not stale; never one that is ready, delayed, running or failed; leaves no edge that uses a cleaned file and could be turned off; keeps the counts; ends on an acyclic plan |
| Plan.Plan.IsPrunable | src/build.cc:423-443 | the test decides exactly whether an edge can be turned off |
| Plan.Plan.Unwant | src/build.cc:449-452 | the entry stays, unwanted, and the counts follow |
| Plan.Plan.CleanOutputs | src/build.cc:444-447 | the recursion over the outputs prunes everything behind them |
| Plan.Plan.RegularInputsClean | src/build.cc:429-432 | all inputs that are not order-only are clean |
| PlanPruning.PrunedTransitive | src/build.cc:413-456 | pruning behind two files in turn is pruning behind both |
| PlanPruning.ThoroughTransitive | src/build.cc:413-456 | two thorough prunings in turn are thorough |
| PlanPruning.TurnOffThorough | src/build.cc:443-454 | turning an edge off owes only the pruning behind its outputs |
| PlanPruning.PruningIsDetermined | src/build.cc:413-456 | on an acyclic plan the result does not depend on the order in which files and out-edges are visited |
| PlanPruning.TurnOffCore | src/build.cc:449-453 | an edge turned off waits, unscheduled, to be flushed by a later cascade; the invariant holds |
| PlanLiveness.LowestEntry | src/build.cc:600-682 | below every entry of an acyclic plan lies one all of whose producers are ready |
| PlanLiveness.DelayedBehindBusy | src/state.cc:41-52 | an edge waits in a pool only behind a ready, running or failed one of the same pool |
| PlanLiveness.NeverStuck | src/build.cc:665-677 | while an acyclic plan has an entry, some edge is ready, running or failed: the state reported as a bug is unreachable |
| PlanLiveness.NothingLeft | src/build.cc:620-681 | once no entry is wanted the plan is empty: unwanted entries do not stay behind |
| PlanLiveness.EmptyIsComplete | src/build.cc:680-681 | when the plan is empty, all edges ever planned are ready with clean outputs, each finished, and the commands run are as many as were counted |
| PlanLiveness.BlockedByFailure | src/build.cc:665-677 | when nothing is ready or running, every entry waits through a chain of producers for a failed command, or for a slot of a pool whose busy edges all failed |
| PlanLiveness.StartSteady | src/build.cc:623-633 | starting an edge keeps what holds between turns of the main loop and makes the remaining work smaller |
| PlanLiveness.FinishSteady | src/build.cc:630-632 | so does the end of an edge |
| PlanLiveness.FailSteady | src/build.cc:656-659 | so does a failure |
| PlanLiveness.PruneSteady | src/build.cc:748-786 | restat pruning keeps what holds between turns, and the running edges |
| Staleness.MostRecent | src/build.cc:433-438 | an input with the greatest time |
| Staleness.RecomputeOutputsDirty | src/graph.cc:134-206 | some output is missing, older than the newest input (by the logged time for restat rules), or made by another command; for phony edges: missing, with no inputs |
| Scan.DirtyUnfolds | src/graph.cc:73-121 | reachability from a cause is what one step of the scan computes: a file is dirty iff its edge is, by itself or by a regular input |
| Scan.BlockedUnfolds | src/graph.cc:89-129 | an edge is not ready iff it has to run itself or a producer of some input, order-only included, is not ready |
| Scan.DependencyScan.RecomputeDirty | src/graph.cc:61-132 | ends on every graph, cyclic ones included; fails only if the deps of an edge that leads here cannot be loaded; on a graph with an order, exactly the files reached from a missing leaf or a stale edge through regular inputs are dirty, and exactly the edges with nothing to run in their cone are ready; where edges have one output each, on cycles too, nothing is dirty without cause and a clean edge is not ready only if it uses one that is not |
| Scan.DependencyScan.VisitInputs | src/graph.cc:73-107 | the loop over the inputs: dirty iff a regular input is, ready iff all producers are, and the newest clean input |
| Scan.DependencyScan.RecomputeOutputsDirty | src/graph.cc:134-144 | looks up output times as needed and decides staleness, given the newest input |
| Scan.DependencyScan.MarkOutputs | src/graph.cc:114-121 | all outputs become known, and dirty if the edge is |
| Scan.DependencyScan.StatIfNecessary | src/graph.h:49-54 | a time is looked up once |
| Scan.HalfTurn | src/graph.cc:75-107 | visiting one more input keeps the invariant of a scan that is under way |
| Scan.ScanEnds | src/graph.cc:109-131 | marking the outputs and the edge completes the invariant for the edge |
| Scan.LooseTurn | src/graph.cc:75-107 | on a graph that may have cycles, visiting one more input keeps that an edge found not ready uses one that is not ready, and readiness never comes back |
| Scan.LooseEnds | src/graph.cc:109-131 | and so does the end of the scan of an edge |
| ScanToPlan.ScanIsConsistent | src/graph.cc:114-129 | what the scan leaves behind is what planning relies on: a clean edge that is not ready has a producer that is not ready |
| ScanToPlan.LooseIsConsistent | src/graph.cc:114-129 | the same after the scan of a graph with single outputs that may have cycles |
| ScanToPlan.ScansAgree | src/graph.cc:61-132 | a later scan does not change the flags of what was scanned before |
| ScanToPlan.PlanIsExact | src/build.cc:263-312 | an entry of the plan is wanted iff its edge is out of date and makes something, and it has no missing source input |
| ScanToPlan.WorkLeft | src/build.h:55 | the commands wanted are exactly those that lead to the target and have to run, and there is work to do iff there are any |
| ScanToPlan.ReadyOrPlanned | src/build.cc:279-307 | whatever leads to the target is ready or in the plan |
| ScanToPlan.SourceTarget | src/build.cc:581-588 | looking up the time of a source target leaves right flags iff the file was known already or exists, and the file counts as dirty iff it was known to be missing |
| ScanExamples.ScanCycle | src/graph.cc:61-132 | scanned for a file of the edge that is out of date, a cycle of two edges leaves the other edge ready, though it uses a dirty file |
| ScanExamples.UnseenCycle | src/build.cc:581-594 | constructed and scanned, that target is added without an error although it is needed to make itself; a scan for the other file then takes readiness from an edge on which the plan relies |
| Build.CommandRunner.CanRunMore | src/build.cc:494-498 | true whenever no process runs and the parallelism is positive, whether or not ended ones wait to be reaped; true only while fewer processes run than may, or in a dry run |
| Build.CommandRunner.StartCommand | src/build.cc:500-508 | never more processes run than may |
| Build.CommandRunner.WaitForCommand | src/build.cc:510-527 | some ended command is reaped, with its status; only when none is left, the runner looks which have ended, which may be several, and may be interrupted; a dry run is never interrupted and never fails |
| Build.Builder.AddTarget | src/build.cc:581-594 | on a graph with an order the edge that makes the target gets an entry iff it or something leading to it has to run, and the only errors are deps that cannot be loaded and source files that are missing; for the first target on a graph with single outputs a cycle may be reported as well, and it is one of edges that are not ready; without an error the plan has an order and no entry is on a cycle of edges that are not ready; a source target is reported iff a scan has found it missing before, and otherwise accepted as clean |
| Build.Builder.AddOutput | src/build.cc:583-594 | the same for a target that is made by an edge |
| Build.Builder.AddSource | src/build.cc:582-591 | a source target is refused iff it is missing and a scan has come across it; otherwise it is accepted as clean |
| Build.Builder.ReportedCycle | src/build.cc:314-332 | a cycle that is reported is one of edges each of which waits for another |
| Build.Builder.Build | src/build.cc:600-682 | ends for every mix of successes, failures, phony edges, interrupts and restats; never in the state reported as a bug; success means that everything planned was built, with as many commands started as are counted then; giving up means that nothing runs and says how many commands failed; fewer commands fail than the number allowed and twice the parallelism together; an interrupt leaves with the runner all running commands but one that died of it; without heeded restat rules a success overdraws a bounded pool iff some entry of it was unwanted at the start |
| Build.Builder.StartMore | src/build.cc:621-638 | a command is started only while failures are allowed and the runner has room; when nothing could be started and nothing runs, nothing is ready |
| Build.Builder.ReapNext | src/build.cc:640-663 | one running command fewer, and one allowed failure fewer if it failed; otherwise an interrupt, by the wait or by the status of the command, or a log that cannot be written |
| Build.Builder.GiveUp | src/build.cc:665-677 | when nothing runs and nothing can be started, some command failed, unless no failure was allowed from the start |
| Build.Builder.FinishCommand | src/build.cc:717-813 | it succeeds iff the command did and its dependencies could be extracted; a failure keeps the entry and the slot; a success prunes behind exactly the outputs of a restat rule whose time did not change, thoroughly, and then ends the edge; only a log that cannot be written stops the build; the remaining work gets smaller |
| Build.Builder.CleanUnchanged | src/build.cc:750-763 | the restat loop prunes exactly behind the outputs whose time is the same, except in a dry run, and never touches a running edge |
| Build.Builder.StartNext | src/build.cc:623-638 | takes and starts one ready edge; a phony one ends at once; nothing iff none is ready |
| Build.Builder.StartEdge | src/build.cc:684-715 | a phony edge starts no command |
| Build.Builder.Reap | src/build.cc:640-663 | one running command fewer, unless the wait is interrupted or the command died of an interrupt; then nothing changes in the plan, and the runner has given up the edge of the command that died |
| Build.Builder.RunBuild | src/daemon.cc:697-735 | the build cannot get stuck, and a success has built all that was planned, on every graph that has an order or single outputs, where a cycle is an error of the target; with an order, nothing to do is reported iff no command has to run for the target, after a success everything that leads to the target is ready, and unless restat rules were heeded, exactly the commands that had to run were started; a source file is up to date, missing or not |
| Build.NewBuilder | src/daemon.cc:697-702 | a builder over a freshly loaded graph, with an order or with single outputs, satisfies all that its calls rely on |
| Marking.Daemon.MarkNodeDirty | src/daemon.cc:632-656 | ends on every graph; marks only what depends on the node; in a part of the graph whose edges have single outputs, or that has an order and whose outputs share their dependents, leaves nothing unmarked; stops at an edge that is not ready |
| Marking.Daemon.MarkDependents | src/daemon.cc:642-653 | the loop over the out-edges that are not order-only: all dependents are dirty and their edges not ready |
| Marking.Daemon.MarkChanged | src/daemon.cc:605-613 | starting from a state in which all that is made from outputs of unready edges is dirty: for any list of changed files, in any order, the dirty set grows by exactly what depends on them within the part of the graph that was scanned, by nothing else anywhere, and only edges that make some of it lose their readiness; such a state is left again |
| Marking.Daemon.OverlooksSecondOutput | src/daemon.cc:635-640 | marking all outputs of a ready edge one by one overlooks a dependent of the second output that does not depend on the first |
| Marking.Daemon.OverlooksBehindUnready | src/daemon.cc:637-638 | whatever was clean behind an edge that is not ready stays clean when an output of the edge is marked |
| Marking.HarmfulPair | src/daemon.cc:632-656 | where a part of the graph has an order but outputs do not share their dependents, there is always a pair of outputs of which marking overlooks a dependent |
| Marking.MarkLast | src/daemon.cc:642-655 | once the dependents of a file were visited, nothing is left to do behind its edge |
| Marking.Reached | src/daemon.cc:632-656 | a visited file and a state without pending work leave nothing unmarked that depends on the file |
| Rebuild.ScanIsMarked | src/daemon.cc:605-613 | a scan leaves the daemon a state it can start from if every edge that is not ready is itself out of date |
| Rebuild.MarkAfterBuild | src/daemon.cc:605-625 | after a successful build the daemon can start: among the files that lead to the target, exactly those become dirty that depend on the changed ones |
| DepsLogFormat.WordOfLe32 | src/deps_log.cc:133-145 | a 32-bit word is read back as it was written |
| DepsLogFormat.SignedBits | src/deps_log.cc:138-140 | a signed time survives being stored as a word |
| DepsLogFormat.ReadEncoded | src/deps_log.cc:200-260 | whatever follows it, a record that was written is read back, padding, size bit and checksum included |
| DepsLogFormat.ReadCutOff | src/deps_log.cc:203-215 | a record that was cut off is noticed iff its size word survived |
| DepsLogFormat.NulPath | src/deps_log.cc:236-242 | stripping the padding reads in front of the buffer iff the path holds one or two NULs and nothing else, and takes over the empty path only for three NULs |
| DepsLogRecovery.LoadPrefix | src/deps_log.cc:196-261 | loading any prefix that holds the header yields exactly the records wholly within it |
| DepsLogRecovery.RecoveryIsExact | src/deps_log.cc:263-280 | after loading a prefix the file ends at the last whole record iff it was cut there or at least four bytes further |
| DepsLogRecovery.StrayByte | src/deps_log.cc:203-208 | one byte left of a size word stays in the file and makes the next load lose the record added behind it |
| DepsLogRecovery.NoOverrun | src/deps_log.cc:203-215 | a log that a crash cut off anywhere is read within the buffer |
| DepsLogRecovery.StrayOverrun | src/deps_log.cc:203-215 | a stray byte, a deps record with more than 510 inputs behind it and enough further bytes make a read go over the end of the buffer |
| DepsLogRecovery.OverrunInput | src/deps_log.cc:203-215 | such an input |
| DepsLogRecovery.AppendRecord | src/deps_log.cc:126-156 | adding a record to a log of whole records gives one |
| DepsLogRecovery.LogIsRewritable | src/deps_log.cc:323-333 | every record that a log holds is small enough to be written again |
| DepsLogRecovery.ExactlyOnce | src/deps_log.cc:323-333 | in a compacted log each output with deps has exactly one deps record |
| DepsLogRecovery.NothingDead | src/deps_log.cc:284-290 | a compacted log counts as many records as outputs and is not compacted again |
| DepsLog.State.GetNode | src/state.cc:112-120 | one node for each path |
| DepsLog.DepsLog.RecordDeps | src/deps_log.cc:86-156 | afterwards the node has these deps and all others have theirs, ids are dense, and the file is exactly the log of what is in memory; refused only for size, with file and memory still in step, or by a failed write, which leaves part of one record; recording the same deps again writes nothing |
| DepsLog.DepsLog.RecordId | src/deps_log.cc:365-393 | the node gets the next id and the file its path record |
| DepsLog.DepsLog.AssignIds | src/deps_log.cc:91-103 | all nodes have ids, and nothing changed if they had |
| DepsLog.DepsLog.IsRecorded | src/deps_log.cc:105-120 | the comparison loop decides equality with the recorded deps |
| DepsLog.DepsLog.WriteDeps | src/deps_log.cc:126-153 | the words written are those of the record |
| DepsLog.DepsLog.UpdateDeps | src/deps_log.cc:354-363 | one slot changes, the vector grows as needed, and it is told whether there were deps before |
| DepsLog.DepsLog.LoadDeps | src/deps_log.cc:217-234 | a deps record is taken over iff its ids are known, and counted as unique iff it is the first for its output |
| DepsLog.DepsLog.LoadPath | src/deps_log.cc:236-260 | a path record is taken over iff its checksum is the next id and the path is new; an empty body is a failed assertion, a path of one or two NULs a read in front of the buffer |
| DepsLog.DepsLog.LoadRecords | src/deps_log.cc:196-261 | the read loop computes the view of the bytes, the number of deps records and the number of outputs with deps, or ends in a failed assertion or a read outside the buffer exactly when the bytes say so |
| DepsLog.DepsLog.Load | src/deps_log.cc:164-293 | memory holds what the good records say; a file of another format is removed; a broken tail is cut off, unless that fails; a log read to the end is marked for compaction iff most of its deps records are dead; nothing is promised once a read went over the end of the buffer |
| DepsLog.DepsLog.LoadLog | src/deps_log.cc:164-293 | loading any prefix of a log that was written reproduces the ids and the last deps of the whole records in it, and the file is fit for appending iff it was cut at the end of a record or was cut off there |
| DepsLog.DepsLog.OpenForWrite | src/deps_log.cc:43-78 | a log that was marked for it is compacted first, with the same deps for every node, whatever else the file holds; a new file gets the header |
| DepsLog.DepsLog.ClearIds | src/deps_log.cc:318-321 | no node keeps an id |
| DepsLog.DepsLog.CopyDeps | src/deps_log.cc:323-333 | the new log tells the same deps for every node |
| DepsLog.DepsLog.Recompact | src/deps_log.cc:303-352 | if it succeeds, every node has the deps it had, ids are a dense bijection with the nodes again, there is one deps record for each output with deps, and the file is fit for appending, even if it was not |
| DepsLog.StillRecordable | src/deps_log.cc:328-332 | compaction is never refused for size |
| DepsLog.ReadBack | src/deps_log.cc:164-293 | after any recording and compacting that succeeded, a process that starts with the file and no nodes gets the same ids and the same last deps, up to the identity of nodes |
| DepsLog.SameLogSameDeps | src/deps_log.cc:164-293 | two processes that hold the same log agree on ids and deps up to the identity of nodes |
| LineReader.DeliversLines | src/build_log.cc:183-212 | reading through a buffer yields exactly the complete lines, in order, iff no newline-terminated line is longer than the buffer allows |
| LineReader.LineReader.ReadLine | src/build_log.cc:183-212 | each call yields the next line, or drops a buffer without a newline; the reader never gets stuck |
| LineReader.LineReader.Refill | src/build_log.cc:197-205 | moving the rest to the front and refilling changes nothing of what is still to be read |
| LineReader.LineReader.FindNewline | src/build_log.cc:196 | the first newline in the buffer, if there is one |
| LineReader.LineReader.Advance | src/build_log.cc:184-194 | the next line starts behind the last newline, or at the start of a refilled buffer |
| BuildLog.AtoiOfDecimal | src/build_log.cc:271-285 | a printed decimal is read back |
| BuildLog.StrtoullOfHex | src/build_log.cc:310-312 | a printed 64-bit hash is read back |
| BuildLog.ParseEntryLine | src/build_log.cc:260-317 | a line that was printed for an output without tab, newline or NUL is read back |
| BuildLog.RoundTrip | src/build_log.cc:224-338 | a log that was written is loaded over the entries there are, the last entry for an output winning, with the numbers of entries and of new outputs, if its lines fit the buffer |
| BuildLog.BuildLog.RecordCommand | src/build_log.cc:139-165 | all outputs of the edge get the entry, in memory and, if the file is open, in the file, to which their lines are added, or a part of them after a failure; a file that is the log of the entries stays that |
| BuildLog.BuildLog.Load | src/build_log.cc:224-338 | adds the entries of the lines delivered; an old or foreign file is removed; the log is marked for compaction iff its version is older or most of its entries are dead |
| BuildLog.BuildLog.LoadLog | src/build_log.cc:224-338 | of a log that was written and cut off anywhere, exactly the entries are there that lie wholly within the rest; the file is the log of them iff it was cut at the end of a line; it is started over iff a part of the first line is left |
| BuildLog.CutLog | src/build_log.cc:183-212 | what is left of a log is the longest log of whole entries that fits, and a part of a line |
| BuildLog.BuildLog.StoreLine | src/build_log.cc:242-317 | one delivered line adds its entry and is counted, or adds nothing |
| BuildLog.BuildLog.AddLine | src/build_log.cc:260-317 | the entry of a line replaces that of its output, counted as unique iff there was none |
| BuildLog.BuildLog.OpenForWrite | src/build_log.cc:111-137 | a log that was marked for it is compacted first, and is the log of the entries then; a new file gets the header; a log of the entries stays one |
| BuildLog.BuildLog.Recompact | src/build_log.cc:353-391 | the entries stay, and the new file holds each of them once |
| BuildLog.PrintAll | src/build_log.cc:365-377 | one line for each entry, in any order of the table |
| BuildLog.ReadBack | src/build_log.cc:224-338 | what was recorded is there for a process that starts with the file, if outputs can be printed and lines fit the buffer |
| BuildLog.CompactedIsReadable | src/build_log.cc:353-391 | compaction writes nothing that had not been written before, and one line for each output, so that a log that could be read back still can |
| BuildLog.CompactAndReadBack | src/build_log.cc:353-391 | after compaction a process that starts with the file has the same entries, and does not compact them again |
| BuildLog.Session | src/build_log.cc:111-165 | load, open and record: the file is the log of the entries again, for the next process to read back, iff the log was cut at the end of a line, or before its first line says the version, or is compacted |
| BuildLog.BehindStartTime | src/build_log.cc:260-285 | an entry that is added behind a part of a start time is read with another start time |
| BuildLog.BehindEndTime | src/build_log.cc:260-296 | an entry that is added behind a part of an end time is read for another output |
| EditDistance.DistIsDistance | src/edit_distance.cc:23-31 | the recurrence computes the least cost of an edit script, with and without replacement |
| EditDistance.DistanceIsUnique | src/edit_distance.cc:23-31 | there is only one least cost |
| EditDistance.NoCheaper | src/edit_distance.cc:46-55 | no script beats the recurrence, greedy matches included |
| EditDistance.Cheapest | src/edit_distance.cc:46-55 | some script attains it |
| EditDistance.Neighbours | src/edit_distance.cc:50-54 | adjacent cells differ by at most one, which makes the greedy match right |
| EditDistance.RowsRise | src/edit_distance.cc:59-60 | the least entry of a row never exceeds the final distance |
| EditDistance.FillRow | src/edit_distance.cc:42-57 | a row is computed from the one before, with its least entry |
| EditDistance.EditDistance | src/edit_distance.cc:19-66 | the distance, or one more than a positive limit only if the distance exceeds it |
| EditDistance.SpellcheckStringV | src/util.cc:218-235 | the first of the nearest words within 3; nothing iff there is none |
| EditDistance.SpellcheckNode | src/state.cc:130-145 | some nearest node within 3; nothing iff there is none |
| Canonicalize.CanonicalizePath | src/util.cc:99-176 | the in-place loop computes the resolved components joined, without the last separator, or the error they lead to; it never grows the path and leaves the buffer behind it alone |
| Canonicalize.CopyNext | src/util.cc:133-167 | one turn of the loop resolves one component, reading ahead of where it writes |
| Canonicalize.ResolveUp | src/util.cc:139-150 | ".." takes back the last name, or is kept when there is none |
| Canonicalize.CopyDotDot | src/util.cc:146-148 | a leading ".." is copied with the character behind it |
| Canonicalize.CopyNextName | src/util.cc:159-166 | a name is copied and its place remembered |
| Canonicalize.CopyComponent | src/util.cc:164-166 | the overlapping copy moves the component and its separator |
| Canonicalize.KindOf | src/util.cc:134-157 | the branches tell the empty component, ".", ".." and names apart |
| Canonicalize.CanonicalIsClean | src/util.cc:99-176 | a non-empty result has no empty or "." components, and ".." only at the start |
| Canonicalize.CanonicalIsFixed | src/util.cc:99-176 | a non-empty result is left alone by a second call |
| Canonicalize.SameLocation | src/util.cc:99-176 | without symbolic links the result denotes the same location, from every directory, iff the path is not a rooted one whose components lead back to the start without ever leading above it or more than 30 names below |
| Canonicalize.EmptyIff | src/util.cc:169-174 | exactly the paths whose components so cancel out leave nothing: a rooted one becomes the empty path, any other is refused |
| Canonicalize.RefusedLocation | src/util.cc:169-172 | only relative paths to the current directory are refused as empty |
| Canonicalize.RootVanishes | src/util.cc:117-131 | the root directory itself becomes the empty path |

## Left out

- The links of the graph (inputs, outputs, `in_edge`, the two lists of out-edges) do not change in the model; they are the value `Shape`. Growing `inputs_` while implicit dependencies are loaded (`PreallocateSpace`, `CreatePhonyInEdge`, src/graph.cc) is not modelled: what loading comes to is given for each edge.
- `Shape.WellFormed` asks that an edge is the `in_edge` of all its outputs. Manifests with two rules for one file, for which the code prints a warning (src/state.cc:156-161), are outside the model.
- The order in which sets and hash tables are walked is left open, so the results hold for every order.
- `Stat` never returns -1, and file times do not change during a scan.
- Build.Builder.AddTarget: stated for graphs with an order, and for the first target on graphs whose edges have one output each. On a cycle it depends on where the scan starts which edges are found ready, only cycles of edges that are not ready are reported, and the scan for another target may take readiness from an edge on which the plan relies (`ScanExamples.UnseenCycle`), so nothing is promised for further targets there. On cyclic graphs with several outputs the scan ends (`Scan.DependencyScan.RecomputeDirty`) and the plan is right for flags as a scan should leave them (`Plan.Plan.AddTarget`).
- Build.Builder.AddOutput: the same.
- Build.Builder.RunBuild: what exactly has to run, and that all that leads to the target is ready, is stated for graphs with an order.
- Build.Builder.Build: proved for plans with an order, from unused pools. The pools and flags that a build with failures leaves behind are not carried into a next build.
- Build.Builder.FinishCommand: which outputs have the same time as before, whether dependencies can be extracted, and whether the logs can be written are parameters, and the main loop leaves them open; the logs have their own models.
- Build.Builder.StartEdge: whether directories, response files and processes can be made is left open.
- DepsLog.DepsLog.Write: how much of a failed write reaches the file is left open.
- Build.CommandRunner.CanRunMore: the load average is left open.
- `Builder::Cleanup` (src/build.cc:542-568), which after an interrupt removes the outputs of the commands the runner still knows.
- Response files, depfile removal, directories, status display, metrics, and all error texts but the cycle path and the missing file.
- The file monitor, and the daemon's communication.
- Marking.Daemon.MarkNodeDirty: where edges with several outputs lie on cycles it is proved to end and to mark nothing wrongly; that it marks everything is proved for single outputs or parts with an order.
- DepsLog.DepsLog.RecordDeps: for paths without NUL that fit bytes, times of 32 bits, and fewer than 2^31 nodes.
- DepsLog.DepsLog.LoadDeps: a record with a negative id counts as a failed assertion, as do the cases the code asserts.
- DepsLog.DepsLog.Recompact: nothing is promised after a failure. The code has then taken the ids from all nodes.
- DepsLog.DepsLog.OpenForWrite: compaction is promised for what was read from a log that the model wrote, whole or cut off, not for other readable contents.
- BuildLog.Session: the log that is loaded was written in the current version, with lines that fit the buffer; `BuildLog.BuildLog.Load` covers all files, and `BuildLog.BuildLog.OpenForWrite` their compaction.
- BuildLog.AtoiOfDecimal: the model's integers have no bound; the code's numbers are 32 bits wide when they are printed and when they are read.
- `sscanf` accepts white space that the model's reading of the version line does not, and lines are split at tabs without the NULs the code puts there for `atoi`.
- Canonicalize.CanonicalizePath: the branch for network paths on Windows is not modelled; the process ends where the model returns `TooManyComponents`.
- Command hashes are numbers; evaluating commands, the manifest grammar, the lexer, depfiles, `Cleaner`, `GraphViz` and the tools are not part of this model.
