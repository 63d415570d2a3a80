// The main loop of a build (Builder::Build and FinishCommand in src/build.cc).

module Build {
  import opened Graph
  import opened PlanModel
  import opened PlanSteps
  import opened PlanCascade
  import opened PlanTargets
  import opened PlanCycles
  import opened PlanPruning
  import opened PlanLiveness
  import opened PlanPools
  import opened Staleness
  import opened Scan
  import opened ScanToPlan
  import opened Plan

  datatype BuildResult =
    Success | StartFailed | Interrupted | LogFailed | SubcommandFailed | CannotProceed | Stuck

  datatype RunResult = TargetProblem(error: TargetError) | UpToDate | Ran(result: BuildResult)

  /** How a command ended; one that dies of an interrupt signal has a status of its own. */
  datatype ExitStatus = ExitSuccess | ExitFailure | ExitInterrupted

  datatype CommandResult = CommandResult(edge: Edge, status: ExitStatus)

  /** Runs commands, or in a dry run only pretends to. Which one ends next, how it ends and how loaded
      the machine is are not known to the build. Of the commands that are active, some may have ended
      without having been reaped. */
  class CommandRunner {
    const parallelism: nat
    const dryRun: bool
    var active: set<Edge>
    var finished: set<Edge>

    constructor (parallelism: nat, dryRun: bool)
      ensures this.parallelism == parallelism && this.dryRun == dryRun && active == finished == {} && Valid()
    {
      this.parallelism, this.dryRun, active, finished := parallelism, dryRun, {}, {};
    }

    /** No more commands run than may, and fewer have ended without having been reaped. */
    ghost predicate Valid()
      reads this
    {
      && finished <= active
      && (!dryRun ==> |active - finished| <= parallelism && (finished == {} || |finished| < parallelism))
    }

    ghost predicate HasRoom()
      reads this
    {
      dryRun || |active - finished| < parallelism
    }

    /** Only commands that still run count, not those that have ended. */
    method CanRunMore() returns (r: bool)
      ensures active <= finished && 0 < parallelism ==> r
      ensures r ==> HasRoom()
    {
      var running := active - finished;
      var loadPermits: bool := *;
      r := dryRun || (|running| < parallelism && (running == {} || loadPermits));
    }

    method StartCommand(edge: Edge) returns (ok: bool)
      requires Valid() && HasRoom()
      modifies this
      ensures active == (if ok then old(active) + {edge} else old(active)) && finished == old(finished)
      ensures Valid()
    {
      ok := *;
      if ok {
        assert active + {edge} - finished <= active - finished + {edge};
        SmallerSet(active + {edge} - finished, active - finished + {edge});
        active := active + {edge};
      }
    }

    /** Some command that ended is reaped. Only when none is left, the runner looks which have ended
        in the meantime, and there may be several; that wait may be interrupted by the user. */
    method WaitForCommand() returns (result: Option<CommandResult>)
      requires active != {} && Valid()
      modifies this
      ensures Valid()
      ensures result.None? ==> active == old(active) && old(finished) == {}
      ensures result.Some? ==> result.value.edge in old(active) && active == old(active) - {result.value.edge}
      ensures result.Some? && old(finished) != {} ==>
        result.value.edge in old(finished) && finished == old(finished) - {result.value.edge}
      ensures dryRun ==> result.Some? && result.value.status == ExitSuccess
    {
      if finished == {} {
        var interrupted: bool := *;
        if interrupted && !dryRun {
          return None;
        }
        var ended: set<Edge> :| ended <= active && ended != {};
        SmallerSet(ended, active);
        finished := ended;
      }
      var edge :| edge in finished;
      var status: ExitStatus := *;
      assert active - {edge} - (finished - {edge}) == active - finished;
      SmallerSet(active - finished, active);
      active, finished := active - {edge}, finished - {edge};
      return Some(CommandResult(edge, if dryRun then ExitSuccess else status));
    }
  }

  lemma SmallerSet(a: set<Edge>, b: set<Edge>)
    requires a <= b
    ensures |a| <= |b|
  {
    CountSubset(a, b);
  }

  /** Why a target could not be added. */
  datatype TargetError = NoProblem | DepsNotLoaded | NotInPlan(why: AddError)

  class Builder {
    const plan: Plan
    const scan: DependencyScan
    const runner: CommandRunner
    const failuresAllowed: nat
    const log: Log

    constructor (plan: Plan, scan: DependencyScan, runner: CommandRunner, failuresAllowed: nat)
      ensures this.plan == plan && this.scan == scan && this.runner == runner
      ensures this.failuresAllowed == failuresAllowed && log == scan.w.log
    {
      this.plan, this.scan, this.runner, this.failuresAllowed := plan, scan, runner, failuresAllowed;
      this.log := scan.w.log;
    }

    /** Between the calls that add targets to an empty plan: the plan lies within what was scanned. If
        the graph has an order (`rank`), all flags that were scanned are right; without, edges have one
        output each. */
    ghost predicate Targeting(d: Search, rank: Option<map<Edge, nat>>)
      reads this, plan, scan, plan.sh.edges, plan.sh.nodes, plan.sh.pools, scan.sh.edges, scan.sh.nodes
    {
      && plan.Linked() && scan.Linked() && scan.sh == plan.sh
      && Core(plan.sh, plan.s) && Adding(plan.sh, plan.s) && Searching(plan.sh, plan.s, [], d)
      && WellMarked(scan.sh, scan.w, scan.s, rank) && plan.s.done == scan.s.done && plan.s.dirty == scan.s.dirty
      && plan.s.planned <= scan.s.scanned
    }

    /** On a graph without an order only the flags that the first scan leaves are characterised. */
    ghost predicate Addable(rank: Option<map<Edge, nat>>)
      reads scan
    {
      rank.Some? || (scan.s.known == {} && scan.s.scanned == {})
    }

    /** Takes over the flags that a further scan has set. */
    ghost method Resync(d: Search, before: ScanState, rank: Option<map<Edge, nat>>)
      requires scan.Linked() && scan.sh == plan.sh && WellMarked(scan.sh, scan.w, before, rank)
      requires WellMarked(scan.sh, scan.w, scan.s, rank) && (rank == None ==> before.scanned == {})
      requires Core(plan.sh, plan.s) && Adding(plan.sh, plan.s) && Searching(plan.sh, plan.s, [], d)
      requires plan.s.planned <= before.scanned <= scan.s.scanned && plan.s.done == before.done
      requires plan.s.dirty == before.dirty
      requires plan.want == plan.s.want && plan.ready == plan.s.ready && plan.commandEdges == plan.s.commands
      requires plan.wantedEdges == plan.s.wanted && plan.sh.PoolsHold(plan.s.use, plan.s.delayed)
      modifies plan`s
      ensures plan.s == old(plan.s).(done := scan.s.done, dirty := scan.s.dirty) && plan.Linked()
      ensures Core(plan.sh, plan.s) && Adding(plan.sh, plan.s) && Searching(plan.sh, plan.s, [], d)
    {
      hide Core, Adding, Searching, AgreeOn, Right, Loose, Shape.WellFormed, Shape.Flagged, Shape.SingleOutput;
      ghost var s0 := plan.s;
      plan.s := s0.(done := scan.s.done, dirty := scan.s.dirty);
      if rank.Some? {
        ScansAgree(plan.sh, scan.w, before, scan.s, s0, plan.s);
      } else {
        AgreeOnNothing(plan.sh, s0, plan.s);
      }
      PlanUnaffected(plan.sh, s0, plan.s, d, before.scanned);
    }

    /** A source file that is asked for before any scan has come across it, and that is missing. */
    ghost predicate Unnoticed(node: Node)
      reads scan
    {
      node !in scan.sh.producer && node !in scan.s.known && node in scan.w.disk && scan.w.disk[node] == 0
    }

    /** A source file that a scan has found to be missing. */
    ghost predicate Noticed(node: Node)
      reads scan
    {
      node in scan.s.known && node in scan.w.disk && scan.w.disk[node] == 0
    }

    /** Scans what leads to `node` and adds what has to run to the plan. The errors are deps that cannot
        be loaded, source files that are missing and, on a graph without an order, cycles of edges that
        are not ready; without an error the plan has an order. On a graph with an order the edge that
        makes `node` gets into the plan iff something leading to it, or the edge itself, has to run. A
        missing source file that is asked for directly is reported exactly if a scan has come across it
        before; otherwise it counts as clean, and as examined, from then on. */
    method AddTarget(node: Node, ghost d: Search, ghost rank: Option<map<Edge, nat>>)
      returns (err: TargetError, ghost d': Search, ghost culprit: Edge?)
      requires Targeting(d, rank) && Addable(rank) && node in plan.sh.nodes
      modifies plan, scan, plan.sh.edges, plan.sh.nodes, plan.sh.pools
      ensures err == NoProblem && !old(Unnoticed(node)) ==> Targeting(d', rank)
      ensures err == NoProblem ==> old(plan.s).want.Keys <= plan.s.want.Keys && Acyclic(plan.sh, plan.s.planned)
      ensures err == NoProblem ==> forall e :: e in plan.s.want ==> !OnCycle(plan.sh, plan.s.done, e)
      ensures err == NoProblem && node in plan.sh.producer ==> plan.sh.producer[node] in plan.s.done + plan.s.want.Keys
      ensures rank.Some? && err == NoProblem && node in plan.sh.producer ==>
        (Blocked(plan.sh, scan.w, plan.sh.producer[node]) <==> plan.sh.producer[node] in plan.s.want)
      ensures err == DepsNotLoaded ==> node in plan.sh.producer && culprit != null
      ensures err == DepsNotLoaded ==>
        scan.w.Loading(culprit) == DepsError && Reaches(plan.sh, culprit, plan.sh.producer[node])
      ensures err.NotInPlan? ==> IsMissing(err.why) || (rank == None && IsCycle(err.why))
      ensures node !in plan.sh.producer ==> (err != NoProblem <==> old(Noticed(node)))
      ensures old(Unnoticed(node)) ==> err == NoProblem && node in scan.s.known && node !in scan.s.dirty
      ensures old(Unnoticed(node)) ==> NodeDirty(plan.sh, scan.w, node) && !Right(plan.sh, scan.w, scan.s, {})
    {
      assert scan.sh == plan.sh;
      assert node in plan.sh.producer ==> !Unnoticed(node);
      hide *;
      if node in plan.sh.producer {
        err, d', culprit := AddOutput(node, d, rank);
      } else {
        err, d' := AddSource(node, d, rank);
        culprit := null;
      }
    }

    /** `AddTarget` for a source file. */
    method AddSource(node: Node, ghost d: Search, ghost rank: Option<map<Edge, nat>>)
      returns (err: TargetError, ghost d': Search)
      requires Targeting(d, rank) && node in plan.sh.nodes && node !in plan.sh.producer
      modifies plan, scan, node`mtime, plan.sh.pools
      ensures err != DepsNotLoaded && (err.NotInPlan? ==> IsMissing(err.why))
      ensures err != NoProblem <==> old(Noticed(node))
      ensures err == NoProblem && !old(Unnoticed(node)) ==> Targeting(d', rank)
      ensures err == NoProblem ==> old(plan.s).want.Keys <= plan.s.want.Keys && Acyclic(plan.sh, plan.s.planned)
      ensures err == NoProblem ==> forall e :: e in plan.s.want ==> !OnCycle(plan.sh, plan.s.done, e)
      ensures plan.s == old(plan.s) && (err == NoProblem ==> plan.Linked())
      ensures old(Unnoticed(node)) ==> err == NoProblem && node in scan.s.known && node !in scan.s.dirty
      ensures old(Unnoticed(node)) ==> NodeDirty(plan.sh, scan.w, node) && !Right(plan.sh, scan.w, scan.s, {})
    {
      hide *;
      err := NoProblem;
      ghost var unnoticed := Unnoticed(node);
      HasOrder(d, rank);
      StatTarget(node, d, rank);
      var e;
      e, d' := PlanTarget(node, d);
      if e != NoError {
        err := NotInPlan(e);
      } else {
        PlanHasOrder(node, d', rank);
        IsPlannable(node, d');
        if !unnoticed {
          StillTargeting(node, d', rank);
        }
      }
    }

    /** `AddTarget` for a target that is made by an edge. */
    method AddOutput(node: Node, ghost d: Search, ghost rank: Option<map<Edge, nat>>)
      returns (err: TargetError, ghost d': Search, ghost culprit: Edge?)
      requires Targeting(d, rank) && Addable(rank) && node in plan.sh.nodes && node in plan.sh.producer
      modifies plan, scan, plan.sh.edges, plan.sh.nodes, plan.sh.pools
      ensures err == NoProblem ==> Targeting(d', rank) && old(plan.s).want.Keys <= plan.s.want.Keys
      ensures err == NoProblem ==> plan.sh.producer[node] in scan.s.scanned && Acyclic(plan.sh, plan.s.planned)
      ensures err == NoProblem ==> forall e :: e in plan.s.want ==> !OnCycle(plan.sh, plan.s.done, e)
      ensures err == NoProblem ==>
        forall f :: f in scan.s.scanned ==> f in old(scan.s).scanned || Reaches(plan.sh, f, plan.sh.producer[node])
      ensures err == NoProblem ==> plan.sh.producer[node] in plan.s.done + plan.s.want.Keys
      ensures rank.Some? && err == NoProblem ==>
        (Blocked(plan.sh, scan.w, plan.sh.producer[node]) <==> plan.sh.producer[node] in plan.s.want)
      ensures err == DepsNotLoaded ==> culprit != null && scan.w.Loading(culprit) == DepsError
      ensures err == DepsNotLoaded ==> Reaches(plan.sh, culprit, plan.sh.producer[node])
      ensures err.NotInPlan? ==> IsMissing(err.why) || (rank == None && IsCycle(err.why))
    {
      hide *;
      err, d', culprit := NoProblem, d, null;
      HasOrder(d, rank);
      var ok;
      ok, culprit := ScanTarget(node, d, rank);
      if !ok {
        return DepsNotLoaded, d, culprit;
      }
      ScannedIsPlannable(node, d, rank);
      if plan.sh.producer[node].outputsReady {
        PlanHasOrder(node, d, rank);
        BlockedIsWanted(node, d, rank);
        return;
      }
      var e;
      e, d' := PlanTarget(node, d);
      if e != NoError {
        err := NotInPlan(e);
        OrNoCycle(e, rank);
      } else {
        PlanHasOrder(node, d', rank);
        BlockedIsWanted(node, d', rank);
        StillTargeting(node, d', rank);
      }
    }

    lemma HasOrder(d: Search, rank: Option<map<Edge, nat>>)
      requires Targeting(d, rank)
      ensures if rank.Some? then Ranked(plan.sh, plan.sh.edges, rank.value) else plan.sh.SingleOutput()
      ensures scan.sh == plan.sh && plan.sh.WellFormed()
    {}

    lemma PlanHasOrder(node: Node, d: Search, rank: Option<map<Edge, nat>>)
      requires Plannable(node, d)
      requires if rank.Some? then Ranked(plan.sh, plan.sh.edges, rank.value) else plan.sh.SingleOutput()
      ensures Acyclic(plan.sh, plan.s.planned)
      ensures forall e :: e in plan.s.want ==> !OnCycle(plan.sh, plan.s.done, e)
    {
      hide Core, Adding, Searching, Scanned, NeededFrom, NodeDirty, Acyclic, OnCycle, Shape.WellFormed;
      PlannedEntries(plan.sh, plan.s);
      var rank', top := RankPlan(plan.sh, rank, plan.s, d);
      SearchedIsClosed(plan.sh, plan.s, d);
      forall e | e in plan.s.want ensures !OnCycle(plan.sh, plan.s.done, e) {
        if OnCycle(plan.sh, plan.s.done, e) {
          OnCycleIsCyclic(plan.sh, plan.s, e);
        }
      }
    }

    lemma OrNoCycle(err: AddError, rank: Option<map<Edge, nat>>)
      requires plan.sh.WellFormed() && (IsMissing(err) || IsCycle(err))
      requires rank.Some? ==> Ranked(plan.sh, plan.sh.edges, rank.value)
      ensures IsMissing(err) || (rank == None && IsCycle(err))
    {
      hide Shape.WellFormed, ClosedWalk, Makers, Ranked;
      if rank.Some? && IsCycle(err) {
        NoFalseAlarm(plan.sh, err.path);
      }
    }

    lemma IsPlannable(node: Node, d: Search)
      requires Plannable(node, d)
      ensures plan.Linked()
    {}

    lemma ScannedIsPlannable(node: Node, d: Search, rank: Option<map<Edge, nat>>)
      requires Targeting(d, rank) && node in plan.sh.nodes && node in plan.sh.producer
      requires plan.sh.producer[node] in scan.s.scanned
      ensures Plannable(node, d) && WellMarked(scan.sh, scan.w, scan.s, rank)
      ensures plan.sh.producer[node].outputsReady <==> plan.sh.producer[node] in plan.s.done
    {
      hide Core, Adding, Searching, WellMarked, Scanned, NodeDirty;
      MarkedIsConsistent(scan.sh, scan.w, scan.s, rank);
    }

    lemma StillTargeting(node: Node, d: Search, rank: Option<map<Edge, nat>>)
      requires Plannable(node, d) && WellMarked(scan.sh, scan.w, scan.s, rank)
      ensures Targeting(d, rank)
    {}

    /** The error names a file that is missing and that nothing makes. */
    ghost predicate IsMissing(err: AddError)
    {
      && err.MissingInput? && err.node in plan.sh.nodes && err.node !in plan.sh.producer
      && err.node in scan.w.disk && scan.w.disk[err.node] == 0
    }

    /** The error names a closed walk of files the edges of which are not ready. */
    ghost predicate IsCycle(err: AddError)
      reads scan
    {
      err.DependencyCycle? && ClosedWalk(plan.sh, err.path) && Makers(plan.sh, NodesIn(err.path)) !! scan.s.done
    }

    /** A cycle that is reported is one of edges that wait for each other. */
    lemma ReportedCycle(err: AddError) returns (e: Edge)
      requires plan.sh.WellFormed() && IsCycle(err)
      ensures OnCycle(plan.sh, scan.s.done, e) && e in Makers(plan.sh, NodesIn(err.path))
    {
      hide Shape.WellFormed;
      var edges := EdgesAlong(plan.sh, scan.s.done, err.path);
      assert err.path[0] in NodesIn(err.path);
      assert Cycle(plan.sh, scan.s.done, edges);
      e := edges[0];
    }

    /** What the second half of `AddTarget` relies on. */
    ghost predicate Plannable(node: Node, d: Search)
      reads plan, scan, plan.sh.edges, plan.sh.nodes, plan.sh.pools, scan.sh.edges, scan.sh.nodes
    {
      && plan.Linked() && scan.Linked() && scan.sh == plan.sh
      && Core(plan.sh, plan.s) && Adding(plan.sh, plan.s) && Searching(plan.sh, plan.s, [], d)
      && plan.s.done == scan.s.done && plan.s.dirty == scan.s.dirty && plan.s.planned <= scan.s.scanned
      && Scanned(plan.sh, scan.s.done, scan.s.dirty, scan.s.scanned)
      && NeededFrom(plan.sh, plan.s, scan.s.scanned, node)
      && (forall n :: n in scan.s.dirty ==> NodeDirty(plan.sh, scan.w, n))
    }

    /** The second half of `AddTarget`. */
    method PlanTarget(node: Node, ghost d: Search) returns (err: AddError, ghost d': Search)
      requires Plannable(node, d)
      modifies plan, plan.sh.pools
      ensures err == NoError ==> Plannable(node, d') && old(plan.s).want.Keys <= plan.s.want.Keys
      ensures err == NoError && node in plan.sh.producer ==> plan.sh.producer[node] in plan.s.done + plan.s.want.Keys
      ensures err != NoError ==> IsMissing(err) || (err.DependencyCycle? && IsCycle(err))
      ensures node !in plan.sh.producer ==> (err == NoError <==> node !in old(plan.s).dirty)
      ensures node !in plan.sh.producer ==> plan.s == old(plan.s) && !err.DependencyCycle?
    {
      hide Core, Adding, Searching, Scanned, NeededFrom, Explored, ClosedWalk, Makers, NodeDirty, Shape.WellFormed;
      hide Shape.PoolsHold;
      var added;
      ghost var s0 := plan.s;
      added, err, d' := plan.AddTarget(node, scan.s.scanned, d);
      if err == NoError {
        TargetPlanned(plan.sh, s0, plan.s, scan.s.scanned, d, d', node);
      } else if err.MissingInput? {
        DirtySourceIsMissing(plan.sh, scan.w, err.node);
      }
    }

    /** The first half of `AddTarget`, for a target that is made by an edge. */
    method ScanTarget(node: Node, ghost d: Search, ghost rank: Option<map<Edge, nat>>)
      returns (ok: bool, ghost culprit: Edge)
      requires Targeting(d, rank) && Addable(rank) && node in plan.sh.nodes && node in plan.sh.producer
      modifies plan`s, scan, plan.sh.edges, plan.sh.nodes
      ensures ok ==> Targeting(d, rank) && plan.s.want == old(plan.s).want && plan.sh.producer[node] in scan.s.scanned
      ensures ok ==>
        forall f :: f in scan.s.scanned ==> f in old(scan.s).scanned || Reaches(plan.sh, f, plan.sh.producer[node])
      ensures !ok ==> scan.w.Loading(culprit) == DepsError && Reaches(plan.sh, culprit, plan.sh.producer[node])
    {
      hide Core, Adding, Searching, WellMarked, Reaches, Shape.WellFormed;
      ghost var before := scan.s;
      ok, culprit := ScanFrom(node, rank);
      if ok {
        Resync(d, before, rank);
      }
    }

    method ScanFrom(node: Node, ghost rank: Option<map<Edge, nat>>) returns (ok: bool, ghost culprit: Edge)
      requires scan.Linked() && WellMarked(scan.sh, scan.w, scan.s, rank) && Addable(rank)
      requires node in scan.sh.nodes && node in scan.sh.producer
      modifies scan, scan.sh.edges, scan.sh.nodes
      ensures scan.Linked()
      ensures ok ==> WellMarked(scan.sh, scan.w, scan.s, rank)
      ensures ok ==> old(scan.s).scanned + {scan.sh.producer[node]} <= scan.s.scanned
      ensures ok ==>
        forall f :: f in scan.s.scanned ==> f in old(scan.s).scanned || Reaches(scan.sh, f, scan.sh.producer[node])
      ensures !ok ==> scan.w.Loading(culprit) == DepsError && Reaches(scan.sh, culprit, scan.sh.producer[node])
    {
      hide Right, Loose, LooseEntry, Below, Reaches, Shape.WellFormed, Shape.Flagged, Shape.SingleOutput;
      if rank.Some? {
        StartScan(scan.sh, scan.w, scan.s, rank.value, node);
      } else {
        StartLoose(scan.sh, scan.w, scan.s, node);
      }
      var examined := scan.StatIfNecessary(node);
      ok, culprit := scan.RecomputeDirty(scan.sh.producer[node], {}, rank);
    }

    /** The first half of `AddTarget`, for a source file. */
    method StatTarget(node: Node, ghost d: Search, ghost rank: Option<map<Edge, nat>>)
      requires Targeting(d, rank) && node in plan.sh.nodes && node !in plan.sh.producer
      modifies scan, node`mtime
      ensures Plannable(node, d) && plan.s == old(plan.s) && node in scan.s.known
      ensures scan.s == old(scan.s).(known := old(scan.s).known + {node})
      ensures !old(Unnoticed(node)) ==> WellMarked(scan.sh, scan.w, scan.s, rank)
      ensures old(Unnoticed(node)) ==>
        node !in plan.s.dirty && node !in scan.s.dirty && NodeDirty(plan.sh, scan.w, node)
      ensures old(Unnoticed(node)) ==> !Right(plan.sh, scan.w, scan.s, {})
      ensures node in plan.s.dirty <==> old(Noticed(node))
    {
      hide Core, Adding, Searching, Right, WellMarked, Scanned, NodeDirty, Shape.WellFormed;
      ghost var before := scan.s;
      MarkedIsConsistent(plan.sh, scan.w, before, rank);
      MarkedSource(plan.sh, scan.w, before, rank, node);
      var examined := scan.StatIfNecessary(node);
    }

    /** A target's edge is in the plan iff it is not ready. */
    lemma BlockedIsWanted(node: Node, d: Search, rank: Option<map<Edge, nat>>)
      requires Plannable(node, d) && WellMarked(scan.sh, scan.w, scan.s, rank)
      requires node in plan.sh.producer && plan.sh.producer[node] in scan.s.scanned
      requires plan.sh.producer[node] in plan.s.done + plan.s.want.Keys
      ensures rank.Some? ==>
        (Blocked(plan.sh, scan.w, plan.sh.producer[node]) <==> plan.sh.producer[node] in plan.s.want)
    {
      hide Adding, Searching, Scanned, NeededFrom, Blocked, NodeDirty, Loose, Shape.SingleOutput, Shape.WellFormed;
      assert rank.Some? ==> RightEdge(scan.sh, scan.w, scan.s, plan.sh.producer[node]);
    }

    /** The plan between two turns of the main loop. */
    ghost predicate Going(fx: Facts, rank: map<Edge, nat>, top: nat)
      reads this, plan, plan.sh.edges, plan.sh.nodes, plan.sh.pools
    {
      && plan.Linked() && Steady(plan.sh, plan.s) && plan.Known(log, fx, rank.Keys)
      && RankedBelow(plan.sh, plan.s.planned, rank, top)
      && plan.s.commands > 0 && Commands(plan.s.running) == plan.s.running
    }

    /** Once targets are in the plan and something has to run, the main loop can start. */
    lemma ReadyToBuild(d: Search, rank: Option<map<Edge, nat>>)
      returns (fx: Facts, rank': map<Edge, nat>, top: nat)
      requires Targeting(d, rank) && log == scan.w.log && plan.MoreToDo()
      ensures Going(fx, rank', top) && plan.s.running == {} && plan.s.failed == {}
    {
      hide Core, Searching, WellMarked, Steady, Counted, Overdue, WantsDirty, RankedBelow, AllExamined;
      hide Shape.WellFormed, Shape.SingleOutput;
      HasOrder(d, rank);
      PlanIsReady(plan.sh, plan.s, d);
      fx := Seen(scan.w, scan.s);
      PlannedEntries(plan.sh, plan.s);
      rank', top := RankPlan(plan.sh, rank, plan.s, d);
      forall e | e in plan.s.planned ensures AllExamined(plan.sh, fx.mtimes, e) {
        PlannedIsExamined(plan.sh, scan.w, scan.s, rank, e);
      }
      RankedKeys(plan.sh, plan.s.planned, rank', top);
    }

    lemma GoingFacts(fx: Facts, rank: map<Edge, nat>, top: nat)
      requires Going(fx, rank, top)
      ensures plan.Linked() && Steady(plan.sh, plan.s) && Core(plan.sh, plan.s)
      ensures RankedBelow(plan.sh, plan.s.planned, rank, top)
      ensures plan.s.commands > 0 && (plan.MoreToDo() <==> plan.s.wanted > 0 && plan.s.commands > 0)
    {}

    /** Starts the command of `edge`, if it has one. Making directories or the response file, or
        starting the process, may fail. */
    method StartEdge(edge: Edge) returns (ok: bool)
      requires runner.Valid() && runner.HasRoom()
      modifies runner
      ensures runner.Valid()
      ensures edge.phony ==> ok && runner.active == old(runner.active)
      ensures !edge.phony ==> runner.active == if ok then old(runner.active) + {edge} else old(runner.active)
    {
      if edge.phony {
        return true;
      }
      ok := *;
      if ok {
        ok := runner.StartCommand(edge);
      }
    }

    /** The first half of a turn: takes a ready edge and starts it; a phony edge is finished at once. */
    method StartNext(ghost fx: Facts, ghost rank: map<Edge, nat>, ghost top: nat) returns (edge: Edge?, ok: bool)
      requires Going(fx, rank, top) && runner.active == plan.s.running && runner.Valid() && runner.HasRoom()
      modifies plan, runner, plan.sh.edges`outputsReady, plan.sh.nodes`dirty, plan.sh.pools
      ensures runner.Valid()
      ensures plan.Linked() && Core(plan.sh, plan.s) && plan.s.planned == old(plan.s).planned
      ensures edge == null <==> old(plan.s).ready == {}
      ensures edge == null ==> plan.s == old(plan.s)
      ensures edge == null || ok ==> Going(fx, rank, top) && runner.active == plan.s.running
      ensures edge != null && !ok ==> plan.s.running == runner.active + {edge} != runner.active
      ensures Carried(old(plan.s), plan.s) && old(plan.s).done <= plan.s.done
      ensures plan.s.want.Keys <= old(plan.s).want.Keys && plan.s.failed == old(plan.s).failed
      ensures edge != null && ok ==> Measure(plan.s) < Measure(old(plan.s))
      ensures edge != null && ok ==>
        Count(plan.s.running) == Count(old(plan.s).running) + if edge.phony then 0 else 1
    {
      hide Measure, Steady, Core, Finish, Plan.Known, RankedBelow, Commands, Count, Overdue, Carried;
      hide CommandRunner.Valid, CommandRunner.HasRoom;
      hide Shape.WellFormed, Shape.Flagged, Shape.PoolsHold;
      ghost var s0 := plan.s;
      CarriedSame(s0, s0);
      edge := TakeNext(fx, rank, top);
      ok := true;
      if edge == null {
        return;
      }
      ghost var s1 := plan.s;
      CarriedSame(s0, s1);
      ok := StartEdge(edge);
      if !ok {
        return;
      }
      if edge.phony {
        PassPhony(edge);
        CarriedTransitive(s0, s1, plan.s);
      } else {
        RunningPlus(s0.running, edge);
      }
    }

    /** Takes a ready edge out of the plan's queue. */
    method TakeNext(ghost fx: Facts, ghost rank: map<Edge, nat>, ghost top: nat) returns (edge: Edge?)
      requires Going(fx, rank, top)
      modifies plan
      ensures plan.Linked() && Steady(plan.sh, plan.s) && Core(plan.sh, plan.s)
      ensures edge == null <==> old(plan.s).ready == {}
      ensures edge == null ==> plan.s == old(plan.s)
      ensures edge != null ==> Measure(plan.s) < Measure(old(plan.s)) && edge !in old(plan.s).running
      ensures edge != null ==> Taken(old(plan.s), plan.s, edge)
    {
      hide *;
      ghost var s0 := plan.s;
      GoingFacts(fx, rank, top);
      edge := plan.FindWork();
      if edge != null {
        StartSteady(plan.sh, s0, plan.s, edge);
      }
    }

    /** Finishes a phony edge, which runs no command. */
    method PassPhony(edge: Edge)
      requires plan.Linked() && Steady(plan.sh, plan.s) && edge in plan.s.running
      modifies plan, plan.sh.edges`outputsReady, plan.sh.nodes`dirty, plan.sh.pools
      ensures plan.Linked() && Steady(plan.sh, plan.s) && Core(plan.sh, plan.s)
      ensures Measure(plan.s) < Measure(old(plan.s)) && plan.s.running == old(plan.s).running - {edge}
      ensures plan.s.failed == old(plan.s).failed && plan.s.planned == old(plan.s).planned
      ensures plan.s.commands == old(plan.s).commands && plan.s.want.Keys <= old(plan.s).want.Keys
      ensures Carried(old(plan.s), plan.s) && old(plan.s).done <= plan.s.done
    {
      hide Measure, Steady, Core, Plan.Linked, Finish, Carried;
      ghost var s0 := plan.s;
      SteadyCore(plan.sh, plan.s);
      ReadyIsIdle(plan.sh, s0, edge);
      plan.EdgeFinished(edge);
      FinishSteady(plan.sh, s0, plan.s, edge);
      FinishCarries(plan.sh, s0, plan.s, edge);
    }

    /** Handles the end of a command: a failed one stays in the plan; otherwise the outputs that a
        restat rule left alone are cleaned, everything that has nothing left to do by that is taken
        out of the wanted edges, and the edge is finished. `extracted` says whether dependencies could
        be extracted from the output of the command, `sameTime` holds the files whose time on disk
        is the one the scan saw, and `written` says whether the logs could be written. */
    method FinishCommand(edge: Edge, exitedWell: bool, extracted: bool, sameTime: set<Node>, written: bool,
                         ghost fx: Facts, ghost rank: map<Edge, nat>, ghost top: nat)
      returns (logged: bool, success: bool, ghost pruned: PlanState)
      requires Going(fx, rank, top) && edge in plan.s.running && runner.active == plan.s.running - {edge}
      modifies plan, plan.sh.edges`outputsReady, plan.sh.nodes`dirty, plan.sh.pools
      ensures Going(fx, rank, top) && runner.active == plan.s.running == old(plan.s).running - {edge}
      ensures Measure(plan.s) < Measure(old(plan.s)) && plan.s.planned == old(plan.s).planned
      ensures Count(plan.s.running) == Count(old(plan.s).running) - 1
      ensures success == (exitedWell && extracted) && logged == (success ==> written)
      ensures plan.s.failed == if success then old(plan.s).failed else old(plan.s).failed + {edge}
      ensures Count(plan.s.failed) == Count(old(plan.s).failed) + if success then 0 else 1
      ensures !success ==> plan.s.want == old(plan.s).want
      ensures success ==> edge in old(plan.s).want && plan.s.want.Keys <= old(plan.s).want.Keys - {edge}
      ensures success ==> PrunedBehind(fx, old(plan.s), pruned, Unchanged(edge, sameTime))
      ensures success ==> edge in pruned.want && Finish(plan.sh, pruned, plan.s, edge)
      ensures !edge.restat || runner.dryRun ==> Carried(old(plan.s), plan.s)
      ensures old(plan.s).done <= plan.s.done
    {
      hide *;
      logged, success, pruned := true, exitedWell && extracted, plan.s;
      if success {
        pruned := FinishWell(edge, sameTime, fx, rank, top);
        logged := written;
      } else {
        FinishBadly(edge, fx, rank, top);
      }
    }

    ghost method FinishBadly(edge: Edge, fx: Facts, rank: map<Edge, nat>, top: nat)
      requires Going(fx, rank, top) && edge in plan.s.running
      modifies plan`s
      ensures Going(fx, rank, top) && Measure(plan.s) < Measure(old(plan.s)) && plan.s.planned == old(plan.s).planned
      ensures plan.s.running == old(plan.s).running - {edge} && Count(plan.s.running) == Count(old(plan.s).running) - 1
      ensures plan.s.failed == old(plan.s).failed + {edge} && Count(plan.s.failed) == Count(old(plan.s).failed) + 1
      ensures plan.s.want == old(plan.s).want && plan.s.done == old(plan.s).done && Carried(old(plan.s), plan.s)
    {
      hide Measure, Steady, Core, Plan.Known, RankedBelow, Commands, Count, Shape.WellFormed, Shape.Flagged;
      hide Shape.PoolsHold;
      RunningMinus(plan.s.running, edge);
      plan.CommandFailed(edge);
      FailSteady(plan.sh, old(plan.s), plan.s, edge);
      CarriedSame(old(plan.s), plan.s);
    }

    /** The part of `FinishCommand` for a command that succeeded. */
    method FinishWell(edge: Edge, sameTime: set<Node>, ghost fx: Facts, ghost rank: map<Edge, nat>, ghost top: nat)
      returns (ghost pruned: PlanState)
      requires Going(fx, rank, top) && edge in plan.s.running
      modifies plan, plan.sh.edges`outputsReady, plan.sh.nodes`dirty, plan.sh.pools
      ensures Going(fx, rank, top) && Measure(plan.s) < Measure(old(plan.s)) && plan.s.planned == old(plan.s).planned
      ensures plan.s.running == old(plan.s).running - {edge} && Count(plan.s.running) == Count(old(plan.s).running) - 1
      ensures plan.s.failed == old(plan.s).failed
      ensures edge in old(plan.s).want && plan.s.want.Keys <= old(plan.s).want.Keys - {edge}
      ensures PrunedBehind(fx, old(plan.s), pruned, Unchanged(edge, sameTime))
      ensures edge in pruned.want && Finish(plan.sh, pruned, plan.s, edge)
      ensures !edge.restat || runner.dryRun ==> Carried(old(plan.s), plan.s)
      ensures old(plan.s).done <= plan.s.done
    {
      hide Carried, Unchanged, PrunedBehind, Measure, Steady, Core, Finish, Plan.Known, RankedBelow, Commands;
      hide Count, Overdue;
      hide Shape.WellFormed, Shape.Flagged, Shape.PoolsHold;
      RunningMinus(plan.s.running, edge);
      CleanUnchanged(edge, sameTime, fx, rank, top);
      pruned := plan.s;
      SteadyCore(plan.sh, pruned);
      ReadyIsIdle(plan.sh, pruned, edge);
      plan.EdgeFinished(edge);
      FinishSteady(plan.sh, pruned, plan.s, edge);
      FinishCarries(plan.sh, pruned, plan.s, edge);
    }

    /** The outputs that the restat loop cleans. */
    ghost function Unchanged(edge: Edge, sameTime: set<Node>): set<Node>
    {
      if edge.restat && !runner.dryRun then NodesIn(plan.sh.Outs(edge)) * sameTime else {}
    }

    /** Pruning behind `cleaned`, to the end. */
    ghost predicate PrunedBehind(fx: Facts, s: PlanState, s': PlanState, cleaned: set<Node>)
    {
      Pruned(plan.sh, fx, s, s', cleaned) && Thorough(plan.sh, fx, s, s', cleaned, {})
    }

    /** The restat loop of `FinishCommand`: cleans the outputs whose time on disk did not change. */
    method CleanUnchanged(edge: Edge, sameTime: set<Node>, ghost fx: Facts, ghost rank: map<Edge, nat>, ghost top: nat)
      requires Going(fx, rank, top) && edge in plan.s.running
      modifies plan, plan.sh.nodes`dirty
      ensures Going(fx, rank, top) && plan.s.running == old(plan.s).running && plan.s.failed == old(plan.s).failed
      ensures Measure(plan.s) == Measure(old(plan.s)) && plan.s.planned == old(plan.s).planned
      ensures plan.s.want.Keys == old(plan.s).want.Keys && plan.s.done == old(plan.s).done
      ensures PrunedBehind(fx, old(plan.s), plan.s, Unchanged(edge, sameTime))
      ensures !edge.restat || runner.dryRun ==> plan.s == old(plan.s)
    {
      hide Going, Measure, Pruned, Thorough, Shape.WellFormed;
      ghost var s0 := plan.s;
      NothingCleaned(plan.sh, fx, s0);
      if !edge.restat || runner.dryRun {
        return;
      }
      ghost var cleaned := {};
      var outputs := plan.sh.Outs(edge);
      for i := 0 to |outputs|
        invariant cleaned == NodesIn(outputs[..i]) * sameTime
        invariant PrunedBehind(fx, s0, plan.s, cleaned)
        invariant Going(fx, rank, top) && plan.s.running == s0.running && plan.s.failed == s0.failed
        invariant Measure(plan.s) == Measure(s0) && plan.s.planned == s0.planned && plan.s.want.Keys == s0.want.Keys
        invariant plan.s.done == s0.done
      {
        NodesInPrefix(outputs, i);
        if outputs[i] in sameTime {
          CleanOutput(edge, outputs[i], s0, cleaned, fx, rank, top);
          cleaned := cleaned + {outputs[i]};
        }
      }
      assert outputs[..|outputs|] == outputs;
    }

    method CleanOutput(edge: Edge, node: Node, ghost s0: PlanState, ghost cleaned: set<Node>,
                       ghost fx: Facts, ghost rank: map<Edge, nat>, ghost top: nat)
      requires Going(fx, rank, top) && edge in plan.s.running && node in plan.sh.Outs(edge)
      requires PrunedBehind(fx, s0, plan.s, cleaned)
      modifies plan, plan.sh.nodes`dirty
      ensures Going(fx, rank, top) && plan.s.running == old(plan.s).running && plan.s.failed == old(plan.s).failed
      ensures Measure(plan.s) == Measure(old(plan.s)) && plan.s.planned == old(plan.s).planned
      ensures plan.s.want.Keys == old(plan.s).want.Keys && plan.s.done == old(plan.s).done
      ensures PrunedBehind(fx, s0, plan.s, cleaned + {node})
    {
      hide Measure, Steady, Core, Pruned, Thorough, OffAbove, Plan.Known, RankedBelow, Commands, Count, Overdue;
      hide Shape.WellFormed, Shape.Flagged, Shape.PoolsHold;
      ghost var before := plan.s;
      SteadyCore(plan.sh, before);
      InGraph(plan.sh, before, edge);
      LinkedNodes(plan.sh, edge);
      plan.CleanNode(node, log, fx, rank, top);
      PruneSteady(plan.sh, fx, before, plan.s, {node});
      RunsCommand(before.running, edge);
      CommandsLeft(plan.sh, plan.s, edge);
      PrunedTransitive(plan.sh, fx, s0, before, plan.s, cleaned, {node});
      ThoroughTransitive(plan.sh, fx, s0, before, plan.s, cleaned, {node}, {});
    }

    /** The second half of a turn: waits for a command and handles its end. The build is interrupted
        while it waits, or by a command that died of the interrupt; the runner has then given up the
        edge of that command already. */
    method Reap(ghost fx: Facts, ghost rank: map<Edge, nat>, ghost top: nat)
      returns (interrupted: bool, logged: bool, success: bool, ghost died: set<Edge>)
      requires Going(fx, rank, top) && runner.active == plan.s.running != {} && runner.Valid()
      modifies plan, runner, plan.sh.edges`outputsReady, plan.sh.nodes`dirty, plan.sh.pools
      ensures runner.Valid()
      ensures plan.Linked() && Core(plan.sh, plan.s) && plan.s.planned == old(plan.s).planned
      ensures !interrupted ==> Going(fx, rank, top) && runner.active == plan.s.running
      ensures !interrupted ==> Measure(plan.s) < Measure(old(plan.s))
      ensures !interrupted ==> Count(plan.s.running) == Count(old(plan.s).running) - 1
      ensures !interrupted ==> Count(plan.s.failed) == Count(old(plan.s).failed) + if success then 0 else 1
      ensures interrupted ==> plan.s == old(plan.s) && CutShort(died)
      ensures !interrupted ==> plan.s.want.Keys <= old(plan.s).want.Keys
      ensures !logged ==> plan.s.want.Keys < old(plan.s).want.Keys
      ensures NoRestat(plan.s.planned) ==> Carried(old(plan.s), plan.s)
      ensures old(plan.s).done <= plan.s.done
    {
      hide *;
      interrupted, logged, success, died := false, true, false, {};
      GoingFacts(fx, rank, top);
      CarriedSame(plan.s, plan.s);
      var waited := runner.WaitForCommand();
      if waited.None? {
        interrupted := true;
        NoneDied();
        return;
      }
      var edge, status := waited.value.edge, waited.value.status;
      if status == ExitInterrupted {
        interrupted, died := true, {edge};
        OneDied(edge);
        return;
      }
      logged, success := HandleEnd(edge, status == ExitSuccess, fx, rank, top);
      GoingFacts(fx, rank, top);
    }

    method HandleEnd(edge: Edge, exitedWell: bool, ghost fx: Facts, ghost rank: map<Edge, nat>, ghost top: nat)
      returns (logged: bool, success: bool)
      requires Going(fx, rank, top) && edge in plan.s.running && runner.active == plan.s.running - {edge}
      modifies plan, plan.sh.edges`outputsReady, plan.sh.nodes`dirty, plan.sh.pools
      ensures Going(fx, rank, top) && runner.active == plan.s.running && plan.s.planned == old(plan.s).planned
      ensures Measure(plan.s) < Measure(old(plan.s)) && Count(plan.s.running) == Count(old(plan.s).running) - 1
      ensures Count(plan.s.failed) == Count(old(plan.s).failed) + if success then 0 else 1
      ensures plan.s.want.Keys <= old(plan.s).want.Keys && (!logged ==> plan.s.want.Keys < old(plan.s).want.Keys)
      ensures NoRestat(plan.s.planned) ==> Carried(old(plan.s), plan.s)
      ensures old(plan.s).done <= plan.s.done
    {
      hide Going, Measure, Core, Count, Carried, Pruned, Thorough, Finish;
      GoingFacts(fx, rank, top);
      RunningArePlanned();
      var extracted: bool, sameTime: set<Node>, written: bool := *, *, *;
      ghost var pruned;
      logged, success, pruned := FinishCommand(edge, exitedWell, extracted, sameTime, written, fx, rank, top);
    }

    lemma NoneDied()
      requires runner.active == plan.s.running != {}
      ensures CutShort({})
    {
      EmptyCount();
    }

    lemma OneDied(edge: Edge)
      requires runner.active == plan.s.running - {edge} && edge in plan.s.running
      ensures CutShort({edge})
    {
      EmptyCount();
    }

    /** Commands were running, and the runner still knows all of them but the one that died. */
    ghost predicate CutShort(died: set<Edge>)
      reads plan, runner
    {
      && plan.s.running != {} && died <= plan.s.running && Count(died) <= 1
      && runner.active == plan.s.running - died
    }

    /** No edge of the plan has a restat rule that is heeded. */
    ghost predicate NoRestat(planned: set<Edge>) { runner.dryRun || forall e :: e in planned ==> !e.restat }

    lemma RunningArePlanned()
      requires Core(plan.sh, plan.s)
      ensures plan.s.running <= plan.s.planned
    {
      hide Core;
      PlannedEntries(plan.sh, plan.s);
      assert plan.s.running <= plan.s.Scheduled();
    }

    /** How many more commands may fail. */
    ghost function Left(failed: set<Edge>): nat
    {
      if Count(failed) < failuresAllowed then failuresAllowed - Count(failed) else 0
    }

    /** Runs the plan. Whatever the commands do, the loop ends, never in the state the code reports
        as a bug; if it reports success, everything in the plan was built; and no command is started
        once as many failed as may. */
    method Build(ghost fx: Facts, ghost rank: map<Edge, nat>, ghost top: nat)
      returns (result: BuildResult, ghost died: set<Edge>)
      requires Going(fx, rank, top) && plan.s.running == plan.s.failed == {} && plan.MoreToDo()
      requires runner.active == {} && 0 < runner.parallelism && runner.Valid()
      modifies plan, runner, plan.sh.edges`outputsReady, plan.sh.nodes`dirty, plan.sh.pools
      ensures runner.Valid()
      ensures plan.Linked() && Core(plan.sh, plan.s) && plan.s.planned == old(plan.s).planned
      ensures result != Stuck
      ensures result == Success ==> Complete(plan.sh, plan.s)
      ensures result == Success ==> plan.CommandEdgeCount() == Count(Commands(StartedIn(plan.s.trace)))
      ensures result == CannotProceed ==> Steady(plan.sh, plan.s) && plan.s.ready == {} && plan.s.running == {}
      ensures result == CannotProceed ==> 0 < Count(plan.s.failed) < failuresAllowed
      ensures result == SubcommandFailed ==> plan.s.running == {} && failuresAllowed <= Count(plan.s.failed)
      ensures result == StartFailed ==> runner.active < plan.s.running
      ensures result == Interrupted ==> CutShort(died)
      ensures result == LogFailed ==> plan.s.want.Keys < old(plan.s).want.Keys
      ensures !runner.dryRun ==> Count(plan.s.failed) <= FailureLimit()
      ensures NoRestat(plan.s.planned) ==> Carried(old(plan.s), plan.s)
      ensures result == Success && NoRestat(plan.s.planned) && old(plan.s).flushed == {} ==>
        forall pool :: pool in plan.sh.pools && pool.depth != 0 ==>
          pool in plan.s.use && (plan.s.use[pool] < 0 <==> InPool(Unwanted(old(plan.s)), pool) != {})
      ensures old(plan.s).done <= plan.s.done
    {
      hide *;
      var pending: nat, allowed: nat := 0, failuresAllowed;
      died := {};
      ghost var s0 := plan.s;
      LoopStarts(fx, rank, top);
      while plan.MoreToDo()
        invariant Looping(s0, pending, allowed, fx, rank, top)
        decreases Measure(plan.s)
      {
        // See whether more commands can be started.
        var started, ok;
        started, ok, pending := StartMore(pending, allowed, s0, fx, rank, top);
        if !ok {
          result := StartFailed;
          return;
        }
        if started {
          continue;
        }
        // See whether a command has finished.
        if pending > 0 {
          var stop;
          stop, pending, allowed, died := ReapNext(pending, allowed, s0, fx, rank, top);
          if stop.Some? {
            result := stop.value;
            return;
          }
          continue;
        }
        // No more progress can be made.
        result := if allowed == 0 then SubcommandFailed else if allowed < failuresAllowed then CannotProceed else Stuck;
        GiveUp(s0, allowed, fx, rank, top);
        return;
      }
      LoopEnds(s0, pending, allowed, fx, rank, top);
      CommandsCounted();
      result := Success;
    }

    /** Besides the failures that are allowed, the commands that were active when the last of them came
        may fail: as many as may run, and those that had ended by then without having been reaped. */
    ghost function FailureLimit(): int
    {
      if failuresAllowed == 0 then 0 else failuresAllowed + 2 * runner.parallelism - 2
    }

    /** The main loop: `pending` commands are running, and `allowed` more may fail. */
    ghost predicate Looping(before: PlanState, pending: nat, allowed: nat, fx: Facts, rank: map<Edge, nat>, top: nat)
      reads this, plan, runner, plan.sh.edges, plan.sh.nodes, plan.sh.pools
    {
      && Going(fx, rank, top) && runner.Valid() && runner.active == plan.s.running && pending == Count(plan.s.running)
      && plan.s.planned == before.planned && plan.s.want.Keys <= before.want.Keys && before.done <= plan.s.done
      && allowed == Left(plan.s.failed) && (!runner.dryRun ==> Count(plan.s.failed) + pending <= FailureLimit())
      && (NoRestat(before.planned) ==> Carried(before, plan.s))
    }

    lemma LoopStarts(fx: Facts, rank: map<Edge, nat>, top: nat)
      requires Going(fx, rank, top) && plan.s.running == plan.s.failed == runner.active == {} && runner.Valid()
      requires 0 < runner.parallelism
      ensures Looping(plan.s, 0, failuresAllowed, fx, rank, top)
    {
      hide Going, Carried;
      EmptyCount();
      CarriedSame(plan.s, plan.s);
    }

    lemma CommandsCounted()
      requires plan.Linked() && Complete(plan.sh, plan.s)
      ensures plan.CommandEdgeCount() == Count(Commands(StartedIn(plan.s.trace)))
    {
      hide Count, Shape.WellFormed, Shape.Flagged, Shape.PoolsHold;
    }

    lemma LoopEnds(before: PlanState, pending: nat, allowed: nat, fx: Facts, rank: map<Edge, nat>, top: nat)
      requires Looping(before, pending, allowed, fx, rank, top) && !plan.MoreToDo()
      ensures plan.Linked() && Core(plan.sh, plan.s) && Complete(plan.sh, plan.s)
      ensures plan.s.planned == before.planned && (!runner.dryRun ==> Count(plan.s.failed) <= FailureLimit())
      ensures runner.Valid() && before.done <= plan.s.done
      ensures NoRestat(before.planned) ==> Carried(before, plan.s)
      ensures NoRestat(before.planned) && before.flushed == {} ==>
        forall pool :: pool in plan.sh.pools && pool.depth != 0 ==>
          pool in plan.s.use && (plan.s.use[pool] < 0 <==> InPool(Unwanted(before), pool) != {})
    {
      hide Complete, Steady, Core, RankedBelow, Count, Carried, InPool, NoRestat;
      GoingFacts(fx, rank, top);
      DoneIsComplete(plan.sh, plan.s, rank, top);
      if NoRestat(before.planned) && before.flushed == {} {
        forall pool | pool in plan.sh.pools && pool.depth != 0
          ensures pool in plan.s.use && (plan.s.use[pool] < 0 <==> InPool(Unwanted(before), pool) != {})
        {
          Overdrawn(plan.sh, before, plan.s, pool);
        }
      }
    }

    /** Nothing is running and nothing can be started. */
    lemma GiveUp(before: PlanState, allowed: nat, fx: Facts, rank: map<Edge, nat>, top: nat)
      requires Looping(before, 0, allowed, fx, rank, top) && plan.MoreToDo() && (allowed > 0 ==> plan.s.ready == {})
      ensures plan.Linked() && Core(plan.sh, plan.s) && Steady(plan.sh, plan.s) && plan.s.planned == before.planned
      ensures plan.s.running == {} && (!runner.dryRun ==> Count(plan.s.failed) <= FailureLimit())
      ensures runner.Valid() && before.done <= plan.s.done
      ensures NoRestat(before.planned) ==> Carried(before, plan.s)
      ensures allowed == 0 ==> failuresAllowed <= Count(plan.s.failed)
      ensures allowed > 0 ==> allowed < failuresAllowed && 0 < Count(plan.s.failed) < failuresAllowed
    {
      hide Steady, Core, RankedBelow, Count;
      GoingFacts(fx, rank, top);
      NoneCounted(plan.s.running);
      NoneCounted(plan.s.failed);
      NeverStuckHere(plan.sh, plan.s, rank, top);
    }

    /** The first half of a turn, if another command may run. */
    method StartMore(pending0: nat, allowed: nat, ghost before: PlanState,
                     ghost fx: Facts, ghost rank: map<Edge, nat>, ghost top: nat)
      returns (started: bool, ok: bool, pending: nat)
      requires Looping(before, pending0, allowed, fx, rank, top)
      modifies plan, runner, plan.sh.edges`outputsReady, plan.sh.nodes`dirty, plan.sh.pools
      ensures ok ==> Looping(before, pending, allowed, fx, rank, top)
      ensures ok && started ==> Measure(plan.s) < Measure(old(plan.s))
      ensures ok && !started ==> plan.s == old(plan.s) && pending == pending0 && plan.MoreToDo() == old(plan.MoreToDo())
      ensures runner.Valid() && before.done <= plan.s.done
      ensures ok && !started && pending == 0 && 0 < runner.parallelism && allowed > 0 ==> plan.s.ready == {}
      ensures !ok ==> runner.active < plan.s.running && (!runner.dryRun ==> Count(plan.s.failed) <= FailureLimit())
      ensures !ok ==> plan.Linked() && Core(plan.sh, plan.s) && plan.s.planned == before.planned
      ensures NoRestat(before.planned) ==> Carried(before, plan.s)
    {
      hide Going, Measure, Steady, Core, Commands, Count, Plan.Linked, Carried, NoRestat;
      ghost var s0 := plan.s;
      started, ok, pending := false, true, pending0;
      var canRunMore := false;
      if allowed > 0 {
        canRunMore := runner.CanRunMore();
      }
      NoneCounted(plan.s.running);
      GoingFacts(fx, rank, top);
      if canRunMore {
        MostActive();
        var edge;
        edge, ok := StartNext(fx, rank, top);
        KeepsCarried(before, s0);
        started := edge != null;
        if edge == null {
          ok := true;
          GoingFacts(fx, rank, top);
        } else if !edge.phony {
          pending := pending + 1;
        }
      }
    }

    /** When another command may start, fewer than twice as many are active as may run at once. */
    lemma MostActive()
      requires runner.Valid() && runner.HasRoom() && runner.active == plan.s.running
      ensures !runner.dryRun ==> Count(plan.s.running) <= 2 * runner.parallelism - 2
    {
      var running := runner.active - runner.finished;
      assert running + runner.finished == runner.active;
      assert |runner.active| == |running| + |runner.finished|;
    }

    lemma KeepsCarried(before: PlanState, s: PlanState)
      requires NoRestat(before.planned) ==> Carried(before, s)
      requires NoRestat(before.planned) ==> Carried(s, plan.s)
      ensures NoRestat(before.planned) ==> Carried(before, plan.s)
    {
      if NoRestat(before.planned) {
        CarriedTransitive(before, s, plan.s);
      }
    }

    /** The second half of a turn, while a command is running. */
    method ReapNext(pending0: nat, allowed0: nat, ghost before: PlanState,
                    ghost fx: Facts, ghost rank: map<Edge, nat>, ghost top: nat)
      returns (stop: Option<BuildResult>, pending: nat, allowed: nat, ghost died: set<Edge>)
      requires Looping(before, pending0, allowed0, fx, rank, top) && pending0 > 0
      modifies plan, runner, plan.sh.edges`outputsReady, plan.sh.nodes`dirty, plan.sh.pools
      ensures stop == None ==>
        Looping(before, pending, allowed, fx, rank, top) && Measure(plan.s) < Measure(old(plan.s))
      ensures stop != None ==> stop == Some(Interrupted) || stop == Some(LogFailed)
      ensures stop == Some(Interrupted) ==> CutShort(died)
      ensures runner.Valid() && before.done <= plan.s.done
      ensures stop == Some(LogFailed) ==> plan.s.want.Keys < before.want.Keys
      ensures stop != None ==> plan.Linked() && Core(plan.sh, plan.s) && plan.s.planned == before.planned
      ensures stop != None && !runner.dryRun ==> Count(plan.s.failed) <= FailureLimit()
      ensures NoRestat(before.planned) ==> Carried(before, plan.s)
    {
      hide Going, Measure, Steady, Core, Commands, Count, Plan.Linked, Carried, NoRestat;
      ghost var s0 := plan.s;
      stop, pending, allowed := None, pending0, allowed0;
      EmptyCount();
      var interrupted, logged, success;
      interrupted, logged, success, died := Reap(fx, rank, top);
      KeepsCarried(before, s0);
      if interrupted {
        stop := Some(Interrupted);
        return;
      }
      pending := pending - 1;
      if !logged {
        stop := Some(LogFailed);
        return;
      }
      if !success && allowed > 0 {
        allowed := allowed - 1;
      }
    }

    /** The use of a fresh builder (`Daemon::RunBuild`): a target is added, and if anything has to
        run, the plan is run. On every graph with an order or with single outputs the build ends, never
        stuck, and a success has built all that was planned; a cycle is an error of the target. On a
        graph with an order nothing is found to do exactly if no command has to run before the target
        is up to date; after a success all that leads to the target is ready, and unless restat rules
        made some superfluous, exactly the commands that had to run were started. A source file is up
        to date even if it is missing. */
    method RunBuild(node: Node, ghost rank: Option<map<Edge, nat>>) returns (result: RunResult)
      requires Targeting(Search([], {}, {}), rank) && log == scan.w.log && plan.s.want == map[]
      requires scan.s.known == {} && scan.s.scanned == {}
      requires node in plan.sh.nodes && runner.active == {} && 0 < runner.parallelism && runner.Valid()
      modifies plan, scan, runner, plan.sh.edges, plan.sh.nodes, plan.sh.pools
      ensures result != Ran(Stuck)
      ensures node !in plan.sh.producer ==> result == UpToDate
      ensures result.TargetProblem? && result.error.NotInPlan? ==>
        IsMissing(result.error.why) || (rank == None && IsCycle(result.error.why))
      ensures result == UpToDate || result.Ran? ==> Acyclic(plan.sh, plan.s.planned)
      ensures result == Ran(Success) ==>
        plan.Linked() && Complete(plan.sh, plan.s) && plan.sh.producer[node] in plan.s.done
      ensures rank.Some? && node in plan.sh.producer && !result.TargetProblem? ==>
        (result == UpToDate <==> !exists p :: MustRun(plan.sh, scan.w, plan.sh.producer[node], p))
      ensures rank.Some? && result == Ran(Success) ==> LeadingTo(plan.sh.producer[node]) <= plan.s.done
      ensures rank.Some? && result == Ran(Success) && NoRestat(plan.s.planned) ==>
        Commands(StartedIn(plan.s.trace)) == AllToRun(plan.sh, scan.w, plan.sh.producer[node])
    {
      hide *;
      if node in plan.sh.producer {
        result := RunOutput(node, rank);
      } else {
        result := RunSource(node, rank);
      }
    }

    method RunOutput(node: Node, ghost rank: Option<map<Edge, nat>>) returns (result: RunResult)
      requires Targeting(Search([], {}, {}), rank) && log == scan.w.log && plan.s.want == map[]
      requires scan.s.known == {} && scan.s.scanned == {}
      requires node in plan.sh.nodes && node in plan.sh.producer
      requires runner.active == {} && 0 < runner.parallelism && runner.Valid()
      modifies plan, scan, runner, plan.sh.edges, plan.sh.nodes, plan.sh.pools
      ensures result != Ran(Stuck)
      ensures result.TargetProblem? && result.error.NotInPlan? ==>
        IsMissing(result.error.why) || (rank == None && IsCycle(result.error.why))
      ensures result == UpToDate || result.Ran? ==> Acyclic(plan.sh, plan.s.planned)
      ensures result == Ran(Success) ==>
        plan.Linked() && Complete(plan.sh, plan.s) && plan.sh.producer[node] in plan.s.done
      ensures rank.Some? && !result.TargetProblem? ==>
        (result == UpToDate <==> !exists p :: MustRun(plan.sh, scan.w, plan.sh.producer[node], p))
      ensures rank.Some? && result == Ran(Success) ==> LeadingTo(plan.sh.producer[node]) <= plan.s.done
      ensures rank.Some? && result == Ran(Success) && NoRestat(plan.s.planned) ==>
        Commands(StartedIn(plan.s.trace)) == AllToRun(plan.sh, scan.w, plan.sh.producer[node])
    {
      assert Addable(rank);
      hide *;
      Apart();
      var err;
      ghost var d, culprit;
      err, d, culprit := AddOutput(node, Search([], {}, {}), rank);
      if err == NoProblem {
        result := RunPlan(node, d, rank);
      } else {
        result := TargetProblem(err);
      }
    }

    /** The runner is no part of the graph, so that a scan leaves it alone. */
    lemma Apart()
      ensures var o: object, sh := runner, plan.sh;
        var edges: set<object>, nodes: set<object>, pools: set<object> := sh.edges, sh.nodes, sh.pools;
        o != plan && o != scan && o !in edges && o !in nodes && o !in pools
    {}

    /** The part of `RunBuild` that follows when a target was added that an edge makes. */
    method RunPlan(node: Node, ghost d: Search, ghost rank: Option<map<Edge, nat>>) returns (result: RunResult)
      requires Targeting(d, rank) && log == scan.w.log && Acyclic(plan.sh, plan.s.planned)
      requires node in plan.sh.producer && runner.active == {} && 0 < runner.parallelism && runner.Valid()
      requires plan.sh.producer[node] in scan.s.scanned && plan.sh.producer[node] in plan.s.done + plan.s.want.Keys
      requires forall f :: f in scan.s.scanned ==> Reaches(plan.sh, f, plan.sh.producer[node])
      requires rank.Some? ==>
        (Blocked(plan.sh, scan.w, plan.sh.producer[node]) <==> plan.sh.producer[node] in plan.s.want)
      modifies plan, runner, plan.sh.edges`outputsReady, plan.sh.nodes`dirty, plan.sh.pools
      ensures !result.TargetProblem? && result != Ran(Stuck) && Acyclic(plan.sh, plan.s.planned)
      ensures result == Ran(Success) ==>
        plan.Linked() && Complete(plan.sh, plan.s) && plan.sh.producer[node] in plan.s.done
      ensures rank.Some? ==>
        (result == UpToDate <==> !exists p :: MustRun(plan.sh, scan.w, plan.sh.producer[node], p))
      ensures rank.Some? && result == Ran(Success) ==> LeadingTo(plan.sh.producer[node]) <= plan.s.done
      ensures rank.Some? && result == Ran(Success) && NoRestat(plan.s.planned) ==>
        Commands(StartedIn(plan.s.trace)) == AllToRun(plan.sh, scan.w, plan.sh.producer[node])
    {
      hide *;
      ghost var s0, target := plan.s, plan.sh.producer[node];
      JustPlanned(d, rank);
      if rank.Some? {
        WorkLeftHere(node, d, rank.value);
      }
      if !plan.MoreToDo() {
        return UpToDate;
      }
      ghost var fx, rank', top := ReadyToBuild(d, rank);
      var r;
      ghost var died;
      r, died := Build(fx, rank', top);
      if r == Success {
        TargetReady(s0, target);
        if rank.Some? {
          AllReady(s0, target);
          if NoRestat(plan.s.planned) {
            StartedWanted(plan.sh, s0, plan.s);
          }
        }
      }
      return Ran(r);
    }

    /** A source file has nothing to run, and a missing one has not been noticed yet. */
    method RunSource(node: Node, ghost rank: Option<map<Edge, nat>>) returns (result: RunResult)
      requires Targeting(Search([], {}, {}), rank) && plan.s.want == map[] && scan.s.known == {}
      requires node in plan.sh.nodes && node !in plan.sh.producer
      modifies plan, scan, node`mtime, plan.sh.pools
      ensures result == UpToDate && Acyclic(plan.sh, plan.s.planned)
    {
      hide *;
      NothingWanted(node, rank);
      var err;
      ghost var d;
      err, d := AddSource(node, Search([], {}, {}), rank);
      if err != NoProblem {
        return TargetProblem(err);
      }
      NothingToRun();
      assert !plan.MoreToDo();
      return UpToDate;
    }

    lemma NothingWanted(node: Node, rank: Option<map<Edge, nat>>)
      requires Targeting(Search([], {}, {}), rank) && plan.s.want == map[] && scan.s.known == {}
      ensures plan.s.wanted == 0 && !Noticed(node)
    {
      hide Core, Searching, WellMarked;
      EmptyCount();
      assert plan.s.Trues() == {};
    }

    lemma NothingToRun()
      requires plan.Linked() && plan.s.wanted == 0
      ensures !plan.MoreToDo()
    {}

    lemma TargetReady(s0: PlanState, target: Edge)
      requires Complete(plan.sh, plan.s) && s0.done <= plan.s.done && plan.s.planned == s0.want.Keys
      requires target in s0.done + s0.want.Keys
      ensures target in plan.s.done
    {}

    lemma JustPlanned(d: Search, rank: Option<map<Edge, nat>>)
      requires Targeting(d, rank)
      ensures plan.s.flushed == plan.s.running == plan.s.failed == {} && plan.s.planned == plan.s.want.Keys
    {
      hide Core, Searching, WellMarked;
    }

    lemma AllReady(s0: PlanState, target: Edge)
      requires Complete(plan.sh, plan.s) && s0.done <= plan.s.done && plan.s.planned == s0.want.Keys
      requires LeadingTo(target) <= s0.done + s0.want.Keys
      ensures LeadingTo(target) <= plan.s.done
    {
      hide LeadingTo;
    }

    ghost function LeadingTo(target: Edge): set<Edge>
    {
      set f | f in plan.sh.edges && Reaches(plan.sh, f, target)
    }

    lemma WorkLeftHere(node: Node, d: Search, rank: map<Edge, nat>)
      requires Targeting(d, Some(rank)) && node in plan.sh.producer && plan.sh.producer[node] in scan.s.scanned
      requires Blocked(plan.sh, scan.w, plan.sh.producer[node]) <==> plan.sh.producer[node] in plan.s.want
      requires forall f :: f in scan.s.scanned ==> Reaches(plan.sh, f, plan.sh.producer[node])
      ensures plan.MoreToDo() <==> exists p :: MustRun(plan.sh, scan.w, plan.sh.producer[node], p)
      ensures Commands(plan.s.Trues()) == AllToRun(plan.sh, scan.w, plan.sh.producer[node])
      ensures LeadingTo(plan.sh.producer[node]) <= plan.s.done + plan.s.want.Keys
      ensures plan.s.flushed == plan.s.running == plan.s.failed == {} && plan.s.planned == plan.s.want.Keys
    {
      hide Core, Adding, Searching, Right, Blocked, Reaches, MustRun, Commands, Shape.WellFormed;
      PlannedEntries(plan.sh, plan.s);
      WorkLeft(plan.sh, scan.w, scan.s, plan.s, d, plan.sh.producer[node]);
      PlanIsReady(plan.sh, plan.s, d);
      SteadyIsClosed();
      AddingIsFresh();
      forall f | f in LeadingTo(plan.sh.producer[node]) ensures f in plan.s.done + plan.s.want.Keys {
        ReadyOrPlanned(plan.sh, scan.w, scan.s, plan.s, plan.sh.producer[node], f);
      }
    }

    lemma SteadyIsClosed()
      requires Steady(plan.sh, plan.s)
      ensures Closed(plan.sh, plan.s)
    {}

    lemma AddingIsFresh()
      requires Adding(plan.sh, plan.s)
      ensures plan.s.flushed == plan.s.running == plan.s.failed == {} && plan.s.planned == plan.s.want.Keys
    {}
  }

  lemma AgreeOnNothing(sh: Shape, s: PlanState, s': PlanState)
    requires s' == s.(done := s'.done, dirty := s'.dirty)
    ensures AgreeOn(sh, s, s', {})
  {}

  /** A builder over a graph that was just loaded. */
  method NewBuilder(sh: Shape, w: World, parallelism: nat, failuresAllowed: nat, dryRun: bool,
                    ghost rank: Option<map<Edge, nat>>)
    returns (b: Builder)
    requires sh.WellFormed() && w.disk.Keys == sh.nodes
    requires if rank.Some? then Ranked(sh, sh.edges, rank.value) else sh.SingleOutput()
    requires forall n :: n in sh.nodes ==> n.mtime == -1 && !n.dirty
    requires forall p :: p in sh.pools ==> p.currentUse == 0 && p.delayed == {}
    ensures fresh(b) && fresh(b.plan) && fresh(b.scan) && fresh(b.runner) && b.plan.sh == sh && b.scan.w == w
    ensures b.Targeting(Search([], {}, {}), rank) && b.log == b.scan.w.log && b.plan.s.want == map[]
    ensures b.scan.s.known == {} && b.scan.s.scanned == {} && b.runner.active == {} && b.runner.Valid()
    ensures b.runner.parallelism == parallelism && b.runner.dryRun == dryRun
  {
    hide Core, Adding, Searching, Right, Loose, Shape.WellFormed, Shape.SingleOutput, InPool, CommandRunner.Valid;
    var plan := new Plan(sh);
    var scan := new DependencyScan(sh, w);
    var runner := new CommandRunner(parallelism, dryRun);
    b := new Builder(plan, scan, runner, failuresAllowed);
    assert plan.s.dirty == {};
    assert plan.s.done == scan.s.done by {
      assert forall e :: e in sh.edges ==> (e in plan.s.done <==> e in scan.s.done);
    }
  }
}
