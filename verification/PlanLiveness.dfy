// Why a build cannot get stuck, why it ends, and what is true when it ends.

module PlanLiveness {
  import opened Graph
  import opened PlanModel
  import opened PlanSteps
  import opened PlanCascade
  import opened PlanTargets
  import opened PlanPruning
  import opened Staleness

  /** Between the turns of the main loop nothing is overdue. */
  ghost predicate Steady(sh: Shape, s: PlanState)
  {
    && Core(sh, s) && Counted(s) && Closed(sh, s) && FinishedAreClean(sh, s)
    && Overdue(sh, s) == {}
  }

  // ----- liveness -----

  /** Below every entry of an acyclic plan there is one all of whose producers are done. */
  lemma {:induction false} LowestEntry(sh: Shape, s: PlanState, rank: map<Edge, nat>, e: Edge) returns (low: Edge)
    requires Closed(sh, s) && Ranked(sh, s.planned, rank) && s.want.Keys <= s.planned && e in s.want
    ensures low in s.want && sh.Prods(low) <= s.done
    decreases rank[e]
  {
    if sh.Prods(e) <= s.done {
      low := e;
    } else {
      var p :| p in sh.Prods(e) && p !in s.done;
      low := LowestEntry(sh, s, rank, p);
    }
  }

  /** An edge waits in a pool only while another edge of the pool is ready, running or failed. */
  lemma DelayedBehindBusy(sh: Shape, s: PlanState, e: Edge)
    requires Core(sh, s) && e in s.delayed
    ensures InPool(s.Busy(), e.pool) != {}
  {
    hide Recorded;
    InGraph(sh, s, e);
    assert Accounted(s, e.pool) && FullOrEmpty(s, e.pool);
    assert e in InPool(s.delayed, e.pool);
  }

  /** While an acyclic plan has an entry, some edge is ready, running or failed. */
  lemma NeverStuck(sh: Shape, s: PlanState, rank: map<Edge, nat>)
    requires Steady(sh, s) && Ranked(sh, s.planned, rank) && s.want.Keys != {}
    ensures s.Busy() != {}
  {
    hide Core, Counted;
    var e :| e in s.want.Keys;
    PlannedEntries(sh, s);
    var low := LowestEntry(sh, s, rank, e);
    assert low !in Overdue(sh, s);
    if low in s.delayed {
      DelayedBehindBusy(sh, s, low);
    }
  }

  lemma PlannedEntries(sh: Shape, s: PlanState)
    requires Core(sh, s)
    ensures s.want.Keys <= s.planned <= sh.edges && s.planned - s.want.Keys <= s.done
    ensures s.Scheduled() <= s.Trues()
  {
    hide Recorded, Accounted, FullOrEmpty;
  }

  /** When no entry is wanted any more, the plan is empty: entries that were only passed through do
      not stay behind. */
  lemma NothingLeft(sh: Shape, s: PlanState, rank: map<Edge, nat>)
    requires Steady(sh, s) && Ranked(sh, s.planned, rank) && s.wanted == 0
    ensures s.want.Keys == {}
  {
    hide Core, Counted, FinishedAreClean;
    NoneWanted(s);
    PlannedEntries(sh, s);
    if s.want.Keys != {} {
      var e :| e in s.want.Keys;
      var low := LowestEntry(sh, s, rank, e);
      ScheduledOrOverdue(sh, s, low);
    }
  }

  lemma NoneWanted(s: PlanState)
    requires Counted(s) && s.wanted == 0
    ensures s.Trues() == {}
  {
    NoneCounted(s.Trues());
  }

  lemma NoneCounted(es: set<Edge>)
    ensures Count(es) == 0 ==> es == {}
  {}

  /** What a build that ran to the end has done: every edge that was ever in the plan is ready with
      clean outputs, nothing failed, each command counted was run, and each bounded pool is left
      short by the edges that passed through it without ever taking a slot. */
  ghost predicate Complete(sh: Shape, s: PlanState)
  {
    && s.want == map[] && s.planned <= s.done && sh.OutsOf(s.planned) !! s.dirty
    && s.Scheduled() == {}
    && s.commands == Count(Commands(StartedIn(s.trace))) == Count(Commands(s.Ran()))
    && FinishedIn(s.trace) == s.planned
    && (forall pool :: pool in sh.pools && pool.depth != 0 ==>
      pool in s.use && s.use[pool] == 0 - Count(InPool(s.flushed, pool)))
  }

  lemma EmptyIsComplete(sh: Shape, s: PlanState)
    requires Steady(sh, s) && s.want.Keys == {}
    ensures Complete(sh, s)
  {
    hide Count, Ordered, WithinPools, Overdue;
    EmptyCount();
    assert s.Trues() == {} && s.Scheduled() == {} && s.Busy() == {};
    assert s.Trues() + s.Ran() == s.Ran() && s.running + s.failed + s.Ran() == s.Ran();
    assert s.planned - s.want.Keys == s.planned;
    forall pool | pool in sh.pools && pool.depth != 0
      ensures pool in s.use && s.use[pool] == 0 - Count(InPool(s.flushed, pool))
    {
      assert Accounted(s, pool);
      assert InPool(s.Busy(), pool) == {};
    }
  }

  /** `use` counts the busy edges of a bounded pool exactly as long as none of its edges was flushed. */
  lemma UseIsOccupancy(sh: Shape, s: PlanState, pool: Pool)
    requires Core(sh, s) && pool in sh.pools && pool.depth != 0
    ensures s.use[pool] == Count(InPool(s.Busy(), pool)) <==> InPool(s.flushed, pool) == {}
    ensures InPool(s.flushed, pool) == {} ==> Count(InPool(s.Busy(), pool)) <= pool.depth
  {
    hide Recorded;
    assert Accounted(s, pool);
    NoneCounted(InPool(s.flushed, pool));
    EmptyCount();
  }

  // ----- what failed commands block -----

  /** `e` is reached from `top` by going down from entries to the producers they wait for. */
  ghost predicate WaitsFor(sh: Shape, s: PlanState, path: seq<Edge>)
  {
    && path != [] && (forall k :: 0 <= k < |path| ==> path[k] in s.want)
    && (forall k :: 0 < k < |path| ==> path[k] in sh.Prods(path[k - 1]))
  }

  lemma WaitsForItself(sh: Shape, s: PlanState, e: Edge)
    requires e in s.want
    ensures WaitsFor(sh, s, [e])
  {}

  lemma LongerWait(sh: Shape, s: PlanState, e: Edge, rest: seq<Edge>)
    requires WaitsFor(sh, s, rest) && e in s.want && rest[0] in sh.Prods(e)
    ensures WaitsFor(sh, s, [e] + rest)
  {
    var path := [e] + rest;
    assert forall k :: 0 < k < |path| ==> path[k] == rest[k - 1];
  }

  lemma ScheduledOrOverdue(sh: Shape, s: PlanState, e: Edge)
    requires Overdue(sh, s) == {} && e in s.want && sh.Prods(e) <= s.done
    ensures e in s.Scheduled()
  {
    assert e !in Overdue(sh, s);
  }

  /** When nothing is ready or running, every entry left waits, through a chain of producers, for a
      failed command or for a slot of a pool all of whose busy edges failed. */
  lemma {:induction false} BlockedByFailure(sh: Shape, s: PlanState, rank: map<Edge, nat>, e: Edge)
    returns (path: seq<Edge>)
    requires Steady(sh, s) && Ranked(sh, s.planned, rank) && s.ready == {} && s.running == {} && e in s.want
    ensures WaitsFor(sh, s, path) && path[0] == e
    ensures var low := path[|path| - 1];
      low in s.failed || (low in s.delayed && InPool(s.failed, low.pool) != {})
    decreases rank[e]
  {
    hide Core, Counted, FinishedAreClean, Overdue, InPool, Shape.Prods;
    PlannedEntries(sh, s);
    if sh.Prods(e) <= s.done {
      path := [e];
      WaitsForItself(sh, s, e);
      ScheduledOrOverdue(sh, s, e);
      if e in s.delayed {
        DelayedBehindBusy(sh, s, e);
        assert s.Busy() == s.failed;
      }
    } else {
      var p :| p in sh.Prods(e) && p !in s.done;
      var rest := BlockedByFailure(sh, s, rank, p);
      path := [e] + rest;
      LongerWait(sh, s, e, rest);
    }
  }

  // ----- termination -----

  /** Entries that have not been started weigh more than running ones. */
  ghost function Measure(s: PlanState): nat
  {
    2 * Count(s.want.Keys - s.running - s.failed) + Count(s.running)
  }

  lemma StartMeasure(s: PlanState, s': PlanState, e: Edge)
    requires e in s.want && e !in s.running + s.failed
    requires s'.want == s.want && s'.running == s.running + {e} && s'.failed == s.failed
    ensures Measure(s') < Measure(s)
  {
    hide Count;
    assert s'.want.Keys - s'.running - s'.failed == (s.want.Keys - s.running - s.failed) - {e};
    CountMinus(s.want.Keys - s.running - s.failed, e);
    CountPlus(s.running, e);
  }

  lemma FinishMeasure(s: PlanState, s': PlanState, e: Edge)
    requires e in s.running && s'.want.Keys <= s.want.Keys - {e}
    requires s'.running == s.running - {e} && s'.failed == s.failed
    ensures Measure(s') < Measure(s)
  {
    hide Count;
    CountSubset(s'.want.Keys - s'.running - s'.failed, s.want.Keys - s.running - s.failed);
    CountMinus(s.running, e);
  }

  lemma FailMeasure(s: PlanState, s': PlanState, e: Edge)
    requires e in s.running && e !in s.failed && s'.want == s.want
    requires s'.running == s.running - {e} && s'.failed == s.failed + {e}
    ensures Measure(s') < Measure(s)
  {
    hide Count;
    assert s'.want.Keys - s'.running - s'.failed == s.want.Keys - s.running - s.failed;
    CountMinus(s.running, e);
  }

  // ----- what each turn keeps -----

  lemma StartSteady(sh: Shape, s: PlanState, s': PlanState, e: Edge)
    requires Steady(sh, s) && Taken(s, s', e)
    ensures Steady(sh, s') && Measure(s') < Measure(s)
    ensures e in s.want && s.want[e] && e !in s.running
  {
    hide Core, Overdue;
    Start(sh, s, s', e);
    InGraph(sh, s, e);
    ReadyIsIdle(sh, s, e);
    assert s'.Trues() == s.Trues() && s'.Ran() == s.Ran();
    StartMeasure(s, s', e);
  }

  lemma ReadyIsIdle(sh: Shape, s: PlanState, e: Edge)
    requires Core(sh, s)
    ensures e in s.ready ==> e !in s.running + s.failed
    ensures e in s.running ==> e !in s.failed && MayFinish(sh, s, e) && s.want[e]
  {
    hide Recorded, Accounted, FullOrEmpty;
  }

  lemma FinishSteady(sh: Shape, s: PlanState, s': PlanState, e: Edge)
    requires Steady(sh, s) && e in s.running && Core(sh, s') && e in s.want && Finish(sh, s, s', e)
    ensures Steady(sh, s') && Measure(s') < Measure(s)
    ensures s'.running == s.running - {e} && s'.failed == s.failed && s'.planned == s.planned
    ensures s'.commands == s.commands
    ensures s'.want.Keys <= s.want.Keys - {e} && s.done <= s'.done
  {
    hide Core, Overdue, Counted, Closed, FinishedAreClean;
    ReadyIsIdle(sh, s, e);
    FinishKeepsClosed(sh, s, s', e);
    FinishKeepsCounts(sh, s, s', e);
    FinishKeepsClean(sh, s, s', e);
    FinishMeasure(s, s', e);
  }

  lemma FailSteady(sh: Shape, s: PlanState, s': PlanState, e: Edge)
    requires Steady(sh, s) && e in s.running
    requires s' == s.(running := s.running - {e}, failed := s.failed + {e})
    ensures Steady(sh, s') && Measure(s') < Measure(s) && Count(s'.failed) == Count(s.failed) + 1
  {
    hide Core, Overdue;
    Fail(sh, s, s', e);
    ReadyIsIdle(sh, s, e);
    assert s'.Trues() == s.Trues() && s'.Ran() == s.Ran();
    CountPlus(s.failed, e);
    FailMeasure(s, s', e);
  }

  lemma PruneSteady(sh: Shape, fx: Facts, s: PlanState, s': PlanState, nodes: set<Node>)
    requires Steady(sh, s) && Core(sh, s') && Counted(s') && Pruned(sh, fx, s, s', nodes)
    ensures Steady(sh, s') && Measure(s') == Measure(s)
    ensures s'.running == s.running && s'.failed == s.failed && s'.planned == s.planned && s'.want.Keys == s.want.Keys
    ensures s'.done == s.done
    ensures forall e :: e in s.running ==> e in s'.want
  {
    hide Core, Counted, Stale, Touched, Shape.Regular;
    forall e | e in s.running ensures e in s'.want {
      InGraph(sh, s, e);
    }
    assert Overdue(sh, s') == Overdue(sh, s);
  }

  /** A running command is counted. */
  lemma CommandsLeft(sh: Shape, s: PlanState, e: Edge)
    requires Core(sh, s) && Counted(s) && e in s.running && !e.phony
    ensures s.commands > 0
  {
    hide Count, Recorded, Accounted, FullOrEmpty;
    assert e in Commands(s.Trues() + s.Ran());
    CountSubset({e}, Commands(s.Trues() + s.Ran()));
    EmptyCount();
    assert Count({e}) == 1;
  }

  /** What adding targets without an error leads to. The plan can be ordered exactly when the search
      met no open edge through another of its outputs; with single outputs it never does. */
  lemma PlanIsReady(sh: Shape, s: PlanState, d: Search)
    requires Core(sh, s) && Adding(sh, s) && Searching(sh, s, [], d)
    ensures Steady(sh, s) && (Acyclic(sh, s.planned) <==> d.trap == {}) && (sh.SingleOutput() ==> d.trap == {})
    ensures forall e :: e in s.planned ==> SourcesPresent(sh, s.dirty, e)
  {
    hide Core, Counted, Overdue, Shape.SingleOutput, Topological, Trapped, SourcesPresent;
    assert Open(sh, []) == {};
    forall e | e in s.want ensures sh.Prods(e) <= s.done + s.want.Keys && SourcesPresent(sh, s.dirty, e) {
      assert e in EdgesIn(d.order);
    }
    assert s.planned - s.want.Keys == {};
    if d.trap == {} {
      InPlanOnly(sh, s);
      TopologicalIsAcyclic(sh, s.planned, s.done, d.order);
    } else if Acyclic(sh, s.planned) {
      var rank :| Ranked(sh, s.planned, rank);
      var e :| e in d.trap;
      TrapIsCyclic(sh, s.planned, d.trap, rank, e);
    }
  }

  lemma InPlanOnly(sh: Shape, s: PlanState)
    requires Core(sh, s)
    ensures s.done !! s.want.Keys
  {
    hide Recorded, Accounted, FullOrEmpty;
  }

  ghost function FirstAt(order: seq<Edge>, e: Edge): (k: nat)
    requires e in order
    ensures k < |order| && order[k] == e
    ensures forall j :: 0 <= j < |order| && order[j] == e ==> k <= j
  {
    if order[0] == e then 0 else 1 + FirstAt(order[1..], e)
  }

  lemma TopologicalIsAcyclic(sh: Shape, planned: set<Edge>, done: set<Edge>, order: seq<Edge>)
    requires Topological(sh, done, order) && EdgesIn(order) == planned && planned !! done
    ensures Acyclic(sh, planned)
  {
    hide Topological, Shape.Prods, FirstAt;
    assert forall e :: e in planned ==> e in EdgesIn(order);
    var rank: map<Edge, nat> := map e | e in planned :: FirstAt(order, e);
    forall e, p | e in planned && p in planned && p in sh.Prods(e) ensures rank[p] < rank[e] {
      ProducerBefore(sh, done, order, rank[e], p);
    }
    assert Ranked(sh, planned, rank);
  }

  lemma ProducerBefore(sh: Shape, done: set<Edge>, order: seq<Edge>, k: nat, p: Edge)
    requires Topological(sh, done, order) && k < |order| && p in sh.Prods(order[k]) && p !in done && p in order
    ensures FirstAt(order, p) < k
  {
    hide Shape.Prods, FirstAt;
    assert p in EdgesIn(order[..k]);
    var j :| 0 <= j < k && order[j] == p;
  }

  lemma SteadyCore(sh: Shape, s: PlanState)
    requires Steady(sh, s)
    ensures Core(sh, s) && Counted(s)
  {}

  lemma RunningPlus(running: set<Edge>, e: Edge)
    requires Commands(running) == running && !e.phony
    ensures Commands(running + {e}) == running + {e}
    ensures e !in running ==> Count(running + {e}) == Count(running) + 1
  {}

  lemma RunningMinus(running: set<Edge>, e: Edge)
    requires Commands(running) == running && e in running
    ensures Commands(running - {e}) == running - {e} && Count(running - {e}) == Count(running) - 1 && !e.phony
  {
    assert e in Commands(running);
  }

  lemma RunsCommand(running: set<Edge>, e: Edge)
    requires Commands(running) == running && e in running
    ensures !e.phony
  {
    assert e in Commands(running);
  }

  lemma NeverStuckHere(sh: Shape, s: PlanState, rank: map<Edge, nat>, top: nat)
    requires Steady(sh, s) && RankedBelow(sh, s.planned, rank, top) && s.wanted > 0
    ensures s.ready + s.running + s.failed != {}
  {
    hide Core, Closed, Overdue, FinishedAreClean;
    EmptyCount();
    var e :| e in s.Trues();
    assert e in s.want.Keys;
    NeverStuck(sh, s, rank);
  }

  lemma DoneIsComplete(sh: Shape, s: PlanState, rank: map<Edge, nat>, top: nat)
    requires Steady(sh, s) && RankedBelow(sh, s.planned, rank, top) && s.commands > 0
    requires !(s.wanted > 0 && s.commands > 0)
    ensures Complete(sh, s)
  {
    hide Core, Closed, Overdue, FinishedAreClean, Complete;
    NothingLeft(sh, s, rank);
    EmptyIsComplete(sh, s);
  }
}
