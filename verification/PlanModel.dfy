// The state of a build plan as a value, its invariant, and what each step of the plan does to it.

module PlanModel {
  import opened Graph

  datatype Event = Started(edge: Edge) | Finished(edge: Edge)

  /** `want`, `ready`, `wanted` and `commands` are fields of the plan; `done` (outputs_ready_),
      `dirty`, `use` and `delayed` are the flags of edges, nodes and pools. The rest is history:
      `running` was returned by FindWork and has not finished, `failed` ran without success,
      `planned` was ever in `want`, `flushed` left `want` without having been wanted. */
  datatype PlanState = PlanState(
    want: map<Edge, bool>, ready: set<Edge>, delayed: set<Edge>, running: set<Edge>, failed: set<Edge>,
    done: set<Edge>, dirty: set<Node>, use: map<Pool, int>, wanted: int, commands: int,
    planned: set<Edge>, flushed: set<Edge>, trace: seq<Event>)
  {
    /** The edges the plan means to build. */
    ghost function Trues(): set<Edge> { set e | e in want && want[e] }

    ghost function Scheduled(): set<Edge> { ready + delayed + running + failed }

    /** The edges that hold a slot of their pool. */
    ghost function Busy(): set<Edge> { ready + running + failed }

    /** The edges that were scheduled, ran and finished. */
    ghost function Ran(): set<Edge> { planned - want.Keys - flushed }
  }

  ghost function Commands(es: set<Edge>): set<Edge> { set e | e in es && !e.phony }

  /** Edges whose producers are done and that nobody has scheduled or flushed yet. */
  ghost function Overdue(sh: Shape, s: PlanState): set<Edge>
  {
    set e | e in s.want && sh.Prods(e) <= s.done && e !in s.Scheduled()
  }

  /** No edge that uses one of `nodes` is overdue. */
  ghost predicate Settled(sh: Shape, s: PlanState, nodes: set<Node>)
  {
    forall n, c :: n in nodes && c in sh.Consumers(n) ==> c !in Overdue(sh, s)
  }

  /** No edge that uses one of `nodes` has been started. */
  ghost predicate Idle(sh: Shape, s: PlanState, nodes: set<Node>)
  {
    forall n, c :: n in nodes && c in sh.Consumers(n) ==> c !in s.running + s.failed
  }

  // ----- invariant -----

  ghost predicate Lifecycle(sh: Shape, s: PlanState)
  {
    && s.planned <= sh.edges
    && (forall e :: e in s.want ==> e in s.planned && e !in s.done)
    && (forall e :: e in s.planned && e !in s.want ==> e in s.done)
    && (forall e :: e in s.flushed ==> e in s.planned && e !in s.want)
    && (forall e :: e in s.ready ==> MayRun(sh, s, e) && e !in s.delayed && e !in s.running && e !in s.failed)
    && (forall e :: e in s.delayed ==> MayRun(sh, s, e) && e !in s.running && e !in s.failed && e.pool.depth != 0)
    && (forall e :: e in s.running ==> MayRun(sh, s, e) && e !in s.failed)
    && (forall e :: e in s.failed ==> MayRun(sh, s, e))
  }

  ghost predicate MayRun(sh: Shape, s: PlanState, e: Edge)
  {
    e in s.want && s.want[e] && sh.Prods(e) <= s.done
  }

  /** A producer that is not ready is itself part of the plan. */
  ghost predicate Closed(sh: Shape, s: PlanState)
  {
    forall e :: e in s.want ==> sh.Prods(e) <= s.done + s.want.Keys
  }

  /** The slots a bounded pool counts as used are those of its busy edges, less one for each edge
      that was flushed without ever taking a slot. */
  ghost predicate Accounted(s: PlanState, pool: Pool)
  {
    && pool in s.use
    && (pool.depth == 0 ==> s.use[pool] == 0)
    && (pool.depth != 0 ==>
      s.use[pool] == Count(InPool(s.Busy(), pool)) - Count(InPool(s.flushed, pool)) <= pool.depth)
  }

  /** Edges wait in a pool only when it has no free slot. */
  ghost predicate FullOrEmpty(s: PlanState, pool: Pool)
  {
    InPool(s.delayed, pool) == {} || (pool in s.use && pool.depth <= s.use[pool])
  }

  ghost predicate Counted(s: PlanState)
  {
    s.wanted == Count(s.Trues()) && s.commands == Count(Commands(s.Trues() + s.Ran()))
  }

  ghost function StartedIn(t: seq<Event>): set<Edge>
  {
    set ev | ev in t && ev.Started? :: ev.edge
  }

  ghost function FinishedIn(t: seq<Event>): set<Edge>
  {
    set ev | ev in t && ev.Finished? :: ev.edge
  }

  /** No edge starts or finishes twice, and none does before the planned producers of its inputs
      have finished. */
  ghost predicate Ordered(sh: Shape, planned: set<Edge>, t: seq<Event>)
  {
    t == [] ||
    var before := t[..|t| - 1];
    var ev := t[|t| - 1];
    && Ordered(sh, planned, before)
    && ev.edge in planned
    && ev.edge !in FinishedIn(before) && (ev.Started? ==> ev.edge !in StartedIn(before))
    && sh.Prods(ev.edge) * planned <= FinishedIn(before)
  }

  /** At every moment the edges of a bounded pool that were started and have not finished are at
      most its depth plus the number of its edges flushed so far. */
  ghost predicate WithinPools(sh: Shape, t: seq<Event>)
  {
    t == [] ||
    (WithinPools(sh, t[..|t| - 1]) &&
     forall pool {:trigger PoolBound(t, pool)} :: pool in sh.pools && pool.depth != 0 ==> PoolBound(t, pool))
  }

  ghost predicate PoolBound(t: seq<Event>, pool: Pool)
  {
    Count(InPool(StartedIn(t) - FinishedIn(t), pool))
      <= pool.depth + Count(InPool(FinishedIn(t) - StartedIn(t), pool))
  }

  ghost predicate Recorded(sh: Shape, s: PlanState)
  {
    && StartedIn(s.trace) == s.running + s.failed + s.Ran()
    && FinishedIn(s.trace) == s.planned - s.want.Keys
    && Ordered(sh, s.planned, s.trace)
    && WithinPools(sh, s.trace)
  }

  ghost predicate Core(sh: Shape, s: PlanState, except: set<Pool> := {})
  {
    && sh.Pooled() && sh.pools <= s.use.Keys
    && Lifecycle(sh, s) && Recorded(sh, s)
    && (forall pool {:trigger Accounted(s, pool)} :: pool in sh.pools ==> Accounted(s, pool))
    && (forall pool {:trigger FullOrEmpty(s, pool)} :: pool in sh.pools && pool !in except ==> FullOrEmpty(s, pool))
  }

  /** The outputs of every edge that left the plan are clean. */
  ghost predicate FinishedAreClean(sh: Shape, s: PlanState)
  {
    sh.OutsOf(s.planned - s.want.Keys) !! s.dirty
  }

  ghost predicate Ranked(sh: Shape, planned: set<Edge>, older rank: map<Edge, nat>)
  {
    && rank.Keys == planned
    && forall e, p :: e in planned && p in planned && p in sh.Prods(e) ==> rank[p] < rank[e]
  }

  ghost predicate Acyclic(sh: Shape, planned: set<Edge>)
  {
    exists rank :: Ranked(sh, planned, rank)
  }

  // ----- what the steps do -----

  /** `e` is now ready, or delayed in its pool; other delayed edges may have become ready. */
  ghost predicate Admitted(s: PlanState, s': PlanState, e: Edge)
  {
    && s' == s.(ready := s'.ready, delayed := s'.delayed, use := s'.use)
    && s.ready <= s'.ready
    && s'.ready + s'.delayed == s.ready + s.delayed + {e}
  }

  /** What a cascade does beyond its first edge: exactly the entries that were not wanted leave the
      plan, as done, with clean outputs, and no edge is left overdue that was not before. */
  ghost predicate Cascade(sh: Shape, s: PlanState, s': PlanState, cleaned: set<Node>)
  {
    var gone := s.want.Keys - s'.want.Keys;
    && s' == s.(want := s'.want, ready := s'.ready, delayed := s'.delayed, done := s.done + gone,
                dirty := s.dirty - cleaned - sh.OutsOf(gone), use := s'.use,
                flushed := s.flushed + gone, trace := s'.trace)
    && s'.want.Keys <= s.want.Keys
    && (forall e :: e in s'.want ==> s'.want[e] == s.want[e])
    && (forall e :: e in gone ==> !s.want[e] && sh.Prods(e) <= s'.done)
    && s.ready <= s'.ready && s.ready + s.delayed <= s'.ready + s'.delayed
    && Overdue(sh, s') <= Overdue(sh, s)
    && s.trace <= s'.trace
  }

  /** What the end of edge `e` does: `e` leaves the plan, its slot is free, and the cascade from its
      outputs runs to the end. */
  ghost predicate Finish(sh: Shape, s: PlanState, s': PlanState, e: Edge)
    requires e in s.want
  {
    var gone := s.want.Keys - s'.want.Keys;
    && s' == s.(want := s'.want, ready := s'.ready, delayed := s'.delayed, running := s.running - {e},
                done := s.done + gone, dirty := s.dirty - sh.OutsOf(gone), use := s'.use,
                wanted := s.wanted - (if s.want[e] then 1 else 0),
                flushed := s.flushed + (gone - (if s.want[e] then {e} else {})), trace := s'.trace)
    && s'.want.Keys <= s.want.Keys && e in gone
    && (forall f :: f in s'.want ==> s'.want[f] == s.want[f])
    && (forall f :: f in gone && f != e ==> !s.want[f] && sh.Prods(f) <= s'.done)
    && s.ready <= s'.ready && s.ready + s.delayed <= s'.ready + s'.delayed
    && Overdue(sh, s') <= Overdue(sh, s) - {e}
    && s.trace <= s'.trace
  }
}
