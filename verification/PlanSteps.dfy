// Each elementary step of the plan keeps the invariant `Core`.

module PlanSteps {
  import opened Graph
  import opened PlanModel

  // ----- counting and recording -----

  lemma InPoolUnion(a: set<Edge>, b: set<Edge>, pool: Pool)
    requires a !! b
    ensures Count(InPool(a + b, pool)) == Count(InPool(a, pool)) + Count(InPool(b, pool))
  {
    assert InPool(a + b, pool) == InPool(a, pool) + InPool(b, pool);
    assert InPool(a, pool) !! InPool(b, pool);
  }

  lemma InPoolMinus(a: set<Edge>, moved: set<Edge>, pool: Pool)
    requires moved <= InPool(a, pool)
    ensures InPool(a - moved, pool) == InPool(a, pool) - moved
    ensures forall q: Pool {:trigger InPool(a - moved, q)} :: q != pool ==> InPool(a - moved, q) == InPool(a, q)
  {}

  lemma InPoolPlus(a: set<Edge>, e: Edge)
    ensures InPool(a + {e}, e.pool) == InPool(a, e.pool) + {e}
    ensures forall q: Pool {:trigger InPool(a + {e}, q)} :: q != e.pool ==> InPool(a + {e}, q) == InPool(a, q)
  {}

  lemma AppendEvent(t: seq<Event>, ev: Event)
    ensures StartedIn(t + [ev]) == StartedIn(t) + (if ev.Started? then {ev.edge} else {})
    ensures FinishedIn(t + [ev]) == FinishedIn(t) + (if ev.Finished? then {ev.edge} else {})
  {
    hide Count;
    var u := t + [ev];
    assert forall x :: x in u <==> x in t || x == ev;
    forall e | e in StartedIn(t) + (if ev.Started? then {ev.edge} else {}) ensures e in StartedIn(u) {
      assert Started(e) in u;
    }
    forall e | e in FinishedIn(t) + (if ev.Finished? then {ev.edge} else {}) ensures e in FinishedIn(u) {
      assert Finished(e) in u;
    }
  }

  /** Recording an event keeps the history right when the state is accounted for. */
  lemma Record(sh: Shape, s: PlanState, t: seq<Event>, ev: Event)
    requires s.trace == t + [ev]
    requires Ordered(sh, s.planned, t) && WithinPools(sh, t)
    requires StartedIn(s.trace) == s.running + s.failed + s.Ran()
    requires FinishedIn(s.trace) == s.planned - s.want.Keys
    requires Lifecycle(sh, s)
    requires forall pool :: pool in sh.pools ==> Accounted(s, pool)
    requires ev.edge in s.planned && ev.edge !in FinishedIn(t)
    requires ev.Started? ==> ev.edge !in StartedIn(t)
    requires sh.Prods(ev.edge) * s.planned <= FinishedIn(t)
    ensures Recorded(sh, s)
  {
    hide Count, Accounted, PoolBound, Lifecycle, InPool;
    assert s.trace[..|s.trace| - 1] == t;
    TraceSets(sh, s);
    forall pool | pool in sh.pools && pool.depth != 0 ensures PoolBound(s.trace, pool) {
      TraceBound(s, pool);
    }
  }

  lemma TraceSets(sh: Shape, s: PlanState)
    requires StartedIn(s.trace) == s.running + s.failed + s.Ran() && FinishedIn(s.trace) == s.planned - s.want.Keys
    requires Lifecycle(sh, s)
    ensures FinishedIn(s.trace) - StartedIn(s.trace) == s.flushed
    ensures StartedIn(s.trace) - FinishedIn(s.trace) == s.running + s.failed
  {
    hide StartedIn, FinishedIn;
  }

  lemma TraceBound(s: PlanState, pool: Pool)
    requires FinishedIn(s.trace) - StartedIn(s.trace) == s.flushed
    requires StartedIn(s.trace) - FinishedIn(s.trace) == s.running + s.failed
    requires Accounted(s, pool) && pool.depth != 0
    ensures PoolBound(s.trace, pool)
  {
    hide Count, StartedIn, FinishedIn;
    CountSubset(InPool(s.running + s.failed, pool), InPool(s.Busy(), pool));
  }

  lemma SamePools(s: PlanState, s': PlanState, pool: Pool)
    requires s' ==
      s.(want := s'.want, planned := s'.planned, wanted := s'.wanted, commands := s'.commands, dirty := s'.dirty)
    ensures Accounted(s, pool) ==> Accounted(s', pool)
    ensures FullOrEmpty(s, pool) ==> FullOrEmpty(s', pool)
  {}

  lemma DirtyFree(sh: Shape, s: PlanState, s': PlanState)
    requires Core(sh, s) && s' == s.(dirty := s'.dirty)
    ensures Core(sh, s')
  {
    hide Accounted, FullOrEmpty, Ordered, WithinPools, StartedIn, FinishedIn;
    forall pool | pool in sh.pools ensures Accounted(s', pool) && FullOrEmpty(s', pool) {
      SamePools(s, s', pool);
    }
  }

  // ----- scheduling -----

  lemma InGraph(sh: Shape, s: PlanState, e: Edge)
    requires Core(sh, s) && e in s.want.Keys + s.Scheduled()
    ensures e in sh.edges && e in s.planned && e.pool in sh.pools && e !in s.done
    ensures e in s.Scheduled() ==> e in s.want && s.want[e] && sh.Prods(e) <= s.done
  {}

  lemma UnboundedNeverDelays(sh: Shape, s: PlanState, pool: Pool, except: set<Pool>)
    requires Core(sh, s, except) && pool.depth == 0
    ensures InPool(s.delayed, pool) == {}
  {}

  lemma Unscheduled(sh: Shape, s: PlanState, s': PlanState)
    requires Recorded(sh, s)
    requires s' == s.(ready := s'.ready, delayed := s'.delayed, use := s'.use)
    ensures Recorded(sh, s')
  {}

  lemma MakeReady(sh: Shape, s: PlanState, s': PlanState, e: Edge)
    requires Core(sh, s)
    requires e in s.want && s.want[e] && sh.Prods(e) <= s.done && e !in s.running + s.failed
    requires e.pool.depth == 0
    requires s' == s.(ready := s.ready + {e})
    ensures Core(sh, s') && Admitted(s, s', e)
  {
    hide Count, Recorded;
    Unscheduled(sh, s, s');
    assert e !in s.delayed;
    forall pool | pool in sh.pools ensures Accounted(s', pool) && FullOrEmpty(s', pool) {
      assert Accounted(s, pool) && FullOrEmpty(s, pool);
      if pool.depth != 0 {
        assert InPool(s'.Busy(), pool) == InPool(s.Busy(), pool);
      }
    }
  }

  lemma Delay(sh: Shape, s: PlanState, s': PlanState, e: Edge)
    requires Core(sh, s)
    requires e in s.want && s.want[e] && sh.Prods(e) <= s.done && e !in s.ready + s.running + s.failed
    requires e.pool.depth != 0
    requires s' == s.(delayed := s.delayed + {e})
    ensures Core(sh, s', {e.pool}) && Admitted(s, s', e)
  {
    hide Count, Recorded, Accounted, FullOrEmpty, InPool;
    Unscheduled(sh, s, s');
    forall pool | pool in sh.pools ensures Accounted(s', pool) && (pool != e.pool ==> FullOrEmpty(s', pool)) {
      DelayPool(s, s', e, pool);
    }
  }

  lemma DelayPool(s: PlanState, s': PlanState, e: Edge, pool: Pool)
    requires s' == s.(delayed := s.delayed + {e})
    ensures Accounted(s, pool) ==> Accounted(s', pool)
    ensures pool != e.pool && FullOrEmpty(s, pool) ==> FullOrEmpty(s', pool)
  {
    hide Count;
    if pool != e.pool {
      assert InPool(s'.delayed, pool) == InPool(s.delayed, pool);
    }
  }

  lemma RetrieveAccounted(s: PlanState, s': PlanState, pool: Pool, moved: set<Edge>, q: Pool)
    requires pool in s.use && moved <= InPool(s.delayed, pool) && moved !! s.Busy()
    requires pool.depth == 0 ==> InPool(s.delayed, pool) == {}
    requires s' == s.(ready := s.ready + moved, delayed := s.delayed - moved,
                      use := s.use[pool := s.use[pool] + Count(moved)])
    requires InPool(s'.delayed, pool) == {} || pool.depth <= s'.use[pool]
    requires moved != {} ==> s'.use[pool] <= pool.depth
    requires Accounted(s, q) && (q != pool ==> FullOrEmpty(s, q))
    ensures Accounted(s', q) && FullOrEmpty(s', q)
  {
    hide Count;
    EmptyCount();
    assert Count(InPool(s'.Busy(), q)) == Count(InPool(s.Busy(), q)) + Count(InPool(moved, q)) by {
      assert s'.Busy() == s.Busy() + moved;
      InPoolUnion(s.Busy(), moved, q);
    }
    if q == pool {
      assert InPool(moved, q) == moved;
    } else {
      assert InPool(moved, q) == {};
      assert InPool(s'.delayed, q) == InPool(s.delayed, q);
    }
  }

  lemma RetrievePools(sh: Shape, s: PlanState, s': PlanState, pool: Pool, moved: set<Edge>)
    requires pool in sh.pools && pool in s.use && moved <= InPool(s.delayed, pool)
    requires Lifecycle(sh, s)
    requires forall q :: q in sh.pools ==> Accounted(s, q)
    requires forall q :: q in sh.pools && q != pool ==> FullOrEmpty(s, q)
    requires s' == s.(ready := s.ready + moved, delayed := s.delayed - moved,
                      use := s.use[pool := s.use[pool] + Count(moved)])
    requires InPool(s'.delayed, pool) == {} || pool.depth <= s'.use[pool]
    requires moved != {} ==> s'.use[pool] <= pool.depth
    ensures forall q :: q in sh.pools ==> Accounted(s', q) && FullOrEmpty(s', q)
  {
    hide Count;
    forall q | q in sh.pools ensures Accounted(s', q) && FullOrEmpty(s', q) {
      RetrieveAccounted(s, s', pool, moved, q);
    }
  }

  lemma RetrieveLifecycle(sh: Shape, s: PlanState, s': PlanState, moved: set<Edge>)
    requires Lifecycle(sh, s) && moved <= s.delayed
    requires s' == s.(ready := s.ready + moved, delayed := s.delayed - moved, use := s'.use)
    ensures Lifecycle(sh, s')
    ensures s'.ready + s'.delayed == s.ready + s.delayed && Overdue(sh, s') == Overdue(sh, s)
  {
    hide Count;
    assert s'.Scheduled() == s.Scheduled();
  }

  lemma Retrieve(sh: Shape, s: PlanState, s': PlanState, pool: Pool, moved: set<Edge>)
    requires Core(sh, s, {pool}) && pool in sh.pools
    requires moved <= InPool(s.delayed, pool)
    requires s' == s.(ready := s.ready + moved, delayed := s.delayed - moved,
                      use := s.use[pool := s.use[pool] + Count(moved)])
    requires InPool(s'.delayed, pool) == {} || pool.depth <= s'.use[pool]
    requires moved != {} ==> s'.use[pool] <= pool.depth
    ensures Core(sh, s')
    ensures s'.ready + s'.delayed == s.ready + s.delayed && Overdue(sh, s') == Overdue(sh, s)
  {
    hide Count, Recorded;
    RetrieveLifecycle(sh, s, s', moved);
    RetrievePools(sh, s, s', pool, moved);
    Unscheduled(sh, s, s');
  }

  // ----- starting, failing, finishing -----

  lemma StartLifecycle(sh: Shape, s: PlanState, s': PlanState, e: Edge)
    requires Lifecycle(sh, s) && e in s.ready
    requires s' == s.(ready := s.ready - {e}, running := s.running + {e}, trace := s'.trace)
    ensures Lifecycle(sh, s') && e in s.planned - s.Ran()
    ensures s'.Busy() == s.Busy() && s'.Scheduled() == s.Scheduled()
  {}

  /** The ready edge `e` was handed out. */
  ghost predicate Taken(s: PlanState, s': PlanState, e: Edge)
  {
    && e in s.ready
    && s' == s.(ready := s.ready - {e}, running := s.running + {e}, trace := s.trace + [Started(e)])
  }

  lemma Start(sh: Shape, s: PlanState, s': PlanState, e: Edge)
    requires Core(sh, s) && Taken(s, s', e)
    ensures Core(sh, s') && Overdue(sh, s') == Overdue(sh, s)
  {
    hide Count, Ordered, WithinPools;
    StartLifecycle(sh, s, s', e);
    forall pool | pool in sh.pools ensures Accounted(s', pool) && FullOrEmpty(s', pool) {
      assert Accounted(s, pool) && FullOrEmpty(s, pool);
    }
    AppendEvent(s.trace, Started(e));
    Record(sh, s', s.trace, Started(e));
  }

  lemma Fail(sh: Shape, s: PlanState, s': PlanState, e: Edge)
    requires Core(sh, s) && e in s.running
    requires s' == s.(running := s.running - {e}, failed := s.failed + {e})
    ensures Core(sh, s') && Overdue(sh, s') == Overdue(sh, s)
  {
    hide Count, Ordered, WithinPools;
    assert s'.Busy() == s.Busy() && s'.Scheduled() == s.Scheduled();
    assert s'.running + s'.failed == s.running + s.failed;
    forall pool | pool in sh.pools ensures Accounted(s', pool) && FullOrEmpty(s', pool) {
      assert Accounted(s, pool) && FullOrEmpty(s, pool);
    }
  }

  /** An edge may finish when it is running, or when nobody wanted it and its inputs are ready. */
  ghost predicate MayFinish(sh: Shape, s: PlanState, e: Edge)
  {
    hide Count;
    && e in s.want && sh.Prods(e) <= s.done
    && (s.want[e] ==> e in s.running)
  }

  /** `EdgeFinished` up to the release of the pool slot. */
  ghost function Release(s: PlanState, e: Edge): PlanState
    requires e in s.want && e.pool in s.use
  {
    hide Count;
    var pool := e.pool;
    s.(want := s.want - {e}, done := s.done + {e}, running := s.running - {e},
       wanted := s.wanted - if s.want[e] then 1 else 0,
       use := s.use[pool := s.use[pool] - if pool.depth != 0 then 1 else 0],
       flushed := s.flushed + if s.want[e] then {} else {e},
       trace := s.trace + [Finished(e)])
  }

  lemma ReleaseLifecycle(sh: Shape, s: PlanState, e: Edge)
    requires Core(sh, s) && MayFinish(sh, s, e)
    ensures Lifecycle(sh, Release(s, e))
  {
    hide Count;
    var s' := Release(s, e);
    assert s'.want.Keys == s.want.Keys - {e};
    assert e !in s.flushed;
  }

  lemma ReleaseAccounted(s: PlanState, e: Edge, pool: Pool)
    requires e in s.want && e.pool in s.use
    requires s.want[e] ==> e in s.running && e !in s.ready + s.failed
    requires !s.want[e] ==> e !in s.Busy() + s.flushed
    requires Accounted(s, pool)
    ensures Accounted(Release(s, e), pool)
  {
    hide Count;
    EmptyCount();
    var s' := Release(s, e);
    if s.want[e] {
      assert s.Busy() == s'.Busy() + {e} && s'.flushed == s.flushed;
      InPoolUnion(s'.Busy(), {e}, pool);
    } else {
      assert s.Busy() == s'.Busy();
      InPoolUnion(s.flushed, {e}, pool);
    }
    if e.pool == pool {
      assert InPool({e}, pool) == {e};
      assert Count({e}) == 1;
    } else {
      assert InPool({e}, pool) == {};
    }
  }

  lemma ReleaseKeepsCore(sh: Shape, s: PlanState, e: Edge)
    requires Core(sh, s) && MayFinish(sh, s, e)
    ensures Core(sh, Release(s, e), {e.pool})
  {
    hide Count, Ordered, WithinPools;
    var s' := Release(s, e);
    ReleaseLifecycle(sh, s, e);
    forall pool | pool in sh.pools
      ensures Accounted(s', pool) && (pool != e.pool ==> FullOrEmpty(s', pool))
    {
      assert Accounted(s, pool) && FullOrEmpty(s, pool);
      ReleaseAccounted(s, e, pool);
    }
    AppendEvent(s.trace, Finished(e));
    assert s'.want.Keys == s.want.Keys - {e};
    if s.want[e] {
      assert s'.Ran() == s.Ran() + {e};
    } else {
      assert e !in s.Trues();
      assert s'.Ran() == s.Ran();
    }
    Record(sh, s', s.trace, Finished(e));
  }
}
