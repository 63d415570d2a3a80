// Which edges are flushed, and what that means for the pools and for what runs.

module PlanPools {
  import opened Graph
  import opened PlanModel
  import opened PlanSteps
  import opened PlanLiveness

  ghost function Unwanted(s: PlanState): set<Edge>
  {
    set e | e in s.want && !s.want[e]
  }

  /** From `a` to `b` no entry changed its flag, and exactly the entries that left the plan unwanted
      were flushed. */
  ghost predicate Carried(a: PlanState, b: PlanState)
  {
    && b.want.Keys <= a.want.Keys && (forall e :: e in b.want ==> b.want[e] == a.want[e])
    && b.flushed == a.flushed + (Unwanted(a) - b.want.Keys)
  }

  lemma CarriedTransitive(a: PlanState, b: PlanState, c: PlanState)
    requires Carried(a, b) && Carried(b, c)
    ensures Carried(a, c)
  {
    assert Unwanted(b) == Unwanted(a) * b.want.Keys;
  }

  lemma CarriedSame(a: PlanState, b: PlanState)
    requires b.want == a.want && b.flushed == a.flushed
    ensures Carried(a, b)
  {
    assert Unwanted(a) - b.want.Keys == {};
  }

  /** The end of a wanted edge flushes exactly the unwanted entries that leave with it. */
  lemma FinishCarries(sh: Shape, a: PlanState, b: PlanState, e: Edge)
    requires e in a.want && a.want[e] && Finish(sh, a, b, e)
    ensures Carried(a, b)
  {
    hide Overdue, Shape.OutsOf, Shape.Prods;
    assert Unwanted(a) - b.want.Keys == a.want.Keys - b.want.Keys - {e};
  }

  /** A build that ran to the end has overdrawn a bounded pool, by flushing an edge through it, exactly
      if some entry of the pool was unwanted when the build began. */
  lemma Overdrawn(sh: Shape, a: PlanState, b: PlanState, pool: Pool)
    requires Complete(sh, b) && Carried(a, b) && a.flushed == {} && pool in sh.pools && pool.depth != 0
    ensures pool in b.use && (b.use[pool] < 0 <==> InPool(b.flushed, pool) != {})
    ensures InPool(b.flushed, pool) == InPool(Unwanted(a), pool)
  {
    hide Count, StartedIn, FinishedIn, Commands, Shape.OutsOf;
    EmptyCount();
    NoneCounted(InPool(b.flushed, pool));
    assert b.flushed == Unwanted(a);
  }

  /** While an edge waits in a pool, the busy edges of the pool are as many as its depth and the edges
      flushed through it together: no more than the depth exactly if none was flushed. */
  lemma BusyWhileWaiting(sh: Shape, s: PlanState, e: Edge)
    requires Core(sh, s) && e in s.delayed
    ensures Count(InPool(s.Busy(), e.pool)) == e.pool.depth + Count(InPool(s.flushed, e.pool))
    ensures Count(InPool(s.Busy(), e.pool)) <= e.pool.depth <==> InPool(s.flushed, e.pool) == {}
  {
    hide Recorded, Count;
    InGraph(sh, s, e);
    assert Accounted(s, e.pool) && FullOrEmpty(s, e.pool);
    assert e in InPool(s.delayed, e.pool);
    NoneCounted(InPool(s.flushed, e.pool));
    EmptyCount();
  }

  /** Where all entries of a pool are wanted at first, none of its edges is ever flushed. */
  lemma NothingToFlush(a: PlanState, b: PlanState, pool: Pool)
    requires Carried(a, b) && InPool(a.flushed + Unwanted(a), pool) == {}
    ensures InPool(b.flushed, pool) == {}
  {
    forall e | e in InPool(b.flushed, pool) ensures e in InPool(a.flushed + Unwanted(a), pool) {}
  }

  /** A build that ran to the end has started exactly the edges that were wanted when it began. */
  lemma StartedWanted(sh: Shape, a: PlanState, b: PlanState)
    requires Core(sh, b) && Complete(sh, b) && Carried(a, b) && a.flushed == {} && b.planned == a.want.Keys
    ensures StartedIn(b.trace) == a.Trues()
  {
    hide Lifecycle, Accounted, FullOrEmpty, Ordered, WithinPools, StartedIn, FinishedIn, Commands, Count, Shape.OutsOf;
    assert b.flushed == Unwanted(a);
    assert b.running + b.failed == {};
  }

  /** If no edge of a bounded pool was flushed, then at every moment at most `depth` of its edges had
      been started and had not finished. */
  lemma NeverTooMany(sh: Shape, s: PlanState, pool: Pool, k: nat)
    requires Core(sh, s) && pool in sh.pools && pool.depth != 0 && k <= |s.trace|
    requires InPool(s.flushed, pool) == {}
    ensures Count(InPool(StartedIn(s.trace[..k]) - FinishedIn(s.trace[..k]), pool)) <= pool.depth
  {
    hide Lifecycle, Accounted, FullOrEmpty, Ordered, WithinPools, StartedIn, FinishedIn, Count;
    TraceSets(sh, s);
    assert InPool(FinishedIn(s.trace) - StartedIn(s.trace), pool) == {};
    BoundAt(sh, s.planned, s.trace, pool, k);
  }

  lemma {:induction false} BoundAt(sh: Shape, planned: set<Edge>, t: seq<Event>, pool: Pool, k: nat)
    requires Ordered(sh, planned, t) && WithinPools(sh, t) && pool in sh.pools && pool.depth != 0 && k <= |t|
    requires InPool(FinishedIn(t) - StartedIn(t), pool) == {}
    ensures Count(InPool(StartedIn(t[..k]) - FinishedIn(t[..k]), pool)) <= pool.depth
    decreases |t|
  {
    hide Count, StartedIn, FinishedIn, Shape.Prods;
    EmptyCount();
    if k == |t| {
      assert t[..k] == t;
      if t == [] {
        NothingStarted();
        assert InPool({}, pool) == {};
      } else {
        assert PoolBound(t, pool);
      }
    } else {
      var before, ev := t[..|t| - 1], t[|t| - 1];
      assert t == before + [ev] && t[..k] == before[..k];
      AppendEvent(before, ev);
      assert FinishedIn(before) - StartedIn(before) <= FinishedIn(t) - StartedIn(t);
      BoundAt(sh, planned, before, pool, k);
    }
  }

  lemma NothingStarted()
    ensures StartedIn([]) == {} && FinishedIn([]) == {}
  {}
}
