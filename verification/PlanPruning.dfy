// Restat pruning: what cleaning a node takes out of the wanted edges.

module PlanPruning {
  import opened Graph
  import opened PlanModel
  import opened PlanSteps
  import opened PlanTargets
  import opened Staleness

  /** What the scan saw and a build does not change. */
  datatype Facts = Facts(mtimes: map<Node, int>, log: Log, missing: set<Edge>)

  /** A wanted edge that need not run: its deps are known, the inputs that matter are clean, and its
      outputs are not out of date. */
  ghost predicate Prunable(sh: Shape, fx: Facts, s: PlanState, e: Edge)
  {
    && e in s.want && s.want[e] && e !in fx.missing
    && (forall n :: n in sh.Regular(e) ==> n !in s.dirty)
    && !Stale(sh, fx.mtimes, fx.log, e)
  }

  /** The edges that were wanted and no longer are. */
  ghost function Off(s: PlanState, s': PlanState): set<Edge>
  {
    set e | e in s.want && s.want[e] && e in s'.want && !s'.want[e]
  }

  ghost predicate Touched(sh: Shape, e: Edge, nodes: set<Node>)
  {
    exists n :: n in sh.Ins(e) && n in nodes
  }

  /** Only `nodes` and the outputs of edges turned off became clean; each of those edges could be
      pruned, uses a cleaned node, and had not been scheduled. */
  ghost predicate Pruned(sh: Shape, fx: Facts, s: PlanState, s': PlanState, nodes: set<Node>)
  {
    var off := Off(s, s');
    && s' == s.(want := s'.want, dirty := s.dirty - nodes - sh.OutsOf(off),
                wanted := s'.wanted, commands := s'.commands)
    && s'.want.Keys == s.want.Keys
    && (forall e :: e in s.want && s'.want[e] ==> s.want[e])
    && (forall e :: e in off ==> Justified(sh, fx, s', e) && e !in s.Scheduled())
    && (forall e :: e in off ==> Touched(sh, e, nodes + sh.OutsOf(off)))
  }

  ghost predicate Justified(sh: Shape, fx: Facts, s': PlanState, e: Edge)
  {
    e !in fx.missing && (forall n :: n in sh.Regular(e) ==> n !in s'.dirty) && !Stale(sh, fx.mtimes, fx.log, e)
  }

  /** No edge that could be pruned and uses a cleaned node is left, but for those in `rest`. */
  ghost predicate Thorough(sh: Shape, fx: Facts, s: PlanState, s': PlanState, nodes: set<Node>, rest: set<Edge>)
  {
    forall e :: e in s'.want && Prunable(sh, fx, s', e) && Touched(sh, e, nodes + sh.OutsOf(Off(s, s'))) ==> e in rest
  }

  ghost predicate OffAbove(s: PlanState, s': PlanState, rank: map<Edge, nat>, low: Edge)
  {
    low in rank && forall e :: e in Off(s, s') ==> e in rank && rank[low] < rank[e]
  }

  ghost predicate RankedBelow(sh: Shape, planned: set<Edge>, rank: map<Edge, nat>, top: nat)
  {
    Ranked(sh, planned, rank) && forall e :: e in planned ==> rank[e] < top
  }

  ghost function Height(rank: map<Edge, nat>, top: nat, e: Edge): nat
  {
    if e in rank && rank[e] < top then top - rank[e] else 0
  }

  // ----- composition -----

  lemma OffTransitive(sh: Shape, s0: PlanState, s1: PlanState, s2: PlanState)
    requires s0.want.Keys == s1.want.Keys == s2.want.Keys
    requires forall e :: e in s0.want && s1.want[e] ==> s0.want[e]
    requires forall e :: e in s1.want && s2.want[e] ==> s1.want[e]
    ensures Off(s0, s2) == Off(s0, s1) + Off(s1, s2)
    ensures sh.OutsOf(Off(s0, s2)) == sh.OutsOf(Off(s0, s1)) + sh.OutsOf(Off(s1, s2))
  {
    assert Off(s0, s2) == Off(s0, s1) + Off(s1, s2);
  }

  lemma TouchedMore(sh: Shape, e: Edge, a: set<Node>, b: set<Node>)
    requires Touched(sh, e, a) && a <= b
    ensures Touched(sh, e, b)
  {}

  lemma PrunedTransitive(sh: Shape, fx: Facts, s0: PlanState, s1: PlanState, s2: PlanState, n1: set<Node>,
                         n2: set<Node>)
    requires Pruned(sh, fx, s0, s1, n1) && Pruned(sh, fx, s1, s2, n2)
    ensures Pruned(sh, fx, s0, s2, n1 + n2)
  {
    hide Stale, Touched, Shape.Regular, Off, Shape.OutsOf;
    OffTransitive(sh, s0, s1, s2);
    forall e | e in Off(s0, s2)
      ensures Justified(sh, fx, s2, e) && e !in s0.Scheduled()
      ensures Touched(sh, e, n1 + n2 + sh.OutsOf(Off(s0, s2)))
    {
      if e in Off(s0, s1) {
        TouchedMore(sh, e, n1 + sh.OutsOf(Off(s0, s1)), n1 + n2 + sh.OutsOf(Off(s0, s2)));
      } else {
        TouchedMore(sh, e, n2 + sh.OutsOf(Off(s1, s2)), n1 + n2 + sh.OutsOf(Off(s0, s2)));
      }
    }
  }

  /** Cleaning more nodes makes an edge prunable only if it uses one of them. */
  lemma ThoroughTransitive(sh: Shape, fx: Facts, s0: PlanState, s1: PlanState, s2: PlanState,
                           n1: set<Node>, n2: set<Node>, rest: set<Edge>)
    requires Pruned(sh, fx, s0, s1, n1) && Pruned(sh, fx, s1, s2, n2)
    requires Thorough(sh, fx, s0, s1, n1, rest) && Thorough(sh, fx, s1, s2, n2, {})
    ensures Thorough(sh, fx, s0, s2, n1 + n2, rest)
  {
    hide Stale, Off, Shape.OutsOf;
    OffTransitive(sh, s0, s1, s2);
    forall e | e in s2.want && Prunable(sh, fx, s2, e) && Touched(sh, e, n1 + n2 + sh.OutsOf(Off(s0, s2)))
      ensures e in rest
    {
      assert !Touched(sh, e, n2 + sh.OutsOf(Off(s1, s2)));
      RegularIsInput(sh, e);
      assert Prunable(sh, fx, s1, e);
      assert Touched(sh, e, n1 + sh.OutsOf(Off(s0, s1)));
    }
  }

  lemma RegularIsInput(sh: Shape, e: Edge)
    ensures forall n :: n in sh.Regular(e) ==> n in sh.Ins(e)
  {}

  /** The state after `e` is no longer wanted. */
  ghost function TurnOff(s: PlanState, e: Edge): PlanState
  {
    s.(want := s.want[e := false], wanted := s.wanted - 1, commands := s.commands - if e.phony then 0 else 1)
  }

  lemma TurnOffPruned(sh: Shape, fx: Facts, s0: PlanState, s: PlanState, nodes: set<Node>, e: Edge)
    requires Pruned(sh, fx, s0, s, nodes + NodesIn(sh.Outs(e))) && Justified(sh, fx, s, e)
    requires e in s.want && s.want[e] && e !in s.Scheduled() && Touched(sh, e, nodes)
    ensures Pruned(sh, fx, s0, TurnOff(s, e), nodes)
  {
    hide Stale, Touched, Shape.Regular;
    var s' := TurnOff(s, e);
    OffPlus(sh, s0, s, e);
    forall f | f in Off(s0, s') ensures Touched(sh, f, nodes + sh.OutsOf(Off(s0, s'))) {
      if f == e {
        TouchedMore(sh, f, nodes, nodes + sh.OutsOf(Off(s0, s')));
      } else {
        TouchedMore(sh, f, nodes + NodesIn(sh.Outs(e)) + sh.OutsOf(Off(s0, s)), nodes + sh.OutsOf(Off(s0, s')));
      }
    }
  }

  lemma OffPlus(sh: Shape, s0: PlanState, s: PlanState, e: Edge)
    requires s0.want.Keys == s.want.Keys && e in s.want && s.want[e]
    requires forall f :: f in s0.want && s.want[f] ==> s0.want[f]
    ensures Off(s0, TurnOff(s, e)) == Off(s0, s) + {e}
    ensures sh.OutsOf(Off(s0, TurnOff(s, e))) == sh.OutsOf(Off(s0, s)) + NodesIn(sh.Outs(e))
  {
    assert Off(s0, TurnOff(s, e)) == Off(s0, s) + {e};
  }

  lemma TurnOffThorough(sh: Shape, fx: Facts, s0: PlanState, s: PlanState, nodes: set<Node>, rest: set<Edge>, e: Edge)
    requires Pruned(sh, fx, s0, s, nodes + NodesIn(sh.Outs(e))) && e in s.want && s.want[e]
    requires Thorough(sh, fx, s0, s, nodes + NodesIn(sh.Outs(e)), rest + {e})
    ensures Thorough(sh, fx, s0, TurnOff(s, e), nodes, rest)
  {
    hide Stale, Touched, Shape.Regular;
    var s' := TurnOff(s, e);
    OffPlus(sh, s0, s, e);
    forall f | f in s'.want && Prunable(sh, fx, s', f) && Touched(sh, f, nodes + sh.OutsOf(Off(s0, s')))
      ensures f in rest
    {
      assert f != e && Prunable(sh, fx, s, f);
      assert nodes + sh.OutsOf(Off(s0, s')) == nodes + NodesIn(sh.Outs(e)) + sh.OutsOf(Off(s0, s));
    }
  }

  lemma TurnOffCore(sh: Shape, s: PlanState, e: Edge)
    requires Core(sh, s) && Counted(s) && e in s.want && s.want[e] && e !in s.Scheduled()
    ensures Core(sh, TurnOff(s, e)) && Counted(TurnOff(s, e))
  {
    hide Accounted, FullOrEmpty, Ordered, WithinPools, Count;
    var s' := TurnOff(s, e);
    forall pool | pool in sh.pools ensures Accounted(s', pool) && FullOrEmpty(s', pool) {
      SamePools(s, s', pool);
    }
    assert s'.want.Keys == s.want.Keys;
    TurnOffCounted(s, e);
  }

  lemma TurnOffCounted(s: PlanState, e: Edge)
    requires Counted(s) && e in s.want && s.want[e] && s.want.Keys <= s.planned
    ensures Counted(TurnOff(s, e))
  {
    hide Count;
    var s' := TurnOff(s, e);
    assert s'.want.Keys == s.want.Keys && s'.Ran() == s.Ran();
    assert s'.Trues() == s.Trues() - {e};
    CountMinus(s.Trues(), e);
    var c := Commands(s.Trues() + s.Ran());
    if e.phony {
      assert Commands(s'.Trues() + s'.Ran()) == c;
    } else {
      assert Commands(s'.Trues() + s'.Ran()) == c - {e};
      CountMinus(c, e);
    }
  }

  // ----- the steps of the traversal -----

  lemma NothingCleaned(sh: Shape, fx: Facts, s: PlanState)
    ensures Pruned(sh, fx, s, s, {}) && Thorough(sh, fx, s, s, {}, {})
  {
    hide Stale;
    assert Off(s, s) == {};
  }

  lemma CleanedOne(sh: Shape, fx: Facts, s0: PlanState, s: PlanState, node: Node, rank: map<Edge, nat>, top: nat)
    requires sh.WellFormed() && Core(sh, s0) && s == s0.(dirty := s0.dirty - {node})
    requires node in sh.producer && sh.producer[node] in s0.want && RankedBelow(sh, s0.planned, rank, top)
    ensures Pruned(sh, fx, s0, s, {node}) && Thorough(sh, fx, s0, s, {node}, EdgesIn(sh.Consumers(node)))
    ensures OffAbove(s0, s, rank, sh.producer[node]) && (Counted(s0) ==> Counted(s))
  {
    hide Stale, Recorded, Accounted, FullOrEmpty, Shape.Regular, Shape.Prods;
    assert Off(s0, s) == {};
  }

  lemma UsesUnfinished(sh: Shape, s: PlanState, node: Node, edge: Edge)
    requires Core(sh, s) && sh.WellFormed()
    requires node in sh.producer && sh.producer[node] in s.want && edge in sh.Consumers(node)
    ensures edge in sh.edges && edge !in s.Scheduled() && sh.producer[node] in sh.Prods(edge)
    ensures forall nodes :: node in nodes ==> Touched(sh, edge, nodes)
  {
    assert node in sh.nodes && node in sh.Ins(edge);
    ProdsOf(sh, edge, node);
    if edge in s.Scheduled() {
      InGraph(sh, s, edge);
    }
    InGraph(sh, s, sh.producer[node]);
  }

  lemma DropRest(sh: Shape, fx: Facts, s0: PlanState, s: PlanState, nodes: set<Node>, rest: set<Edge>, e: Edge)
    requires Thorough(sh, fx, s0, s, nodes, rest + {e})
    ensures Prunable(sh, fx, s, e) || Thorough(sh, fx, s0, s, nodes, rest)
  {}

  lemma PrunableIsWanted(sh: Shape, fx: Facts, s: PlanState, e: Edge)
    requires Prunable(sh, fx, s, e)
    ensures e in s.want && s.want[e]
  {}

  lemma RegularKnown(sh: Shape, mtimes: map<Node, int>, e: Edge)
    requires sh.WellFormed() && AllExamined(sh, mtimes, e) && e in sh.edges
    ensures forall n :: n in sh.Regular(e) ==> n in sh.nodes && n in mtimes
  {
    LinkedNodes(sh, e);
  }

  lemma RankedKeys(sh: Shape, planned: set<Edge>, rank: map<Edge, nat>, top: nat)
    requires RankedBelow(sh, planned, rank, top)
    ensures rank.Keys == planned
  {}

  lemma EntriesRanked(sh: Shape, s: PlanState, rank: map<Edge, nat>, top: nat)
    requires Core(sh, s) && RankedBelow(sh, s.planned, rank, top)
    ensures s.want.Keys <= rank.Keys
  {
    hide Recorded, Accounted, FullOrEmpty;
  }

  lemma RankedHigher(sh: Shape, s: PlanState, rank: map<Edge, nat>, top: nat, low: Edge, e: Edge)
    requires Core(sh, s) && RankedBelow(sh, s.planned, rank, top) && low in s.want && e in s.want && low in sh.Prods(e)
    ensures low in rank && e in rank && rank[low] < rank[e] && Height(rank, top, e) < Height(rank, top, low)
  {
    InGraph(sh, s, low);
    InGraph(sh, s, e);
  }

  lemma StillJustified(sh: Shape, fx: Facts, s: PlanState, s': PlanState, e: Edge)
    requires Prunable(sh, fx, s, e) && s'.dirty <= s.dirty
    ensures Justified(sh, fx, s', e)
  {}

  lemma TurnOffAbove(s0: PlanState, s: PlanState, rank: map<Edge, nat>, low: Edge, e: Edge)
    requires OffAbove(s0, s, rank, low) && e in rank && rank[low] < rank[e] && e in s.want
    ensures OffAbove(s0, TurnOff(s, e), rank, low)
  {}

  lemma TurnOffDone(sh: Shape, fx: Facts, s0: PlanState, before: PlanState, s: PlanState, node: Node,
                    rest: set<Edge>, rank: map<Edge, nat>, low: Edge, e: Edge)
    requires Core(sh, s) && Counted(s) && Prunable(sh, fx, before, e) && s.dirty <= before.dirty
    requires e in s.want && s.want[e] && e !in s.Scheduled() && Touched(sh, e, {node})
    requires Pruned(sh, fx, s0, s, {node} + NodesIn(sh.Outs(e)))
    requires Thorough(sh, fx, s0, s, {node} + NodesIn(sh.Outs(e)), rest + {e})
    requires OffAbove(s0, s, rank, low) && low in rank && e in rank && rank[low] < rank[e]
    ensures Core(sh, TurnOff(s, e)) && Counted(TurnOff(s, e))
    ensures Pruned(sh, fx, s0, TurnOff(s, e), {node}) && Thorough(sh, fx, s0, TurnOff(s, e), {node}, rest)
    ensures OffAbove(s0, TurnOff(s, e), rank, low)
    ensures TurnOff(s, e).want.Keys == s.want.Keys && TurnOff(s, e).planned == s.planned
  {
    hide Core, Counted, Prunable, Justified, Pruned, Thorough, OffAbove, Touched, NodesIn;
    StillJustified(sh, fx, before, s, e);
    TurnOffCore(sh, s, e);
    TurnOffPruned(sh, fx, s0, s, {node}, e);
    TurnOffThorough(sh, fx, s0, s, {node}, rest, e);
    TurnOffAbove(s0, s, rank, low, e);
  }

  lemma PrunedFacts(sh: Shape, fx: Facts, s: PlanState, s': PlanState, nodes: set<Node>, rank: map<Edge, nat>, e: Edge)
    requires Pruned(sh, fx, s, s', nodes) && OffAbove(s, s', rank, e) && e in s.want && s.want[e]
    ensures s' == s.(want := s'.want, dirty := s'.dirty, wanted := s'.wanted, commands := s'.commands)
    ensures s'.want.Keys == s.want.Keys && s'.want[e] && s'.dirty <= s.dirty
  {}

  lemma OffAboveTransitive(sh: Shape, fx: Facts, s0: PlanState, s1: PlanState, s2: PlanState,
                           n1: set<Node>, n2: set<Node>, rank: map<Edge, nat>, low: Edge, e: Edge)
    requires Pruned(sh, fx, s0, s1, n1) && Pruned(sh, fx, s1, s2, n2)
    requires OffAbove(s0, s1, rank, low) && OffAbove(s1, s2, rank, e) && rank[low] <= rank[e]
    ensures OffAbove(s0, s2, rank, low)
  {
    OffTransitive(sh, s0, s1, s2);
  }

  // ----- the result does not depend on the order of the visits -----

  /** An edge pruned in one traversal is pruned in every other one. */
  lemma {:induction false} PrunedInBoth(sh: Shape, fx: Facts, s: PlanState, a: PlanState, b: PlanState,
                                        nodes: set<Node>, rank: map<Edge, nat>, e: Edge)
    requires sh.WellFormed() && s.want.Keys <= s.planned && Ranked(sh, s.planned, rank)
    requires Pruned(sh, fx, s, a, nodes) && Pruned(sh, fx, s, b, nodes) && Thorough(sh, fx, s, b, nodes, {})
    requires e in Off(s, a)
    ensures e in Off(s, b)
    decreases rank[e]
  {
    hide Stale, Shape.WellFormed;
    forall n | n in sh.Ins(e) && n in sh.OutsOf(Off(s, a)) ensures n in sh.OutsOf(Off(s, b)) {
      var f :| f in Off(s, a) && n in sh.Outs(f);
      MadeByInput(sh, f, n, e);
      PrunedInBoth(sh, fx, s, a, b, nodes, rank, f);
    }
    assert Justified(sh, fx, a, e);
    RegularIsInput(sh, e);
    assert Justified(sh, fx, b, e);
    assert Touched(sh, e, nodes + sh.OutsOf(Off(s, a)));
    assert Touched(sh, e, nodes + sh.OutsOf(Off(s, b)));
    assert !Prunable(sh, fx, b, e);
  }

  lemma MadeByInput(sh: Shape, f: Edge, n: Node, e: Edge)
    requires sh.WellFormed() && n in sh.Outs(f) && n in sh.Ins(e)
    ensures f in sh.Prods(e)
  {
    assert f in sh.edges && sh.producer[n] == f;
  }

  /** Two thorough traversals that clean the same nodes leave the same plan and the same dirty set. */
  lemma PruningIsDetermined(sh: Shape, fx: Facts, s: PlanState, a: PlanState, b: PlanState,
                            nodes: set<Node>, rank: map<Edge, nat>)
    requires sh.WellFormed() && Core(sh, s) && Ranked(sh, s.planned, rank)
    requires Pruned(sh, fx, s, a, nodes) && Thorough(sh, fx, s, a, nodes, {}) && Counted(a)
    requires Pruned(sh, fx, s, b, nodes) && Thorough(sh, fx, s, b, nodes, {}) && Counted(b)
    ensures a == b
  {
    hide Stale, Recorded, Accounted, FullOrEmpty, Shape.WellFormed, Thorough, Counted, Ranked, Off;
    assert s.want.Keys <= s.planned;
    OffInBoth(sh, fx, s, a, b, nodes, rank);
    OffInBoth(sh, fx, s, b, a, nodes, rank);
    SameWants(s, a, b);
  }

  lemma OffInBoth(sh: Shape, fx: Facts, s: PlanState, a: PlanState, b: PlanState, nodes: set<Node>,
                  rank: map<Edge, nat>)
    requires sh.WellFormed() && s.want.Keys <= s.planned && Ranked(sh, s.planned, rank)
    requires Pruned(sh, fx, s, a, nodes) && Pruned(sh, fx, s, b, nodes) && Thorough(sh, fx, s, b, nodes, {})
    ensures Off(s, a) <= Off(s, b)
  {
    hide *;
    forall e | e in Off(s, a) ensures e in Off(s, b) {
      PrunedInBoth(sh, fx, s, a, b, nodes, rank, e);
    }
  }

  lemma SameWants(s: PlanState, a: PlanState, b: PlanState)
    requires a.want.Keys == s.want.Keys == b.want.Keys && Off(s, a) == Off(s, b)
    requires (forall e :: e in s.want && a.want[e] ==> s.want[e])
    requires (forall e :: e in s.want && b.want[e] ==> s.want[e])
    requires Counted(a) && Counted(b) && a.planned == b.planned && a.flushed == b.flushed
    ensures a.want == b.want && a.wanted == b.wanted && a.commands == b.commands
  {
    hide Count;
    forall e | e in s.want ensures a.want[e] == b.want[e] {
      assert e in Off(s, a) <==> e in Off(s, b);
    }
    assert a.want == b.want;
  }
}
