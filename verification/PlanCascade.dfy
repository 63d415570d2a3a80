// How the steps of a cascade add up.

module PlanCascade {
  import opened Graph
  import opened PlanModel
  import opened PlanSteps

  lemma OutsOfUnion(sh: Shape, a: set<Edge>, b: set<Edge>)
    ensures sh.OutsOf(a + b) == sh.OutsOf(a) + sh.OutsOf(b)
  {}

  lemma CascadeTransitive(sh: Shape, s0: PlanState, s1: PlanState, s2: PlanState, n1: set<Node>, n2: set<Node>)
    requires Cascade(sh, s0, s1, n1) && Cascade(sh, s1, s2, n2)
    ensures Cascade(sh, s0, s2, n1 + n2)
  {
    hide Overdue, Shape.Prods;
    var g1, g2 := s0.want.Keys - s1.want.Keys, s1.want.Keys - s2.want.Keys;
    assert s0.want.Keys - s2.want.Keys == g1 + g2;
    OutsOfUnion(sh, g1, g2);
  }

  lemma IsProducer(sh: Shape, e: Edge, n: Node, c: Edge)
    requires sh.WellFormed() && e in sh.edges && n in sh.Outs(e) && c in sh.Consumers(n)
    ensures e in sh.Prods(c)
  {
    assert n in sh.Ins(c) && sh.producer[n] == e;
    ProdsOf(sh, c, n);
  }

  /** The edges that consume an output of an unfinished edge have not been scheduled. */
  lemma ConsumersWait(sh: Shape, s: PlanState, e: Edge)
    requires Core(sh, s) && sh.WellFormed() && e in s.want && e in sh.edges
    ensures Idle(sh, s, NodesIn(sh.Outs(e)))
  {
    hide Core, Shape.WellFormed;
    InGraph(sh, s, e);
    forall n, c | n in NodesIn(sh.Outs(e)) && c in sh.Consumers(n) ensures c !in s.running + s.failed {
      IsProducer(sh, e, n, c);
      if c in s.running + s.failed {
        InGraph(sh, s, c);
      }
    }
  }

  lemma LeavingEdge(sh: Shape, s: PlanState, e: Edge)
    requires Core(sh, s) && sh.WellFormed() && e in s.want
    ensures e in sh.edges && e.pool in sh.pools && e.pool in s.use && e !in s.flushed
    ensures forall n :: n in sh.Outs(e) ==> n in sh.nodes
  {
    hide Recorded, Accounted, FullOrEmpty, Shape.Prods;
  }

  lemma CascadeFacts(sh: Shape, s: PlanState, s': PlanState, cleaned: set<Node>)
    requires Cascade(sh, s, s', cleaned)
    ensures s'.running == s.running && s'.failed == s.failed && s'.want.Keys <= s.want.Keys
    ensures Overdue(sh, s') <= Overdue(sh, s)
  {}

  lemma IdleAtAll(sh: Shape, s: PlanState, s': PlanState, ns: set<Node>, n: Node)
    requires Idle(sh, s, ns) && n in ns && s'.running <= s.running && s'.failed == s.failed
    ensures Idle(sh, s', {n})
  {
    forall c | c in sh.Consumers(n) ensures c !in s'.running + s'.failed {
      assert c !in s.running + s.failed;
    }
  }

  lemma SettledUnion(sh: Shape, s: PlanState, s': PlanState, a: set<Node>, b: set<Node>)
    requires Settled(sh, s, a) && Settled(sh, s', b) && Overdue(sh, s') <= Overdue(sh, s)
    ensures Settled(sh, s', a + b)
  {}

  lemma NotOverdue(sh: Shape, s: PlanState, e: Edge)
    ensures e !in s.want || !(sh.Prods(e) <= s.done) ==> e !in Overdue(sh, s)
  {}

  lemma CascadeReflexive(sh: Shape, s: PlanState)
    ensures Cascade(sh, s, s, {}) && Settled(sh, s, {})
  {
    assert s.want.Keys - s.want.Keys == {};
  }

  lemma CascadeStart(sh: Shape, s: PlanState, s': PlanState, node: Node)
    requires s' == s.(dirty := s.dirty - {node})
    ensures Cascade(sh, s, s', {node})
  {}

  lemma AdmittedIsCascade(sh: Shape, s: PlanState, s': PlanState, e: Edge)
    requires Admitted(s, s', e)
    ensures Cascade(sh, s, s', {}) && e !in Overdue(sh, s')
  {
    assert s'.Scheduled() == s.Scheduled() + {e};
    assert s.want.Keys - s'.want.Keys == {};
  }

  lemma FinishIsCascade(sh: Shape, s: PlanState, s': PlanState, e: Edge)
    requires Core(sh, s) && MayFinish(sh, s, e) && !s.want[e] && Finish(sh, s, s', e)
    ensures Cascade(sh, s, s', {}) && e !in Overdue(sh, s')
  {
    hide Overdue, Recorded, Accounted, FullOrEmpty;
    assert s.running - {e} == s.running;
  }

  lemma NotItsProducer(sh: Shape, e: Edge, f: Edge)
    requires sh.WellFormed() && f in sh.edges && forall n :: n in sh.Outs(e) ==> f !in sh.Consumers(n)
    ensures e !in sh.Prods(f)
  {
    forall n | n in sh.Ins(f) && n in sh.producer ensures sh.producer[n] != e {
      assert f in sh.Consumers(n) && n in sh.Outs(sh.producer[n]);
    }
  }

  lemma NewlyOverdue(sh: Shape, s: PlanState, s1: PlanState, e: Edge, f: Edge)
    requires Core(sh, s) && MayFinish(sh, s, e) && sh.WellFormed()
    requires s1 == Release(s, e).(ready := s1.ready, delayed := s1.delayed, use := s1.use)
    requires s1.ready + s1.delayed == s.ready + s.delayed
    requires f in Overdue(sh, s1) && forall n :: n in sh.Outs(e) ==> f !in sh.Consumers(n)
    ensures f in Overdue(sh, s) && f != e
  {
    hide Recorded, Accounted, FullOrEmpty, Shape.WellFormed, Shape.Prods;
    NotItsProducer(sh, e, f);
    assert s1.Scheduled() == s.Scheduled() - {e};
  }

  /** Once `e` has been released, an edge is newly overdue only if it consumes an output of `e`. */
  lemma OverdueAfterRelease(sh: Shape, s: PlanState, s1: PlanState, s2: PlanState, e: Edge)
    requires Core(sh, s) && MayFinish(sh, s, e) && sh.WellFormed()
    requires s1 == Release(s, e).(ready := s1.ready, delayed := s1.delayed, use := s1.use)
    requires s1.ready + s1.delayed == s.ready + s.delayed
    requires Overdue(sh, s2) <= Overdue(sh, s1)
    requires Settled(sh, s2, NodesIn(sh.Outs(e)))
    ensures Overdue(sh, s2) <= Overdue(sh, s) - {e}
  {
    hide Core, Overdue, MayFinish, Release, Shape.WellFormed;
    forall f | f in Overdue(sh, s2) ensures f in Overdue(sh, s) - {e} {
      assert forall n :: n in NodesIn(sh.Outs(e)) ==> f !in sh.Consumers(n);
      NewlyOverdue(sh, s, s1, e, f);
    }
  }

  lemma CascadeIsFinish(sh: Shape, s: PlanState, s1: PlanState, s2: PlanState, e: Edge)
    requires e in s.want && e.pool in s.use && e !in s.flushed
    requires s1 == Release(s, e).(ready := s1.ready, delayed := s1.delayed, use := s1.use)
    requires s.ready <= s1.ready && s1.ready + s1.delayed == s.ready + s.delayed
    requires Cascade(sh, s1, s2, NodesIn(sh.Outs(e)))
    requires Overdue(sh, s2) <= Overdue(sh, s) - {e}
    ensures Finish(sh, s, s2, e)
  {
    hide Overdue, Shape.Prods;
    var gone := s1.want.Keys - s2.want.Keys;
    assert s.want.Keys - s2.want.Keys == gone + {e};
    OutsOfUnion(sh, gone, {e});
    assert sh.OutsOf({e}) == NodesIn(sh.Outs(e));
  }

  lemma FinishKeepsClean(sh: Shape, s: PlanState, s': PlanState, e: Edge)
    requires Core(sh, s) && e in s.want && Finish(sh, s, s', e) && FinishedAreClean(sh, s)
    ensures FinishedAreClean(sh, s')
  {
    hide Recorded, Accounted, FullOrEmpty, Overdue;
    var gone := s.want.Keys - s'.want.Keys;
    assert s.planned - s'.want.Keys == (s.planned - s.want.Keys) + gone;
    OutsOfUnion(sh, s.planned - s.want.Keys, gone);
  }

  lemma FinishKeepsClosed(sh: Shape, s: PlanState, s': PlanState, e: Edge)
    requires Closed(sh, s) && e in s.want && Finish(sh, s, s', e)
    ensures Closed(sh, s')
  {
    hide Overdue;
  }

  lemma FinishKeepsCounts(sh: Shape, s: PlanState, s': PlanState, e: Edge)
    requires Core(sh, s) && Counted(s) && MayFinish(sh, s, e) && Finish(sh, s, s', e)
    ensures Counted(s')
  {
    hide Overdue, Recorded, Accounted, FullOrEmpty, Count;
    if s.want[e] {
      assert s'.Trues() == s.Trues() - {e};
      CountMinus(s.Trues(), e);
      assert s'.Ran() == s.Ran() + {e};
      assert s'.Trues() + s'.Ran() == s.Trues() + s.Ran();
    } else {
      assert s'.Trues() == s.Trues();
      assert s'.Ran() == s.Ran();
    }
  }
}
