// Two builds on which the code does not do what one would hope for.

module PlanExamples {
  import opened Graph
  import opened PlanModel
  import opened PlanSteps
  import opened PlanCascade
  import opened PlanTargets
  import opened PlanLiveness
  import opened Plan

  // ----- cycles -----

  ghost function TwoOutputs(e: Edge, x: Node, y: Node): Shape
  {
    Shape({e}, {x, y}, {e.pool}, map[e := [y]], map[e := 0], map[e := [x, y]],
          map[x := e, y := e], map[x := [], y := [e]])
  }

  /** An edge that uses its own second output: the search enters it through the first output, does
      not recognise it, and reports no cycle. The plan then has work to do and nothing is ready. */
  method UndetectedCycle() returns (plan: Plan, err: AddError, e: Edge)
    ensures err == NoError && plan.Linked() && e in plan.s.planned
    ensures !Acyclic(plan.sh, plan.s.planned)
    ensures plan.MoreToDo() && plan.ready == {} && plan.s.Scheduled() == {}
  {
    hide Core, Adding, Searching, Acyclic, InPool, Shape.WellFormed, Shape.Prods, Shape.Flagged, Shape.PoolsHold;
    var pool := new Pool(0);
    e := new Edge(false, false, false, 0, pool);
    var x := new Node("x");
    var y := new Node("y");
    x.dirty, y.dirty := true, true;
    var sh := Shape({e}, {x, y}, {pool}, map[e := [y]], map[e := 0], map[e := [x, y]],
                    map[x := e, y := e], map[x := [], y := [e]]);
    OwnInput(sh, e, x, y);
    plan := new Plan(sh);
    assert sh == TwoOutputs(e, x, y);
    err := AddOwnInput(plan, e, x, y);
  }

  method AddOwnInput(plan: Plan, e: Edge, x: Node, y: Node) returns (err: AddError)
    requires x != y && plan.sh == TwoOutputs(e, x, y) && !e.phony
    requires plan.Linked() && Core(plan.sh, plan.s) && Adding(plan.sh, plan.s) && plan.s.want == map[]
    requires Searching(plan.sh, plan.s, [], Search([], {}, {}))
    requires x in plan.s.dirty && y in plan.s.dirty && e !in plan.s.done
    modifies plan, plan.sh.pools
    ensures err == NoError && plan.Linked() && e in plan.s.planned
    ensures !Acyclic(plan.sh, plan.s.planned)
    ensures plan.MoreToDo() && plan.ready == {} && plan.s.Scheduled() == {}
  {
    hide Core, Adding, Searching, Scanned, NeededFrom, Explored, FoundCycle, Shape.WellFormed, Shape.PoolsHold;
    hide Shape.Flagged;
    ghost var s0, d, sh := plan.s, Search([], {}, {}), plan.sh;
    OwnInputScanned(sh, e, x, y, s0);
    var added;
    ghost var d';
    added, err, d' := plan.AddTarget(x, {e}, d);
    if err.DependencyCycle? {
      NotReported(sh, s0.done, e, x, y, err.path, d, d');
    }
    OwnInputExplored(sh, e, x, y, s0, plan.s, d, d');
  }

  lemma OwnInput(sh: Shape, e: Edge, x: Node, y: Node)
    requires x != y && sh == TwoOutputs(e, x, y)
    ensures sh.WellFormed() && sh.Prods(e) == {e} && sh.edges == {e}
  {
    assert sh.Ins(e) == [y];
  }

  lemma OwnInputScanned(sh: Shape, e: Edge, x: Node, y: Node, s: PlanState)
    requires x != y && sh == TwoOutputs(e, x, y) && x in s.dirty && y in s.dirty
    ensures Scanned(sh, s.done, s.dirty, {e}) && NeededFrom(sh, s, {e}, x)
  {
    hide Shape.WellFormed;
    OwnInput(sh, e, x, y);
  }

  /** The only closed path runs through `y`, but the edge came into the plan through `x`. */
  lemma NotReported(sh: Shape, done: set<Edge>, e: Edge, x: Node, y: Node, path: seq<Node>, d: Search, d': Search)
    requires x != y && sh == TwoOutputs(e, x, y) && x in d'.entered
    ensures !FoundCycle(sh, done, path, d, d')
  {
    if ClosedWalk(sh, path) {
      WalkThroughY(sh, e, x, y, path);
    }
  }

  lemma WalkThroughY(sh: Shape, e: Edge, x: Node, y: Node, path: seq<Node>)
    requires x != y && sh == TwoOutputs(e, x, y) && ClosedWalk(sh, path)
    ensures y in NodesIn(path)
  {
    assert path[1] in sh.Ins(sh.producer[path[0]]);
    assert path[1] in NodesIn(path);
  }

  lemma OwnInputExplored(sh: Shape, e: Edge, x: Node, y: Node, s: PlanState, s': PlanState, d: Search, d': Search)
    requires x != y && sh == TwoOutputs(e, x, y) && !e.phony && x in s.dirty && e !in s.done
    requires Explored(sh, s, s', {e}, [], d, d', x)
    ensures s'.Scheduled() == {} && s'.wanted > 0 && s'.commands > 0 && !Acyclic(sh, s'.planned) && e in s'.planned
  {
    hide Core, Adding, Searching;
    OwnInput(sh, e, x, y);
    OwnInputStuck(sh, s', d', e, x);
    AddingFacts(sh, s');
  }

  lemma AddingFacts(sh: Shape, s: PlanState)
    requires Adding(sh, s)
    ensures s.planned == s.want.Keys
  {}

  lemma OwnInputStuck(sh: Shape, s: PlanState, d: Search, e: Edge, x: Node)
    requires Core(sh, s) && Adding(sh, s) && sh.edges == {e} && sh.Prods(e) == {e} && !e.phony
    requires e in s.want && x in s.dirty && x in sh.Outs(e)
    ensures s.Scheduled() == {} && s.wanted > 0 && s.commands > 0 && !Acyclic(sh, s.planned)
  {
    hide *;
    NothingToSchedule(sh, s, e);
    WaitsForItself(sh, s, e);
    OutputDirty(sh, s, e, x);
    OneWanted(s, e);
  }

  lemma OutputDirty(sh: Shape, s: PlanState, e: Edge, x: Node)
    requires Adding(sh, s) && e in s.want && x in s.dirty && x in sh.Outs(e)
    ensures s.want[e] && Counted(s)
  {
    hide Fresh, Counted, Overdue;
    assert x in sh.OutsOf({e}) * s.dirty;
  }

  lemma OneWanted(s: PlanState, e: Edge)
    requires Counted(s) && e in s.want && s.want[e] && !e.phony
    ensures s.wanted > 0 && s.commands > 0
  {
    hide *;
    CountedPlan(s);
    CountPositive(s.Trues(), e) by { WantedIsCounted(s, e); }
    CountPositive(Commands(s.Trues() + s.Ran()), e) by { WantedIsCounted(s, e); }
  }

  lemma CountedPlan(s: PlanState)
    requires Counted(s)
    ensures s.wanted == Count(s.Trues()) && s.commands == Count(Commands(s.Trues() + s.Ran()))
  {}

  lemma WantedIsCounted(s: PlanState, e: Edge)
    requires e in s.want && s.want[e] && !e.phony
    ensures e in s.Trues() && e in Commands(s.Trues() + s.Ran())
  {}

  lemma CountPositive(es: set<Edge>, e: Edge)
    requires e in es
    ensures Count(es) > 0
  {}

  lemma NothingToSchedule(sh: Shape, s: PlanState, e: Edge)
    requires Core(sh, s) && Adding(sh, s) && sh.edges == {e} && sh.Prods(e) == {e}
    requires e in s.want
    ensures s.Scheduled() == {}
  {
    hide Recorded, Counted, WantsDirty, Overdue, Shape.Prods;
    assert forall d :: !MayRun(sh, s, d);
  }

  lemma WaitsForItself(sh: Shape, s: PlanState, e: Edge)
    requires Core(sh, s) && sh.Prods(e) == {e} && e in s.want
    ensures !Acyclic(sh, s.planned)
  {
    hide Recorded, Shape.Prods;
  }

  // ----- pools -----

  /** Edge `f` is only passed through: it makes the order-only input of `g` and `h`, and waits for
      `a`. It shares a pool of depth 1 with `g` and `h`. */
  datatype Diamond = Diamond(a: Edge, f: Edge, g: Edge, h: Edge, oa: Node, of: Node, og: Node, oh: Node, free: Pool,
                             one: Pool)
  {
    ghost predicate Distinct()
    {
      && a != f && a != g && a != h && f != g && f != h && g != h
      && oa != of && oa != og && oa != oh && of != og && of != oh && og != oh
      && free != one && free.depth == 0 && one.depth == 1
      && a.pool == free && f.pool == g.pool == h.pool == one
      && !a.phony && !f.phony && !g.phony && !h.phony
    }

    function Links(): Shape
    {
      Shape({a, f, g, h}, {oa, of, og, oh}, {free, one},
            map[a := [], f := [oa], g := [of], h := [of]], map[a := 0, f := 1, g := 1, h := 1],
            map[a := [oa], f := [of], g := [og], h := [oh]],
            map[oa := a, of := f, og := g, oh := h], map[oa := [f], of := [g, h], og := [], oh := []])
    }

    /** Everything but the output of `f` is out of date, nothing is ready. */
    ghost predicate Flags(s: PlanState)
    {
      s.done == {} && s.dirty == {oa, og, oh}
    }
  }

  lemma DiamondProds(m: Diamond)
    requires m.Distinct()
    ensures var sh := m.Links();
      sh.Prods(m.a) == {} && sh.Prods(m.f) == {m.a} && sh.Prods(m.g) == {m.f} && sh.Prods(m.h) == {m.f}
  {
    DiamondEnds(m);
    hide Diamond.Links, Diamond.Distinct;
    SingleNode(m.oa);
    SingleNode(m.of);
    var sh := m.Links();
    assert m.oa in sh.Ins(m.f) && m.of in sh.Ins(m.g) && m.of in sh.Ins(m.h);
  }

  lemma DiamondOuts(m: Diamond)
    requires m.Distinct()
    ensures var sh := m.Links();
      && sh.OutsOf({m.a}) == {m.oa} && sh.OutsOf({m.f}) == {m.of}
      && sh.OutsOf({m.g}) == {m.og} && sh.OutsOf({m.h}) == {m.oh}
  {
    DiamondEnds(m);
    hide Diamond.Links, Diamond.Distinct;
    SingleNode(m.oa);
    SingleNode(m.of);
    SingleNode(m.og);
    SingleNode(m.oh);
    var sh := m.Links();
    assert m.oa in sh.Outs(m.a) && m.of in sh.Outs(m.f) && m.og in sh.Outs(m.g) && m.oh in sh.Outs(m.h);
  }

  lemma DiamondEdges(m: Diamond)
    ensures m.Links().edges == {m.a, m.f, m.g, m.h} && m.free in m.Links().pools && m.one in m.Links().pools
  {}

  lemma SingleNode(n: Node)
    ensures forall k :: k in [n] <==> k == n
  {}

  lemma DiamondEnds(m: Diamond)
    requires m.Distinct()
    ensures var sh := m.Links();
      && sh.Ins(m.a) == [] && sh.Ins(m.f) == [m.oa] && sh.Ins(m.g) == [m.of] && sh.Ins(m.h) == [m.of]
      && sh.Outs(m.a) == [m.oa] && sh.Outs(m.f) == [m.of] && sh.Outs(m.g) == [m.og] && sh.Outs(m.h) == [m.oh]
      && sh.producer[m.oa] == m.a && sh.producer[m.of] == m.f && sh.producer[m.og] == m.g && sh.producer[m.oh] == m.h
      && sh.consumers[m.oa] == [m.f] && sh.consumers[m.of] == [m.g, m.h]
      && sh.consumers[m.og] == [] && sh.consumers[m.oh] == []
      && sh.edges == {m.a, m.f, m.g, m.h} && sh.nodes == sh.producer.Keys == {m.oa, m.of, m.og, m.oh}
      && sh.pools == {m.free, m.one}
  {}

  lemma DiamondWellFormed(m: Diamond)
    requires m.Distinct()
    ensures m.Links().WellFormed()
  {
    hide Diamond.Links, Diamond.Distinct;
    DiamondPooled(m);
    DiamondKeys(m);
    DiamondCounts(m);
    DiamondInputs(m);
    DiamondOutputs(m);
    DiamondMade(m);
    DiamondUsed(m);
    LinksWellFormed(m.Links());
  }

  lemma LinksWellFormed(sh: Shape)
    requires sh.Pooled() && sh.ins.Keys == sh.orderOnly.Keys == sh.outs.Keys == sh.edges
    requires sh.consumers.Keys == sh.nodes && sh.producer.Keys <= sh.nodes
    requires forall e :: e in sh.edges ==> e in sh.orderOnly && e in sh.ins && sh.orderOnly[e] <= |sh.ins[e]|
    requires forall e, n :: e in sh.edges && n in sh.Ins(e) ==> n in sh.nodes && e in sh.Consumers(n)
    requires forall e, n :: e in sh.edges && n in sh.Outs(e) ==> n in sh.producer && sh.producer[n] == e
    requires forall n :: n in sh.producer ==> sh.producer[n] in sh.edges && n in sh.Outs(sh.producer[n])
    requires forall n, e :: n in sh.nodes && e in sh.Consumers(n) ==> e in sh.edges && n in sh.Ins(e)
    ensures sh.WellFormed()
  {
    assert forall e :: e in sh.edges ==> sh.Ins(e) == sh.ins[e] && sh.Outs(e) == sh.outs[e];
    assert forall n :: n in sh.nodes ==> sh.Consumers(n) == sh.consumers[n];
  }

  lemma DiamondPooled(m: Diamond)
    requires m.Distinct()
    ensures m.Links().Pooled() && m.Links().producer.Keys <= m.Links().nodes
  {
    DiamondEnds(m);
  }

  lemma DiamondCounts(m: Diamond)
    requires m.Distinct()
    ensures var sh := m.Links();
      forall e :: e in sh.edges ==> e in sh.orderOnly && e in sh.ins && sh.orderOnly[e] <= |sh.ins[e]|
  {
    DiamondEdges(m);
  }

  lemma DiamondMade(m: Diamond)
    requires m.Distinct()
    ensures var sh := m.Links();
      forall n :: n in sh.producer ==> sh.producer[n] in sh.edges && n in sh.Outs(sh.producer[n])
  {
    DiamondEnds(m);
    hide Diamond.Links, Diamond.Distinct;
    var sh := m.Links();
    forall n | n in sh.producer ensures sh.producer[n] in sh.edges && n in sh.Outs(sh.producer[n]) {
      assert n == m.oa || n == m.of || n == m.og || n == m.oh;
    }
  }

  lemma DiamondUsed(m: Diamond)
    requires m.Distinct()
    ensures var sh := m.Links();
      forall n, e :: n in sh.nodes && e in sh.Consumers(n) ==> e in sh.edges && n in sh.Ins(e)
  {
    DiamondEnds(m);
    hide Diamond.Links, Diamond.Distinct;
    var sh := m.Links();
    forall n, e | n in sh.nodes && e in sh.Consumers(n) ensures e in sh.edges && n in sh.Ins(e) {
      assert n == m.oa || n == m.of || n == m.og || n == m.oh;
    }
  }

  lemma DiamondInputs(m: Diamond)
    requires m.Distinct()
    ensures var sh := m.Links();
      forall e, n :: e in sh.edges && n in sh.Ins(e) ==> n in sh.nodes && e in sh.Consumers(n)
  {
    DiamondEnds(m);
    hide Diamond.Links, Diamond.Distinct;
    var sh := m.Links();
    forall e, n | e in sh.edges && n in sh.Ins(e) ensures n in sh.nodes && e in sh.Consumers(n) {
      assert e == m.f || e == m.g || e == m.h;
    }
  }

  lemma DiamondOutputs(m: Diamond)
    requires m.Distinct()
    ensures var sh := m.Links();
      forall e, n :: e in sh.edges && n in sh.Outs(e) ==> n in sh.producer && sh.producer[n] == e
  {
    DiamondEnds(m);
    hide Diamond.Links, Diamond.Distinct;
    var sh := m.Links();
    forall e, n | e in sh.edges && n in sh.Outs(e) ensures n in sh.producer && sh.producer[n] == e {
      assert e == m.a || e == m.f || e == m.g || e == m.h;
    }
  }

  lemma DiamondKeys(m: Diamond)
    ensures var sh := m.Links();
      && sh.ins.Keys == sh.edges && sh.orderOnly.Keys == sh.edges && sh.outs.Keys == sh.edges
      && sh.consumers.Keys == sh.nodes
  {}

  lemma DiamondAcyclic(m: Diamond)
    requires m.Distinct()
    ensures Acyclic(m.Links(), m.Links().edges)
  {
    DiamondProds(m);
    DiamondEdges(m);
    var rank: map<Edge, nat> := map[m.a := 0, m.f := 1, m.g := 2, m.h := 2];
    assert Ranked(m.Links(), m.Links().edges, rank);
  }

  lemma DiamondScanned(m: Diamond, s: PlanState, node: Node)
    requires m.Distinct() && m.Flags(s) && node in {m.og, m.oh}
    ensures Scanned(m.Links(), s.done, s.dirty, m.Links().edges) && NeededFrom(m.Links(), s, m.Links().edges, node)
  {
    DiamondProds(m);
    DiamondEnds(m);
    DiamondDirty(m, s);
    hide Diamond.Links, Diamond.Distinct, Shape.Prods;
  }

  /** Once both targets are in the plan, `a` alone is ready. */
  lemma DiamondPlanned(m: Diamond, s: PlanState, d: Search)
    requires m.Distinct() && m.Flags(s)
    requires Core(m.Links(), s) && Adding(m.Links(), s) && Searching(m.Links(), s, [], d)
    requires m.g in s.want && m.h in s.want
    ensures m.a in s.want && m.f in s.want && !s.want[m.f] && s.want[m.g] && s.want[m.h] && s.ready == {m.a}
    ensures s.want.Keys == {m.a, m.f, m.g, m.h} && s.delayed == {} && s.want[m.a]
  {
    hide Core, Adding, Searching, Steady, Diamond.Links, Diamond.Flags, Diamond.Distinct, Shape.Prods, Shape.OutsOf;
    PlanIsReady(m.Links(), s, d);
    DiamondClosed(m, s);
    DiamondWants(m, s);
    DiamondEntries(m, s);
    DiamondReady(m, s);
  }

  lemma DiamondEntries(m: Diamond, s: PlanState)
    requires m.Distinct() && Core(m.Links(), s)
    requires m.a in s.want && m.f in s.want && m.g in s.want && m.h in s.want
    ensures s.want.Keys == {m.a, m.f, m.g, m.h} && m.a.pool.depth == 0
  {
    DiamondEdges(m);
    hide Core, Diamond.Links;
    PlannedEntries(m.Links(), s);
  }

  lemma DiamondClosed(m: Diamond, s: PlanState)
    requires m.Distinct() && m.Flags(s) && Steady(m.Links(), s) && m.g in s.want && m.h in s.want
    ensures m.f in s.want && m.a in s.want
  {
    DiamondProds(m);
    assert s.done == {};
    hide Steady, Diamond.Links, Diamond.Flags, Diamond.Distinct, Shape.Prods;
    SteadyClosed(m.Links(), s, m.g, m.f);
    SteadyClosed(m.Links(), s, m.f, m.a);
  }

  lemma WantedIfDirty(sh: Shape, s: PlanState, e: Edge, n: Node)
    requires Adding(sh, s) && e in s.want && sh.OutsOf({e}) == {n}
    ensures s.want[e] <==> n in s.dirty
  {
    hide Counted, Fresh, Overdue, Shape.OutsOf;
    if n in s.dirty {
      assert n in sh.OutsOf({e}) * s.dirty;
    } else {
      assert sh.OutsOf({e}) * s.dirty == {};
    }
  }

  lemma DiamondDirty(m: Diamond, s: PlanState)
    requires m.Distinct() && m.Flags(s)
    ensures m.oa in s.dirty && m.of !in s.dirty && m.og in s.dirty && m.oh in s.dirty
  {}

  lemma DiamondWants(m: Diamond, s: PlanState)
    requires m.Distinct() && m.Flags(s) && Adding(m.Links(), s)
    requires m.a in s.want && m.f in s.want && m.g in s.want && m.h in s.want
    ensures s.want[m.a] && !s.want[m.f] && s.want[m.g] && s.want[m.h]
  {
    DiamondDirty(m, s);
    DiamondOuts(m);
    hide Adding, Diamond.Links, Diamond.Distinct, Diamond.Flags, Shape.OutsOf;
    WantedIfDirty(m.Links(), s, m.a, m.oa);
    WantedIfDirty(m.Links(), s, m.f, m.of);
    WantedIfDirty(m.Links(), s, m.g, m.og);
    WantedIfDirty(m.Links(), s, m.h, m.oh);
  }

  lemma DiamondReady(m: Diamond, s: PlanState)
    requires m.Distinct() && m.Flags(s) && Core(m.Links(), s) && Adding(m.Links(), s) && m.a.pool.depth == 0
    requires s.want.Keys == {m.a, m.f, m.g, m.h}
    ensures s.ready == {m.a} && s.delayed == {}
  {
    DiamondProds(m);
    AddingIdle(m.Links(), s);
    assert s.done == {};
    hide Core, Adding, Overdue, Diamond.Links, Diamond.Flags, Diamond.Distinct, Shape.Prods;
    var sh := m.Links();
    ScheduledOrOverdue(sh, s, m.a);
    WaitsUnscheduled(sh, s, m.f, m.a);
    WaitsUnscheduled(sh, s, m.g, m.f);
    WaitsUnscheduled(sh, s, m.h, m.f);
    FreeNeverDelays(sh, s, m.a);
    OnlyOneReady(sh, s, m);
  }

  lemma OnlyOneReady(sh: Shape, s: PlanState, m: Diamond)
    requires Core(sh, s) && s.want.Keys == {m.a, m.f, m.g, m.h} && s.running == {} && s.failed == {}
    requires m.a in s.Scheduled() && m.f !in s.Scheduled() && m.g !in s.Scheduled() && m.h !in s.Scheduled()
    requires m.a !in s.delayed
    ensures s.ready == {m.a} && s.delayed == {}
  {
    hide Core;
    PlannedEntries(sh, s);
    forall e | e in s.ready + s.delayed ensures e == m.a {
      assert e in s.Scheduled() && e in s.Trues() && e in s.want.Keys;
    }
  }

  lemma AddingIdle(sh: Shape, s: PlanState)
    requires Adding(sh, s)
    ensures s.running == {} && s.failed == {} && Overdue(sh, s) == {}
  {
    hide Counted, Overdue;
  }

  lemma WaitsUnscheduled(sh: Shape, s: PlanState, e: Edge, p: Edge)
    requires Core(sh, s) && p in sh.Prods(e) && p !in s.done
    ensures e !in s.Scheduled()
  {
    if e in s.Scheduled() {
      InGraph(sh, s, e);
    }
  }

  lemma SteadyClosed(sh: Shape, s: PlanState, e: Edge, p: Edge)
    requires Steady(sh, s) && e in s.want && p in sh.Prods(e) && p !in s.done
    ensures p in s.want
  {
    hide Core;
  }

  lemma FreeNeverDelays(sh: Shape, s: PlanState, e: Edge)
    requires Core(sh, s) && e.pool.depth == 0
    ensures e !in s.delayed
  {
    hide Recorded, Accounted, FullOrEmpty;
  }

  /** The end of `a` flushes `f`, which gives back a slot it never had; `g` and `h` both get one. */
  lemma DiamondOverrun(m: Diamond, s: PlanState, s': PlanState)
    requires m.Distinct() && s.done == {} && s.Scheduled() == {m.a} && s.running == {m.a} && s.failed == {}
    requires s.want.Keys == {m.a, m.f, m.g, m.h} && s.want[m.a] && !s.want[m.f] && s.want[m.g] && s.want[m.h]
    requires s.flushed == {} && Overdue(m.Links(), s) == {}
    requires Core(m.Links(), s') && Finish(m.Links(), s, s', m.a)
    ensures s'.ready == {m.g, m.h} && s'.running == s'.failed == {}
  {
    DiamondEdges(m);
    hide Core, Finish, Count, Overdue, Diamond.Links, Shape.Prods, Shape.OutsOf;
    var sh := m.Links();
    PlannedEntries(sh, s');
    DiamondGone(m, s, s');
    ScheduledOrOverdue(sh, s', m.g);
    ScheduledOrOverdue(sh, s', m.h);
    OneFlushed(m.f);
    NoneWaits(sh, s', m.g, m.h, m.one);
    NoneWaits(sh, s', m.h, m.g, m.one);
    NoOthers(s', {m.g, m.h});
  }

  lemma NoOthers(s: PlanState, es: set<Edge>)
    requires s.Scheduled() <= s.Trues() && s.want.Keys == es && es <= s.Scheduled()
    requires s.running == {} && s.failed == {} && es !! s.delayed
    ensures s.ready == es
  {
    assert s.Trues() <= es;
  }

  lemma OneFlushed(f: Edge)
    ensures Count(InPool({f}, f.pool)) == 1
  {
    assert InPool({f}, f.pool) == {f};
  }

  lemma DiamondGone(m: Diamond, s: PlanState, s': PlanState)
    requires m.Distinct() && s.done == {} && s.Scheduled() == {m.a}
    requires s.want.Keys == {m.a, m.f, m.g, m.h} && s.want[m.a] && !s.want[m.f] && s.want[m.g] && s.want[m.h]
    requires s.flushed == {} && Overdue(m.Links(), s) == {} && s'.Scheduled() <= s'.Trues()
    requires Finish(m.Links(), s, s', m.a)
    ensures s'.want.Keys == {m.g, m.h} && s'.done == {m.a, m.f} && s'.flushed == {m.f}
    ensures s'.running == s.running - {m.a} && s'.failed == s.failed && Overdue(m.Links(), s') == {}
    ensures m.Links().Prods(m.g) <= s'.done && m.Links().Prods(m.h) <= s'.done
  {
    DiamondProds(m);
    hide Diamond.Links, Overdue, Shape.Prods, Shape.OutsOf;
    var sh := m.Links();
    var gone := s.want.Keys - s'.want.Keys;
    assert m.g !in gone && m.h !in gone;
    if m.f !in gone {
      assert s'.want[m.f] == s.want[m.f];
      ScheduledOrOverdue(sh, s', m.f);
    }
    assert gone == {m.a, m.f};
  }

  lemma NoneWaits(sh: Shape, s: PlanState, x: Edge, y: Edge, pool: Pool)
    requires Core(sh, s) && s.want.Keys == {x, y} && x.pool == pool && pool in sh.pools && pool.depth == 1
    requires Count(InPool(s.flushed, pool)) == 1
    ensures x !in s.delayed
  {
    hide Recorded, Count;
    assert Accounted(s, pool) && FullOrEmpty(s, pool);
    EmptyCount();
    assert Count({y}) == 1;
    if x in s.delayed {
      assert x in InPool(s.delayed, pool);
      CountSubset(InPool(s.Busy(), pool), {y});
    }
  }

  /** Adds both targets, runs `a`, and lets it finish. */
  method BuildDiamond(plan: Plan, m: Diamond)
    requires m.Distinct() && plan.sh == m.Links() && plan.Linked() && Core(plan.sh, plan.s) && Adding(plan.sh, plan.s)
    requires Searching(plan.sh, plan.s, [], Search([], {}, {})) && m.Flags(plan.s)
    modifies plan, plan.sh.pools, plan.sh.edges`outputsReady, plan.sh.nodes`dirty
    ensures plan.Linked() && Core(plan.sh, plan.s) && plan.s.ready == {m.g, m.h}
    ensures plan.s.running == plan.s.failed == {}
  {
    hide *;
    ghost var d := AddBoth(plan, m);
    DiamondPlanned(m, plan.s, d);
    RunFirst(plan, m);
  }

  method AddBoth(plan: Plan, m: Diamond) returns (ghost d: Search)
    requires m.Distinct() && plan.sh == m.Links() && plan.Linked() && Core(plan.sh, plan.s) && Adding(plan.sh, plan.s)
    requires Searching(plan.sh, plan.s, [], Search([], {}, {})) && m.Flags(plan.s)
    modifies plan, plan.sh.pools
    ensures plan.Linked() && Core(plan.sh, plan.s) && Adding(plan.sh, plan.s) && Searching(plan.sh, plan.s, [], d)
    ensures m.Flags(plan.s) && m.g in plan.s.want && m.h in plan.s.want
  {
    hide *;
    ghost var cone, d0, s0 := plan.sh.edges, Search([], {}, {}), plan.s;
    DiamondScanned(m, s0, m.og);
    var added, err;
    ghost var d1;
    added, err, d1 := plan.AddTarget(m.og, cone, d0);
    DiamondNoError(m, s0, err, d0, d1);
    ghost var s1 := plan.s;
    DiamondExplored(m, s0, s1, cone, d0, d1, m.og, m.g);
    DiamondScanned(m, s1, m.oh);
    added, err, d := plan.AddTarget(m.oh, cone, d1);
    DiamondNoError(m, s1, err, d1, d);
    DiamondExplored(m, s1, plan.s, cone, d1, d, m.oh, m.h);
  }

  method RunFirst(plan: Plan, m: Diamond)
    requires m.Distinct() && plan.sh == m.Links() && plan.Linked() && Core(plan.sh, plan.s) && Adding(plan.sh, plan.s)
    requires m.Flags(plan.s) && plan.s.want.Keys == {m.a, m.f, m.g, m.h} && plan.s.ready == {m.a}
    requires plan.s.delayed == {}
    requires plan.s.want[m.a] && !plan.s.want[m.f] && plan.s.want[m.g] && plan.s.want[m.h]
    modifies plan, plan.sh.pools, plan.sh.edges`outputsReady, plan.sh.nodes`dirty
    ensures plan.Linked() && Core(plan.sh, plan.s) && plan.s.ready == {m.g, m.h}
    ensures plan.s.running == plan.s.failed == {}
  {
    hide Core, Adding, Finish, Overdue, Diamond.Links, Diamond.Distinct;
    hide Shape.WellFormed, Shape.Flagged, Shape.PoolsHold;
    ghost var s0 := plan.s;
    var edge := plan.FindWork();
    DiamondStarted(m, s0, plan.s);
    ghost var s1 := plan.s;
    plan.EdgeFinished(edge);
    DiamondOverrun(m, s1, plan.s);
  }

  /** Two commands of a pool of depth 1 run at once. */
  method PoolOverrun() returns (plan: Plan, first: Edge, second: Edge, pool: Pool)
    ensures pool.depth == 1 && pool in plan.sh.pools && first.pool == second.pool == pool
    ensures plan.Linked() && first != second && plan.s.running == {first, second} && plan.s.failed == {}
  {
    hide Core, Adding, Searching, Diamond.Links, Diamond.Distinct, Diamond.Flags, Taken;
    hide Shape.WellFormed, Shape.Flagged, Shape.PoolsHold;
    var m;
    plan, m := NewDiamond();
    DiamondParts(m);
    BuildDiamond(plan, m);
    ghost var s0 := plan.s;
    var e := plan.FindWork();
    ghost var s1 := plan.s;
    var e' := plan.FindWork();
    BothTaken(m, s0, s1, plan.s, e, e');
    first, second, pool := e, e', m.one;
  }

  lemma DiamondParts(m: Diamond)
    requires m.Distinct()
    ensures m.one.depth == 1 && m.one in m.Links().pools && m.g.pool == m.h.pool == m.one && m.g != m.h
  {}

  lemma BothTaken(m: Diamond, s0: PlanState, s1: PlanState, s2: PlanState, first: Edge?, second: Edge?)
    requires s0.ready == {m.g, m.h} && s0.running == s0.failed == {} && m.g != m.h
    requires (first == null <==> s0.ready == {}) && (first != null ==> Taken(s0, s1, first))
    requires (second == null <==> s1.ready == {}) && (second != null ==> Taken(s1, s2, second))
    ensures first != null && second != null && first != second && {first, second} == {m.g, m.h}
    ensures s2.running == {first, second} && s2.failed == {}
  {
    var other := if first == m.g then m.h else m.g;
    assert other in s1.ready;
  }

  method NewDiamond() returns (plan: Plan, m: Diamond)
    ensures m.Distinct() && plan.sh == m.Links() && plan.Linked() && Core(plan.sh, plan.s) && Adding(plan.sh, plan.s)
    ensures Searching(plan.sh, plan.s, [], Search([], {}, {})) && m.Flags(plan.s)
    ensures fresh(plan) && fresh(plan.sh.pools) && fresh(plan.sh.edges) && fresh(plan.sh.nodes)
  {
    hide *;
    m := NewParts();
    DiamondWellFormed(m);
    DiamondSets(m);
    plan := new Plan(m.Links());
    AreFlags(m, plan.s);
  }

  lemma DiamondSets(m: Diamond)
    ensures var sh := m.Links();
      sh.edges == {m.a, m.f, m.g, m.h} && sh.nodes == {m.oa, m.of, m.og, m.oh} && sh.pools == {m.free, m.one}
  {}

  lemma AreFlags(m: Diamond, s: PlanState)
    requires s.done <= {m.a, m.f, m.g, m.h} && m.a !in s.done && m.f !in s.done && m.g !in s.done && m.h !in s.done
    requires s.dirty <= {m.oa, m.of, m.og, m.oh} && m.oa in s.dirty && m.of !in s.dirty && m.og in s.dirty
    requires m.oh in s.dirty
    ensures m.Flags(s)
  {}

  method NewParts() returns (m: Diamond)
    ensures m.Distinct()
    ensures fresh({m.a, m.f, m.g, m.h}) && fresh({m.oa, m.of, m.og, m.oh}) && fresh({m.free, m.one})
    ensures m.free.currentUse == m.one.currentUse == 0 && m.free.delayed == m.one.delayed == {}
    ensures !m.a.outputsReady && !m.f.outputsReady && !m.g.outputsReady && !m.h.outputsReady
    ensures m.oa.dirty && !m.of.dirty && m.og.dirty && m.oh.dirty
  {
    var free := new Pool(0);
    var one := new Pool(1);
    var a := NewEdge(free);
    var f := NewEdge(one);
    var g := NewEdge(one);
    var h := NewEdge(one);
    var oa := NewNode("oa", true);
    var of := NewNode("of", false);
    var og := NewNode("og", true);
    var oh := NewNode("oh", true);
    m := Diamond(a, f, g, h, oa, of, og, oh, free, one);
  }

  method NewEdge(pool: Pool) returns (e: Edge)
    ensures fresh(e) && e.pool == pool && !e.phony && !e.outputsReady
  {
    e := new Edge(false, false, false, 0, pool);
  }

  method NewNode(path: string, dirty: bool) returns (n: Node)
    ensures fresh(n) && n.dirty == dirty
  {
    n := new Node(path);
    n.dirty := dirty;
  }

  lemma DiamondNoError(m: Diamond, s: PlanState, err: AddError, d: Search, d': Search)
    requires m.Distinct() && (err.MissingInput? ==> err.node in m.Links().nodes && err.node !in m.Links().producer)
    requires err.DependencyCycle? ==> FoundCycle(m.Links(), s.done, err.path, d, d')
    ensures err == NoError
  {
    if err.DependencyCycle? {
      DiamondWellFormed(m);
      DiamondAcyclic(m);
      NoFalseAlarm(m.Links(), err.path);
    }
  }

  lemma DiamondExplored(m: Diamond, s: PlanState, s': PlanState, cone: set<Edge>, d: Search, d': Search, node: Node,
                        e: Edge)
    requires m.Distinct() && m.Flags(s) && ((node == m.og && e == m.g) || (node == m.oh && e == m.h))
    requires Explored(m.Links(), s, s', cone, [], d, d', node)
    ensures Core(m.Links(), s') && Adding(m.Links(), s') && Searching(m.Links(), s', [], d') && m.Flags(s')
    ensures s.want.Keys <= s'.want.Keys && e in s'.want
  {
    hide Core, Adding, Searching;
    DiamondEnds(m);
  }

  lemma DiamondStarted(m: Diamond, s: PlanState, s': PlanState)
    requires Core(m.Links(), s) && Adding(m.Links(), s) && s.ready == {m.a} && s.delayed == {}
    requires s' == s.(ready := s.ready - {m.a}, running := s.running + {m.a}, trace := s'.trace)
    requires Overdue(m.Links(), s') == Overdue(m.Links(), s)
    ensures s'.running == {m.a} && s'.ready == {} && s'.failed == {} && s'.flushed == {} && Overdue(m.Links(), s') == {}
    ensures MayFinish(m.Links(), s', m.a) && s.want[m.a]
  {
    hide Counted;
  }
}
