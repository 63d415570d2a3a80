// A graph on which the scan and the search for cycles do not do what one would hope for.

module ScanExamples {
  import opened Graph
  import opened PlanModel
  import opened PlanTargets
  import opened PlanLiveness
  import opened Staleness
  import opened Scan
  import opened Plan

  /** Two edges that use each other's only output. The command of `p` is not in the log, that of `q` is,
      and the files have the same time. */
  ghost predicate TwoOnCycle(sh: Shape, w: World, p: Edge, q: Edge, a: Node, b: Node)
  {
    && p != q && a != b && a.path != b.path && p.pool == q.pool && p.pool.depth == 0
    && !p.phony && !q.phony && !p.generator && !q.restat && q.commandHash == 0
    && sh == Shape({p, q}, {a, b}, {p.pool}, map[p := [b], q := [a]], map[p := 0, q := 0], map[p := [a], q := [b]],
                   map[a := p, b := q], map[a := [q], b := [p]])
    && w == World(map[a := 1, b := 1], Some(map[b.path := LogEntry(0, 0, 0, 1)]), map[])
  }

  lemma CycleLinks(sh: Shape, w: World, p: Edge, q: Edge, a: Node, b: Node)
    requires TwoOnCycle(sh, w, p, q, a, b)
    ensures sh.Ins(p) == sh.Regular(p) == sh.Outs(q) == [b] && sh.Ins(q) == sh.Regular(q) == sh.Outs(p) == [a]
    ensures sh.SingleOutput() && w.disk.Keys == sh.nodes == {a, b} && sh.edges == {p, q}
    ensures a in sh.producer && b in sh.producer && sh.producer[a] == p && sh.producer[b] == q
    ensures OneInput(sh, w, p, b) && OneInput(sh, w, q, a)
  {
    hide Shape.WellFormed;
  }

  lemma CycleIsGraph(sh: Shape, w: World, p: Edge, q: Edge, a: Node, b: Node)
    requires TwoOnCycle(sh, w, p, q, a, b)
    ensures sh.WellFormed()
  {
    assert sh.outs[p][0] == a && sh.outs[q][0] == b;
    forall e, n | e in sh.edges && n in sh.ins[e] ensures n in sh.nodes && e in sh.consumers[n] {
      assert e == p || e == q;
    }
  }

  lemma CycleWalk(sh: Shape, w: World, p: Edge, q: Edge, a: Node, b: Node)
    requires TwoOnCycle(sh, w, p, q, a, b)
    ensures ClosedWalk(sh, [a, b, a]) && sh.Prods(p) == {q} && sh.Prods(q) == {p}
  {
    CycleLinks(sh, w, p, q, a, b);
    hide TwoOnCycle, Shape.WellFormed, Shape.Regular, OneInput;
    assert a in [a] && b in [b];
    assert sh.Prods(p) == {q} by { assert b in sh.Ins(p); }
    assert sh.Prods(q) == {p} by { assert a in sh.Ins(q); }
  }

  lemma OnlyOneStale(sh: Shape, w: World, p: Edge, q: Edge, a: Node, b: Node)
    requires TwoOnCycle(sh, w, p, q, a, b)
    ensures Stale(sh, w.Times(), w.log, p) && !Stale(sh, w.Times(), w.log, q)
  {
    CycleLinks(sh, w, p, q, a, b);
    OneNewest(a, w);
    OneNewest(b, w);
    hide Shape.WellFormed, Shape.Regular, Newest, OneInput;
    assert a in sh.Outs(p);
  }

  lemma OneNewest(n: Node, w: World)
    requires n in w.disk
    ensures Newest([n], w.Times()) == Some(w.disk[n])
  {
    assert [n][..0] == [];
  }

  ghost predicate OneInput(sh: Shape, w: World, e: Edge, n: Node)
  {
    && e in sh.edges && sh.Ins(e) == sh.Regular(e) == [n] && n in sh.nodes && n in sh.producer && !e.phony
    && w.Loading(e) == DepsLoaded
  }

  /** What a scan makes of edge `e` if its input `n` carries the flags it has in `s`. */
  ghost predicate EdgeScanned(sh: Shape, w: World, s: ScanState, s': ScanState, e: Edge, n: Node)
    requires n in sh.producer
  {
    var dirty := n in s.dirty || Stale(sh, w.Times(), w.log, e);
    s' == s.(known := s.known + NodesIn(sh.Outs(e)),
             dirty := if dirty then s.dirty + NodesIn(sh.Outs(e)) else s.dirty,
             done := if dirty || sh.producer[n] !in s.done then s.done - {e} else s.done)
  }

  /** The part of `RecomputeDirty` that follows the visit of the only input of `e`. */
  method Conclude(scan: DependencyScan, e: Edge, n: Node)
    requires scan.Linked() && OneInput(scan.sh, scan.w, e, n) && n in scan.s.known
    modifies scan`s, e`outputsReady, scan.sh.nodes`mtime, scan.sh.nodes`dirty
    ensures scan.Linked() && EdgeScanned(scan.sh, scan.w, old(scan.s), scan.s, e, n)
  {
    hide Stale, Shape.WellFormed, Shape.Flagged, Shape.Prods;
    var dirty, recent := scan.ReadInput(e, 0, false, null);
    if !dirty {
      OneNewest(n, scan.w);
    }
    dirty := scan.Settle(e, dirty, recent);
  }

  /** The scan of `e`, whose only input was looked at before. */
  method Rescan(scan: DependencyScan, e: Edge, n: Node)
    requires scan.Linked() && OneInput(scan.sh, scan.w, e, n) && n in scan.s.known
    modifies scan`s, e, scan.sh.nodes`mtime, scan.sh.nodes`dirty
    ensures scan.Linked()
    ensures var s0 := old(scan.s).(done := old(scan.s).done + {e}, missing := old(scan.s).missing - {e});
      EdgeScanned(scan.sh, scan.w, s0, scan.s, e, n)
  {
    hide EdgeScanned, Stale, Shape.WellFormed, Shape.Flagged, Shape.Prods;
    ghost var s0 := scan.s;
    var ok, dirty := scan.Begin(e);
    var examined := scan.StatIfNecessary(n);
    assert s0.known + {n} == s0.known;
    Conclude(scan, e, n);
  }

  /** The scan of `p` for its output `a`, step by step: `q` is scanned while the scan of `p` has only
      begun, so that `a` is not dirty yet, and stays ready, though it uses a file that is out of date. */
  method ScanCycle(scan: DependencyScan, p: Edge, q: Edge, a: Node, b: Node)
    requires scan.Linked() && TwoOnCycle(scan.sh, scan.w, p, q, a, b)
    requires scan.s.known == {} && scan.s.dirty == {} && scan.s.done == {}
    modifies scan, scan.sh.edges, scan.sh.nodes
    ensures scan.Linked() && scan.s.done == {q} && scan.s.dirty == {a} && scan.s.known == {a, b}
  {
    CycleLinks(scan.sh, scan.w, p, q, a, b);
    OnlyOneStale(scan.sh, scan.w, p, q, a, b);
    hide *;
    ghost var s0 := scan.s;
    OneInputParts(scan.sh, scan.w, p, b);
    OneInputParts(scan.sh, scan.w, q, a);
    var examined := scan.StatIfNecessary(a);
    var ok, dirty := scan.Begin(p);
    examined := scan.StatIfNecessary(b);
    Rescan(scan, q, a);
    ghost var s1 := scan.s;
    Conclude(scan, p, b);
    ScannedInTurn(scan.sh, scan.w, s0, s1, scan.s, p, q, a, b);
  }

  lemma OneInputParts(sh: Shape, w: World, e: Edge, n: Node)
    requires OneInput(sh, w, e, n)
    ensures e in sh.edges && n in sh.nodes && n in sh.producer && w.Loading(e) == DepsLoaded
  {}

  lemma ScannedInTurn(sh: Shape, w: World, s0: ScanState, s1: ScanState, s2: ScanState, p: Edge, q: Edge, a: Node,
                      b: Node)
    requires p != q && a != b && sh.Outs(p) == [a] && sh.Outs(q) == [b]
    requires a in sh.producer && b in sh.producer && sh.producer[a] == p && sh.producer[b] == q
    requires s0.known == s0.dirty == {} && s0.done == {}
    requires Stale(sh, w.Times(), w.log, p) && !Stale(sh, w.Times(), w.log, q)
    requires EdgeScanned(sh, w, s0.(known := s0.known + {a} + {b}, done := s0.done + {p} + {q}, missing := s1.missing),
                         s1, q, a)
    requires EdgeScanned(sh, w, s1, s2, p, b)
    ensures s2.done == {q} && s2.dirty == {a} && s2.known == {a, b}
  {
    hide Stale;
  }

  // ----- the plan that is made from these flags -----

  /** The target `a` is added without an error, although it is needed to make itself, and `p` is scheduled.
      When a second target `b` is scanned, `q`, on which `p` relies, is not ready any more. */
  method UnseenCycle() returns (plan: Plan, scan: DependencyScan, err: AddError, p: Edge, q: Edge, a: Node, b: Node)
    ensures scan.sh == plan.sh && TwoOnCycle(scan.sh, scan.w, p, q, a, b) && ClosedWalk(plan.sh, [a, b, a])
    ensures err == NoError && p in plan.s.Scheduled() && q in plan.s.done
    ensures scan.Linked() && q in plan.sh.Prods(p) && q !in scan.s.done
  {
    hide *;
    var sh, w;
    sh, w, p, q, a, b := NewCycle();
    CycleWalk(sh, w, p, q, a, b);
    scan := NewScan(sh, w, p, q, a, b);
    ScanCycle(scan, p, q, a, b);
    plan := NewPlan(scan, p, q, a, b);
    err := PlanCycle(plan, scan.w, p, q, a, b);
    ScanOther(scan, p, q, a, b);
  }

  method NewCycle() returns (sh: Shape, w: World, p: Edge, q: Edge, a: Node, b: Node)
    ensures TwoOnCycle(sh, w, p, q, a, b) && Untouched(sh) && Unused(sh)
    ensures fresh(sh.edges) && fresh(sh.nodes) && fresh(sh.pools)
  {
    hide Shape.WellFormed;
    var pool := new Pool(0);
    p := new Edge(false, false, false, 1, pool);
    q := new Edge(false, false, false, 0, pool);
    a := new Node("a");
    b := new Node("b");
    sh := Shape({p, q}, {a, b}, {pool}, map[p := [b], q := [a]], map[p := 0, q := 0], map[p := [a], q := [b]],
                map[a := p, b := q], map[a := [q], b := [p]]);
    w := World(map[a := 1, b := 1], Some(map["b" := LogEntry(0, 0, 0, 1)]), map[]);
  }

  /** A graph that was just loaded. */
  ghost predicate Untouched(sh: Shape)
    reads sh.nodes, sh.edges
  {
    (forall n :: n in sh.nodes ==> n.mtime == -1 && !n.dirty) && forall e :: e in sh.edges ==> !e.outputsReady
  }

  ghost predicate Unused(sh: Shape)
    reads sh.pools
  {
    forall o :: o in sh.pools ==> o.currentUse == 0 && o.delayed == {}
  }

  method NewScan(sh: Shape, w: World, p: Edge, q: Edge, a: Node, b: Node) returns (scan: DependencyScan)
    requires TwoOnCycle(sh, w, p, q, a, b) && Untouched(sh)
    ensures fresh(scan) && scan.sh == sh && scan.w == w && scan.Linked()
    ensures scan.s.known == {} && scan.s.dirty == {} && scan.s.done == {}
  {
    CycleLinks(sh, w, p, q, a, b);
    CycleIsGraph(sh, w, p, q, a, b);
    hide TwoOnCycle, Shape.WellFormed, Right, Loose;
    scan := new DependencyScan(sh, w);
  }

  method NewPlan(scan: DependencyScan, p: Edge, q: Edge, a: Node, b: Node) returns (plan: Plan)
    requires TwoOnCycle(scan.sh, scan.w, p, q, a, b) && scan.Linked()
    requires scan.s.done == {q} && scan.s.dirty == {a} && Unused(scan.sh)
    ensures fresh(plan) && plan.sh == scan.sh && plan.Linked() && Starts(plan)
    ensures plan.s.done == {q} && plan.s.dirty == {a}
  {
    CycleLinks(scan.sh, scan.w, p, q, a, b);
    hide TwoOnCycle, Core, Adding, Searching, Shape.WellFormed, Shape.Flagged;
    plan := new Plan(scan.sh);
    FlaggedOnce(scan.sh, scan.s.done, scan.s.dirty, plan.s.done, plan.s.dirty);
  }

  lemma FlaggedOnce(sh: Shape, done: set<Edge>, dirty: set<Node>, done': set<Edge>, dirty': set<Node>)
    requires sh.Flagged(done, dirty) && sh.Flagged(done', dirty')
    requires done <= sh.edges && done' <= sh.edges && dirty <= sh.nodes && dirty' <= sh.nodes
    ensures done == done' && dirty == dirty'
  {
    assert forall e :: e in sh.edges ==> (e in done <==> e in done');
    assert forall n :: n in sh.nodes ==> (n in dirty <==> n in dirty');
  }

  ghost predicate Starts(plan: Plan)
    reads plan
  {
    && Core(plan.sh, plan.s) && Adding(plan.sh, plan.s) && Searching(plan.sh, plan.s, [], Search([], {}, {}))
    && plan.s.want == map[]
  }

  method PlanCycle(plan: Plan, ghost w: World, p: Edge, q: Edge, a: Node, b: Node) returns (err: AddError)
    requires TwoOnCycle(plan.sh, w, p, q, a, b) && plan.Linked() && Starts(plan)
    requires plan.s.done == {q} && plan.s.dirty == {a}
    modifies plan, plan.sh.pools
    ensures err == NoError && p in plan.s.Scheduled() && q in plan.s.done
  {
    CycleLinks(plan.sh, w, p, q, a, b);
    CycleWalk(plan.sh, w, p, q, a, b);
    hide TwoOnCycle, OneInput, Core, Adding, Searching, Scanned, Explored, FoundCycle, Plan.Linked;
    ghost var s0, d := plan.s, Search([], {}, {});
    FlagsFit(plan.sh, s0, p, q, a, b);
    var added;
    ghost var d';
    added, err, d' := plan.AddTarget(a, {p, q}, d);
    if err.DependencyCycle? {
      ThroughReady(plan.sh, s0.done, p, q, a, b, err.path, d, d');
    }
    PlannedAtOnce(plan.sh, s0, plan.s, p, q, a, d, d');
  }

  lemma FlagsFit(sh: Shape, s: PlanState, p: Edge, q: Edge, a: Node, b: Node)
    requires p != q && a != b && sh.Prods(p) == {q} && sh.Prods(q) == {p} && sh.edges == {p, q} && a in sh.nodes
    requires sh.Outs(p) == [a] && sh.Outs(q) == [b] && a in sh.producer && sh.producer[a] == p
    requires s.done == {q} && s.dirty == {a}
    ensures Scanned(sh, s.done, s.dirty, {p, q}) && NeededFrom(sh, s, {p, q}, a)
  {
    hide Shape.Prods;
  }

  /** The only closed walk runs through `b`, the edge of which counts as ready. */
  lemma ThroughReady(sh: Shape, done: set<Edge>, p: Edge, q: Edge, a: Node, b: Node, path: seq<Node>, d: Search,
                     d': Search)
    requires sh.nodes == {a, b} && sh.Ins(p) == [b] && sh.Ins(q) == [a] && q in done && sh.producer.Keys <= sh.nodes
    requires a in sh.producer && b in sh.producer && sh.producer[a] == p && sh.producer[b] == q
    ensures !FoundCycle(sh, done, path, d, d')
  {
    if ClosedWalk(sh, path) {
      WalkThroughB(sh, p, q, a, b, path);
      assert sh.producer[b] in Makers(sh, NodesIn(path));
    }
  }

  lemma WalkThroughB(sh: Shape, p: Edge, q: Edge, a: Node, b: Node, path: seq<Node>)
    requires sh.nodes == {a, b} && sh.Ins(p) == [b] && sh.Ins(q) == [a] && sh.producer.Keys <= sh.nodes
    requires a in sh.producer && b in sh.producer && sh.producer[a] == p && sh.producer[b] == q && ClosedWalk(sh, path)
    ensures b in NodesIn(path)
  {
    assert path[1] in sh.Ins(sh.producer[path[0]]);
    assert path[0] in NodesIn(path) && path[1] in NodesIn(path);
  }

  lemma PlannedAtOnce(sh: Shape, s: PlanState, s': PlanState, p: Edge, q: Edge, a: Node, d: Search, d': Search)
    requires Explored(sh, s, s', {p, q}, [], d, d', a) && s.done == {q} && p != q && sh.Prods(p) == {q}
    requires a in sh.producer && sh.producer[a] == p
    ensures p in s'.Scheduled() && s'.done == {q}
  {
    hide Core, Searching, Counted, WantsDirty, Shape.Prods;
    assert p in s'.want;
    assert p !in Overdue(sh, s');
  }

  /** A further scan, for the target `b`. */
  method ScanOther(scan: DependencyScan, p: Edge, q: Edge, a: Node, b: Node)
    requires scan.Linked() && TwoOnCycle(scan.sh, scan.w, p, q, a, b)
    requires scan.s.known == {a, b} && scan.s.dirty == {a} && scan.s.done == {q}
    modifies scan, scan.sh.edges, scan.sh.nodes
    ensures scan.Linked() && scan.s.done == {} && scan.s.dirty == {a, b}
  {
    CycleLinks(scan.sh, scan.w, p, q, a, b);
    hide TwoOnCycle, OneInput, Stale, DependencyScan.Linked;
    OneInputParts(scan.sh, scan.w, q, a);
    var examined := scan.StatIfNecessary(b);
    Rescan(scan, q, a);
  }
}
