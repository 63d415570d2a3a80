// What a scan establishes for the plan that is made from its flags, and what a further scan leaves
// of a plan that targets were already added to.

module ScanToPlan {
  import opened Graph
  import opened PlanModel
  import opened PlanSteps
  import opened PlanTargets
  import opened PlanPruning
  import opened PlanLiveness
  import opened Staleness
  import opened Scan

  /** A finished scan leaves flags that the plan can start from. */
  lemma ScanIsConsistent(sh: Shape, w: World, s: ScanState)
    requires sh.WellFormed() && Right(sh, w, s, {})
    ensures Scanned(sh, s.done, s.dirty, s.scanned)
  {
    hide NodeDirty, Blocked, Shape.WellFormed, Shape.Prods, NodesIn, RightEdge, RightNode;
    forall e | e in s.scanned
      ensures e in sh.edges && sh.Prods(e) <= s.scanned
      ensures forall a, b :: a in sh.Outs(e) && b in sh.Outs(e) && a in s.dirty ==> b in s.dirty
      ensures forall a :: a in sh.Outs(e) && a !in s.dirty && sh.Prods(e) <= s.done ==> e in s.done
    {
      assert Covered(sh, w, s, e);
      ConsistentAt(sh, w, s, e);
    }
  }

  /** So does a scan of a graph that may have cycles. */
  lemma LooseIsConsistent(sh: Shape, w: World, s: ScanState)
    requires sh.WellFormed() && sh.SingleOutput() && Loose(sh, w, s, {})
    ensures Scanned(sh, s.done, s.dirty, s.scanned)
  {
    hide NodeDirty, LooseNode, Shape.WellFormed, Shape.Prods;
    forall e | e in s.scanned
      ensures e in sh.edges && sh.Prods(e) <= s.scanned
      ensures forall a, b :: a in sh.Outs(e) && b in sh.Outs(e) && a in s.dirty ==> b in s.dirty
      ensures forall a :: a in sh.Outs(e) && a !in s.dirty && sh.Prods(e) <= s.done ==> e in s.done
    {
      assert LooseEdge(sh, w, s, {}, e);
      assert |sh.Outs(e)| == 1;
    }
  }

  /** What scans have marked: everything right, if the graph has an order, and else what the plan needs,
      if edges have one output each. */
  ghost predicate WellMarked(sh: Shape, w: World, s: ScanState, rank: Option<map<Edge, nat>>)
  {
    if rank.Some? then Ranked(sh, sh.edges, rank.value) && Right(sh, w, s, {})
    else sh.SingleOutput() && Loose(sh, w, s, {})
  }

  lemma MarkedIsConsistent(sh: Shape, w: World, s: ScanState, rank: Option<map<Edge, nat>>)
    requires sh.WellFormed() && WellMarked(sh, w, s, rank)
    ensures Scanned(sh, s.done, s.dirty, s.scanned) && forall n :: n in s.dirty ==> NodeDirty(sh, w, n)
  {
    hide Scanned, NodeDirty, Shape.WellFormed, LooseEdge, LooseNode, Covered, RightEdge, RightNode, Shape.SingleOutput;
    if rank.Some? {
      ScanIsConsistent(sh, w, s);
    } else {
      LooseIsConsistent(sh, w, s);
    }
  }

  lemma ConsistentAt(sh: Shape, w: World, s: ScanState, e: Edge)
    requires sh.WellFormed() && Right(sh, w, s, {}) && e in s.scanned
    ensures forall o :: o in sh.Outs(e) ==> (o in s.dirty <==> EdgeDirty(sh, w, e))
    ensures forall n :: n in sh.Ins(e) && n !in sh.producer ==> (n in s.dirty <==> NodeDirty(sh, w, n))
    ensures sh.Prods(e) <= s.done && !EdgeDirty(sh, w, e) ==> e in s.done
  {
    hide NodeDirty, Blocked, EdgeDirty, Shape.WellFormed, Shape.Prods, RightNode;
    assert Covered(sh, w, s, e) && RightEdge(sh, w, s, e);
    forall n | n in sh.Ins(e) && n !in sh.producer ensures n in s.dirty <==> NodeDirty(sh, w, n) {
      assert n in NodesIn(sh.Ins(e));
      SourceIsRight(sh, w, s, n);
    }
    OutputsDirty(sh, w, e);
    BlockedUnfolds(sh, w, e);
    assert forall p :: p in sh.Prods(e) ==> RightEdge(sh, w, s, p);
  }

  lemma SourceIsRight(sh: Shape, w: World, s: ScanState, n: Node)
    requires Right(sh, w, s, {}) && n in s.known && n !in sh.producer
    ensures n in s.dirty <==> NodeDirty(sh, w, n)
  {
    hide NodeDirty;
    assert RightNode(sh, w, s, {}, n);
  }

  /** The flags of what was scanned before do not change in a later scan. */
  lemma SameFlags(sh: Shape, w: World, s: ScanState, s': ScanState, e: Edge)
    requires sh.WellFormed() && Right(sh, w, s, {}) && Right(sh, w, s', {}) && e in s.scanned && e in s'.scanned
    ensures e in s.done <==> e in s'.done
    ensures forall o :: o in sh.Outs(e) ==> (o in s.dirty <==> o in s'.dirty)
    ensures forall n :: n in sh.Ins(e) && n !in sh.producer ==> (n in s.dirty <==> n in s'.dirty)
  {
    hide NodeDirty, Blocked, EdgeDirty, Shape.WellFormed, Shape.Prods, NodesIn, RightNode;
    ConsistentAt(sh, w, s, e);
    ConsistentAt(sh, w, s', e);
    assert RightEdge(sh, w, s, e) && RightEdge(sh, w, s', e);
  }

  /** The flags of `region` are the same in both states. */
  ghost predicate AgreeOn(sh: Shape, s: PlanState, s': PlanState, region: set<Edge>)
  {
    && s' == s.(done := s'.done, dirty := s'.dirty)
    && (forall e :: e in region ==> sh.Prods(e) <= region && (e in s.done <==> e in s'.done))
    && (forall e, o :: e in region && o in sh.Outs(e) ==> (o in s.dirty <==> o in s'.dirty))
    && (forall e, n :: e in region && n in sh.Ins(e) && n !in sh.producer ==> (n in s.dirty <==> n in s'.dirty))
  }

  /** A plan within `region` does not notice that flags outside of it change. */
  lemma PlanUnaffected(sh: Shape, s: PlanState, s': PlanState, d: Search, region: set<Edge>)
    requires Core(sh, s) && Adding(sh, s) && Searching(sh, s, [], d) && s.planned <= region
    requires AgreeOn(sh, s, s', region)
    ensures Core(sh, s') && Adding(sh, s') && Searching(sh, s', [], d)
  {
    hide Core, Counted, Overdue, WantsDirty, Searching, AgreeOn;
    CoreUnaffected(sh, s, s', region);
    AddingUnaffected(sh, s, s', region);
    SearchUnaffected(sh, s, s', d, region);
  }

  lemma CoreUnaffected(sh: Shape, s: PlanState, s': PlanState, region: set<Edge>)
    requires Core(sh, s) && Adding(sh, s) && s.planned <= region && AgreeOn(sh, s, s', region)
    ensures Core(sh, s')
  {
    hide Accounted, FullOrEmpty, Recorded, Counted, Overdue, WantsDirty, Shape.Prods;
    forall pool | pool in sh.pools ensures Accounted(s', pool) && FullOrEmpty(s', pool) {
      PoolsUnaffected(sh, s, s', region, pool);
    }
    FreshIsRecorded(sh, s');
  }

  lemma PoolsUnaffected(sh: Shape, s: PlanState, s': PlanState, region: set<Edge>, pool: Pool)
    requires AgreeOn(sh, s, s', region)
    ensures Accounted(s, pool) ==> Accounted(s', pool)
    ensures FullOrEmpty(s, pool) ==> FullOrEmpty(s', pool)
  {}

  lemma AddingUnaffected(sh: Shape, s: PlanState, s': PlanState, region: set<Edge>)
    requires Adding(sh, s) && s.planned <= region && AgreeOn(sh, s, s', region)
    ensures Adding(sh, s')
  {
    hide Count;
    forall e | e in s.want ensures sh.OutsOf({e}) * s'.dirty == sh.OutsOf({e}) * s.dirty {}
    assert s'.Trues() == s.Trues() && s'.Ran() == s.Ran();
    assert Overdue(sh, s') <= Overdue(sh, s);
  }

  lemma SearchUnaffected(sh: Shape, s: PlanState, s': PlanState, d: Search, region: set<Edge>)
    requires Searching(sh, s, [], d) && s.planned <= region && s.planned == s.want.Keys && AgreeOn(sh, s, s', region)
    ensures Searching(sh, s', [], d)
  {
    hide Trapped, OncePerEdge, Open, Walk;
    assert forall e :: e in d.order ==> e in EdgesIn(d.order);
    EnteredUnaffected(sh, s, s', d, region);
    forall e | e in d.order ensures sh.Prods(e) <= s'.done + s'.want.Keys && SourcesPresent(sh, s'.dirty, e) {
      assert sh.Prods(e) <= region;
    }
    if d.trap == {} {
      forall k | 0 <= k < |d.order| ensures sh.Prods(d.order[k]) <= s'.done + EdgesIn(d.order[..k]) {
        assert d.order[k] in d.order && sh.Prods(d.order[k]) <= region;
      }
    }
  }

  lemma EnteredUnaffected(sh: Shape, s: PlanState, s': PlanState, d: Search, region: set<Edge>)
    requires EnteredFirst(sh, s.done, d.order, d.entered) && EdgesIn(d.order) <= region && AgreeOn(sh, s, s', region)
    ensures EnteredFirst(sh, s'.done, d.order, d.entered)
  {
    hide Shape.Prods;
    forall k, n | 0 <= k < |d.order| && n in sh.Ins(d.order[k]) && n in d.entered && n in sh.producer
      ensures sh.producer[n] in s'.done + EdgesIn(d.order[..k])
    {
      assert d.order[k] in EdgesIn(d.order);
      ProdsOf(sh, d.order[k], n);
    }
  }

  lemma ScansAgree(sh: Shape, w: World, before: ScanState, after: ScanState, s: PlanState, s': PlanState)
    requires sh.WellFormed() && Right(sh, w, before, {}) && Right(sh, w, after, {}) && before.scanned <= after.scanned
    requires s.done == before.done && s.dirty == before.dirty
    requires s' == s.(done := after.done, dirty := after.dirty)
    ensures AgreeOn(sh, s, s', before.scanned)
  {
    hide NodeDirty, Blocked, Shape.WellFormed, Shape.Prods, NodesIn, RightEdge, RightNode;
    forall e | e in before.scanned
      ensures sh.Prods(e) <= before.scanned && (e in s.done <==> e in s'.done)
      ensures forall o :: o in sh.Outs(e) ==> (o in s.dirty <==> o in s'.dirty)
      ensures forall n :: n in sh.Ins(e) && n !in sh.producer ==> (n in s.dirty <==> n in s'.dirty)
    {
      assert Covered(sh, w, before, e);
      SameFlags(sh, w, before, after, e);
    }
  }

  /** A target is examined before its edge is scanned. */
  lemma StartScan(sh: Shape, w: World, s: ScanState, rank: map<Edge, nat>, node: Node)
    requires sh.WellFormed() && Right(sh, w, s, {}) && Ranked(sh, sh.edges, rank) && node in sh.nodes
    requires node in sh.producer
    ensures sh.producer[node] in sh.edges && Below(sh, rank, {}, sh.producer[node])
    ensures Right(sh, w, s.(known := s.known + {node}), {} + {sh.producer[node]})
  {
    hide Right, Shape.Prods;
    ExamineOutput(sh, w, s, {}, node);
  }

  /** The same on a graph that may have cycles, for the first target. */
  lemma StartLoose(sh: Shape, w: World, s: ScanState, node: Node)
    requires sh.WellFormed() && sh.SingleOutput() && Loose(sh, w, s, {}) && node in sh.producer && node !in s.known
    ensures sh.producer[node] in sh.edges && LooseEntry(sh, w, s.(known := s.known + {node}), {}, sh.producer[node])
  {
    ProducerIsEdge(sh, node);
    LooseEnter(sh, w, s, {}, node);
  }

  lemma TargetPlanned(sh: Shape, s: PlanState, s': PlanState, region: set<Edge>, d: Search, d': Search, node: Node)
    requires Explored(sh, s, s', region, [], d, d', node) && Adding(sh, s) && s.planned <= region
    requires NeededFrom(sh, s, region, node)
    ensures Core(sh, s') && Adding(sh, s') && Searching(sh, s', [], d') && NeededFrom(sh, s', region, node)
    ensures s'.done == s.done && s'.dirty == s.dirty && s.want.Keys <= s'.want.Keys && s'.planned <= region
    ensures if node in sh.producer then sh.producer[node] in s'.done + s'.want.Keys else node !in s.dirty
  {
    hide Core, Counted, Overdue, WantsDirty, Searching;
  }

  lemma DirtySourceIsMissing(sh: Shape, w: World, n: Node)
    requires sh.WellFormed() && n in sh.nodes && n !in sh.producer && NodeDirty(sh, w, n)
    ensures n in w.disk && w.disk[n] == 0
  {
    hide NodeDirty;
    DirtyUnfolds(sh, w, n);
  }

  /** A source file that is asked for is examined, but not marked: that is right unless this is the
      first time it is looked at and it is missing. */
  lemma SourceTarget(sh: Shape, w: World, s: ScanState, n: Node)
    requires sh.WellFormed() && Right(sh, w, s, {}) && n in sh.nodes && n !in sh.producer && w.disk.Keys == sh.nodes
    ensures Right(sh, w, s.(known := s.known + {n}), {}) <==> n in s.known || w.disk[n] != 0
    ensures n !in s.known ==> n !in s.dirty && (w.disk[n] == 0 ==> NodeDirty(sh, w, n))
    ensures n in s.dirty <==> n in s.known && w.disk[n] == 0
  {
    hide NodeDirty, Shape.WellFormed;
    DirtyUnfolds(sh, w, n);
    if n in s.known {
      assert s.known + {n} == s.known;
    } else if w.disk[n] != 0 {
      MarkNodes(sh, w, s, s.(known := s.known + {n}), {}, {n});
    }
  }

  lemma MarkedSource(sh: Shape, w: World, s: ScanState, rank: Option<map<Edge, nat>>, n: Node)
    requires sh.WellFormed() && WellMarked(sh, w, s, rank) && n in sh.nodes && n !in sh.producer
    requires w.disk.Keys == sh.nodes
    ensures n in s.known || w.disk[n] != 0 ==> WellMarked(sh, w, s.(known := s.known + {n}), rank)
    ensures n !in s.known && w.disk[n] == 0 ==> NodeDirty(sh, w, n) && !Right(sh, w, s.(known := s.known + {n}), {})
    ensures n !in s.known ==> n !in s.dirty
    ensures n in s.dirty <==> n in s.known && w.disk[n] == 0
  {
    hide NodeDirty, Shape.WellFormed, Shape.SingleOutput, Right, Loose;
    if rank.Some? {
      SourceTarget(sh, w, s, n);
    } else {
      LooseTarget(sh, w, s, n);
    }
  }

  lemma LooseTarget(sh: Shape, w: World, s: ScanState, n: Node)
    requires sh.WellFormed() && Loose(sh, w, s, {}) && n in sh.nodes && n !in sh.producer && w.disk.Keys == sh.nodes
    ensures n in s.known || w.disk[n] != 0 ==> Loose(sh, w, s.(known := s.known + {n}), {})
    ensures n !in s.known && w.disk[n] == 0 ==> NodeDirty(sh, w, n) && !Right(sh, w, s.(known := s.known + {n}), {})
    ensures n !in s.known ==> n !in s.dirty
    ensures n in s.dirty <==> n in s.known && w.disk[n] == 0
  {
    hide NodeDirty, Shape.WellFormed, Covered, RightEdge;
    DirtyUnfolds(sh, w, n);
    var s' := s.(known := s.known + {n});
    if n in s.known {
      assert s' == s && LooseNode(sh, w, s, {}, n);
    } else if w.disk[n] != 0 {
      forall e | e in s'.scanned ensures LooseEdge(sh, w, s', {}, e) {
        assert LooseEdge(sh, w, s, {}, e);
      }
      forall m | m in s'.known ensures LooseNode(sh, w, s', {}, m) {
        if m != n {
          assert LooseNode(sh, w, s, {}, m);
        }
      }
    } else {
      assert !RightNode(sh, w, s', {}, n);
    }
  }

  /** What the scan has seen, for the restat step of the build. */
  ghost function Seen(w: World, s: ScanState): Facts
  {
    Facts(map n | n in s.known && n in w.disk :: w.disk[n], w.log, s.missing)
  }

  lemma PlannedIsExamined(sh: Shape, w: World, s: ScanState, rank: Option<map<Edge, nat>>, e: Edge)
    requires sh.WellFormed() && WellMarked(sh, w, s, rank) && e in s.scanned && w.disk.Keys == sh.nodes
    ensures AllExamined(sh, Seen(w, s).mtimes, e)
  {
    hide NodeDirty, Blocked, RightEdge, Shape.WellFormed, Shape.Prods;
    assert if rank.Some? then Covered(sh, w, s, e) else LooseEdge(sh, w, s, {}, e);
    LinkedNodes(sh, e);
    assert forall n :: n in sh.Ins(e) ==> n in NodesIn(sh.Ins(e));
    assert forall n :: n in sh.Outs(e) ==> n in NodesIn(sh.Outs(e));
  }

  lemma UpperBound(es: set<Edge>, rank: map<Edge, nat>) returns (top: nat)
    requires es <= rank.Keys
    ensures forall e :: e in es ==> rank[e] < top
    decreases es
  {
    top := 0;
    if es != {} {
      var e :| e in es;
      var t := UpperBound(es - {e}, rank);
      top := if t <= rank[e] then rank[e] + 1 else t;
    }
  }

  /** A plan that was made without an error has an order, with that of the graph or by single outputs. */
  lemma RankPlan(sh: Shape, rank: Option<map<Edge, nat>>, s: PlanState, d: Search)
    returns (rank': map<Edge, nat>, top: nat)
    requires Core(sh, s) && Adding(sh, s) && Searching(sh, s, [], d) && s.planned <= sh.edges
    requires if rank.Some? then Ranked(sh, sh.edges, rank.value) else sh.SingleOutput()
    ensures RankedBelow(sh, s.planned, rank', top) && Acyclic(sh, s.planned)
  {
    hide Core, Adding, Searching, Steady, SourcesPresent, Shape.SingleOutput, Shape.Prods;
    if rank.Some? {
      rank' := map e | e in s.planned :: rank.value[e];
    } else {
      PlanIsReady(sh, s, d);
      rank' :| Ranked(sh, s.planned, rank');
    }
    top := UpperBound(s.planned, rank');
    assert Ranked(sh, s.planned, rank');
  }

  /** An entry of the plan is wanted iff a cause of dirt leads to its edge. */
  lemma WantedIsDirty(sh: Shape, w: World, scan: ScanState, s: PlanState, e: Edge)
    requires sh.WellFormed() && Right(sh, w, scan, {}) && s.done == scan.done && s.dirty == scan.dirty
    requires Core(sh, s) && WantsDirty(sh, s) && e in s.want && e in scan.scanned
    ensures s.want[e] <==> EdgeDirty(sh, w, e) && sh.Outs(e) != []
    ensures Blocked(sh, w, e)
  {
    hide Right, Recorded, Accounted, FullOrEmpty, EdgeDirty, Blocked, NodeDirty, Shape.WellFormed, Shape.Prods;
    ConsistentAt(sh, w, scan, e);
    assert RightEdge(sh, w, scan, e) by { EdgeIsRight(sh, w, scan, e); }
    if EdgeDirty(sh, w, e) && sh.Outs(e) != [] {
      assert sh.Outs(e)[0] in sh.OutsOf({e}) * s.dirty;
    }
  }

  lemma EdgeIsRight(sh: Shape, w: World, s: ScanState, e: Edge)
    requires Right(sh, w, s, {}) && e in s.scanned
    ensures RightEdge(sh, w, s, e)
  {
    hide RightEdge, NodeDirty;
  }

  /** The plan wants exactly its dirty edges, has no entry that could be skipped, and no source file
      that it uses is missing. */
  lemma PlanIsExact(sh: Shape, w: World, scan: ScanState, s: PlanState, d: Search, e: Edge)
    requires sh.WellFormed() && Right(sh, w, scan, {}) && s.done == scan.done && s.dirty == scan.dirty
    requires Core(sh, s) && Adding(sh, s) && Searching(sh, s, [], d) && s.planned <= scan.scanned
    requires w.disk.Keys == sh.nodes && e in s.want
    ensures s.want[e] <==> EdgeDirty(sh, w, e) && sh.Outs(e) != []
    ensures Blocked(sh, w, e)
    ensures forall n :: n in sh.Ins(e) && n !in sh.producer ==> n in w.disk && w.disk[n] > 0
  {
    hide Core, Searching, Right, Steady, Counted, Overdue, WantsDirty, Blocked, EdgeDirty, NodeDirty;
    hide Shape.WellFormed, Shape.Prods;
    PlanIsReady(sh, s, d);
    PlannedEntries(sh, s);
    WantedIsDirty(sh, w, scan, s, e);
    ConsistentAt(sh, w, scan, e);
    LinkedNodes(sh, e);
    forall n | n in sh.Ins(e) && n !in sh.producer ensures n in w.disk && w.disk[n] > 0 {
      DirtyUnfolds(sh, w, n);
    }
  }

  /** A command that has to run before `target` is up to date. */
  ghost predicate MustRun(sh: Shape, w: World, target: Edge, p: Edge)
  {
    p in sh.edges && Reaches(sh, p, target) && EdgeDirty(sh, w, p) && !p.phony && sh.Outs(p) != []
  }

  ghost function AllToRun(sh: Shape, w: World, target: Edge): set<Edge>
  {
    set p | p in sh.edges && MustRun(sh, w, target, p)
  }

  /** What is not ready and leads to an entry of the plan is in the plan. */
  lemma {:induction false} LeadsIntoPlan(sh: Shape, w: World, scan: ScanState, s: PlanState, path: seq<Edge>, p: Edge,
                                         e: Edge)
    requires Right(sh, w, scan, {}) && s.done == scan.done && Closed(sh, s) && s.want.Keys <= scan.scanned
    requires EdgePath(sh, path, p, e) && Blocked(sh, w, p) && e in s.want
    ensures p in s.want
    decreases |path|
  {
    if |path| > 1 {
      var m, prefix := path[|path| - 2], path[..|path| - 1];
      assert EdgePath(sh, prefix, p, m);
      NotDone(sh, w, scan, p, m, e);
      LeadsIntoPlan(sh, w, scan, s, prefix, p, m);
    }
  }

  /** An edge is not ready if one that leads to it is not. */
  lemma {:induction false} BlockedAlong(sh: Shape, w: World, path: seq<Edge>, p: Edge, e: Edge)
    requires EdgePath(sh, path, p, e) && Blocked(sh, w, p)
    ensures Blocked(sh, w, e)
    decreases |path|
  {
    hide Blocked;
    if |path| > 1 {
      var m, prefix := path[|path| - 2], path[..|path| - 1];
      assert EdgePath(sh, prefix, p, m);
      BlockedAlong(sh, w, prefix, p, m);
      BlockedUnfolds(sh, w, e);
    }
  }

  /** Whatever leads to a scanned edge was scanned. */
  lemma {:induction false} ScannedAlong(sh: Shape, w: World, s: ScanState, path: seq<Edge>, p: Edge, e: Edge)
    requires Right(sh, w, s, {}) && EdgePath(sh, path, p, e) && e in s.scanned
    ensures p in s.scanned
    decreases |path|
  {
    hide RightEdge, RightNode, NodeDirty;
    if |path| > 1 {
      var m, prefix := path[|path| - 2], path[..|path| - 1];
      assert EdgePath(sh, prefix, p, m);
      assert Covered(sh, w, s, e);
      ScannedAlong(sh, w, s, prefix, p, m);
    }
  }

  /** Whatever leads to the target is ready or in the plan. */
  lemma ReadyOrPlanned(sh: Shape, w: World, scan: ScanState, s: PlanState, target: Edge, f: Edge)
    requires Right(sh, w, scan, {}) && s.done == scan.done && Closed(sh, s) && s.want.Keys <= scan.scanned
    requires target in scan.scanned && (Blocked(sh, w, target) <==> target in s.want) && Reaches(sh, f, target)
    ensures f in s.done + s.want.Keys
  {
    hide Blocked, Closed, Shape.Prods;
    var path :| EdgePath(sh, path, f, target);
    ScannedAlong(sh, w, scan, path, f, target);
    EdgeIsRight(sh, w, scan, f);
    if f !in s.done {
      BlockedAlong(sh, w, path, f, target);
      LeadsIntoPlan(sh, w, scan, s, path, f, target);
    }
  }

  lemma NotDone(sh: Shape, w: World, scan: ScanState, p: Edge, m: Edge, e: Edge)
    requires Right(sh, w, scan, {}) && e in scan.scanned && m in sh.Prods(e)
    requires p in sh.edges && Blocked(sh, w, p) && Reaches(sh, p, m)
    ensures m !in scan.done
  {
    var path :| EdgePath(sh, path, p, m);
    BlockedAlong(sh, w, path, p, m);
    hide NodeDirty, Blocked, Reaches, RightNode, Shape.Prods;
    assert Covered(sh, w, scan, e);
    assert RightEdge(sh, w, scan, m);
  }

  lemma CommandCounted(s: PlanState)
    requires Counted(s) && Fresh(s)
    ensures s.wanted > 0 && s.commands > 0 <==> exists e :: e in s.want && s.want[e] && !e.phony
  {
    hide Count;
    assert s.Ran() == {};
    var c := Commands(s.Trues() + s.Ran());
    EmptyCount();
    NoneCounted(c);
    CountSubset(c, s.Trues());
    if c != {} {
      var e :| e in c;
      assert e in s.want && s.want[e] && !e.phony;
    } else {
      assert forall e :: e in s.want && s.want[e] && !e.phony ==> e in c;
    }
  }

  /** After its target was added to an empty plan, the commands wanted are those that have to run
      before the target is up to date, and there is work to do exactly if there are any. */
  lemma WorkLeft(sh: Shape, w: World, scan: ScanState, s: PlanState, d: Search, target: Edge)
    requires sh.WellFormed() && Right(sh, w, scan, {}) && s.done == scan.done && s.dirty == scan.dirty
    requires Core(sh, s) && Adding(sh, s) && Searching(sh, s, [], d) && s.planned <= scan.scanned
    requires w.disk.Keys == sh.nodes
    requires target in scan.scanned && (Blocked(sh, w, target) <==> target in s.want)
    requires forall e :: e in s.want ==> Reaches(sh, e, target)
    ensures Commands(s.Trues()) == AllToRun(sh, w, target)
    ensures s.wanted > 0 && s.commands > 0 <==> exists p :: MustRun(sh, w, target, p)
  {
    hide Core, Searching, Right, Counted, Overdue, WantsDirty, Blocked, EdgeDirty, Reaches, Shape.WellFormed;
    hide Shape.Prods;
    CommandCounted(s);
    PlannedEntries(sh, s);
    forall p | p in sh.edges ensures p in Commands(s.Trues()) <==> MustRun(sh, w, target, p) {
      if p in Commands(s.Trues()) {
        PlanIsExact(sh, w, scan, s, d, p);
      } else if MustRun(sh, w, target, p) {
        MustRunIsPlanned(sh, w, scan, s, d, target, p);
        PlanIsExact(sh, w, scan, s, d, p);
      }
    }
    if e :| e in s.want && s.want[e] && !e.phony {
      assert e in Commands(s.Trues());
    }
    if p :| MustRun(sh, w, target, p) {
      assert p in Commands(s.Trues());
    }
  }

  lemma MustRunIsPlanned(sh: Shape, w: World, scan: ScanState, s: PlanState, d: Search, target: Edge, p: Edge)
    requires Right(sh, w, scan, {}) && s.done == scan.done && s.planned <= scan.scanned
    requires Core(sh, s) && Adding(sh, s) && Searching(sh, s, [], d)
    requires (Blocked(sh, w, target) <==> target in s.want) && MustRun(sh, w, target, p)
    ensures p in s.want
  {
    hide Core, Searching, Right, Counted, Overdue, WantsDirty, EdgeDirty, Shape.Prods;
    PlanIsReady(sh, s, d);
    PlannedEntries(sh, s);
    ReachesItself(sh, p);
    assert Blocks(sh, w, p);
    var path :| EdgePath(sh, path, p, target);
    LeadsIntoPlan(sh, w, scan, s, path, p, target);
  }
}
