// The dirty scan (DependencyScan::RecomputeDirty in src/graph.cc): which files are out of date and
// which edges have nothing left to wait for.

module Scan {
  import opened Graph
  import opened PlanModel
  import opened PlanTargets
  import opened Staleness

  datatype DepsResult = DepsLoaded | DepsMissing | DepsError

  /** What the scan looks at: file times on disk (0 for a missing file), the build log, and what
      loading the implicit dependencies of each edge comes to. */
  datatype World = World(disk: map<Node, nat>, log: Log, deps: map<Edge, DepsResult>)
  {
    function Loading(e: Edge): DepsResult { if e in deps then deps[e] else DepsLoaded }

    function Times(): map<Node, int> { map n | n in disk :: disk[n] }
  }

  /** The flags of the graph: `known` are the nodes whose time was looked up, `done` the edges with
      `outputs_ready_`. `scanned` are the edges whose scan is over. */
  datatype ScanState = ScanState(known: set<Node>, dirty: set<Node>, done: set<Edge>, missing: set<Edge>,
                                 scanned: set<Edge>)

  // ----- what the flags should be -----

  ghost predicate LocallyStale(sh: Shape, w: World, e: Edge)
  {
    w.Loading(e) == DepsMissing || Stale(sh, w.Times(), w.log, e)
  }

  /** A missing file that no edge makes, or an output of an edge that is out of date by itself. */
  ghost predicate Cause(sh: Shape, w: World, n: Node)
  {
    if n in sh.producer then LocallyStale(sh, w, sh.producer[n]) else n in w.disk && w.disk[n] == 0
  }

  /** Leads from a cause to `n` through inputs that are not order-only. */
  ghost predicate DirtyPath(sh: Shape, w: World, older path: seq<Node>, n: Node)
  {
    && path != [] && path[|path| - 1] == n && (forall k :: 0 <= k < |path| ==> path[k] in sh.nodes)
    && Cause(sh, w, path[0])
    && (forall k :: 0 < k < |path| ==> path[k] in sh.producer && path[k - 1] in sh.Regular(sh.producer[path[k]]))
  }

  ghost predicate NodeDirty(sh: Shape, w: World, n: Node)
  {
    exists path :: DirtyPath(sh, w, path, n)
  }

  ghost predicate EdgeDirty(sh: Shape, w: World, e: Edge)
  {
    LocallyStale(sh, w, e) || exists n :: n in sh.Regular(e) && NodeDirty(sh, w, n)
  }

  /** A dirty edge has to run, except a phony one without inputs. */
  ghost predicate Blocks(sh: Shape, w: World, e: Edge)
  {
    EdgeDirty(sh, w, e) && !(e.phony && sh.Ins(e) == [])
  }

  /** Leads from `p` to `e` through inputs of any kind. */
  ghost predicate EdgePath(sh: Shape, older path: seq<Edge>, p: Edge, e: Edge)
  {
    && path != [] && path[0] == p && path[|path| - 1] == e && (forall k :: 0 <= k < |path| ==> path[k] in sh.edges)
    && (forall k :: 0 < k < |path| ==> path[k - 1] in sh.Prods(path[k]))
  }

  ghost predicate Reaches(sh: Shape, p: Edge, e: Edge)
  {
    exists path :: EdgePath(sh, path, p, e)
  }

  ghost predicate Blocked(sh: Shape, w: World, e: Edge)
  {
    exists p :: p in sh.edges && Blocks(sh, w, p) && Reaches(sh, p, e)
  }

  lemma DirtyUnfolds(sh: Shape, w: World, n: Node)
    requires sh.WellFormed() && n in sh.nodes
    ensures NodeDirty(sh, w, n) <==> if n in sh.producer then EdgeDirty(sh, w, sh.producer[n]) else Cause(sh, w, n)
  {
    hide Cause, LocallyStale, Shape.WellFormed, Shape.Regular, NodeDirty;
    DirtyByCause(sh, w, n);
    if NodeDirty(sh, w, n) && !Cause(sh, w, n) {
      var m := DirtyBefore(sh, w, n);
    } else if n in sh.producer && EdgeDirty(sh, w, sh.producer[n]) && !Cause(sh, w, n) {
      var m :| m in sh.Regular(sh.producer[n]) && NodeDirty(sh, w, m);
      DirtyFurther(sh, w, m, n);
    }
  }

  lemma DirtyBefore(sh: Shape, w: World, n: Node) returns (m: Node)
    requires NodeDirty(sh, w, n) && !Cause(sh, w, n)
    ensures n in sh.producer && m in sh.Regular(sh.producer[n]) && NodeDirty(sh, w, m)
  {
    hide Cause, Shape.Regular;
    var path :| DirtyPath(sh, w, path, n);
    m := path[|path| - 2];
    assert DirtyPath(sh, w, path[..|path| - 1], m);
  }

  lemma DirtyFurther(sh: Shape, w: World, m: Node, n: Node)
    requires NodeDirty(sh, w, m) && n in sh.nodes && n in sh.producer && m in sh.Regular(sh.producer[n])
    ensures NodeDirty(sh, w, n)
  {
    hide Cause, Shape.Regular;
    var path :| DirtyPath(sh, w, path, m);
    assert DirtyPath(sh, w, path + [n], n);
  }

  lemma DirtyByCause(sh: Shape, w: World, n: Node)
    requires n in sh.nodes
    ensures Cause(sh, w, n) ==> NodeDirty(sh, w, n)
    ensures n in sh.producer ==> (Cause(sh, w, n) <==> LocallyStale(sh, w, sh.producer[n]))
  {
    hide LocallyStale;
    if Cause(sh, w, n) {
      assert DirtyPath(sh, w, [n], n);
    }
  }

  lemma ReachesItself(sh: Shape, e: Edge)
    requires e in sh.edges
    ensures Reaches(sh, e, e)
  {
    assert EdgePath(sh, [e], e, e);
  }

  lemma ReachesFurther(sh: Shape, p: Edge, m: Edge, e: Edge)
    requires Reaches(sh, p, m) && m in sh.Prods(e) && e in sh.edges
    ensures Reaches(sh, p, e)
  {
    var path :| EdgePath(sh, path, p, m);
    assert EdgePath(sh, path + [e], p, e);
  }

  lemma {:induction false} BlockedUnfolds(sh: Shape, w: World, e: Edge)
    requires e in sh.edges
    ensures Blocked(sh, w, e) <==> Blocks(sh, w, e) || exists p :: p in sh.Prods(e) && Blocked(sh, w, p)
  {
    hide Blocks, Shape.Prods;
    ReachesItself(sh, e);
    if Blocked(sh, w, e) && !Blocks(sh, w, e) {
      var p :| p in sh.edges && Blocks(sh, w, p) && Reaches(sh, p, e);
      var path :| EdgePath(sh, path, p, e);
      var m := path[|path| - 2];
      assert EdgePath(sh, path[..|path| - 1], p, m);
      assert m in sh.Prods(e) && Blocked(sh, w, m);
    } else if !Blocks(sh, w, e) && exists p :: p in sh.Prods(e) && Blocked(sh, w, p) {
      var m :| m in sh.Prods(e) && Blocked(sh, w, m);
      var p :| p in sh.edges && Blocks(sh, w, p) && Reaches(sh, p, m);
      ReachesFurther(sh, p, m, e);
    }
  }

  // ----- invariant of the traversal -----

  ghost predicate RightEdge(sh: Shape, w: World, s: ScanState, e: Edge)
  {
    && (e in s.done <==> !Blocked(sh, w, e))
    && (e in s.missing <==> w.Loading(e) == DepsMissing)
    && (forall o :: o in sh.Outs(e) && NodeDirty(sh, w, o) ==> o in s.dirty)
  }

  ghost predicate RightNode(sh: Shape, w: World, s: ScanState, open: set<Edge>, n: Node)
  {
    n in sh.nodes &&
    if n in sh.producer then sh.producer[n] in s.scanned + open else NodeDirty(sh, w, n) ==> n in s.dirty
  }

  /** With a scanned edge, its inputs were examined and the edges that make them were scanned. */
  ghost predicate Covered(sh: Shape, w: World, s: ScanState, e: Edge)
  {
    && e in sh.edges && sh.Prods(e) <= s.scanned
    && NodesIn(sh.Ins(e)) <= s.known && NodesIn(sh.Outs(e)) <= s.known
    && w.Loading(e) != DepsError
  }

  /** Nothing is marked dirty without cause, what was scanned is marked right, and an examined
      output belongs to an edge that was scanned or is being scanned (`open`). */
  ghost predicate Right(sh: Shape, w: World, s: ScanState, open: set<Edge>)
  {
    && (forall n :: n in s.dirty ==> n in s.known && NodeDirty(sh, w, n))
    && (forall e :: e in s.scanned ==> Covered(sh, w, s, e))
    && (forall e :: e in s.scanned && e !in open ==> RightEdge(sh, w, s, e))
    && (forall n :: n in s.known ==> RightNode(sh, w, s, open, n))
  }

  /** From `s` to `s'` only edges that lead to `e` were scanned, and only they changed flags. */
  ghost predicate Deeper(sh: Shape, s: ScanState, s': ScanState, e: Edge, except: set<Edge>)
  {
    && s.known <= s'.known && s.dirty <= s'.dirty && s.scanned <= s'.scanned
    && (forall f :: f in s'.scanned && f !in s.scanned ==> Reaches(sh, f, e))
    && (forall f :: f in sh.edges && f !in except && (f in s'.scanned ==> f in s.scanned) ==>
      (f in s.done <==> f in s'.done) && (f in s.missing <==> f in s'.missing))
  }

  /** `e` comes before all edges that are being scanned. */
  ghost predicate Below(sh: Shape, rank: map<Edge, nat>, open: set<Edge>, e: Edge)
  {
    Ranked(sh, sh.edges, rank) && e in sh.edges && forall f :: f in open ==> f in rank && rank[e] < rank[f]
  }

  lemma {:induction false} ReachesBelow(sh: Shape, rank: map<Edge, nat>, p: Edge, e: Edge, path: seq<Edge>)
    requires Ranked(sh, sh.edges, rank) && EdgePath(sh, path, p, e)
    ensures p in rank && e in rank && rank[p] <= rank[e]
    decreases |path|
  {
    if |path| > 1 {
      var m := path[|path| - 2];
      ReachesBelow(sh, rank, p, m, path[..|path| - 1]);
    }
  }

  // ----- steps of the traversal -----

  lemma FlagOpen(sh: Shape, w: World, s: ScanState, s': ScanState, open: set<Edge>, e: Edge)
    requires Right(sh, w, s, open) && e in open
    requires s' == s.(done := s'.done, missing := s'.missing)
    requires s'.done - {e} == s.done - {e} && s'.missing - {e} == s.missing - {e}
    ensures Right(sh, w, s', open)
  {
    hide NodeDirty, Blocked, Shape.Prods, NodesIn;
    forall f | f in s.scanned && f !in open ensures RightEdge(sh, w, s', f) {
      assert f in s'.done - {e} <==> f in s.done - {e};
      assert f in s'.missing - {e} <==> f in s.missing - {e};
    }
    forall f | f in s'.scanned ensures Covered(sh, w, s', f) {
      assert Covered(sh, w, s, f);
    }
    forall n | n in s'.known ensures RightNode(sh, w, s', open, n) {
      assert RightNode(sh, w, s, open, n);
    }
  }

  /** Examining nodes and marking some of them dirty that are. */
  lemma MarkNodes(sh: Shape, w: World, s: ScanState, s': ScanState, open: set<Edge>, ns: set<Node>)
    requires Right(sh, w, s, open) && ns <= sh.nodes
    requires s' == s.(known := s.known + ns, dirty := s'.dirty) && s.dirty <= s'.dirty
    requires forall n :: n in s'.dirty && n !in s.dirty ==> n in ns && NodeDirty(sh, w, n)
    requires forall n :: n in ns && n !in sh.producer && NodeDirty(sh, w, n) ==> n in s'.dirty
    requires forall n :: n in ns && n in sh.producer ==> sh.producer[n] in s.scanned + open
    ensures Right(sh, w, s', open)
  {
    hide NodeDirty, Blocked, Shape.Prods, NodesIn;
    forall f | f in s'.scanned ensures Covered(sh, w, s', f) {
      assert Covered(sh, w, s, f);
    }
    forall m | m in s'.known ensures RightNode(sh, w, s', open, m) {
      if m in s.known {
        assert RightNode(sh, w, s, open, m);
      }
    }
  }

  /** A source file was examined: it is dirty iff it is missing. */
  lemma ExamineSource(sh: Shape, w: World, s: ScanState, open: set<Edge>, n: Node, dirty: set<Node>)
    requires Right(sh, w, s, open) && sh.WellFormed() && n in sh.nodes && n !in sh.producer && w.disk.Keys == sh.nodes
    requires dirty == if w.disk[n] == 0 then s.dirty + {n} else s.dirty - {n}
    ensures s.dirty <= dirty && Right(sh, w, s.(known := s.known + {n}, dirty := dirty), open)
  {
    hide NodeDirty, Right, Shape.WellFormed;
    DirtyUnfolds(sh, w, n);
    DirtyIsRight(sh, w, s, open, n);
    MarkNodes(sh, w, s, s.(known := s.known + {n}, dirty := dirty), open, {n});
  }

  lemma DirtyIsRight(sh: Shape, w: World, s: ScanState, open: set<Edge>, n: Node)
    requires Right(sh, w, s, open)
    ensures n in s.dirty ==> NodeDirty(sh, w, n)
  {}

  /** An output was examined: the scan of its edge is about to begin, if it is not over. */
  lemma ExamineOutput(sh: Shape, w: World, s: ScanState, open: set<Edge>, n: Node)
    requires Right(sh, w, s, open) && n in sh.nodes && n in sh.producer
    ensures Right(sh, w, s.(known := s.known + {n}), open + {sh.producer[n]})
  {
    hide NodeDirty, Blocked, Shape.Prods, NodesIn;
    MoreOpen(sh, w, s, open, sh.producer[n]);
    MarkNodes(sh, w, s, s.(known := s.known + {n}), open + {sh.producer[n]}, {n});
  }

  lemma MoreOpen(sh: Shape, w: World, s: ScanState, open: set<Edge>, e: Edge)
    requires Right(sh, w, s, open)
    ensures Right(sh, w, s, open + {e})
  {
    hide NodeDirty, Blocked, Shape.Prods, NodesIn;
    forall m | m in s.known ensures RightNode(sh, w, s, open + {e}, m) {
      assert RightNode(sh, w, s, open, m);
    }
  }

  /** The scan of `e` is over. */
  lemma CloseEdge(sh: Shape, w: World, s: ScanState, open: set<Edge>, e: Edge)
    requires Right(sh, w, s, open + {e}) && RightEdge(sh, w, s, e)
    requires Covered(sh, w, s, e)
    ensures Right(sh, w, s.(scanned := s.scanned + {e}), open)
  {
    hide NodeDirty, Blocked, Shape.Prods, NodesIn;
    var s' := s.(scanned := s.scanned + {e});
    forall f | f in s'.scanned ensures Covered(sh, w, s', f) && (f !in open ==> RightEdge(sh, w, s', f)) {
      assert Covered(sh, w, s, f);
      if f != e {
        assert f !in open ==> f !in open + {e};
      }
    }
    forall m | m in s'.known ensures RightNode(sh, w, s', open, m) {
      assert RightNode(sh, w, s, open + {e}, m);
    }
  }

  /** What the loop over the inputs of `e` has found in `inputs`, of which `regular` are not order-only. */
  ghost predicate Half(sh: Shape, w: World, s0: ScanState, s: ScanState, open: set<Edge>, e: Edge,
                       inputs: seq<Node>, regular: seq<Node>, dirty: bool, recent: Node?)
  {
    && Right(sh, w, s, open + {e}) && Deeper(sh, s0, s, e, {e}) && w.Loading(e) != DepsError
    && NodesIn(inputs) <= s.known && (forall n :: n in inputs && n in sh.producer ==> sh.producer[n] in s.scanned)
    && (e in s.done <==> forall n :: n in inputs && n in sh.producer ==> !Blocked(sh, w, sh.producer[n]))
    && (e in s.missing <==> w.Loading(e) == DepsMissing)
    && (dirty <==> w.Loading(e) == DepsMissing || exists n :: n in regular && NodeDirty(sh, w, n))
    && (!dirty ==> MostRecentOf(w, regular, recent))
  }

  ghost predicate MostRecentOf(w: World, nodes: seq<Node>, recent: Node?)
  {
    && (forall n :: n in nodes ==> n in w.disk)
    && (recent == null <==> nodes == [])
    && (recent != null ==> recent in nodes && Newest(nodes, w.Times()) == Some(w.disk[recent]))
  }

  /** The state at the start of the loop. */
  lemma HalfStarts(sh: Shape, w: World, s0: ScanState, s: ScanState, open: set<Edge>, e: Edge, dirty: bool)
    requires Right(sh, w, s0, open + {e}) && w.Loading(e) != DepsError && (dirty <==> w.Loading(e) == DepsMissing)
    requires s == s0.(done := s0.done + {e}, missing := if dirty then s0.missing + {e} else s0.missing - {e})
    ensures Half(sh, w, s0, s, open, e, [], [], dirty, null)
  {
    hide Right, Reaches;
    FlagOpen(sh, w, s0, s, open + {e}, e);
  }

  /** What a visit of input `n` of `e` has done. */
  ghost predicate InputVisited(sh: Shape, w: World, s: ScanState, s': ScanState, open: set<Edge>, e: Edge, n: Node)
  {
    && Right(sh, w, s', open + {e}) && Deeper(sh, s, s', e, {}) && (e in s'.scanned ==> e in s.scanned)
    && n in s'.known && (n in sh.producer ==> sh.producer[n] in s'.scanned)
  }

  /** What the flags of a visited input say. */
  lemma ReadInput(sh: Shape, w: World, s: ScanState, rank: map<Edge, nat>, open: set<Edge>, e: Edge, n: Node)
    requires sh.WellFormed() && Right(sh, w, s, open + {e}) && Below(sh, rank, open, e) && n in sh.Ins(e)
    requires n in s.known && (n in sh.producer ==> sh.producer[n] in s.scanned)
    ensures n in s.dirty <==> NodeDirty(sh, w, n)
    ensures n in sh.producer ==>
      sh.producer[n] in sh.edges && (sh.producer[n] in s.done <==> !Blocked(sh, w, sh.producer[n]))
  {
    hide NodeDirty, Blocked, Shape.Prods;
    assert RightNode(sh, w, s, open + {e}, n);
    if n in sh.producer {
      ProdsOf(sh, e, n);
      assert rank[sh.producer[n]] < rank[e];
      assert RightEdge(sh, w, s, sh.producer[n]);
    }
  }

  /** One turn of the loop. */
  lemma HalfStep(sh: Shape, w: World, rank: map<Edge, nat>, s0: ScanState, s1: ScanState, s2: ScanState, s3: ScanState,
                 open: set<Edge>, e: Edge, inputs: seq<Node>, n: Node, regular: seq<Node>, dirty: bool, recent: Node?)
    requires sh.WellFormed() && Below(sh, rank, open, e) && n in sh.Ins(e)
    requires Half(sh, w, s0, s1, open, e, inputs, regular, dirty, recent) && InputVisited(sh, w, s1, s2, open, e, n)
    requires s3 == if n in sh.producer && sh.producer[n] !in s2.done then s2.(done := s2.done - {e}) else s2
    ensures Half(sh, w, s0, s3, open, e, inputs + [n], regular, dirty, recent)
    ensures n in s3.dirty <==> NodeDirty(sh, w, n)
  {
    hide NodeDirty, Blocked, Shape.Prods, Shape.WellFormed, Reaches, MostRecentOf, Right;
    ReadInput(sh, w, s2, rank, open, e, n);
    FlagOpen(sh, w, s2, s3, open + {e}, e);
    assert forall m :: m in inputs + [n] <==> m in inputs || m == n;
  }

  /** The part of that turn for an input that is not order-only. */
  lemma Weigh(sh: Shape, w: World, s0: ScanState, s: ScanState, open: set<Edge>, e: Edge, inputs: seq<Node>,
              regular: seq<Node>, n: Node, dirty: bool, recent: Node?, dirty': bool, recent': Node?)
    requires Half(sh, w, s0, s, open, e, inputs, regular, dirty, recent) && n in w.disk
    requires dirty' <==> dirty || NodeDirty(sh, w, n)
    requires !dirty' ==>
      recent' == if recent == null || recent !in w.disk || w.disk[recent] < w.disk[n] then n else recent
    ensures Half(sh, w, s0, s, open, e, inputs, regular + [n], dirty', recent')
  {
    hide NodeDirty, Blocked, Shape.Prods, Reaches, Right, Deeper, MostRecentOf;
    assert forall m :: m in regular + [n] <==> m in regular || m == n;
    if !dirty' {
      MoreRecent(w, regular, n, recent, recent');
    }
  }

  lemma MoreRecent(w: World, regular: seq<Node>, n: Node, recent: Node?, recent': Node?)
    requires MostRecentOf(w, regular, recent) && n in w.disk
    requires recent' == if recent == null || recent !in w.disk || w.disk[recent] < w.disk[n] then n else recent
    ensures MostRecentOf(w, regular + [n], recent')
  {
    assert forall m :: m in regular + [n] <==> m in regular || m == n;
    assert (regular + [n])[..|regular|] == regular;
  }

  /** The end of the scan of `e`. */
  lemma ScanEnds(sh: Shape, w: World, rank: map<Edge, nat>, s0: ScanState, s: ScanState, s': ScanState, open: set<Edge>,
                 e: Edge, weighed: bool, dirty: bool, recent: Node?)
    requires sh.WellFormed() && Below(sh, rank, open, e)
    requires Half(sh, w, s0, s, open, e, sh.Ins(e), sh.Regular(e), weighed, recent)
    requires dirty <==> weighed || Stale(sh, w.Times(), w.log, e)
    requires s' == s.(known := s.known + NodesIn(sh.Outs(e)),
                      dirty := if dirty then s.dirty + NodesIn(sh.Outs(e)) else s.dirty,
                      done := if dirty && !(e.phony && sh.Ins(e) == []) then s.done - {e} else s.done,
                      scanned := s.scanned + {e})
    ensures Right(sh, w, s', open) && Deeper(sh, s0, s', e, {e}) && e in s'.scanned
  {
    hide NodeDirty, Blocked, Blocks, Shape.Prods, Shape.WellFormed, Shape.Regular, Reaches, Stale, Right, Newest;
    assert dirty <==> EdgeDirty(sh, w, e);
    OutputsDirty(sh, w, e);
    LinkedNodes(sh, e);
    var marked := s.(known := s.known + NodesIn(sh.Outs(e)), dirty := s'.dirty);
    MarkNodes(sh, w, s, marked, open + {e}, NodesIn(sh.Outs(e)));
    FlagOpen(sh, w, marked, marked.(done := s'.done), open + {e}, e);
    ReadyAtEnd(sh, w, e, e in s.done);
    ProducersScanned(sh, s.scanned, e);
    assert s' == marked.(done := s'.done, scanned := s.scanned + {e});
    CloseEdge(sh, w, marked.(done := s'.done), open, e);
    ReachesItself(sh, e);
  }

  lemma ReadyAtEnd(sh: Shape, w: World, e: Edge, ready: bool)
    requires e in sh.edges
    requires ready <==> forall n :: n in sh.Ins(e) && n in sh.producer ==> !Blocked(sh, w, sh.producer[n])
    ensures !Blocked(sh, w, e) <==> ready && !(EdgeDirty(sh, w, e) && !(e.phony && sh.Ins(e) == []))
  {
    hide Blocked, EdgeDirty;
    BlockedUnfolds(sh, w, e);
    if !ready {
      var n :| n in sh.Ins(e) && n in sh.producer && Blocked(sh, w, sh.producer[n]);
      ProdsOf(sh, e, n);
    }
  }

  lemma ProducersScanned(sh: Shape, scanned: set<Edge>, e: Edge)
    requires forall n :: n in sh.Ins(e) && n in sh.producer ==> sh.producer[n] in scanned
    ensures sh.Prods(e) <= scanned
  {}

  lemma OutputsDirty(sh: Shape, w: World, e: Edge)
    requires sh.WellFormed() && e in sh.edges
    ensures forall o :: o in sh.Outs(e) ==> (NodeDirty(sh, w, o) <==> EdgeDirty(sh, w, e))
  {
    hide NodeDirty, EdgeDirty, Shape.WellFormed;
    LinkedNodes(sh, e);
    forall o | o in sh.Outs(e) ensures NodeDirty(sh, w, o) <==> EdgeDirty(sh, w, e) {
      DirtyUnfolds(sh, w, o);
    }
  }

  ghost function RegularUpTo(sh: Shape, e: Edge, i: nat): seq<Node>
  {
    if i <= |sh.Regular(e)| then sh.Regular(e)[..i] else sh.Regular(e)
  }

  lemma HalfIsRight(sh: Shape, w: World, s0: ScanState, s: ScanState, open: set<Edge>, e: Edge,
                    inputs: seq<Node>, regular: seq<Node>, dirty: bool, recent: Node?)
    requires Half(sh, w, s0, s, open, e, inputs, regular, dirty, recent)
    ensures Right(sh, w, s, open + {e}) && (!dirty ==> MostRecentOf(w, regular, recent))
  {}

  lemma RegularPrefix(sh: Shape, e: Edge, i: nat)
    requires i < |sh.Ins(e)|
    ensures i < |sh.Regular(e)| ==> RegularUpTo(sh, e, i + 1) == RegularUpTo(sh, e, i) + [sh.Ins(e)[i]]
    ensures i >= |sh.Regular(e)| ==> RegularUpTo(sh, e, i + 1) == RegularUpTo(sh, e, i)
  {}

  lemma RegularEnds(sh: Shape, e: Edge)
    ensures RegularUpTo(sh, e, 0) == [] && RegularUpTo(sh, e, |sh.Ins(e)|) == sh.Regular(e)
  {}

  /** What the loop does with the flags of the visited input `i` of `e`. */
  ghost predicate InputRead(sh: Shape, w: World, s: ScanState, s': ScanState, e: Edge, i: nat,
                            dirty: bool, recent: Node?, dirty': bool, recent': Node?)
    requires i < |sh.Ins(e)|
  {
    var n := sh.Ins(e)[i];
    && n in w.disk && (recent != null ==> recent in w.disk)
    && s' == (if n in sh.producer && sh.producer[n] !in s.done then s.(done := s.done - {e}) else s)
    && (i < |sh.Regular(e)| ==> (dirty' <==> dirty || n in s'.dirty))
    && (i < |sh.Regular(e)| && n !in s'.dirty ==>
      recent' == if recent == null || w.disk[recent] < w.disk[n] then n else recent)
    && (i >= |sh.Regular(e)| ==> dirty' == dirty && recent' == recent)
  }

  /** One turn of the loop over the inputs of `e`, from `s1`; `s2` is the state after the visit. */
  lemma HalfTurn(sh: Shape, w: World, rank: map<Edge, nat>, s0: ScanState, s1: ScanState, s2: ScanState, s3: ScanState,
                 open: set<Edge>, e: Edge, i: nat, dirty: bool, recent: Node?, dirty': bool, recent': Node?)
    requires sh.WellFormed() && Below(sh, rank, open, e) && i < |sh.Ins(e)|
    requires Half(sh, w, s0, s1, open, e, sh.Ins(e)[..i], RegularUpTo(sh, e, i), dirty, recent)
    requires InputVisited(sh, w, s1, s2, open, e, sh.Ins(e)[i])
    requires InputRead(sh, w, s2, s3, e, i, dirty, recent, dirty', recent')
    ensures Half(sh, w, s0, s3, open, e, sh.Ins(e)[..i + 1], RegularUpTo(sh, e, i + 1), dirty', recent')
  {
    hide Half, Below, InputVisited, NodeDirty, Shape.WellFormed, Shape.Regular;
    var n := sh.Ins(e)[i];
    HalfStep(sh, w, rank, s0, s1, s2, s3, open, e, sh.Ins(e)[..i], n, RegularUpTo(sh, e, i), dirty, recent);
    assert sh.Ins(e)[..i] + [n] == sh.Ins(e)[..i + 1];
    RegularPrefix(sh, e, i);
    if i < |sh.Regular(e)| {
      Weigh(sh, w, s0, s3, open, e, sh.Ins(e)[..i + 1], RegularUpTo(sh, e, i), n, dirty, recent, dirty', recent');
    }
  }

  // ----- the visit of an input -----

  lemma KnownInput(sh: Shape, w: World, rank: map<Edge, nat>, s: ScanState, open: set<Edge>, e: Edge, n: Node)
    requires sh.WellFormed() && Right(sh, w, s, open + {e}) && Below(sh, rank, open, e) && n in sh.Ins(e)
    requires n in s.known
    ensures InputVisited(sh, w, s, s.(known := s.known + {n}), open, e, n)
  {
    hide NodeDirty, Blocked, Reaches, Shape.Prods, Shape.WellFormed;
    assert s.known + {n} == s.known;
    assert RightNode(sh, w, s, open + {e}, n);
    if n in sh.producer {
      ProdsOf(sh, e, n);
      assert rank[sh.producer[n]] < rank[e] by { ProducersInGraph(sh, e); }
    }
  }

  lemma ProducersInGraph(sh: Shape, e: Edge)
    requires sh.WellFormed()
    ensures sh.Prods(e) <= sh.edges
  {}

  lemma SourceInput(sh: Shape, w: World, s: ScanState, s': ScanState, open: set<Edge>, e: Edge, n: Node)
    requires sh.WellFormed() && Right(sh, w, s, open + {e}) && n in sh.nodes && n !in sh.producer
    requires w.disk.Keys == sh.nodes
    requires s' == s.(known := s.known + {n}, dirty := if w.disk[n] == 0 then s.dirty + {n} else s.dirty - {n})
    ensures InputVisited(sh, w, s, s', open, e, n)
  {
    hide Right, Reaches, Shape.WellFormed;
    ExamineSource(sh, w, s, open + {e}, n, s'.dirty);
  }

  /** The scan of the edge that makes an input may begin. */
  lemma EnterInput(sh: Shape, w: World, rank: map<Edge, nat>, s: ScanState, open: set<Edge>, e: Edge, n: Node)
    requires sh.WellFormed() && Right(sh, w, s, open + {e}) && Below(sh, rank, open, e) && n in sh.Ins(e)
    requires n in sh.nodes && n in sh.producer
    ensures Below(sh, rank, open + {e}, sh.producer[n])
    ensures Right(sh, w, s.(known := s.known + {n}), open + {e} + {sh.producer[n]})
  {
    hide Right, Shape.WellFormed;
    ExamineOutput(sh, w, s, open + {e}, n);
    ProdsOf(sh, e, n);
    ProducersInGraph(sh, e);
  }

  lemma InputScanned(sh: Shape, w: World, rank: map<Edge, nat>, s: ScanState, s': ScanState, open: set<Edge>, e: Edge,
                     n: Node)
    requires sh.WellFormed() && Right(sh, w, s, open + {e}) && Below(sh, rank, open, e) && n in sh.Ins(e)
    requires n !in s.known && n in sh.nodes && n in sh.producer
    requires Right(sh, w, s', open + {e}) && sh.producer[n] in s'.scanned
    requires Deeper(sh, s.(known := s.known + {n}), s', sh.producer[n], {sh.producer[n]})
    ensures InputVisited(sh, w, s, s', open, e, n)
  {
    hide Reaches, Shape.Prods, Shape.WellFormed;
    var p := sh.producer[n];
    ProdsOf(sh, e, n);
    OutputsKnown(sh, w, s, open + {e}, n);
    forall f | f in s'.scanned && f !in s.scanned ensures Reaches(sh, f, e) && f != e {
      ReachesFurther(sh, f, p, e);
      ReachesEarlier(sh, rank, f, p);
    }
  }

  lemma ReachesEarlier(sh: Shape, rank: map<Edge, nat>, p: Edge, e: Edge)
    requires Ranked(sh, sh.edges, rank) && Reaches(sh, p, e)
    ensures p in rank && e in rank && rank[p] <= rank[e]
  {
    var path :| EdgePath(sh, path, p, e);
    ReachesBelow(sh, rank, p, e, path);
  }

  lemma OutputsKnown(sh: Shape, w: World, s: ScanState, open: set<Edge>, n: Node)
    requires sh.WellFormed() && Right(sh, w, s, open) && n in sh.producer
    ensures sh.producer[n] in s.scanned ==> n in s.known
  {
    hide Reaches, Blocked, NodeDirty;
    if sh.producer[n] in s.scanned {
      assert Covered(sh, w, s, sh.producer[n]);
      assert n in NodesIn(sh.Outs(sh.producer[n]));
    }
  }

  // ----- graphs without an order -----

  /** What holds of a scanned edge on any graph. A clean edge that is not ready uses one that is not. */
  ghost predicate LooseEdge(sh: Shape, w: World, s: ScanState, open: set<Edge>, e: Edge)
  {
    && e in sh.edges && sh.Prods(e) <= s.scanned + open && w.Loading(e) != DepsError
    && NodesIn(sh.Ins(e)) <= s.known && NodesIn(sh.Outs(e)) <= s.known
    && (e in s.missing <==> w.Loading(e) == DepsMissing)
    && (e !in s.done && NodesIn(sh.Outs(e)) !! s.dirty ==> !(sh.Prods(e) <= s.done))
  }

  ghost predicate LooseNode(sh: Shape, w: World, s: ScanState, open: set<Edge>, n: Node)
  {
    && n in sh.nodes && n in w.disk
    && if n in sh.producer then sh.producer[n] in s.scanned + open else n in s.dirty <==> w.disk[n] == 0
  }

  /** What a scan of a graph that may have cycles keeps while it scans each edge once: nothing is dirty
      without cause, and only an edge that is dirty or uses one that is not ready is not ready. */
  ghost predicate Loose(sh: Shape, w: World, s: ScanState, open: set<Edge>)
  {
    && open !! s.scanned && open <= sh.edges
    && (forall n :: n in s.dirty ==> n in s.known && NodeDirty(sh, w, n))
    && (forall e :: e in s.scanned ==> LooseEdge(sh, w, s, open, e))
    && (forall e :: e in open ==> NodesIn(sh.Outs(e)) <= s.known)
    && (forall n :: n in s.known ==> LooseNode(sh, w, s, open, n))
  }

  /** The scan of `e`, whose only output was examined just now, is about to begin. */
  ghost predicate LooseEntry(sh: Shape, w: World, s: ScanState, open: set<Edge>, e: Edge)
  {
    && sh.SingleOutput() && e in sh.edges && e !in open && e !in s.scanned && NodesIn(sh.Outs(e)) <= s.known
    && Loose(sh, w, s.(known := s.known - NodesIn(sh.Outs(e))), open)
  }

  /** What the loop over the inputs of `e` has found on such a graph. */
  ghost predicate LooseHalf(sh: Shape, w: World, s0: ScanState, s: ScanState, open: set<Edge>, e: Edge,
                            inputs: seq<Node>, regular: seq<Node>, dirty: bool, recent: Node?)
  {
    && sh.SingleOutput() && e !in open && Loose(sh, w, s, open + {e}) && Deeper(sh, s0, s, e, {e})
    && w.Loading(e) != DepsError && NodesIn(inputs) <= s.known && (e in s.missing <==> w.Loading(e) == DepsMissing)
    && (e !in s.done ==> exists n :: n in inputs && n in sh.producer && sh.producer[n] !in s.done)
    && (w.Loading(e) == DepsMissing ==> dirty)
    && (dirty ==> w.Loading(e) == DepsMissing || exists n :: n in regular && NodeDirty(sh, w, n))
    && (!dirty ==> MostRecentOf(w, regular, recent))
  }

  ghost predicate LooseVisited(sh: Shape, w: World, s: ScanState, s': ScanState, open: set<Edge>, e: Edge, n: Node)
  {
    && e !in open && Loose(sh, w, s', open + {e}) && Deeper(sh, s, s', e, {}) && n in s'.known
  }

  lemma HalfIsLoose(sh: Shape, w: World, s0: ScanState, s: ScanState, open: set<Edge>, e: Edge,
                    inputs: seq<Node>, regular: seq<Node>, dirty: bool, recent: Node?)
    requires LooseHalf(sh, w, s0, s, open, e, inputs, regular, dirty, recent)
    ensures Loose(sh, w, s, open + {e}) && e !in open && (!dirty ==> MostRecentOf(w, regular, recent))
  {}

  lemma LooseStarts(sh: Shape, w: World, s0: ScanState, s: ScanState, open: set<Edge>, e: Edge, dirty: bool)
    requires sh.WellFormed() && LooseEntry(sh, w, s0, open, e) && w.disk.Keys == sh.nodes
    requires w.Loading(e) != DepsError && (dirty <==> w.Loading(e) == DepsMissing)
    requires s == s0.(done := s0.done + {e}, missing := if dirty then s0.missing + {e} else s0.missing - {e})
    ensures LooseHalf(sh, w, s0, s, open, e, [], [], dirty, null)
  {
    hide NodeDirty, Reaches, Shape.WellFormed, Shape.Prods;
    var before := s0.(known := s0.known - NodesIn(sh.Outs(e)));
    LinkedNodes(sh, e);
    forall f | f in s.scanned ensures LooseEdge(sh, w, s, open + {e}, f) {
      assert LooseEdge(sh, w, before, open, f);
    }
    forall n | n in s.known ensures LooseNode(sh, w, s, open + {e}, n) {
      if n in before.known {
        assert LooseNode(sh, w, before, open, n);
      } else {
        assert n in sh.Outs(e);
      }
    }
  }

  /** One turn of the loop over the inputs of `e`, from `s1`; `s2` is the state after the visit. */
  lemma LooseTurn(sh: Shape, w: World, s0: ScanState, s1: ScanState, s2: ScanState, s3: ScanState, open: set<Edge>,
                  e: Edge, i: nat, dirty: bool, recent: Node?, dirty': bool, recent': Node?)
    requires sh.WellFormed() && i < |sh.Ins(e)|
    requires LooseHalf(sh, w, s0, s1, open, e, sh.Ins(e)[..i], RegularUpTo(sh, e, i), dirty, recent)
    requires LooseVisited(sh, w, s1, s2, open, e, sh.Ins(e)[i])
    requires InputRead(sh, w, s2, s3, e, i, dirty, recent, dirty', recent')
    ensures LooseHalf(sh, w, s0, s3, open, e, sh.Ins(e)[..i + 1], RegularUpTo(sh, e, i + 1), dirty', recent')
  {
    hide Loose, LooseNode, Deeper, MostRecentOf, Shape.WellFormed, Shape.Regular, RegularUpTo, NodeDirty;
    var n, inputs := sh.Ins(e)[i], sh.Ins(e)[..i];
    assert sh.Ins(e)[..i + 1] == inputs + [n];
    LooseFrame(sh, w, s0, s1, s2, s3, open, e);
    LooseReady(sh, w, s1, s2, s3, open, e, inputs, n);
    RegularPrefix(sh, e, i);
    DirtyIsCaused(sh, w, s3, open + {e});
    if i < |sh.Regular(e)| {
      var regular := RegularUpTo(sh, e, i);
      assert forall m :: m in regular + [n] <==> m in regular || m == n;
      if !dirty' {
        MoreRecent(w, regular, n, recent, recent');
      }
    }
  }

  lemma DirtyIsCaused(sh: Shape, w: World, s: ScanState, open: set<Edge>)
    requires Loose(sh, w, s, open)
    ensures forall n :: n in s.dirty ==> NodeDirty(sh, w, n)
  {
    hide NodeDirty, LooseEdge, LooseNode;
  }

  /** That the edge being scanned is found to be not ready, or not, changes nothing for the others. */
  lemma LooseFrame(sh: Shape, w: World, s0: ScanState, s1: ScanState, s2: ScanState, s3: ScanState, open: set<Edge>,
                   e: Edge)
    requires Deeper(sh, s0, s1, e, {e}) && Deeper(sh, s1, s2, e, {}) && Loose(sh, w, s2, open + {e})
    requires s3 == s2 || s3 == s2.(done := s2.done - {e})
    ensures Deeper(sh, s0, s3, e, {e}) && Loose(sh, w, s3, open + {e})
  {
    hide NodeDirty, Reaches, Shape.Prods, NodesIn;
    forall f | f in s3.scanned ensures LooseEdge(sh, w, s3, open + {e}, f) {
      assert LooseEdge(sh, w, s2, open + {e}, f);
    }
    forall m | m in s3.known ensures LooseNode(sh, w, s3, open + {e}, m) {
      assert LooseNode(sh, w, s2, open + {e}, m);
    }
  }

  /** An edge that is not ready before its outputs are weighed uses an edge that is not. */
  lemma LooseReady(sh: Shape, w: World, s1: ScanState, s2: ScanState, s3: ScanState, open: set<Edge>, e: Edge,
                   inputs: seq<Node>, n: Node)
    requires sh.WellFormed() && Loose(sh, w, s1, open + {e}) && Loose(sh, w, s2, open + {e})
    requires Deeper(sh, s1, s2, e, {})
    requires s3 == if n in sh.producer && sh.producer[n] !in s2.done then s2.(done := s2.done - {e}) else s2
    requires NodesIn(inputs) <= s1.known && n in s2.known
    requires e !in s1.done ==> exists m :: m in inputs && m in sh.producer && sh.producer[m] !in s1.done
    ensures NodesIn(inputs + [n]) <= s3.known && (e in s3.missing <==> e in s1.missing)
    ensures e !in s3.done ==> exists m :: m in inputs + [n] && m in sh.producer && sh.producer[m] !in s3.done
  {
    hide NodeDirty, Reaches, LooseEdge, Shape.WellFormed;
    assert e in open + {e};
    assert forall m :: m in inputs + [n] <==> m in inputs || m == n;
    if e !in s1.done {
      var m :| m in inputs && m in sh.producer && sh.producer[m] !in s1.done;
      assert m in NodesIn(inputs) && LooseNode(sh, w, s1, open + {e}, m);
      ProducerIsEdge(sh, m);
      assert m in inputs + [n] && sh.producer[m] !in s3.done;
    } else if e !in s3.done {
      assert n in inputs + [n] && sh.producer[n] !in s3.done;
    }
  }

  lemma ProducerIsEdge(sh: Shape, n: Node)
    requires sh.WellFormed() && n in sh.producer
    ensures sh.producer[n] in sh.edges && n in sh.Outs(sh.producer[n])
  {}

  // ----- the visit of an input of such a graph -----

  lemma LooseKnown(sh: Shape, w: World, s: ScanState, open: set<Edge>, e: Edge, n: Node)
    requires Loose(sh, w, s, open + {e}) && n in s.known && e !in open
    ensures LooseVisited(sh, w, s, s.(known := s.known + {n}), open, e, n)
  {
    hide Loose;
    assert s.known + {n} == s.known;
  }

  lemma LooseSource(sh: Shape, w: World, s: ScanState, s': ScanState, open: set<Edge>, e: Edge, n: Node)
    requires sh.WellFormed() && Loose(sh, w, s, open + {e}) && e !in open && n in sh.nodes && n !in sh.producer
    requires w.disk.Keys == sh.nodes && n !in s.known
    requires s' == s.(known := s.known + {n}, dirty := if w.disk[n] == 0 then s.dirty + {n} else s.dirty - {n})
    ensures LooseVisited(sh, w, s, s', open, e, n)
  {
    hide NodeDirty, Reaches, Shape.Prods, Shape.WellFormed;
    DirtyUnfolds(sh, w, n);
    forall f | f in s'.scanned ensures LooseEdge(sh, w, s', open + {e}, f) {
      assert LooseEdge(sh, w, s, open + {e}, f);
      LinkedNodes(sh, f);
      assert n !in NodesIn(sh.Outs(f));
    }
    forall m | m in s'.known ensures LooseNode(sh, w, s', open + {e}, m) {
      if m != n {
        assert LooseNode(sh, w, s, open + {e}, m);
      }
    }
  }

  lemma LooseEnter(sh: Shape, w: World, s: ScanState, open: set<Edge>, n: Node)
    requires sh.WellFormed() && sh.SingleOutput() && Loose(sh, w, s, open) && n in sh.producer && n !in s.known
    ensures LooseEntry(sh, w, s.(known := s.known + {n}), open, sh.producer[n])
    ensures sh.producer[n] !in s.scanned
  {
    hide NodeDirty, Reaches, Shape.Prods, Shape.WellFormed, LooseNode;
    var p := sh.producer[n];
    ProducerIsEdge(sh, n);
    assert sh.Outs(p) == [n];
    assert n in NodesIn(sh.Outs(p));
    assert s.(known := s.known + {n} - NodesIn(sh.Outs(p))) == s;
  }

  lemma LooseScanned(sh: Shape, w: World, s: ScanState, s': ScanState, open: set<Edge>, e: Edge, n: Node)
    requires sh.WellFormed() && e in sh.edges && n in sh.Ins(e) && e !in open && n !in s.known && n in sh.producer
    requires Loose(sh, w, s, open + {e}) && Loose(sh, w, s', open + {e}) && sh.producer[n] in s'.scanned
    requires sh.producer[n] !in s.scanned && n in s'.known
    requires Deeper(sh, s.(known := s.known + {n}), s', sh.producer[n], {sh.producer[n]})
    ensures LooseVisited(sh, w, s, s', open, e, n)
  {
    hide Reaches, Shape.Prods, Shape.WellFormed, Loose;
    var p := sh.producer[n];
    ProdsOf(sh, e, n);
    forall f | f in s'.scanned && f !in s.scanned ensures Reaches(sh, f, e) {
      ReachesFurther(sh, f, p, e);
    }
  }

  /** The end of the scan of `e`. */
  lemma LooseEnds(sh: Shape, w: World, s0: ScanState, s: ScanState, s': ScanState, open: set<Edge>, e: Edge,
                  weighed: bool, dirty: bool, recent: Node?)
    requires sh.WellFormed() && w.disk.Keys == sh.nodes && e in sh.edges
    requires LooseHalf(sh, w, s0, s, open, e, sh.Ins(e), sh.Regular(e), weighed, recent)
    requires dirty <==> weighed || Stale(sh, w.Times(), w.log, e)
    requires s' == s.(known := s.known + NodesIn(sh.Outs(e)),
                      dirty := if dirty then s.dirty + NodesIn(sh.Outs(e)) else s.dirty,
                      done := if dirty && !(e.phony && sh.Ins(e) == []) then s.done - {e} else s.done,
                      scanned := s.scanned + {e})
    ensures Loose(sh, w, s', open) && Deeper(sh, s0, s', e, {e}) && e in s'.scanned
  {
    hide NodeDirty, Reaches, Shape.WellFormed, Shape.Regular, MostRecentOf, Stale;
    ReachesItself(sh, e);
    LinkedNodes(sh, e);
    OutputsDirty(sh, w, e);
    assert dirty ==> EdgeDirty(sh, w, e);
    forall f | f in s'.scanned ensures LooseEdge(sh, w, s', open, f) {
      if f == e {
        LooseAtEnd(sh, w, s, s', open, e, dirty);
      } else {
        assert LooseEdge(sh, w, s, open + {e}, f);
      }
    }
    forall n | n in s'.known ensures LooseNode(sh, w, s', open, n) {
      if n in s.known {
        assert LooseNode(sh, w, s, open + {e}, n);
      }
    }
  }

  lemma LooseAtEnd(sh: Shape, w: World, s: ScanState, s': ScanState, open: set<Edge>, e: Edge, dirty: bool)
    requires e in sh.edges && |sh.Outs(e)| == 1 && w.Loading(e) != DepsError
    requires forall n :: n in s.known ==> LooseNode(sh, w, s, open + {e}, n)
    requires NodesIn(sh.Ins(e)) <= s.known && (e in s.missing <==> w.Loading(e) == DepsMissing)
    requires e !in s.done ==> exists n :: n in sh.Ins(e) && n in sh.producer && sh.producer[n] !in s.done
    requires s' == s.(known := s.known + NodesIn(sh.Outs(e)),
                      dirty := if dirty then s.dirty + NodesIn(sh.Outs(e)) else s.dirty,
                      done := if dirty && !(e.phony && sh.Ins(e) == []) then s.done - {e} else s.done,
                      scanned := s.scanned + {e})
    ensures LooseEdge(sh, w, s', open, e)
  {
    hide NodeDirty;
    forall p | p in sh.Prods(e) ensures p in s'.scanned + open {
      var n :| n in sh.Ins(e) && n in sh.producer && sh.producer[n] == p;
      assert LooseNode(sh, w, s, open + {e}, n);
    }
    assert sh.Outs(e)[0] in NodesIn(sh.Outs(e));
    if e !in s.done {
      var n :| n in sh.Ins(e) && n in sh.producer && sh.producer[n] !in s.done;
      ProdsOf(sh, e, n);
    }
  }

  // ----- both kinds of graphs -----

  lemma EitherStarts(sh: Shape, w: World, rank: Option<map<Edge, nat>>, s0: ScanState, s: ScanState, open: set<Edge>,
                     e: Edge, dirty: bool)
    requires sh.WellFormed() && w.disk.Keys == sh.nodes && (rank.Some? ==> Right(sh, w, s0, open + {e}))
    requires w.Loading(e) != DepsError && (dirty <==> w.Loading(e) == DepsMissing)
    requires s == s0.(done := s0.done + {e}, missing := if dirty then s0.missing + {e} else s0.missing - {e})
    ensures rank.Some? ==> Half(sh, w, s0, s, open, e, [], [], dirty, null)
    ensures LooseEntry(sh, w, s0, open, e) ==> LooseHalf(sh, w, s0, s, open, e, [], [], dirty, null)
  {
    hide *;
    if rank.Some? {
      HalfStarts(sh, w, s0, s, open, e, dirty);
    }
    if LooseEntry(sh, w, s0, open, e) {
      LooseStarts(sh, w, s0, s, open, e, dirty);
    }
  }

  lemma EitherHolds(sh: Shape, w: World, rank: Option<map<Edge, nat>>, s0: ScanState, s: ScanState, open: set<Edge>,
                    e: Edge, inputs: seq<Node>, regular: seq<Node>, dirty: bool, recent: Node?)
    requires rank.Some? ==> Half(sh, w, s0, s, open, e, inputs, regular, dirty, recent)
    ensures rank.Some? ==> Right(sh, w, s, open + {e})
    ensures LooseHalf(sh, w, s0, s, open, e, inputs, regular, dirty, recent) ==>
      sh.SingleOutput() && e !in open && Loose(sh, w, s, open + {e})
  {}

  lemma EitherTurn(sh: Shape, w: World, rank: Option<map<Edge, nat>>, s0: ScanState, s1: ScanState, s2: ScanState,
                   s3: ScanState, open: set<Edge>, e: Edge, i: nat, dirty: bool, recent: Node?, dirty': bool,
                   recent': Node?)
    requires sh.WellFormed() && i < |sh.Ins(e)| && InputRead(sh, w, s2, s3, e, i, dirty, recent, dirty', recent')
    requires rank.Some? ==> Below(sh, rank.value, open, e) && InputVisited(sh, w, s1, s2, open, e, sh.Ins(e)[i])
    requires rank.Some? ==> Half(sh, w, s0, s1, open, e, sh.Ins(e)[..i], RegularUpTo(sh, e, i), dirty, recent)
    requires LooseHalf(sh, w, s0, s1, open, e, sh.Ins(e)[..i], RegularUpTo(sh, e, i), dirty, recent) ==>
      LooseVisited(sh, w, s1, s2, open, e, sh.Ins(e)[i])
    ensures rank.Some? ==>
      Half(sh, w, s0, s3, open, e, sh.Ins(e)[..i + 1], RegularUpTo(sh, e, i + 1), dirty', recent')
    ensures LooseHalf(sh, w, s0, s1, open, e, sh.Ins(e)[..i], RegularUpTo(sh, e, i), dirty, recent) ==>
      LooseHalf(sh, w, s0, s3, open, e, sh.Ins(e)[..i + 1], RegularUpTo(sh, e, i + 1), dirty', recent')
  {
    hide *;
    if rank.Some? {
      HalfTurn(sh, w, rank.value, s0, s1, s2, s3, open, e, i, dirty, recent, dirty', recent');
    }
    if LooseHalf(sh, w, s0, s1, open, e, sh.Ins(e)[..i], RegularUpTo(sh, e, i), dirty, recent) {
      LooseTurn(sh, w, s0, s1, s2, s3, open, e, i, dirty, recent, dirty', recent');
    }
  }

  lemma EitherEnds(sh: Shape, w: World, rank: Option<map<Edge, nat>>, s0: ScanState, s: ScanState, s': ScanState,
                   open: set<Edge>, e: Edge, weighed: bool, dirty: bool, recent: Node?)
    requires sh.WellFormed() && w.disk.Keys == sh.nodes && e in sh.edges
    requires rank.Some? ==>
      Below(sh, rank.value, open, e) && Half(sh, w, s0, s, open, e, sh.Ins(e), sh.Regular(e), weighed, recent)
    requires LooseEntry(sh, w, s0, open, e) ==>
      LooseHalf(sh, w, s0, s, open, e, sh.Ins(e), sh.Regular(e), weighed, recent)
    requires MostRecentOf(w, sh.Regular(e), recent) || weighed ==>
      (dirty <==> weighed || Stale(sh, w.Times(), w.log, e))
    requires s' == s.(known := s.known + NodesIn(sh.Outs(e)),
                      dirty := if dirty then s.dirty + NodesIn(sh.Outs(e)) else s.dirty,
                      done := if dirty && !(e.phony && sh.Ins(e) == []) then s.done - {e} else s.done,
                      scanned := s.scanned + {e})
    ensures rank.Some? ==> Right(sh, w, s', open) && Deeper(sh, s0, s', e, {e}) && e in s'.scanned
    ensures LooseEntry(sh, w, s0, open, e) ==> Loose(sh, w, s', open) && Deeper(sh, s0, s', e, {e}) && e in s'.scanned
  {
    hide *;
    if rank.Some? {
      HalfIsRight(sh, w, s0, s, open, e, sh.Ins(e), sh.Regular(e), weighed, recent);
      ScanEnds(sh, w, rank.value, s0, s, s', open, e, weighed, dirty, recent);
    }
    if LooseEntry(sh, w, s0, open, e) {
      HalfIsLoose(sh, w, s0, s, open, e, sh.Ins(e), sh.Regular(e), weighed, recent);
      LooseEnds(sh, w, s0, s, s', open, e, weighed, dirty, recent);
    }
  }

  class DependencyScan {
    const sh: Shape
    const w: World
    ghost var s: ScanState

    /** A scan of a graph no node of which was examined. */
    constructor (sh: Shape, w: World)
      requires sh.WellFormed() && w.disk.Keys == sh.nodes && forall n :: n in sh.nodes ==> n.mtime == -1 && !n.dirty
      ensures this.sh == sh && this.w == w && Linked() && s.scanned == {} && s.known == {} && Right(sh, w, s, {})
      ensures s.done <= sh.edges && s.dirty == {} && Loose(sh, w, s, {})
    {
      hide Shape.WellFormed, NodeDirty;
      this.sh, this.w := sh, w;
      s := ScanState({}, {}, set e | e in sh.edges && e.outputsReady, set e | e in sh.edges && e.depsMissing, {});
    }

    /** The nodes and edges hold the values of `s`. */
    ghost predicate Linked()
      reads this, sh.edges, sh.nodes
    {
      && sh.WellFormed() && w.disk.Keys == sh.nodes && sh.Flagged(s.done, s.dirty) && Examined(s.known)
      && (forall e :: e in sh.edges ==> e.depsMissing == (e in s.missing))
    }

    ghost predicate Examined(known: set<Node>)
      reads sh.nodes`mtime
    {
      w.disk.Keys == sh.nodes && forall n :: n in sh.nodes ==> n.mtime == if n in known then w.disk[n] else -1
    }

    method StatIfNecessary(node: Node) returns (examined: bool)
      requires Linked() && node in sh.nodes
      modifies this`s, node`mtime
      ensures Linked() && examined == (node !in old(s).known) && s == old(s).(known := old(s).known + {node})
    {
      hide Shape.WellFormed;
      examined := node.mtime == -1;
      if examined {
        node.mtime := w.disk[node];
      }
      s := s.(known := s.known + {node});
    }

    method SetDirty(node: Node, dirty: bool)
      requires Linked() && node in sh.nodes
      modifies this`s, node`dirty
      ensures Linked() && s == old(s).(dirty := if dirty then old(s).dirty + {node} else old(s).dirty - {node})
    {
      hide Shape.WellFormed;
      node.dirty := dirty;
      s := s.(dirty := if dirty then s.dirty + {node} else s.dirty - {node});
    }

    method SetReady(edge: Edge, ready: bool)
      requires Linked() && edge in sh.edges
      modifies this`s, edge`outputsReady
      ensures Linked() && s == old(s).(done := if ready then old(s).done + {edge} else old(s).done - {edge})
    {
      hide Shape.WellFormed;
      edge.outputsReady := ready;
      s := s.(done := if ready then s.done + {edge} else s.done - {edge});
    }

    method SetMissing(edge: Edge, missing: bool)
      requires Linked() && edge in sh.edges
      modifies this`s, edge`depsMissing
      ensures Linked()
      ensures s == old(s).(missing := if missing then old(s).missing + {edge} else old(s).missing - {edge})
    {
      hide Shape.WellFormed;
      edge.depsMissing := missing;
      s := s.(missing := if missing then s.missing + {edge} else s.missing - {edge});
    }

    /** What the scan of `e` may start from: when the graph has an order (`rank`), everything is
        marked right but the edges on the way to `e`. */
    ghost predicate Entering(open: set<Edge>, e: Edge, rank: Option<map<Edge, nat>>)
      reads this`s
    {
      rank.Some? ==> Below(sh, rank.value, open, e) && Right(sh, w, s, open + {e})
    }

    /** Scans `edge` and what leads to it. The scan ends on every graph, cyclic ones included; it
        fails only if the deps of an edge that leads to `edge` cannot be loaded; if the graph has an
        order, all flags it leaves are right; and if edges have one output each, which are scanned
        once, the flags are such that a plan can start from them, on cyclic graphs too. */
    method RecomputeDirty(edge: Edge, ghost open: set<Edge>, ghost rank: Option<map<Edge, nat>>)
      returns (ok: bool, ghost culprit: Edge)
      requires Linked() && edge in sh.edges && Entering(open, edge, rank)
      modifies this, sh.edges, sh.nodes
      ensures Linked() && old(s).known <= s.known
      ensures !ok ==> culprit in sh.edges && w.Loading(culprit) == DepsError && Reaches(sh, culprit, edge)
      ensures ok && rank.Some? ==> Right(sh, w, s, open) && Deeper(sh, old(s), s, edge, {edge}) && edge in s.scanned
      ensures ok && LooseEntry(sh, w, old(s), open, edge) ==>
        Loose(sh, w, s, open) && Deeper(sh, old(s), s, edge, {edge}) && edge in s.scanned
      decreases sh.nodes - s.known, 3
    {
      hide Right, Deeper, Below, Reaches, Half, Stale, MostRecentOf, Shape.WellFormed, Shape.Flagged;
      hide Shape.Regular, NodesIn, Loose, LooseEntry, LooseHalf;
      ghost var s0 := s;
      ok, culprit := true, edge;
      var dirty;
      ok, dirty := Begin(edge);
      if !ok {
        ReachesItself(sh, edge);
        return;
      }
      EitherStarts(sh, w, rank, s0, s, open, edge, dirty);
      var recent;
      ok, culprit, dirty, recent := VisitInputs(edge, dirty, open, rank, s0);
      if !ok {
        return;
      }
      ghost var s1, weighed := s, dirty;
      dirty := Settle(edge, dirty, recent);
      s := s.(scanned := s.scanned + {edge});
      EitherEnds(sh, w, rank, s0, s1, s, open, edge, weighed, dirty, recent);
    }

    /** Resets the flags of `edge` and loads its implicit dependencies. */
    method Begin(edge: Edge) returns (ok: bool, dirty: bool)
      requires Linked() && edge in sh.edges
      modifies this`s, edge
      ensures Linked() && ok == (w.Loading(edge) != DepsError) && dirty == (w.Loading(edge) == DepsMissing)
      ensures s == old(s).(done := old(s).done + {edge},
                           missing := if dirty then old(s).missing + {edge} else old(s).missing - {edge})
    {
      hide Linked;
      ghost var s0 := s;
      SetReady(edge, true);
      SetMissing(edge, false);
      ok, dirty := w.Loading(edge) != DepsError, w.Loading(edge) == DepsMissing;
      if dirty {
        SetMissing(edge, true);
        assert s0.missing - {edge} + {edge} == s0.missing + {edge};
      }
    }

    /** The part of the scan of `edge` that follows its inputs. */
    method Settle(edge: Edge, weighed: bool, recent: Node?) returns (dirty: bool)
      requires Linked() && edge in sh.edges && (recent != null ==> recent in sh.nodes && recent in s.known)
      modifies this`s, edge`outputsReady, sh.nodes`mtime, sh.nodes`dirty
      ensures Linked()
      ensures MostRecentOf(w, sh.Regular(edge), recent) || weighed ==>
        (dirty <==> weighed || Stale(sh, w.Times(), w.log, edge))
      ensures s == old(s).(known := old(s).known + NodesIn(sh.Outs(edge)),
                           dirty := if dirty then old(s).dirty + NodesIn(sh.Outs(edge)) else old(s).dirty,
                           done := if dirty && !(edge.phony && sh.Ins(edge) == [])
                                   then old(s).done - {edge} else old(s).done)
    {
      hide Linked, Stale, MostRecentOf, NodesIn;
      ghost var s0 := s;
      dirty := weighed;
      if !dirty {
        dirty := RecomputeOutputsDirty(edge, recent);
      }
      assert s.known + NodesIn(sh.Outs(edge)) == s0.known + NodesIn(sh.Outs(edge));
      MarkOutputs(edge, dirty);
      if dirty && !(edge.phony && sh.Ins(edge) == []) {
        SetReady(edge, false);
      }
    }

    /** The loop over the inputs of `edge`. */
    method VisitInputs(edge: Edge, dirty0: bool, ghost open: set<Edge>, ghost rank: Option<map<Edge, nat>>,
                       ghost s0: ScanState)
      returns (ok: bool, ghost culprit: Edge, dirty: bool, recent: Node?)
      requires Linked() && edge in sh.edges
      requires rank.Some? ==> Below(sh, rank.value, open, edge) && Half(sh, w, s0, s, open, edge, [], [], dirty0, null)
      modifies this, sh.edges, sh.nodes
      ensures Linked() && old(s).known <= s.known
      ensures !ok ==> culprit in sh.edges && w.Loading(culprit) == DepsError && Reaches(sh, culprit, edge)
      ensures ok ==> recent == null || (recent in sh.nodes && recent in s.known)
      ensures ok && rank.Some? ==> Half(sh, w, s0, s, open, edge, sh.Ins(edge), sh.Regular(edge), dirty, recent)
      ensures ok && LooseHalf(sh, w, s0, old(s), open, edge, [], [], dirty0, null) ==>
        LooseHalf(sh, w, s0, s, open, edge, sh.Ins(edge), sh.Regular(edge), dirty, recent)
      decreases sh.nodes - s.known, 2
    {
      hide Below, Reaches, Half, RegularUpTo, Linked, LooseHalf;
      ghost var loose := LooseHalf(sh, w, s0, s, open, edge, [], [], dirty0, null);
      ok, culprit, dirty, recent := true, edge, dirty0, null;
      ghost var known0 := s.known;
      RegularEnds(sh, edge);
      for i := 0 to |sh.Ins(edge)|
        invariant Linked() && ok && known0 <= s.known
        invariant recent == null || (recent in sh.nodes && recent in s.known)
        invariant rank.Some? ==>
          Half(sh, w, s0, s, open, edge, sh.Ins(edge)[..i], RegularUpTo(sh, edge, i), dirty, recent)
        invariant loose ==>
          LooseHalf(sh, w, s0, s, open, edge, sh.Ins(edge)[..i], RegularUpTo(sh, edge, i), dirty, recent)
      {
        ok, culprit, dirty, recent := UseInput(edge, i, dirty, recent, open, rank, s0);
        if !ok {
          return;
        }
      }
      assert sh.Ins(edge)[..|sh.Ins(edge)|] == sh.Ins(edge);
    }

    /** One turn of that loop. */
    method UseInput(edge: Edge, i: nat, dirty0: bool, recent0: Node?, ghost open: set<Edge>,
                    ghost rank: Option<map<Edge, nat>>, ghost s0: ScanState)
      returns (ok: bool, ghost culprit: Edge, dirty: bool, recent: Node?)
      requires Linked() && edge in sh.edges && i < |sh.Ins(edge)|
      requires recent0 == null || (recent0 in sh.nodes && recent0 in s.known)
      requires rank.Some? ==> Below(sh, rank.value, open, edge)
      requires rank.Some? ==>
        Half(sh, w, s0, s, open, edge, sh.Ins(edge)[..i], RegularUpTo(sh, edge, i), dirty0, recent0)
      modifies this, sh.edges, sh.nodes
      ensures Linked() && old(s).known <= s.known
      ensures !ok ==> culprit in sh.edges && w.Loading(culprit) == DepsError && Reaches(sh, culprit, edge)
      ensures ok ==> recent == null || (recent in sh.nodes && recent in s.known)
      ensures ok && rank.Some? ==>
        Half(sh, w, s0, s, open, edge, sh.Ins(edge)[..i + 1], RegularUpTo(sh, edge, i + 1), dirty, recent)
      ensures
        ok && LooseHalf(sh, w, s0, old(s), open, edge, sh.Ins(edge)[..i], RegularUpTo(sh, edge, i), dirty0, recent0) ==>
        LooseHalf(sh, w, s0, s, open, edge, sh.Ins(edge)[..i + 1], RegularUpTo(sh, edge, i + 1), dirty, recent)
      decreases sh.nodes - s.known, 1
    {
      assert sh.WellFormed();
      hide Right, Deeper, Below, Reaches, Half, InputVisited, InputRead, Linked, RegularUpTo, Shape.WellFormed;
      hide Loose, LooseHalf, LooseVisited;
      dirty, recent := dirty0, recent0;
      ghost var s1 := s;
      EitherHolds(sh, w, rank, s0, s, open, edge, sh.Ins(edge)[..i], RegularUpTo(sh, edge, i), dirty, recent);
      ok, culprit := VisitInput(edge, sh.Ins(edge)[i], open, rank);
      if !ok {
        return;
      }
      ghost var s2 := s;
      dirty, recent := ReadInput(edge, i, dirty, recent);
      EitherTurn(sh, w, rank, s0, s1, s2, s, open, edge, i, dirty0, recent0, dirty, recent);
    }

    /** What a turn does after the visit: what follows for `edge` from its input `i`. */
    method ReadInput(edge: Edge, i: nat, dirty0: bool, recent0: Node?) returns (dirty: bool, recent: Node?)
      requires Linked() && edge in sh.edges && i < |sh.Ins(edge)| && sh.Ins(edge)[i] in s.known
      requires recent0 == null || (recent0 in sh.nodes && recent0 in s.known)
      modifies this`s, edge`outputsReady
      ensures Linked() && InputRead(sh, w, old(s), s, edge, i, dirty0, recent0, dirty, recent)
      ensures s.known == old(s).known && (recent == null || (recent in sh.nodes && recent in s.known))
    {
      hide Shape.Regular, Shape.Prods;
      LinkedNodes(sh, edge);
      dirty, recent := dirty0, recent0;
      var input := sh.Ins(edge)[i];
      assert input in sh.Ins(edge);
      // If an input is not ready, neither are our outputs.
      if input in sh.producer && !sh.producer[input].outputsReady {
        SetReady(edge, false);
      }
      // If a regular input is dirty or missing, we are dirty. Otherwise consider its time.
      if i < |sh.Regular(edge)| {
        if input.dirty {
          dirty := true;
        } else if recent == null || recent.mtime < input.mtime {
          recent := input;
        }
      }
    }

    /** The visit of an input: looks at the file if that was not done before, and at what makes it. */
    method VisitInput(edge: Edge, input: Node, ghost open: set<Edge>, ghost rank: Option<map<Edge, nat>>)
      returns (ok: bool, ghost culprit: Edge)
      requires Linked() && edge in sh.edges && input in sh.Ins(edge) && Entering(open, edge, rank)
      modifies this, sh.edges, sh.nodes
      ensures Linked() && old(s).known <= s.known && (ok ==> input in s.known)
      ensures !ok ==> culprit in sh.edges && w.Loading(culprit) == DepsError && Reaches(sh, culprit, edge)
      ensures ok && rank.Some? ==> InputVisited(sh, w, old(s), s, open, edge, input)
      ensures ok && sh.SingleOutput() && edge !in open && Loose(sh, w, old(s), open + {edge}) ==>
        LooseVisited(sh, w, old(s), s, open, edge, input)
      decreases sh.nodes - s.known, 0
    {
      hide Right, Deeper, Below, Reaches, Half, InputVisited, Shape.WellFormed, Shape.Flagged;
      hide Loose, LooseEntry, LooseVisited, Shape.SingleOutput;
      ghost var s0, loose := s, sh.SingleOutput() && edge !in open && Loose(sh, w, s, open + {edge});
      ok, culprit := true, edge;
      LinkedNodes(sh, edge);
      var examined := StatIfNecessary(input);
      if !examined {
        if rank.Some? {
          KnownInput(sh, w, rank.value, s0, open, edge, input);
        }
        if loose {
          LooseKnown(sh, w, s0, open, edge, input);
        }
      } else if input in sh.producer {
        var inEdge := sh.producer[input];
        ProducersInGraph(sh, edge);
        ProdsOf(sh, edge, input);
        if rank.Some? {
          EnterInput(sh, w, rank.value, s0, open, edge, input);
        }
        if loose {
          LooseEnter(sh, w, s0, open + {edge}, input);
        }
        ok, culprit := RecomputeDirty(inEdge, open + {edge}, rank);
        if !ok {
          ReachesFurther(sh, culprit, inEdge, edge);
          return;
        }
        if rank.Some? {
          InputScanned(sh, w, rank.value, s0, s, open, edge, input);
        }
        if loose {
          LooseScanned(sh, w, s0, s, open, edge, input);
        }
      } else {
        SetDirty(input, input.mtime == 0);
        if rank.Some? {
          SourceInput(sh, w, s0, s, open, edge, input);
        }
        if loose {
          LooseSource(sh, w, s0, s, open, edge, input);
        }
      }
    }

    /** Whether an output of `edge` has to be made again, given its newest input. */
    method RecomputeOutputsDirty(edge: Edge, recent: Node?) returns (dirty: bool)
      requires Linked() && edge in sh.edges && (recent != null ==> recent in sh.nodes && recent in s.known)
      modifies this`s, sh.nodes`mtime
      ensures Linked() && s == old(s).(known := s.known)
      ensures old(s).known <= s.known <= old(s).known + NodesIn(sh.Outs(edge))
      ensures MostRecentOf(w, sh.Regular(edge), recent) ==> dirty == Stale(sh, w.Times(), w.log, edge)
    {
      hide OutputStale, Newest, Stale, NoneStale, MostRecentOf, Shape.WellFormed, Shape.Flagged, Shape.Regular;
      LinkedNodes(sh, edge);
      ghost var s0 := s;
      NothingStale(edge, recent);
      var newest := if recent == null then None else Some(recent.mtime);
      var outputs := sh.Outs(edge);
      for i := 0 to |outputs|
        invariant Linked() && s == s0.(known := s.known) && s0.known <= s.known <= s0.known + NodesIn(outputs)
        invariant NoneStale(edge, newest, outputs[..i])
      {
        OneMoreFresh(edge, newest, outputs, i);
        var examined := StatIfNecessary(outputs[i]);
        if OutputStale(edge, sh.Ins(edge) == [], newest, outputs[i].path, outputs[i].mtime, w.log) {
          SomeStale(edge, recent, outputs[i]);
          return true;
        }
      }
      assert outputs[..|outputs|] == outputs;
      AllFresh(edge, recent);
      return false;
    }

    /** None of these outputs is out of date, given the time of the newest input. */
    ghost predicate NoneStale(edge: Edge, newest: Option<int>, outputs: seq<Node>)
    {
      forall o :: o in outputs ==>
        o in w.disk && !OutputStale(edge, sh.Ins(edge) == [], newest, o.path, w.disk[o], w.log)
    }

    lemma NothingStale(edge: Edge, recent: Node?)
      ensures forall newest :: NoneStale(edge, newest, [])
    {}

    lemma OneMoreFresh(edge: Edge, newest: Option<int>, outputs: seq<Node>, i: nat)
      requires i < |outputs| && outputs[i] in w.disk && NoneStale(edge, newest, outputs[..i])
      ensures !OutputStale(edge, sh.Ins(edge) == [], newest, outputs[i].path, w.disk[outputs[i]], w.log) ==>
        NoneStale(edge, newest, outputs[..i + 1])
    {
      hide OutputStale;
      assert forall o :: o in outputs[..i + 1] <==> o in outputs[..i] || o == outputs[i];
    }

    lemma SomeStale(edge: Edge, recent: Node?, o: Node)
      requires Linked() && edge in sh.edges && (recent != null ==> recent in sh.nodes && recent in s.known)
      requires o in sh.Outs(edge) && o in w.disk
      requires OutputStale(edge, sh.Ins(edge) == [], if recent == null then None else Some(recent.mtime), o.path,
                           w.disk[o], w.log)
      ensures MostRecentOf(w, sh.Regular(edge), recent) ==> Stale(sh, w.Times(), w.log, edge)
    {
      hide OutputStale, Newest, Shape.WellFormed, Shape.Flagged, Shape.Regular;
    }

    lemma AllFresh(edge: Edge, recent: Node?)
      requires Linked() && edge in sh.edges && (recent != null ==> recent in sh.nodes && recent in s.known)
      requires NoneStale(edge, if recent == null then None else Some(recent.mtime), sh.Outs(edge))
      ensures MostRecentOf(w, sh.Regular(edge), recent) ==> !Stale(sh, w.Times(), w.log, edge)
    {
      hide OutputStale, Newest, Shape.WellFormed, Shape.Flagged, Shape.Regular;
    }

    /** The loop that marks the outputs as visited, and as dirty if `edge` is. */
    method MarkOutputs(edge: Edge, dirty: bool)
      requires Linked() && edge in sh.edges
      modifies this`s, sh.nodes`mtime, sh.nodes`dirty
      ensures Linked()
      ensures s == old(s).(known := old(s).known + NodesIn(sh.Outs(edge)),
                           dirty := if dirty then old(s).dirty + NodesIn(sh.Outs(edge)) else old(s).dirty)
    {
      hide Shape.WellFormed, Shape.Flagged;
      LinkedNodes(sh, edge);
      ghost var s0 := s;
      var outputs := sh.Outs(edge);
      for i := 0 to |outputs|
        invariant Linked()
        invariant s == s0.(known := s0.known + NodesIn(outputs[..i]),
                           dirty := if dirty then s0.dirty + NodesIn(outputs[..i]) else s0.dirty)
      {
        var examined := StatIfNecessary(outputs[i]);
        if dirty {
          SetDirty(outputs[i], true);
        }
        NodesInPrefix(outputs, i);
      }
      assert outputs[..|outputs|] == outputs;
    }
  }
}
