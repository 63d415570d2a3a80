// What the daemon can rely on when files change after a scan or a build (src/daemon.cc).

module Rebuild {
  import opened Graph
  import opened PlanModel
  import opened Staleness
  import opened Scan
  import B = Build
  import opened Marking

  /** What was scanned holds with an edge the edges that make its inputs. */
  lemma ScannedIsRegion(sh: Shape, w: World, s: ScanState)
    requires Right(sh, w, s, {})
    ensures Region(sh, s.scanned)
  {
    hide RightEdge, RightNode, NodeDirty;
    forall e | e in s.scanned ensures e in sh.edges && sh.Prods(e) <= s.scanned {
      assert Covered(sh, w, s, e);
    }
  }

  /** A scan leaves nothing to be marked if every edge that is not ready is itself out of date, and
      does not merely wait for an order-only input. */
  lemma ScanIsMarked(sh: Shape, w: World, s: ScanState)
    requires sh.WellFormed() && Right(sh, w, s, {})
    requires forall e :: e in s.scanned && e !in s.done ==> EdgeDirty(sh, w, e)
    ensures Marked(sh, s.scanned, Marks(s.dirty, s.done), {})
  {
    hide Right, EdgeDirty, Ahead, Shape.WellFormed, Shape.OutsOf;
    ScannedIsRegion(sh, w, s);
    forall e, n, m | e in s.scanned && e !in s.done && n in sh.Outs(e) && m in sh.OutsOf(s.scanned)
                     && Ahead(sh, n, m, {})
      ensures m in s.dirty
    {
      DirtyAhead(sh, w, s, e, n, m);
    }
  }

  lemma DirtyAhead(sh: Shape, w: World, s: ScanState, e: Edge, n: Node, m: Node)
    requires sh.WellFormed() && Right(sh, w, s, {}) && Region(sh, s.scanned)
    requires e in s.scanned && EdgeDirty(sh, w, e) && n in sh.Outs(e) && m in sh.OutsOf(s.scanned)
    requires Ahead(sh, n, m, {})
    ensures m in s.dirty
  {
    hide EdgeDirty, Shape.WellFormed, Shape.OutsOf, Dependents, Right, Region;
    var path :| AheadPath(sh, path, n, m, {});
    InGraph(sh, w, s, e);
    OutputsDirty(sh, w, e);
    DirtyAlong(sh, w, path, n, m, |path| - 1);
    RegionParts(sh, s.scanned, m);
    MadeInGraph(sh, m);
    ScannedOutput(sh, w, s, sh.producer[m], m);
  }

  lemma InGraph(sh: Shape, w: World, s: ScanState, e: Edge)
    requires Right(sh, w, s, {}) && e in s.scanned
    ensures e in sh.edges
  {
    assert Covered(sh, w, s, e);
  }

  lemma ScannedOutput(sh: Shape, w: World, s: ScanState, e: Edge, o: Node)
    requires Right(sh, w, s, {}) && e in s.scanned && o in sh.Outs(e) && NodeDirty(sh, w, o)
    ensures o in s.dirty
  {
    hide NodeDirty, Blocked, RightNode, Covered;
    assert RightEdge(sh, w, s, e);
  }

  lemma {:induction false} DirtyAlong(sh: Shape, w: World, path: seq<Node>, n: Node, m: Node, k: nat)
    requires sh.WellFormed() && DependsPath(sh, path, n, m) && NodeDirty(sh, w, n) && k < |path|
    ensures NodeDirty(sh, w, path[k])
    decreases k
  {
    hide NodeDirty, Dependents, Shape.WellFormed, Shape.Regular;
    if k > 0 {
      DirtyAlong(sh, w, path, n, m, k - 1);
      DependentIsMade(sh, path[k - 1], path[k]);
      DirtyFurther(sh, w, path[k - 1], path[k]);
    }
  }

  lemma LeadingIsRegion(b: B.Builder, target: Edge)
    requires b.plan.sh.WellFormed()
    ensures Region(b.plan.sh, b.LeadingTo(target))
  {
    hide Reaches, Shape.WellFormed, Shape.Prods;
    var sh := b.plan.sh;
    forall e, p | e in b.LeadingTo(target) && p in sh.Prods(e) ensures p in b.LeadingTo(target) {
      ProducersInGraph(sh, e);
      LeadsThrough(sh, p, e, target);
    }
  }

  lemma LeadsThrough(sh: Shape, p: Edge, e: Edge, target: Edge)
    requires Reaches(sh, e, target) && p in sh.Prods(e)
    ensures p in sh.edges ==> Reaches(sh, p, target)
  {
    hide Shape.Prods;
    var path :| EdgePath(sh, path, e, target);
    if p in sh.edges {
      assert EdgePath(sh, [p] + path, p, target);
    }
  }

  /** After a build that succeeded the daemon marks all that depends on the changed files, as far as it
      leads to the target that was built. */
  method MarkAfterBuild(b: B.Builder, target: Edge, regularOutEdges: map<Node, seq<Edge>>, changedFiles: seq<Node>,
                        ghost rank: Option<map<Edge, nat>>) returns (daemon: Daemon)
    requires b.plan.Linked() && b.LeadingTo(target) <= b.plan.s.done
    requires Daemon.Linking(b.plan.sh, regularOutEdges) && NodesIn(changedFiles) <= b.plan.sh.nodes
    requires if rank.Some? then Ranked(b.plan.sh, b.LeadingTo(target), rank.value)
                                && Harmless(b.plan.sh, b.LeadingTo(target))
             else SingleOutputs(b.plan.sh, b.LeadingTo(target))
    modifies b.plan.sh.nodes`dirty, b.plan.sh.edges`outputsReady
    ensures fresh(daemon) && daemon.sh == b.plan.sh && daemon.Linked()
    ensures Marked(b.plan.sh, b.LeadingTo(target), daemon.s, {})
    ensures forall m :: m in b.plan.sh.OutsOf(b.LeadingTo(target)) * b.plan.sh.nodes ==>
      (m.dirty <==> old(m.dirty) || m in Affected(b.plan.sh, NodesIn(changedFiles)))
  {
    assert b.LeadingTo(target) <= b.plan.sh.edges;
    LeadingIsRegion(b, target);
    hide Markable, Marked, Affected, Shape.OutsOf, Shape.WellFormed, B.Builder.LeadingTo;
    daemon := new Daemon(b.plan.sh, regularOutEdges);
    ghost var region, s0 := b.LeadingTo(target), daemon.s;
    ReadyIsMarked(b.plan.sh, region, daemon.s);
    daemon.MarkChanged(changedFiles, region, rank);
    GrownWithin(b.plan.sh, region, s0, daemon.s, NodesIn(changedFiles));
  }

  lemma GrownWithin(sh: Shape, region: set<Edge>, s: Marks, s': Marks, changed: set<Node>)
    requires Grown(sh, region, s, s', changed)
    ensures forall m :: m in sh.OutsOf(region) ==> (m in s'.dirty <==> m in s.dirty || m in Affected(sh, changed))
  {
    hide Affected, Shape.OutsOf;
  }
}
