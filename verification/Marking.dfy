// How the daemon marks what depends on changed files (MarkNodeDirty and BuildDirtySet in
// src/daemon.cc).

module Marking {
  import opened Graph
  import opened PlanModel

  datatype Marks = Marks(dirty: set<Node>, done: set<Edge>)

  // ----- what should be marked -----

  /** The outputs of the edges that use `n` as an input that is not order-only. */
  ghost function Dependents(sh: Shape, n: Node): set<Node>
  {
    set c, o | c in sh.edges && n in sh.Regular(c) && o in sh.Outs(c) :: o
  }

  ghost predicate DependsPath(sh: Shape, older path: seq<Node>, n: Node, m: Node)
  {
    && path != [] && path[0] == n && path[|path| - 1] == m
    && (forall k :: 0 <= k < |path| ==> path[k] in sh.nodes)
    && (forall k :: 0 < k < |path| ==> path[k] in Dependents(sh, path[k - 1]))
  }

  /** `m` is `n`, or is made directly or indirectly from `n`. */
  ghost predicate Depends(sh: Shape, n: Node, m: Node)
  {
    exists path :: DependsPath(sh, path, n, m)
  }

  ghost function Affected(sh: Shape, changed: set<Node>): set<Node>
  {
    set n, m | n in changed && m in sh.nodes && Depends(sh, n, m) :: m
  }

  /** `m` is made from `n` along a path that leaves no node of `pending`. */
  ghost predicate AheadPath(sh: Shape, older path: seq<Node>, n: Node, m: Node, pending: set<Node>)
  {
    DependsPath(sh, path, n, m) && |path| > 1 && forall k :: 0 <= k < |path| - 1 ==> path[k] !in pending
  }

  ghost predicate Ahead(sh: Shape, n: Node, m: Node, pending: set<Node>)
  {
    exists path :: AheadPath(sh, path, n, m, pending)
  }

  /** A part of the graph that holds with an edge the edges that make its inputs. */
  ghost predicate Region(sh: Shape, region: set<Edge>)
  {
    region <= sh.edges && forall e :: e in region ==> sh.Prods(e) <= region
  }

  /** Within `region`, all that is made from an output of an edge that is not ready is marked, except
      behind the nodes of `pending`. Where all edges are ready, as after a build, there is no such thing. */
  ghost predicate Marked(sh: Shape, region: set<Edge>, s: Marks, pending: set<Node>)
  {
    forall e, n, m ::
      e in region && e !in s.done && n in sh.Outs(e) && m in sh.OutsOf(region) && Ahead(sh, n, m, pending) ==>
        m in s.dirty
  }

  /** Whatever is made from one output of an edge is made from each other one too. */
  ghost predicate Harmless(sh: Shape, region: set<Edge>)
  {
    forall e, a, b, m ::
      e in region && a in sh.Outs(e) && b in sh.Outs(e) && m in Dependents(sh, b) && m in sh.OutsOf(region) ==>
        Depends(sh, a, m)
  }

  ghost predicate SingleOutputs(sh: Shape, region: set<Edge>)
  {
    forall e :: e in region ==> |sh.Outs(e)| == 1
  }

  /** Where marking is right: where edges have one output, on cycles too, and of the parts with an
      order in the harmless ones. */
  ghost predicate Markable(sh: Shape, region: set<Edge>, rank: Option<map<Edge, nat>>)
  {
    Region(sh, region) &&
    if rank.Some? then Ranked(sh, region, rank.value) && Harmless(sh, region) else SingleOutputs(sh, region)
  }

  /** The nodes of `pending` are upstream of `e`. */
  ghost predicate Upstream(sh: Shape, rank: Option<map<Edge, nat>>, pending: set<Node>, e: Edge)
  {
    && (rank.Some? ==> e in rank.value)
    && (rank.Some? ==> forall n :: n in pending && n in sh.producer ==>
      sh.producer[n] in rank.value && rank.value[sh.producer[n]] < rank.value[e])
  }

  lemma DependsItself(sh: Shape, n: Node)
    requires n in sh.nodes
    ensures Depends(sh, n, n)
  {
    assert DependsPath(sh, [n], n, n);
  }

  lemma DependsInGraph(sh: Shape, n: Node, m: Node)
    requires Depends(sh, n, m)
    ensures m in sh.nodes
  {}

  lemma DependsFirst(sh: Shape, n: Node, d: Node, m: Node)
    requires n in sh.nodes && d in Dependents(sh, n) && Depends(sh, d, m)
    ensures Depends(sh, n, m)
  {
    var path :| DependsPath(sh, path, d, m);
    assert DependsPath(sh, [n] + path, n, m);
  }

  lemma MadeInGraph(sh: Shape, n: Node)
    requires sh.WellFormed() && n in sh.producer
    ensures sh.producer[n] in sh.edges && n in sh.Outs(sh.producer[n]) && n in sh.nodes
  {}

  lemma DependentIsMade(sh: Shape, n: Node, d: Node)
    requires sh.WellFormed() && d in Dependents(sh, n)
    ensures d in sh.producer && d in sh.nodes && sh.producer[d] in sh.edges && n in sh.Regular(sh.producer[d])
    ensures d in sh.Outs(sh.producer[d])
    ensures n in sh.producer ==> sh.producer[n] in sh.Prods(sh.producer[d])
  {
    hide Shape.WellFormed, Shape.Regular, Shape.Prods;
    var c :| c in sh.edges && n in sh.Regular(c) && d in sh.Outs(c);
    LinkedNodes(sh, c);
    if n in sh.producer {
      RegularIsInputOf(sh, c, n);
      ProdsOf(sh, c, n);
    }
  }

  lemma RegularIsInputOf(sh: Shape, e: Edge, n: Node)
    requires n in sh.Regular(e)
    ensures n in sh.Ins(e)
  {}

  lemma IsOutput(sh: Shape, region: set<Edge>, m: Node)
    requires sh.WellFormed() && region <= sh.edges
    ensures m in sh.OutsOf(region) <==> m in sh.producer && sh.producer[m] in region
  {
    if m in sh.producer {
      MadeInGraph(sh, m);
    }
  }

  // ----- paths within a region -----

  /** What leads to a region along producers lies in it. */
  lemma {:induction false} LeadsInto(sh: Shape, region: set<Edge>, path: seq<Node>, n: Node, m: Node, k: nat)
    requires sh.WellFormed() && Region(sh, region) && DependsPath(sh, path, n, m) && k < |path|
    requires m in sh.producer && sh.producer[m] in region && path[k] in sh.producer
    ensures sh.producer[path[k]] in region
    decreases |path| - k
  {
    hide Shape.WellFormed, Dependents, Shape.Prods;
    if k < |path| - 1 {
      DependentIsMade(sh, path[k], path[k + 1]);
      LeadsInto(sh, region, path, n, m, k + 1);
    }
  }

  /** Along a path the ranks of the edges rise. */
  lemma {:induction false} Downstream(sh: Shape, region: set<Edge>, rank: map<Edge, nat>, path: seq<Node>, n: Node,
                                      m: Node, k: nat)
    requires sh.WellFormed() && Region(sh, region) && Ranked(sh, region, rank) && DependsPath(sh, path, n, m)
    requires k < |path|
    requires m in sh.producer && sh.producer[m] in region && n in sh.producer
    ensures path[k] in sh.producer && sh.producer[n] in rank && sh.producer[path[k]] in rank
    ensures rank[sh.producer[n]] + k <= rank[sh.producer[path[k]]]
    decreases k
  {
    hide Shape.WellFormed, Dependents, Shape.Prods;
    if k > 0 {
      Downstream(sh, region, rank, path, n, m, k - 1);
      DependentIsMade(sh, path[k - 1], path[k]);
      LeadsInto(sh, region, path, n, m, k);
    } else {
      LeadsInto(sh, region, path, n, m, 0);
    }
  }

  lemma AheadOfFewer(sh: Shape, n: Node, m: Node, pending: set<Node>, pending': set<Node>)
    requires Ahead(sh, n, m, pending) && pending' <= pending
    ensures Ahead(sh, n, m, pending')
  {
    hide DependsPath;
    var path :| AheadPath(sh, path, n, m, pending);
    assert AheadPath(sh, path, n, m, pending');
  }

  lemma AheadDepends(sh: Shape, n: Node, m: Node)
    requires n in sh.nodes && Depends(sh, n, m) && m != n
    ensures Ahead(sh, n, m, {})
  {
    hide Dependents;
    var path :| DependsPath(sh, path, n, m);
    assert AheadPath(sh, path, n, m, {});
  }

  lemma TailPath(sh: Shape, path: seq<Node>, n: Node, m: Node, k: nat)
    requires DependsPath(sh, path, n, m) && k < |path|
    ensures DependsPath(sh, path[k..], path[k], m)
  {
    hide Dependents;
  }

  lemma JoinedPath(sh: Shape, a: seq<Node>, b: seq<Node>, n: Node, d: Node, m: Node)
    requires DependsPath(sh, a, n, d) && DependsPath(sh, b, d, m)
    ensures DependsPath(sh, a + b[1..], n, m)
  {
    hide Dependents;
    var c := a + b[1..];
    forall k | 0 <= k < |c| ensures c[k] == if k < |a| then a[k] else b[k - |a| + 1] {}
    assert |b| == 1 ==> c[|c| - 1] == a[|a| - 1];
  }

  /** What was visited: all dependents are dirty and their edges not ready. */
  ghost predicate Visited(sh: Shape, s: Marks, n: Node)
  {
    forall d :: d in Dependents(sh, n) ==> d in s.dirty && d in sh.producer && sh.producer[d] !in s.done
  }

  /** Behind a visited node everything is marked that a path without pending nodes leads to. */
  lemma BehindVisited(sh: Shape, region: set<Edge>, s: Marks, pending: set<Node>, path: seq<Node>, n: Node, m: Node)
    requires sh.WellFormed() && Region(sh, region) && Marked(sh, region, s, pending) && Visited(sh, s, n)
    requires DependsPath(sh, path, n, m) && |path| > 1 && m in sh.OutsOf(region)
    requires forall k :: 1 <= k < |path| - 1 ==> path[k] !in pending
    ensures m in s.dirty
  {
    hide Shape.WellFormed, Dependents, Shape.OutsOf, Region;
    var d := path[1];
    assert d in Dependents(sh, n);
    if |path| > 2 {
      RegionParts(sh, region, m);
      LeadsInto(sh, region, path, n, m, 1);
      MadeInGraph(sh, d);
      TailPath(sh, path, n, m, 1);
      assert AheadPath(sh, path[1..], d, m, pending);
    }
  }

  lemma RegionParts(sh: Shape, region: set<Edge>, m: Node)
    requires sh.WellFormed() && Region(sh, region)
    ensures m in sh.OutsOf(region) <==> m in sh.producer && sh.producer[m] in region
  {
    IsOutput(sh, region, m);
  }

  /** The last node on a path, but for its end, that is among `nodes`. */
  lemma {:induction false} LastAmong(path: seq<Node>, nodes: set<Node>, from: nat) returns (k: nat)
    requires from < |path| - 1 && path[from] in nodes
    ensures from <= k < |path| - 1 && path[k] in nodes && forall j :: k < j < |path| - 1 ==> path[j] !in nodes
    decreases |path| - from
  {
    if j :| from < j < |path| - 1 && path[j] in nodes {
      k := LastAmong(path, nodes, j);
    } else {
      k := from;
    }
  }

  /** Once what is made from output `n` of `e` was visited, nothing is left to do behind `e`. */
  lemma CloseOutput(sh: Shape, region: set<Edge>, s: Marks, rank: Option<map<Edge, nat>>, pending: set<Node>, n: Node)
    requires sh.WellFormed() && Markable(sh, region, rank) && n in sh.producer
    requires sh.producer[n] in region ==> Upstream(sh, rank, pending, sh.producer[n])
    requires Marked(sh, region, s, pending + NodesIn(sh.Outs(sh.producer[n]))) && Visited(sh, s, n)
    ensures Marked(sh, region, s, pending)
  {
    hide Shape.WellFormed, Dependents, Visited, Ahead, Region, Harmless, SingleOutputs, Shape.OutsOf;
    forall e, o, m | e in region && e !in s.done && o in sh.Outs(e) && m in sh.OutsOf(region)
                     && Ahead(sh, o, m, pending)
      ensures m in s.dirty
    {
      CloseAlong(sh, region, s, rank, pending, n, e, o, m);
    }
  }

  lemma CloseAlong(sh: Shape, region: set<Edge>, s: Marks, rank: Option<map<Edge, nat>>, pending: set<Node>, n: Node,
                   e: Edge, o: Node, m: Node)
    requires sh.WellFormed() && Markable(sh, region, rank) && n in sh.producer
    requires sh.producer[n] in region ==> Upstream(sh, rank, pending, sh.producer[n])
    requires Marked(sh, region, s, pending + NodesIn(sh.Outs(sh.producer[n]))) && Visited(sh, s, n)
    requires e in region && e !in s.done && o in sh.Outs(e) && m in sh.OutsOf(region) && Ahead(sh, o, m, pending)
    ensures m in s.dirty
  {
    hide Shape.WellFormed, Dependents, Visited, Region, Harmless, SingleOutputs, Shape.OutsOf, Upstream;
    var edge := sh.producer[n];
    var siblings := NodesIn(sh.Outs(edge));
    var path :| AheadPath(sh, path, o, m, pending);
    if i :| 0 <= i < |path| - 1 && path[i] in siblings {
      var k := LastAmong(path, siblings, i);
      TailPath(sh, path, o, m, k);
      Sibling(sh, region, path[k], n);
      RegionParts(sh, region, m);
      LeadsInto(sh, region, path, o, m, k);
      BehindSibling(sh, region, s, rank, pending, n, path[k..], path[k], m);
    } else {
      assert AheadPath(sh, path, o, m, pending + siblings);
    }
  }

  lemma Sibling(sh: Shape, region: set<Edge>, b: Node, n: Node)
    requires sh.WellFormed() && n in sh.producer && b in NodesIn(sh.Outs(sh.producer[n]))
    ensures b in sh.producer && sh.producer[b] == sh.producer[n] && b in sh.Outs(sh.producer[n])
  {
    MadeInGraph(sh, n);
    LinkedNodes(sh, sh.producer[n]);
  }

  /** The way from an output of the edge of `n` that meets no further one. */
  lemma BehindSibling(sh: Shape, region: set<Edge>, s: Marks, rank: Option<map<Edge, nat>>, pending: set<Node>, n: Node,
                      path: seq<Node>, b: Node, m: Node)
    requires sh.WellFormed() && Markable(sh, region, rank) && n in sh.producer && sh.producer[n] in region
    requires Upstream(sh, rank, pending, sh.producer[n])
    requires Marked(sh, region, s, pending + NodesIn(sh.Outs(sh.producer[n]))) && Visited(sh, s, n)
    requires b in sh.Outs(sh.producer[n]) && m in sh.OutsOf(region) && AheadPath(sh, path, b, m, pending)
    requires forall j :: 0 < j < |path| - 1 ==> path[j] !in NodesIn(sh.Outs(sh.producer[n]))
    ensures m in s.dirty
  {
    hide Shape.WellFormed, Dependents, Visited, Harmless, SingleOutputs, Shape.OutsOf, Upstream, Marked, Region;
    MadeInGraph(sh, n);
    assert b in NodesIn(sh.Outs(sh.producer[n]));
    Sibling(sh, region, b, n);
    if rank.None? {
      OnlyOne(sh, region, sh.producer[n], b, n);
      BehindVisited(sh, region, s, pending + NodesIn(sh.Outs(sh.producer[n])), path, n, m);
    } else {
      var around := Around(sh, region, rank.value, n, path, b, m);
      LaterNodes(sh, region, rank.value, pending, n, around, m);
      BehindVisited(sh, region, s, pending + NodesIn(sh.Outs(sh.producer[n])), around, n, m);
    }
  }

  lemma OnlyOne(sh: Shape, region: set<Edge>, e: Edge, a: Node, b: Node)
    requires SingleOutputs(sh, region) && e in region && a in sh.Outs(e) && b in sh.Outs(e)
    ensures a == b
  {
    assert |sh.Outs(e)| == 1;
  }

  /** What is made from a sibling of `n` is made from `n`. */
  lemma Around(sh: Shape, region: set<Edge>, rank: map<Edge, nat>, n: Node, path: seq<Node>, b: Node, m: Node)
    returns (around: seq<Node>)
    requires sh.WellFormed() && Region(sh, region) && Ranked(sh, region, rank) && Harmless(sh, region)
    requires n in sh.producer && sh.producer[n] in region && b in sh.producer && sh.producer[b] == sh.producer[n]
    requires n in sh.Outs(sh.producer[n]) && b in sh.Outs(sh.producer[n])
    requires DependsPath(sh, path, b, m) && |path| > 1 && m in sh.OutsOf(region)
    ensures DependsPath(sh, around, n, m) && |around| > 1
  {
    hide Shape.WellFormed, Dependents, Shape.OutsOf, Region, Ranked;
    var d := path[1];
    assert d in Dependents(sh, b);
    DependentIsMade(sh, b, d);
    RegionParts(sh, region, m);
    RegionParts(sh, region, d);
    LeadsInto(sh, region, path, b, m, 1);
    Downstream(sh, region, rank, path, b, m, 1);
    assert Depends(sh, n, d);
    var first :| DependsPath(sh, first, n, d);
    TailPath(sh, path, b, m, 1);
    JoinedPath(sh, first, path[1..], n, d, m);
    around := first + path[1..][1..];
  }

  /** All nodes on a path from `n`, after the first, are later than `n` and than what is pending. */
  lemma LaterNodes(sh: Shape, region: set<Edge>, rank: map<Edge, nat>, pending: set<Node>, n: Node, path: seq<Node>,
                   m: Node)
    requires sh.WellFormed() && Region(sh, region) && Ranked(sh, region, rank) && n in sh.producer
    requires sh.producer[n] in region
    requires Upstream(sh, Some(rank), pending, sh.producer[n]) && DependsPath(sh, path, n, m) && m in sh.OutsOf(region)
    ensures forall k :: 1 <= k < |path| ==> path[k] !in pending + NodesIn(sh.Outs(sh.producer[n]))
  {
    hide Shape.WellFormed, Dependents, Shape.OutsOf, Region, Ranked;
    RegionParts(sh, region, m);
    MadeInGraph(sh, n);
    LinkedNodes(sh, sh.producer[n]);
    forall k | 1 <= k < |path| ensures path[k] !in pending + NodesIn(sh.Outs(sh.producer[n])) {
      Downstream(sh, region, rank, path, n, m, k);
    }
  }

  /** What marking from `n` does: nodes made from `n` become dirty, their edges lose readiness. */
  ghost predicate MarkedFrom(sh: Shape, s: Marks, s': Marks, n: Node)
  {
    && s.dirty <= s'.dirty && s'.done <= s.done
    && (forall m :: m in s'.dirty && m !in s.dirty ==>
      Depends(sh, n, m) && (m in sh.producer ==> sh.producer[m] !in s'.done))
    && (forall e :: e in s.done && e !in s'.done ==> exists m :: m in sh.Outs(e) && Depends(sh, n, m))
  }

  lemma MarkedFromTransitive(sh: Shape, s0: Marks, s1: Marks, s2: Marks, n: Node)
    requires MarkedFrom(sh, s0, s1, n) && MarkedFrom(sh, s1, s2, n)
    ensures MarkedFrom(sh, s0, s2, n)
  {
    hide Depends;
  }

  lemma MarkedFromDependent(sh: Shape, s: Marks, s': Marks, n: Node, d: Node)
    requires n in sh.nodes && d in Dependents(sh, n) && MarkedFrom(sh, s, s', d)
    ensures MarkedFrom(sh, s, s', n)
  {
    hide Depends, Dependents;
    forall m | Depends(sh, d, m) ensures Depends(sh, n, m) {
      DependsFirst(sh, n, d, m);
    }
  }

  /** The first step of a visit of `n`. */
  lemma MarkFirst(sh: Shape, region: set<Edge>, s: Marks, s': Marks, pending: set<Node>, n: Node)
    requires sh.WellFormed() && n in sh.nodes
    requires s' ==
      if n in sh.producer then Marks(s.dirty + {n}, s.done - {sh.producer[n]}) else s.(dirty := s.dirty + {n})
    ensures MarkedFrom(sh, s, s', n)
    ensures Marked(sh, region, s, pending) ==> Marked(sh, region, s', pending + Behind(sh, n))
    ensures Marked(sh, region, s, pending) && n in sh.producer && sh.producer[n] !in s.done ==>
      Marked(sh, region, s', pending)
  {
    hide Depends, Dependents, Ahead, Shape.WellFormed, Shape.OutsOf;
    DependsItself(sh, n);
    if n in sh.producer {
      MadeInGraph(sh, n);
    }
    if Marked(sh, region, s, pending) {
      StillMarked(sh, region, s, s', pending, n);
    }
  }

  lemma StillMarked(sh: Shape, region: set<Edge>, s: Marks, s': Marks, pending: set<Node>, n: Node)
    requires Marked(sh, region, s, pending) && s.dirty <= s'.dirty
    requires s'.done == if n in sh.producer then s.done - {sh.producer[n]} else s.done
    ensures Marked(sh, region, s', pending + Behind(sh, n))
  {
    hide AheadPath, Shape.OutsOf;
    forall e, o, m | e in region && e !in s'.done && o in sh.Outs(e) && m in sh.OutsOf(region)
                     && Ahead(sh, o, m, pending + Behind(sh, n))
      ensures m in s'.dirty
    {
      AheadOfFewer(sh, o, m, pending + Behind(sh, n), pending);
      StartsFree(sh, o, m, pending + Behind(sh, n));
      assert n in sh.producer && e == sh.producer[n] ==> o in Behind(sh, n);
    }
  }

  lemma StartsFree(sh: Shape, n: Node, m: Node, pending: set<Node>)
    requires Ahead(sh, n, m, pending)
    ensures n !in pending
  {
    hide Dependents;
    var path :| AheadPath(sh, path, n, m, pending);
    assert path[0] !in pending;
  }

  /** The nodes that are pending while `n` is visited. */
  ghost function Behind(sh: Shape, n: Node): set<Node>
  {
    if n in sh.producer then NodesIn(sh.Outs(sh.producer[n])) else {}
  }

  /** What the visit of `n` may rely on with these nodes pending. */
  ghost predicate MayVisit(sh: Shape, region: set<Edge>, s: Marks, rank: Option<map<Edge, nat>>, pending: set<Node>,
                           n: Node)
  {
    Marked(sh, region, s, pending) && Placed(sh, region, rank, pending, n)
  }

  ghost predicate Placed(sh: Shape, region: set<Edge>, rank: Option<map<Edge, nat>>, pending: set<Node>, n: Node)
  {
    if n !in sh.producer then pending == {}
    else sh.producer[n] in region ==> Upstream(sh, rank, pending, sh.producer[n])
  }

  lemma PlacedDependent(sh: Shape, region: set<Edge>, rank: Option<map<Edge, nat>>, pending: set<Node>, n: Node,
                        d: Node)
    requires sh.WellFormed() && Markable(sh, region, rank) && Placed(sh, region, rank, pending, n)
    requires d in Dependents(sh, n)
    ensures Placed(sh, region, rank, pending + Behind(sh, n), d)
  {
    hide Shape.WellFormed, Dependents, Shape.Prods, Harmless, SingleOutputs;
    DependentIsMade(sh, n, d);
    if rank.Some? && n in sh.producer && sh.producer[d] in region {
      assert sh.producer[n] in region;
      MadeInGraph(sh, n);
      LinkedNodes(sh, sh.producer[n]);
    }
  }

  /** Between the visits of what depends on `n`. */
  ghost predicate Visiting(sh: Shape, region: set<Edge>, s: Marks, rank: Option<map<Edge, nat>>, pending: set<Node>,
                           n: Node)
  {
    Marked(sh, region, s, pending + Behind(sh, n)) && Placed(sh, region, rank, pending, n)
  }

  /** The last step of a visit of `n`. */
  lemma MarkLast(sh: Shape, region: set<Edge>, s: Marks, rank: Option<map<Edge, nat>>, pending: set<Node>, n: Node)
    requires sh.WellFormed() && Markable(sh, region, rank) && Visiting(sh, region, s, rank, pending, n)
    requires Visited(sh, s, n)
    ensures Marked(sh, region, s, pending)
  {
    hide Visited, Marked, Markable, Shape.WellFormed;
    if n in sh.producer {
      CloseOutput(sh, region, s, rank, pending, n);
    } else {
      assert pending + Behind(sh, n) == pending;
    }
  }

  lemma OutputDepends(sh: Shape, n: Node, e: Edge, o: Node)
    requires e in sh.edges && n in sh.Regular(e) && o in sh.Outs(e)
    ensures o in Dependents(sh, n)
  {}

  lemma EnterDependent(sh: Shape, region: set<Edge>, s: Marks, rank: Option<map<Edge, nat>>, pending: set<Node>,
                       n: Node, d: Node)
    requires sh.WellFormed() && Markable(sh, region, rank) && Visiting(sh, region, s, rank, pending, n)
    requires d in Dependents(sh, n)
    ensures MayVisit(sh, region, s, rank, pending + Behind(sh, n), d)
  {
    hide Shape.WellFormed, Dependents, Markable, Marked, Placed, Behind;
    PlacedDependent(sh, region, rank, pending, n, d);
  }

  lemma LeaveDependent(sh: Shape, region: set<Edge>, s: Marks, s': Marks, rank: Option<map<Edge, nat>>,
                       pending: set<Node>, n: Node)
    requires Visiting(sh, region, s, rank, pending, n) && Marked(sh, region, s', pending + Behind(sh, n))
    ensures Visiting(sh, region, s', rank, pending, n)
  {
    hide Marked, Placed, Behind;
  }

  lemma MarkedFromNothing(sh: Shape, s: Marks, n: Node)
    ensures MarkedFrom(sh, s, s, n)
  {}

  lemma MarkedFromGrows(sh: Shape, s: Marks, s': Marks, n: Node)
    requires MarkedFrom(sh, s, s', n)
    ensures s.dirty <= s'.dirty && s'.done <= s.done
  {}

  /** The nodes of `nodes` were visited: they are dirty and their edges are not ready. */
  ghost predicate AllMarked(sh: Shape, s: Marks, nodes: set<Node>)
  {
    forall n :: n in nodes ==> n in s.dirty && n in sh.producer && sh.producer[n] !in s.done
  }

  lemma StillAllMarked(sh: Shape, s: Marks, s': Marks, n: Node, nodes: set<Node>)
    requires AllMarked(sh, s, nodes) && MarkedFrom(sh, s, s', n)
    ensures AllMarked(sh, s', nodes)
  {}

  lemma AllDependents(sh: Shape, s: Marks, n: Node, outEdges: seq<Edge>)
    requires forall e :: e in sh.edges && n in sh.Regular(e) ==> e in outEdges
    requires forall c :: c in outEdges ==> AllMarked(sh, s, NodesIn(sh.Outs(c)))
    ensures Visited(sh, s, n)
  {
    hide Shape.Regular;
    forall d | d in Dependents(sh, n) ensures d in s.dirty && d in sh.producer && sh.producer[d] !in s.done {
      var c :| c in sh.edges && n in sh.Regular(c) && d in sh.Outs(c);
      assert d in NodesIn(sh.Outs(c)) && AllMarked(sh, s, NodesIn(sh.Outs(c)));
    }
  }

  lemma NothingAffected(sh: Shape)
    ensures Affected(sh, {}) == {} && NodesIn([]) == {}
  {}

  lemma NothingPending(sh: Shape, region: set<Edge>, s: Marks, rank: Option<map<Edge, nat>>, n: Node)
    requires sh.WellFormed() && Markable(sh, region, rank) && Marked(sh, region, s, {})
    ensures MayVisit(sh, region, s, rank, {}, n)
  {
    hide Marked, Harmless, SingleOutputs;
  }

  /** All that a single visit changes. */
  lemma AffectedPlus(sh: Shape, region: set<Edge>, s: Marks, s': Marks, n: Node)
    requires sh.WellFormed() && Region(sh, region) && MarkedFrom(sh, s, s', n) && n in s'.dirty && n in sh.nodes
    requires Marked(sh, region, s', {})
    requires if n in sh.producer then sh.producer[n] !in s'.done else Visited(sh, s', n)
    ensures Grown(sh, region, s, s', {n})
  {
    hide Marked, Depends, Dependents, Visited, Shape.WellFormed, Shape.OutsOf, Region;
    forall m | m in Affected(sh, {n}) && m in sh.OutsOf(region) ensures m in s'.dirty {
      if m != n {
        Reached(sh, region, s', n, m);
      }
    }
    forall m | m in s'.dirty && m !in s.dirty ensures m in Affected(sh, {n}) {
      DependsInGraph(sh, n, m);
    }
    forall e | e in s.done && e !in s'.done ensures exists m :: m in sh.Outs(e) && m in Affected(sh, {n}) {
      var m :| m in sh.Outs(e) && Depends(sh, n, m);
      DependsInGraph(sh, n, m);
      assert m in Affected(sh, {n});
    }
  }

  lemma Reached(sh: Shape, region: set<Edge>, s: Marks, n: Node, m: Node)
    requires sh.WellFormed() && Region(sh, region) && Marked(sh, region, s, {}) && n in sh.nodes
    requires if n in sh.producer then sh.producer[n] !in s.done else Visited(sh, s, n)
    requires Depends(sh, n, m) && m != n && m in sh.OutsOf(region)
    ensures m in s.dirty
  {
    hide Dependents, Visited, Shape.WellFormed, Shape.OutsOf, Region, Marked;
    var path :| DependsPath(sh, path, n, m);
    if n in sh.producer {
      RegionParts(sh, region, m);
      LeadsInto(sh, region, path, n, m, 0);
      MadeInGraph(sh, n);
      AheadDepends(sh, n, m);
      ByMarked(sh, region, s, sh.producer[n], n, m);
    } else {
      BehindVisited(sh, region, s, {}, path, n, m);
    }
  }

  lemma ByMarked(sh: Shape, region: set<Edge>, s: Marks, e: Edge, n: Node, m: Node)
    requires Marked(sh, region, s, {}) && e in region && e !in s.done && n in sh.Outs(e) && m in sh.OutsOf(region)
    requires Ahead(sh, n, m, {})
    ensures m in s.dirty
  {}

  /** From `s` to `s'` the dirty nodes grew by what is made from `changed`: by all of it within `region`
      and by nothing else; and only edges that make some of it lost their readiness. */
  ghost predicate Grown(sh: Shape, region: set<Edge>, s: Marks, s': Marks, changed: set<Node>)
  {
    && s.dirty + changed <= s'.dirty <= s.dirty + Affected(sh, changed) && s'.done <= s.done
    && Affected(sh, changed) * sh.OutsOf(region) <= s'.dirty
    && (forall m :: m in s'.dirty && m !in s.dirty && m in sh.producer ==> sh.producer[m] !in s'.done)
    && (forall e :: e in s.done && e !in s'.done ==> exists m :: m in sh.Outs(e) && m in Affected(sh, changed))
  }

  lemma GrownNot(sh: Shape, region: set<Edge>, s: Marks)
    ensures Grown(sh, region, s, s, {})
  {
    NothingAffected(sh);
  }

  lemma GrownTransitive(sh: Shape, region: set<Edge>, s0: Marks, s1: Marks, s2: Marks, a: set<Node>, b: set<Node>)
    requires Grown(sh, region, s0, s1, a) && Grown(sh, region, s1, s2, b)
    ensures Grown(sh, region, s0, s2, a + b)
  {
    hide Affected, Shape.OutsOf;
    AffectedUnion(sh, a, b);
    forall e | e in s0.done && e !in s2.done ensures exists m :: m in sh.Outs(e) && m in Affected(sh, a + b) {
      var m :| m in sh.Outs(e) && m in if e in s1.done then Affected(sh, b) else Affected(sh, a);
      assert m in Affected(sh, a + b);
    }
  }

  lemma AffectedUnion(sh: Shape, a: set<Node>, b: set<Node>)
    ensures Affected(sh, a + b) == Affected(sh, a) + Affected(sh, b)
  {
    hide Depends;
  }

  /** In a part of the graph with an order that is not harmless, something can be overlooked. */
  lemma HarmfulPair(sh: Shape, region: set<Edge>, rank: map<Edge, nat>) returns (e: Edge, a: Node, b: Node, m: Node)
    requires sh.WellFormed() && Region(sh, region) && Ranked(sh, region, rank) && !Harmless(sh, region)
    ensures e in region && a in sh.Outs(e) && b in sh.Outs(e) && a != b && m in sh.OutsOf(region)
    ensures m in Dependents(sh, b) && !Depends(sh, a, m) && m != b
  {
    hide Shape.WellFormed, Dependents, Depends, Shape.Prods, Shape.OutsOf;
    e, a, b, m :| e in region && a in sh.Outs(e) && b in sh.Outs(e) && m in Dependents(sh, b) && m in sh.OutsOf(region)
                  && !Depends(sh, a, m);
    LinkedNodes(sh, e);
    DependentIsMade(sh, b, m);
    RegionParts(sh, region, m);
    DependsItself(sh, m);
    if a == b {
      DependsFirst(sh, a, m, m);
    }
  }

  lemma OnlyDependents(sh: Shape, s: Marks, s': Marks, n: Node, m: Node)
    requires MarkedFrom(sh, s, s', n) && m !in s.dirty && !Depends(sh, n, m)
    ensures m !in s'.dirty
  {
    hide Depends;
  }

  class Daemon {
    const sh: Shape
    const regularOutEdges: map<Node, seq<Edge>>
    ghost var s: Marks

    constructor (sh: Shape, regularOutEdges: map<Node, seq<Edge>>)
      requires sh.WellFormed() && Linking(sh, regularOutEdges)
      ensures this.sh == sh && this.regularOutEdges == regularOutEdges && Linked()
      ensures s == Marks(set n | n in sh.nodes && n.dirty, set e | e in sh.edges && e.outputsReady)
    {
      this.sh, this.regularOutEdges := sh, regularOutEdges;
      s := Marks(set n | n in sh.nodes && n.dirty, set e | e in sh.edges && e.outputsReady);
    }

    /** What `AddOutEdge` keeps: the edges that use a node as an input that is not order-only. */
    static ghost predicate Linking(sh: Shape, regularOutEdges: map<Node, seq<Edge>>)
    {
      && regularOutEdges.Keys == sh.nodes
      && (forall n, e :: n in sh.nodes && e in regularOutEdges[n] ==> e in sh.edges && n in sh.Regular(e))
      && (forall e, n :: e in sh.edges && n in sh.Regular(e) ==> n in sh.nodes && e in regularOutEdges[n])
    }

    ghost predicate Linked()
      reads this, sh.edges, sh.nodes
    {
      sh.WellFormed() && Linking(sh, regularOutEdges) && sh.Flagged(s.done, s.dirty) && s.done <= sh.edges
    }

    method MarkDirty(node: Node)
      requires Linked() && node in sh.nodes
      modifies this`s, node`dirty
      ensures Linked() && s == old(s).(dirty := old(s).dirty + {node})
    {
      hide Shape.WellFormed;
      node.dirty := true;
      s := s.(dirty := s.dirty + {node});
    }

    method SetUnready(edge: Edge)
      requires Linked() && edge in sh.edges
      modifies this`s, edge`outputsReady
      ensures Linked() && s == old(s).(done := old(s).done - {edge})
    {
      hide Shape.WellFormed;
      edge.outputsReady := false;
      s := s.(done := s.done - {edge});
    }

    /** Marks `node` and what is made from it. The recursion ends on every graph, since it goes on
        behind an edge only while the edge is ready. */
    method MarkNodeDirty(node: Node, ghost region: set<Edge>, ghost pending: set<Node>,
                         ghost rank: Option<map<Edge, nat>>)
      requires Linked() && node in sh.nodes
      requires Markable(sh, region, rank) ==> MayVisit(sh, region, s, rank, pending, node)
      modifies this`s, sh.nodes`dirty, sh.edges`outputsReady
      ensures Linked() && MarkedFrom(sh, old(s), s, node) && node in s.dirty
      ensures if node in sh.producer then sh.producer[node] !in s.done else Visited(sh, s, node)
      ensures Markable(sh, region, rank) ==> Marked(sh, region, s, pending)
      ensures node in sh.producer && sh.producer[node] !in old(s).done ==> s == old(s).(dirty := old(s).dirty + {node})
      decreases s.done, if node in sh.producer then 0 else 3
    {
      hide Marked, MarkedFrom, Markable, Dependents, Visited, Placed, Behind, Shape.WellFormed;
      ghost var s0 := s;
      MarkFirst(sh, region, s0, if node in sh.producer then Marks(s0.dirty + {node}, s0.done - {sh.producer[node]})
                                else s0.(dirty := s0.dirty + {node}), pending, node);
      MarkDirty(node);
      if node in sh.producer {
        var inEdge := sh.producer[node];
        MadeInGraph(sh, node);
        if !inEdge.outputsReady {
          assert s0.done - {inEdge} == s0.done;
          return;
        }
        SetUnready(inEdge);
      }
      ghost var s1 := s;
      MarkDependents(node, region, pending, rank);
      MarkedFromTransitive(sh, s0, s1, s, node);
      MarkedFromGrows(sh, s1, s, node);
      if Markable(sh, region, rank) {
        MarkLast(sh, region, s, rank, pending, node);
      }
    }

    /** The loop of `MarkNodeDirty` over the edges that use `node`. */
    method MarkDependents(node: Node, ghost region: set<Edge>, ghost pending: set<Node>,
                          ghost rank: Option<map<Edge, nat>>)
      requires Linked() && node in sh.nodes
      requires Markable(sh, region, rank) ==> Visiting(sh, region, s, rank, pending, node)
      modifies this`s, sh.nodes`dirty, sh.edges`outputsReady
      ensures Linked() && MarkedFrom(sh, old(s), s, node) && Visited(sh, s, node)
      ensures Markable(sh, region, rank) ==> Visiting(sh, region, s, rank, pending, node)
      decreases s.done, 2
    {
      hide Markable, MarkedFrom, Dependents, Visiting, Visited, AllMarked, Shape.WellFormed, Shape.Regular;
      ghost var s0 := s;
      MarkedFromNothing(sh, s, node);
      var outEdges := regularOutEdges[node];
      for i := 0 to |outEdges|
        invariant Linked() && MarkedFrom(sh, s0, s, node) && s.done <= s0.done
        invariant forall c :: c in outEdges[..i] ==> AllMarked(sh, s, NodesIn(sh.Outs(c)))
        invariant Markable(sh, region, rank) ==> Visiting(sh, region, s, rank, pending, node)
      {
        ghost var s1 := s;
        MarkOutputs(node, outEdges[i], region, pending, rank);
        MarkedFromTransitive(sh, s0, s1, s, node);
        MarkedFromGrows(sh, s1, s, node);
        forall c | c in outEdges[..i] ensures AllMarked(sh, s, NodesIn(sh.Outs(c))) {
          StillAllMarked(sh, s1, s, node, NodesIn(sh.Outs(c)));
        }
        assert forall c :: c in outEdges[..i + 1] <==> c in outEdges[..i] || c == outEdges[i];
      }
      assert outEdges[..|outEdges|] == outEdges;
      AllDependents(sh, s, node, outEdges);
    }

    /** The loop over the outputs of `edge`, which uses `node`. */
    method MarkOutputs(node: Node, edge: Edge, ghost region: set<Edge>, ghost pending: set<Node>,
                       ghost rank: Option<map<Edge, nat>>)
      requires Linked() && node in sh.nodes && edge in sh.edges && node in sh.Regular(edge)
      requires Markable(sh, region, rank) ==> Visiting(sh, region, s, rank, pending, node)
      modifies this`s, sh.nodes`dirty, sh.edges`outputsReady
      ensures Linked() && MarkedFrom(sh, old(s), s, node) && AllMarked(sh, s, NodesIn(sh.Outs(edge)))
      ensures Markable(sh, region, rank) ==> Visiting(sh, region, s, rank, pending, node)
      decreases s.done, 1
    {
      hide Markable, MarkedFrom, Dependents, Visiting, MayVisit, AllMarked, Shape.WellFormed, Shape.Regular;
      ghost var s0 := s;
      MarkedFromNothing(sh, s, node);
      LinkedNodes(sh, edge);
      var outputs := sh.Outs(edge);
      NoneMarked(sh, s);
      for i := 0 to |outputs|
        invariant Linked() && MarkedFrom(sh, s0, s, node) && s.done <= s0.done
        invariant AllMarked(sh, s, NodesIn(outputs[..i]))
        invariant Markable(sh, region, rank) ==> Visiting(sh, region, s, rank, pending, node)
      {
        ghost var s1 := s;
        OutputDepends(sh, node, edge, outputs[i]);
        if Markable(sh, region, rank) {
          EnterDependent(sh, region, s, rank, pending, node, outputs[i]);
        }
        MarkNodeDirty(outputs[i], region, pending + Behind(sh, node), rank);
        MarkedFromDependent(sh, s1, s, node, outputs[i]);
        MarkedFromTransitive(sh, s0, s1, s, node);
        MarkedFromGrows(sh, s1, s, node);
        if Markable(sh, region, rank) {
          LeaveDependent(sh, region, s1, s, rank, pending, node);
        }
        StillAllMarked(sh, s1, s, node, NodesIn(outputs[..i]));
        NodesInPrefix(outputs, i);
        OneMoreMarked(sh, s, NodesIn(outputs[..i]), outputs[i]);
      }
      assert outputs[..|outputs|] == outputs;
    }

    /** The marking loop of `BuildDirtySet`: in whatever order the changed files come, exactly what
        is made from them is added to the dirty nodes, within the region, and nothing else anywhere.
        Only edges that make some of it lose their readiness. */
    method MarkChanged(changedFiles: seq<Node>, ghost region: set<Edge>, ghost rank: Option<map<Edge, nat>>)
      requires Linked() && NodesIn(changedFiles) <= sh.nodes
      requires Markable(sh, region, rank) && Marked(sh, region, s, {})
      modifies this`s, sh.nodes`dirty, sh.edges`outputsReady
      ensures Linked() && Marked(sh, region, s, {})
      ensures Grown(sh, region, old(s), s, NodesIn(changedFiles))
    {
      hide Marked, MarkedFrom, Markable, MayVisit, Affected, Depends, Grown, Visited, Shape.WellFormed;
      ghost var s0 := s;
      NothingAffected(sh);
      GrownNot(sh, region, s);
      for i := 0 to |changedFiles|
        invariant Linked() && Marked(sh, region, s, {}) && Grown(sh, region, s0, s, NodesIn(changedFiles[..i]))
      {
        ghost var s1 := s;
        var node := changedFiles[i];
        NodesInPrefix(changedFiles, i);
        NothingPending(sh, region, s, rank, node);
        MarkNodeDirty(node, region, {}, rank);
        IsRegion(sh, region, rank);
        AffectedPlus(sh, region, s1, s, node);
        GrownTransitive(sh, region, s0, s1, s, NodesIn(changedFiles[..i]), {node});
      }
      assert changedFiles[..|changedFiles|] == changedFiles;
    }

    /** What is made from the second output of an edge is overlooked when the first was marked before,
        unless it is made from the first as well. */
    method OverlooksSecondOutput(e: Edge, a: Node, b: Node, m: Node)
      requires Linked() && e in sh.edges && e in s.done && a in sh.Outs(e) && b in sh.Outs(e) && a != b
      requires m in Dependents(sh, b) && !Depends(sh, a, m) && m != b && m !in s.dirty
      modifies this`s, sh.nodes`dirty, sh.edges`outputsReady
      ensures Linked() && b in s.dirty && m in Affected(sh, {b}) && m !in s.dirty
    {
      hide Marked, Markable, MayVisit, MarkedFrom, Depends, Dependents, Visited, Shape.WellFormed;
      LinkedNodes(sh, e);
      NothingPromised(sh, e);
      ghost var s0 := s;
      MarkNodeDirty(a, {e}, {}, Some(map[]));
      OnlyDependents(sh, s0, s, a, m);
      MarkNodeDirty(b, {e}, {}, Some(map[]));
      DependentIsMade(sh, b, m);
      DependsItself(sh, m);
      DependsFirst(sh, b, m, m);
    }

    /** Nothing is marked behind an edge that is not ready: where something was unmarked there, it
        stays so when an output of the edge is marked. */
    method OverlooksBehindUnready(node: Node, m: Node)
      requires Linked() && node in sh.nodes && node in sh.producer && sh.producer[node] !in s.done
      requires Ahead(sh, node, m, {}) && m != node && m !in s.dirty
      modifies this`s, sh.nodes`dirty, sh.edges`outputsReady
      ensures Linked() && m in Affected(sh, {node}) && m !in s.dirty
    {
      hide Marked, Markable, MayVisit, MarkedFrom, Dependents, Visited, Shape.WellFormed;
      MadeInGraph(sh, node);
      ghost var path :| AheadPath(sh, path, node, m, {});
      DependsInGraph(sh, node, m);
      NothingPromised(sh, sh.producer[node]);
      MarkNodeDirty(node, {sh.producer[node]}, {}, Some(map[]));
    }
  }

  lemma NothingPromised(sh: Shape, e: Edge)
    ensures !Markable(sh, {e}, Some(map[]))
  {}

  lemma NoneMarked(sh: Shape, s: Marks)
    ensures AllMarked(sh, s, NodesIn([]))
  {}

  lemma OneMoreMarked(sh: Shape, s: Marks, nodes: set<Node>, n: Node)
    requires AllMarked(sh, s, nodes) && n in s.dirty && n in sh.producer && sh.producer[n] !in s.done
    ensures AllMarked(sh, s, nodes + {n})
  {}

  lemma IsRegion(sh: Shape, region: set<Edge>, rank: Option<map<Edge, nat>>)
    requires Markable(sh, region, rank)
    ensures Region(sh, region)
  {}

  /** Where all edges are ready, nothing is left to be marked. */
  lemma ReadyIsMarked(sh: Shape, region: set<Edge>, s: Marks)
    requires region <= s.done
    ensures Marked(sh, region, s, {})
  {}
}
