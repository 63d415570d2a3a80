// Which cycles of the graph are reported when targets are added to a plan.

module PlanCycles {
  import opened Graph
  import opened PlanModel
  import opened PlanTargets
  import opened PlanLiveness

  // ----- cycles of edges, and what of them is seen through files -----

  /** Leads down from an edge to producers, all of which are not ready. */
  ghost predicate Needing(sh: Shape, done: set<Edge>, older path: seq<Edge>)
  {
    && path != [] && (forall k :: 0 <= k < |path| ==> path[k] in sh.edges && path[k] !in done)
    && (forall k :: 0 < k < |path| ==> path[k] in sh.Prods(path[k - 1]))
  }

  ghost predicate Cycle(sh: Shape, done: set<Edge>, older path: seq<Edge>)
  {
    |path| > 1 && Needing(sh, done, path) && path[0] == path[|path| - 1]
  }

  ghost predicate OnCycle(sh: Shape, done: set<Edge>, e: Edge)
  {
    exists path :: Cycle(sh, done, path) && path[0] == e
  }

  /** File `x` is an input of edge `e`, or of an unready edge that `e` waits for. */
  ghost predicate Uses(sh: Shape, done: set<Edge>, e: Edge, x: Node)
  {
    exists path :: Needing(sh, done, path) && path[0] == e && x in sh.Ins(path[|path| - 1])
  }

  /** Every output of an edge on a cycle is itself needed to make that edge. */
  ghost predicate Catchable(sh: Shape, done: set<Edge>)
  {
    forall e, x :: e in sh.edges && OnCycle(sh, done, e) && x in sh.Outs(e) ==> Uses(sh, done, e, x)
  }

  /** Every cycle runs through `e`. */
  ghost predicate AllThrough(sh: Shape, done: set<Edge>, e: Edge)
  {
    forall path :: Cycle(sh, done, path) ==> e in path
  }

  // ----- what the search knows when it ends without an error -----

  /** Along unready producers the search misses nothing. */
  lemma {:induction false} NeededIsPlanned(sh: Shape, s: PlanState, path: seq<Edge>, k: nat)
    requires Closed(sh, s) && Needing(sh, s.done, path) && path[0] in s.want && k < |path|
    ensures path[k] in s.want
    decreases k
  {
    if k > 0 {
      NeededIsPlanned(sh, s, path, k - 1);
    }
  }

  /** What follows from an error-free search for any graph: an edge that was entered through `x` was
      closed before every edge that uses `x`. */
  lemma ClosedBefore(sh: Shape, s: PlanState, d: Search, x: Node, g: Edge)
    requires Searching(sh, s, [], d) && x in d.entered && x in sh.Ins(g) && g in s.want && sh.producer[x] !in s.done
    ensures sh.producer[x] in d.order && g in d.order
    ensures FirstAt(d.order, sh.producer[x]) < FirstAt(d.order, g)
  {
    hide Topological, Trapped, SourcesPresent, Shape.SingleOutput, Makers, FirstAt, Shape.Prods, Walk;
    OrderIsPlan(sh, s, d);
    var k := FirstAt(d.order, g);
    assert sh.producer[x] in EdgesIn(d.order[..k]);
    var j :| 0 <= j < k && d.order[j] == sh.producer[x];
  }

  lemma OrderIsPlan(sh: Shape, s: PlanState, d: Search)
    requires Searching(sh, s, [], d)
    ensures forall e :: e in d.order <==> e in s.want
    ensures EnteredFirst(sh, s.done, d.order, d.entered) && Makers(sh, d.entered) == s.want.Keys && OnceInOrder(d.order)
    ensures forall x :: x in d.entered ==> x in sh.producer
  {
    hide Topological, Trapped, SourcesPresent, Shape.SingleOutput, Makers, EnteredFirst, Walk;
    assert Open(sh, []) == {};
    assert forall e :: e in d.order <==> e in EdgesIn(d.order);
  }

  /** After an error-free search no closed walk of files is left that runs through the files by which
      the edges of the plan were entered. */
  lemma NoneOverlooked(sh: Shape, s: PlanState, d: Search, path: seq<Node>)
    requires Core(sh, s) && Searching(sh, s, [], d) && NodesIn(path) <= d.entered
    ensures !ClosedWalk(sh, path)
  {
    hide Core, Searching, FirstAt, Makers;
    if ClosedWalk(sh, path) {
      EntriesNotDone(sh, s);
      OrderIsPlan(sh, s, d);
      EnteredArePlanned(sh, s, d, path);
      OrderFalls(sh, s, d, path, |path| - 1);
    }
  }

  lemma EnteredArePlanned(sh: Shape, s: PlanState, d: Search, path: seq<Node>)
    requires Makers(sh, d.entered) == s.want.Keys && NodesIn(path) <= d.entered
    requires forall x :: x in d.entered ==> x in sh.producer
    ensures forall n :: n in path ==> n in d.entered && n in sh.producer && sh.producer[n] in s.want
  {
    forall n | n in path ensures n in d.entered && n in sh.producer && sh.producer[n] in s.want {
      assert n in NodesIn(path);
      assert sh.producer[n] in Makers(sh, d.entered);
    }
  }

  lemma {:induction false} OrderFalls(sh: Shape, s: PlanState, d: Search, path: seq<Node>, k: nat)
    requires Searching(sh, s, [], d) && Walk(sh, path) && k < |path| && s.want.Keys !! s.done
    requires forall n :: n in path ==> n in d.entered && n in sh.producer && sh.producer[n] in s.want
    ensures sh.producer[path[0]] in d.order && sh.producer[path[k]] in d.order
    ensures FirstAt(d.order, sh.producer[path[k]]) + k <= FirstAt(d.order, sh.producer[path[0]])
    decreases k
  {
    hide Searching, FirstAt;
    OrderIsPlan(sh, s, d);
    if k > 0 {
      OrderFalls(sh, s, d, path, k - 1);
      ClosedBefore(sh, s, d, path[k], sh.producer[path[k - 1]]);
    }
  }

  // ----- conditions on the graph -----

  /** An edge whose own output is needed to make it waits for an edge that was closed after it. */
  lemma UserIsLater(sh: Shape, s: PlanState, d: Search, e: Edge, x: Node) returns (g: Edge)
    requires sh.WellFormed() && Core(sh, s) && Searching(sh, s, [], d) && e in s.want
    requires x in d.entered && x in sh.Outs(e) && Uses(sh, s.done, e, x)
    ensures g in s.want && e in d.order && g in d.order && OnCycle(sh, s.done, g)
    ensures FirstAt(d.order, e) < FirstAt(d.order, g)
  {
    hide Core, Searching, FirstAt, Shape.WellFormed, Shape.Prods, OnCycle;
    EntriesNotDone(sh, s);
    SearchedIsClosed(sh, s, d);
    OrderIsPlan(sh, s, d);
    MadeBy(sh, e, x);
    var path :| Needing(sh, s.done, path) && path[0] == e && x in sh.Ins(path[|path| - 1]);
    g := path[|path| - 1];
    NeededIsPlanned(sh, s, path, |path| - 1);
    ClosedBefore(sh, s, d, x, g);
    ProdsOf(sh, g, x);
    ClosedUp(sh, s.done, path);
  }

  lemma ClosedUp(sh: Shape, done: set<Edge>, path: seq<Edge>)
    requires Needing(sh, done, path) && path[0] in sh.Prods(path[|path| - 1])
    ensures OnCycle(sh, done, path[|path| - 1])
  {
    hide Shape.Prods;
    var last := path[|path| - 1];
    NeedingJoined(sh, done, [last], path);
    assert Cycle(sh, done, [last] + path);
  }

  lemma MadeBy(sh: Shape, e: Edge, x: Node)
    requires sh.WellFormed() && x in sh.Outs(e)
    ensures x in sh.producer && sh.producer[x] == e
  {}

  lemma SearchedIsClosed(sh: Shape, s: PlanState, d: Search)
    requires Searching(sh, s, [], d)
    ensures Closed(sh, s)
  {
    hide Topological, Trapped, Shape.SingleOutput, Shape.Prods, Walk, InTurn;
    assert Open(sh, []) == {};
    forall e | e in s.want ensures sh.Prods(e) <= s.done + s.want.Keys {
      assert e in EdgesIn(d.order);
    }
  }

  /** If every output of an edge on a cycle is needed to make that edge, no edge of a plan that was made
      without an error is on a cycle. */
  lemma {:induction false} NoneOnCycle(sh: Shape, s: PlanState, d: Search, e: Edge)
    requires sh.WellFormed() && Core(sh, s) && Searching(sh, s, [], d) && Catchable(sh, s.done) && e in s.want
    ensures !OnCycle(sh, s.done, e)
    decreases if e in d.order then |d.order| - FirstAt(d.order, e) else 0
  {
    hide Core, Searching, FirstAt, Shape.WellFormed, OnCycle, Uses;
    if OnCycle(sh, s.done, e) {
      OrderIsPlan(sh, s, d);
      PlannedEntries(sh, s);
      var x := EnteredThrough(sh, s, d, e);
      var g := UserIsLater(sh, s, d, e, x);
      NoneOnCycle(sh, s, d, g);
    }
  }

  lemma EnteredThrough(sh: Shape, s: PlanState, d: Search, e: Edge) returns (x: Node)
    requires sh.WellFormed() && Makers(sh, d.entered) == s.want.Keys && e in s.want
    ensures x in d.entered && x in sh.Outs(e)
  {
    x :| x in d.entered && x in sh.producer && sh.producer[x] == e;
  }

  /** Then the plan can be put in order. */
  lemma CaughtIsAcyclic(sh: Shape, s: PlanState, d: Search)
    requires sh.WellFormed() && Core(sh, s) && Adding(sh, s) && Searching(sh, s, [], d) && Catchable(sh, s.done)
    ensures Acyclic(sh, s.planned)
  {
    hide *;
    PlanIsReady(sh, s, d);
    TrapIsPlanned(sh, s, d);
    if d.trap != {} {
      var e :| e in d.trap;
      StartAt(sh, s.done, e);
      var c := TrapHasCycle(sh, s.done, d.trap, [e]);
      NoneOnCycle(sh, s, d, c);
    }
  }

  lemma StartAt(sh: Shape, done: set<Edge>, e: Edge)
    requires e in sh.edges && e !in done
    ensures Needing(sh, done, [e])
  {}

  lemma TrapIsPlanned(sh: Shape, s: PlanState, d: Search)
    requires Core(sh, s) && Searching(sh, s, [], d)
    ensures d.trap <= s.want.Keys && d.trap <= sh.edges && d.trap !! s.done && Trapped(sh, d.trap)
  {
    hide InTurn, Topological, Recorded, Accounted, FullOrEmpty;
  }

  /** Edges that each need another of them contain a cycle. */
  lemma {:induction false} TrapHasCycle(sh: Shape, done: set<Edge>, trap: set<Edge>, path: seq<Edge>) returns (e: Edge)
    requires Trapped(sh, trap) && trap <= sh.edges && trap !! done && Needing(sh, done, path)
    requires (forall k :: 0 <= k < |path| ==> path[k] in trap) && forall i, j :: 0 <= i < j < |path| ==>
      path[i] != path[j]
    ensures e in trap && OnCycle(sh, done, e)
    decreases |trap| - |path|
  {
    hide Shape.Prods;
    var last := path[|path| - 1];
    var p :| p in sh.Prods(last) * trap;
    if i :| 0 <= i < |path| && path[i] == p {
      assert Cycle(sh, done, path[i..] + [p]);
      e := p;
    } else {
      DistinctEdges(path + [p], trap);
      e := TrapHasCycle(sh, done, trap, path + [p]);
    }
  }

  lemma {:induction false} DistinctEdges(path: seq<Edge>, es: set<Edge>)
    requires (forall k :: 0 <= k < |path| ==> path[k] in es) && forall i, j :: 0 <= i < j < |path| ==>
      path[i] != path[j]
    ensures |path| <= |es|
    decreases |path|
  {
    if path != [] {
      DistinctEdges(path[..|path| - 1], es - {path[|path| - 1]});
    }
  }

  /** A file that is needed to make its own edge is never added without an error. */
  lemma UsedIsRefused(sh: Shape, s: PlanState, d: Search, a: Node)
    requires sh.WellFormed() && Core(sh, s) && Searching(sh, s, [], d) && a in d.entered
    requires a in sh.producer && d.order != [] && d.order[|d.order| - 1] == sh.producer[a]
    ensures !Uses(sh, s.done, sh.producer[a], a)
  {
    hide Core, Searching, Uses, FirstAt, OnCycle, Shape.WellFormed, Makers;
    if Uses(sh, s.done, sh.producer[a], a) {
      OrderIsPlan(sh, s, d);
      EnteredOutput(sh, a);
      var g := UserIsLater(sh, s, d, sh.producer[a], a);
    }
  }

  /** If all cycles run through the edge of target `a`, a cycle is reported only if `a` itself is needed
      to make that edge. */
  lemma OnlyUsedIsReported(sh: Shape, done: set<Edge>, path: seq<Node>, d: Search, d': Search, a: Node)
    requires sh.WellFormed() && FoundCycle(sh, done, path, d, d') && a in d'.entered && a in sh.producer
    requires AllThrough(sh, done, sh.producer[a])
    ensures Uses(sh, done, sh.producer[a], a)
  {
    hide Shape.WellFormed, Shape.Prods, Uses;
    var edges := EdgesAlong(sh, done, path);
    assert Cycle(sh, done, edges);
    var i :| 0 <= i < |edges| && edges[i] == sh.producer[a];
    assert path[i] in NodesIn(path) && path[i] == a;
    AroundTo(sh, done, path, edges, i);
  }

  lemma EdgesAlong(sh: Shape, done: set<Edge>, path: seq<Node>) returns (edges: seq<Edge>)
    requires sh.WellFormed() && ClosedWalk(sh, path) && Makers(sh, NodesIn(path)) !! done
    ensures |edges| == |path| && forall k :: 0 <= k < |path| ==>
      path[k] in sh.producer && edges[k] == sh.producer[path[k]]
    ensures Needing(sh, done, edges) && edges[0] == edges[|edges| - 1]
  {
    hide Shape.Prods, Shape.WellFormed;
    assert forall k :: 0 <= k < |path| ==> path[k] in path;
    edges := seq(|path|, k requires 0 <= k < |path| => sh.producer[path[k]]);
    forall k | 0 <= k < |edges| ensures edges[k] in sh.edges && edges[k] !in done {
      assert path[k] in NodesIn(path);
      assert edges[k] in Makers(sh, NodesIn(path));
      ProducerInGraph(sh, path[k]);
    }
    forall k | 0 < k < |edges| ensures edges[k] in sh.Prods(edges[k - 1]) {
      ProdsOf(sh, edges[k - 1], path[k]);
    }
  }

  /** On a closed walk each file is used by the edge before it, to which the others lead around. */
  lemma AroundTo(sh: Shape, done: set<Edge>, path: seq<Node>, edges: seq<Edge>, i: nat)
    requires ClosedWalk(sh, path) && |edges| == |path| && i < |path| && Needing(sh, done, edges)
    requires forall k :: 0 <= k < |path| ==> path[k] in sh.producer && edges[k] == sh.producer[path[k]]
    ensures Uses(sh, done, edges[i], path[i])
  {
    hide Shape.Prods;
    var last := |path| - 1;
    if 1 < i < last {
      NeedingSlice(sh, done, edges, i, |edges|);
      NeedingSlice(sh, done, edges, 1, i);
      NeedingJoined(sh, done, edges[i..], edges[1..i]);
      UsedAtEnd(sh, done, edges[i..] + edges[1..i], path[i]);
    } else if i == 1 && i < last {
      NeedingSlice(sh, done, edges, 1, |edges|);
      UsedAtEnd(sh, done, edges[1..], path[1]);
    } else {
      NeedingSlice(sh, done, edges, 0, last);
      UsedAtEnd(sh, done, edges[0..last], path[last]);
    }
  }

  lemma UsedAtEnd(sh: Shape, done: set<Edge>, path: seq<Edge>, x: Node)
    requires Needing(sh, done, path) && x in sh.Ins(path[|path| - 1])
    ensures Uses(sh, done, path[0], x)
  {}

  lemma NeedingSlice(sh: Shape, done: set<Edge>, path: seq<Edge>, i: nat, j: nat)
    requires Needing(sh, done, path) && i < j <= |path|
    ensures Needing(sh, done, path[i..j])
  {
    hide Shape.Prods;
  }

  lemma NeedingJoined(sh: Shape, done: set<Edge>, a: seq<Edge>, b: seq<Edge>)
    requires Needing(sh, done, a) && Needing(sh, done, b) && b[0] in sh.Prods(a[|a| - 1])
    ensures Needing(sh, done, a + b)
  {
    hide Shape.Prods;
    var c := a + b;
    forall k | 0 < k < |c| ensures c[k] in sh.Prods(c[k - 1]) {
      assert c[k] == if k < |a| then a[k] else b[k - |a|];
      assert c[k - 1] == if k - 1 < |a| then a[k - 1] else b[k - 1 - |a|];
    }
  }

  /** An entry on a cycle makes a plan that cannot be put in order. */
  lemma OnCycleIsCyclic(sh: Shape, s: PlanState, e: Edge)
    requires Closed(sh, s) && s.want.Keys <= s.planned && e in s.want && OnCycle(sh, s.done, e)
    ensures !Acyclic(sh, s.planned)
  {
    hide Shape.Prods;
    var path :| Cycle(sh, s.done, path) && path[0] == e;
    if rank :| Ranked(sh, s.planned, rank) {
      RanksFall(sh, s, rank, path, |path| - 1);
    }
  }

  lemma {:induction false} RanksFall(sh: Shape, s: PlanState, rank: map<Edge, nat>, path: seq<Edge>, k: nat)
    requires Closed(sh, s) && s.want.Keys <= s.planned && Ranked(sh, s.planned, rank)
    requires Needing(sh, s.done, path) && path[0] in s.want && k < |path|
    ensures path[0] in rank && path[k] in rank && rank[path[k]] + k <= rank[path[0]]
    decreases k
  {
    NeededIsPlanned(sh, s, path, k);
    if k > 0 {
      NeededIsPlanned(sh, s, path, k - 1);
      RanksFall(sh, s, rank, path, k - 1);
    }
  }

  /** Every closed walk of files is reported that runs through the files by which edges were entered. */
  ghost predicate CyclesCaught(sh: Shape, entered: set<Node>)
  {
    forall path :: ClosedWalk(sh, path) ==> !(NodesIn(path) <= entered)
  }

  /** The search came in through `node` and ended with its edge. */
  ghost predicate EndsWith(sh: Shape, d: Search, node: Node)
  {
    node in d.entered && node in sh.producer && d.order != [] && d.order[|d.order| - 1] == sh.producer[node]
  }

  /** What an error-free call says about cycles. */
  lemma SearchEnds(sh: Shape, s0: PlanState, s: PlanState, cone: set<Edge>, d: Search, d': Search, node: Node)
    requires sh.WellFormed() && Explored(sh, s0, s, cone, [], d, d', node)
    ensures CyclesCaught(sh, d'.entered) && (Catchable(sh, s0.done) ==> Acyclic(sh, s.planned))
    ensures EndsWith(sh, d', node) ==> !Uses(sh, s0.done, sh.producer[node], node)
  {
    hide Core, Adding, Searching, Visited, Extends, Shape.WellFormed, Catchable, Acyclic, Uses, ClosedWalk;
    forall path | ClosedWalk(sh, path) ensures !(NodesIn(path) <= d'.entered) {
      if NodesIn(path) <= d'.entered {
        NoneOverlooked(sh, s, d', path);
      }
    }
    if Catchable(sh, s0.done) {
      CaughtIsAcyclic(sh, s, d');
    }
    if EndsWith(sh, d', node) {
      UsedIsRefused(sh, s, d', node);
    }
  }

  lemma EnteredOutput(sh: Shape, a: Node)
    requires sh.WellFormed() && a in sh.producer
    ensures a in sh.Outs(sh.producer[a])
  {}
}
