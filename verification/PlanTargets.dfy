// Adding targets: what the depth-first search keeps, and what it means for the plan.

module PlanTargets {
  import opened Graph
  import opened PlanModel
  import opened PlanSteps

  datatype AddError = NoError | MissingInput(node: Node, neededBy: Option<Node>) | DependencyCycle(path: seq<Node>)

  /** A plan to which targets are being added: nothing has run yet. */
  ghost predicate Fresh(s: PlanState)
  {
    && s.running == {} && s.failed == {} && s.flushed == {} && s.trace == []
    && s.planned == s.want.Keys
  }

  /** A region of the graph the scan has visited: with an edge it holds the unready edges that make
      its inputs; the outputs of an edge are dirty together; and a clean edge is unready only
      because one of its inputs is. */
  ghost predicate Scanned(sh: Shape, done: set<Edge>, dirty: set<Node>, cone: set<Edge>)
  {
    && cone <= sh.edges
    && (forall e :: e in cone ==> sh.Prods(e) <= done + cone)
    && (forall e, a, b :: e in cone && a in sh.Outs(e) && b in sh.Outs(e) && a in dirty ==> b in dirty)
    && (forall e, a :: e in cone && a in sh.Outs(e) && a !in dirty && sh.Prods(e) <= done ==> e in done)
  }

  ghost predicate NeededFrom(sh: Shape, s: PlanState, cone: set<Edge>, node: Node)
  {
    node in sh.nodes && (node in sh.producer ==> sh.producer[node] in s.done + cone)
  }

  /** The plan wants exactly those of its edges that have a dirty output. */
  ghost predicate WantsDirty(sh: Shape, s: PlanState)
  {
    forall e :: e in s.want ==> (s.want[e] <==> sh.OutsOf({e}) * s.dirty != {})
  }

  /** The edges whose inputs are being visited. */
  ghost function Open(sh: Shape, stack: seq<Node>): set<Edge>
  {
    set n | n in stack && n in sh.producer :: sh.producer[n]
  }

  /** Each node on the stack after the first is an input of the edge that makes the one below it. */
  ghost predicate Walk(sh: Shape, stack: seq<Node>)
  {
    && (forall n :: n in stack ==> n in sh.producer)
    && (forall k :: 0 < k < |stack| ==> stack[k] in sh.Ins(sh.producer[stack[k - 1]]))
  }

  /** A path along inputs that ends where it began. */
  ghost predicate ClosedWalk(sh: Shape, older path: seq<Node>)
  {
    && |path| > 1 && (forall k :: 0 <= k < |path| ==> path[k] in sh.producer)
    && Walk(sh, path) && path[0] == path[|path| - 1]
  }

  /** Every edge of `order` comes after the unready edges that make its inputs. */
  ghost predicate Topological(sh: Shape, done: set<Edge>, order: seq<Edge>)
  {
    forall k :: 0 <= k < |order| ==> sh.Prods(order[k]) <= done + EdgesIn(order[..k])
  }

  /** Edges of the plan each of which needs another of them: they can never all be built. */
  ghost predicate Trapped(sh: Shape, es: set<Edge>)
  {
    forall e :: e in es ==> sh.Prods(e) * es != {}
  }

  /** What the depth-first search has found out: `order` holds the edges all of whose inputs have been
      visited, `trap` the edges that were open when the search met one of them again through another
      of its outputs, `entered` the nodes through which edges came into the plan. */
  datatype Search = Search(order: seq<Edge>, trap: set<Edge>, entered: set<Node>)

  ghost predicate Extends(d: Search, d': Search)
  {
    d.order <= d'.order && d.trap <= d'.trap && d.entered <= d'.entered
  }

  /** An edge comes into the plan through one node only. */
  ghost predicate OncePerEdge(sh: Shape, entered: set<Node>)
  {
    && (forall m :: m in entered ==> m in sh.producer)
    && (forall m, n :: m in entered && n in entered && sh.producer[m] == sh.producer[n] ==> m == n)
  }

  /** The inputs of `e` that no edge makes are not missing. */
  ghost predicate SourcesPresent(sh: Shape, dirty: set<Node>, e: Edge)
  {
    forall n :: n in sh.Ins(e) && n !in sh.producer ==> n !in dirty
  }

  ghost predicate Searching(sh: Shape, s: PlanState, stack: seq<Node>, d: Search)
  {
    && Walk(sh, stack)
    && Open(sh, stack) <= s.want.Keys <= EdgesIn(d.order) + Open(sh, stack)
    && EdgesIn(d.order) <= s.want.Keys
    && (forall e :: e in d.order ==> sh.Prods(e) <= s.done + s.want.Keys && SourcesPresent(sh, s.dirty, e))
    && d.trap <= s.want.Keys && Trapped(sh, d.trap) && (d.trap == {} ==> Topological(sh, s.done, d.order))
    && (sh.SingleOutput() ==> d.trap == {})
    && OncePerEdge(sh, d.entered) && (forall m :: m in d.entered ==> sh.producer[m] in s.want)
    && NodesIn(stack) <= d.entered
    && InTurn(sh, s, stack, d)
  }

  ghost function Makers(sh: Shape, nodes: set<Node>): set<Edge>
  {
    set n | n in nodes && n in sh.producer :: sh.producer[n]
  }

  /** An input by which its edge came into the plan was visited to the end before the edge that uses it. */
  ghost predicate EnteredFirst(sh: Shape, done: set<Edge>, order: seq<Edge>, entered: set<Node>)
  {
    forall k, n :: 0 <= k < |order| && n in sh.Ins(order[k]) && n in entered && n in sh.producer ==>
      sh.producer[n] in done + EdgesIn(order[..k])
  }

  /** The edges of the plan are those that were entered, those that are open are so once, and an edge
      was closed after the inputs by which edges were entered. */
  ghost predicate InTurn(sh: Shape, s: PlanState, stack: seq<Node>, d: Search)
  {
    && Makers(sh, d.entered) == s.want.Keys
    && (forall n :: n in stack ==> n in sh.producer)
    && (forall i, j :: 0 <= i < j < |stack| ==> sh.producer[stack[i]] != sh.producer[stack[j]])
    && EdgesIn(d.order) !! Open(sh, stack)
    && EnteredFirst(sh, s.done, d.order, d.entered) && OnceInOrder(d.order)
  }

  ghost predicate OnceInOrder(order: seq<Edge>)
  {
    forall i, j :: 0 <= i < j < |order| ==> order[i] != order[j]
  }

  /** What a visit adds to the plan. */
  ghost predicate Grown(s: PlanState, s': PlanState, cone: set<Edge>)
  {
    && s' == s.(want := s'.want, ready := s'.ready, delayed := s'.delayed, use := s'.use,
                wanted := s'.wanted, commands := s'.commands, planned := s'.planned)
    && s.want.Keys <= s'.want.Keys <= s.want.Keys + cone
  }

  /** `node` needs no more visiting: it is a source file that is not missing, or its edge is ready or
      in the plan; and unless a trap was found or the edge came into the plan through another of its
      outputs, all inputs of that edge have been visited. */
  ghost predicate Visited(sh: Shape, s: PlanState, d: Search, node: Node)
  {
    if node in sh.producer then
      var p := sh.producer[node];
      p in s.done || (p in s.want && (d.trap == {} || node in d.entered ==> p in d.order))
    else
      node !in s.dirty
  }

  /** What holds between the visits of `AddSubTarget`. */
  ghost predicate Adding(sh: Shape, s: PlanState)
  {
    Fresh(s) && Counted(s) && WantsDirty(sh, s) && Overdue(sh, s) == {}
  }

  lemma GrownTransitive(s0: PlanState, s1: PlanState, s2: PlanState, cone: set<Edge>)
    requires Grown(s0, s1, cone) && Grown(s1, s2, cone)
    ensures Grown(s0, s2, cone)
  {}

  lemma VisitedStays(sh: Shape, s: PlanState, s': PlanState, d: Search, d': Search, node: Node, cone: set<Edge>)
    requires Visited(sh, s, d, node) && Grown(s, s', cone) && Extends(d, d')
    requires Makers(sh, d.entered) == s.want.Keys && OncePerEdge(sh, d'.entered)
    ensures Visited(sh, s', d', node)
  {
    if node in d'.entered && node in sh.producer && sh.producer[node] in s.want {
      var m :| m in d.entered && m in sh.producer && sh.producer[m] == sh.producer[node];
      assert m == node;
    }
  }

  /** The path printed for a cycle is one. */
  lemma StackWithCycle(sh: Shape, stack: seq<Node>, start: nat, node: Node)
    requires Walk(sh, stack) && start < |stack| && stack[start] == node
    requires node in sh.producer && node in sh.Ins(sh.producer[stack[|stack| - 1]])
    ensures ClosedWalk(sh, stack[start..] + [node])
  {
    var path := stack[start..] + [node];
    forall k | 0 < k < |path| ensures path[k] in sh.Ins(sh.producer[path[k - 1]]) {
      if k < |path| - 1 {
        assert path[k] == stack[start + k] && path[k - 1] == stack[start + k - 1];
      } else {
        assert path[k - 1] == stack[|stack| - 1];
      }
    }
  }

  lemma Push(sh: Shape, s: PlanState, s': PlanState, stack: seq<Node>, d: Search, node: Node, cone: set<Edge>)
    requires Searching(sh, s, stack, d) && Grown(s, s', cone)
    requires node in sh.producer && sh.producer[node] !in s.want && s'.want.Keys == s.want.Keys + {sh.producer[node]}
    requires stack != [] ==>
      stack[|stack| - 1] in sh.producer && node in sh.Ins(sh.producer[stack[|stack| - 1]])
    ensures Searching(sh, s', stack + [node], d.(entered := d.entered + {node}))
  {
    hide SourcesPresent, Topological, Trapped, Shape.SingleOutput, Walk, Open, InTurn;
    OpenPlus(sh, stack, node);
    WalkPlus(sh, stack, node);
    PushInTurn(sh, s, s', stack, d, node, cone);
    assert NodesIn(stack + [node]) == NodesIn(stack) + {node} by {
      assert forall n :: n in stack + [node] <==> n in stack || n == node;
    }
  }

  lemma PushInTurn(sh: Shape, s: PlanState, s': PlanState, stack: seq<Node>, d: Search, node: Node, cone: set<Edge>)
    requires InTurn(sh, s, stack, d) && Grown(s, s', cone) && EdgesIn(d.order) + Open(sh, stack) <= s.want.Keys
    requires forall e :: e in d.order ==> sh.Prods(e) <= s.done + s.want.Keys
    requires node in sh.producer && sh.producer[node] !in s.want && s'.want.Keys == s.want.Keys + {sh.producer[node]}
    ensures InTurn(sh, s', stack + [node], d.(entered := d.entered + {node}))
  {
    hide Open, Shape.Prods;
    OpenPlus(sh, stack, node);
    MakersPlus(sh, d.entered, node);
    var entered := d.entered + {node};
    forall k, n | 0 <= k < |d.order| && n in sh.Ins(d.order[k]) && n in entered && n in sh.producer
      ensures sh.producer[n] in s.done + EdgesIn(d.order[..k])
    {
      if n == node {
        ProdsOf(sh, d.order[k], n);
        assert d.order[k] in d.order;
      }
    }
    forall i | 0 <= i < |stack| ensures sh.producer[stack[i]] != sh.producer[node] {
      OpenHas(sh, stack, i);
    }
  }

  lemma MakersPlus(sh: Shape, nodes: set<Node>, node: Node)
    requires node in sh.producer
    ensures Makers(sh, nodes + {node}) == Makers(sh, nodes) + {sh.producer[node]}
  {}

  lemma OpenHas(sh: Shape, stack: seq<Node>, i: nat)
    requires i < |stack| && stack[i] in sh.producer
    ensures sh.producer[stack[i]] in Open(sh, stack)
  {}

  lemma WalkPlus(sh: Shape, stack: seq<Node>, node: Node)
    requires Walk(sh, stack) && node in sh.producer
    requires stack != [] ==> node in sh.Ins(sh.producer[stack[|stack| - 1]])
    ensures Walk(sh, stack + [node])
  {}

  lemma OpenPlus(sh: Shape, stack: seq<Node>, node: Node)
    requires node in sh.producer
    ensures Open(sh, stack + [node]) == Open(sh, stack) + {sh.producer[node]}
  {
    assert forall n :: n in stack + [node] <==> n in stack || n == node;
  }

  lemma Pop(sh: Shape, s: PlanState, stack: seq<Node>, d: Search, node: Node)
    requires Searching(sh, s, stack + [node], d) && node in sh.producer
    requires forall n :: n in sh.Ins(sh.producer[node]) ==> Visited(sh, s, d, n)
    ensures Searching(sh, s, stack, d.(order := d.order + [sh.producer[node]]))
    ensures Visited(sh, s, d.(order := d.order + [sh.producer[node]]), node)
  {
    hide Trapped, OncePerEdge, InTurn;
    PopInTurn(sh, s, stack, d, node);
    var order := d.order;
    assert NodesIn(stack) <= NodesIn(stack + [node]) by {
      assert forall n :: n in stack ==> n in stack + [node];
    }
    var edge := sh.producer[node];
    OpenPlus(sh, stack, node);
    WalkPrefix(sh, stack, node);
    EdgesInPlus(order, edge);
    assert edge in s.want;
    assert sh.Prods(edge) <= s.done + s.want.Keys;
    if d.trap == {} {
      assert sh.Prods(edge) <= s.done + EdgesIn(order);
      TopologicalPlus(sh, s.done, order, edge);
    }
  }

  lemma PopInTurn(sh: Shape, s: PlanState, stack: seq<Node>, d: Search, node: Node)
    requires InTurn(sh, s, stack + [node], d) && node in sh.producer
    requires forall n :: n in sh.Ins(sh.producer[node]) ==> Visited(sh, s, d, n)
    ensures InTurn(sh, s, stack, d.(order := d.order + [sh.producer[node]]))
  {
    var edge, longer := sh.producer[node], d.order + [sh.producer[node]];
    assert (stack + [node])[..|stack|] == stack && (stack + [node])[|stack|] == node;
    forall n | n in stack ensures n in sh.producer {
      assert n in stack + [node];
    }
    forall i, j | 0 <= i < j < |stack| ensures sh.producer[stack[i]] != sh.producer[stack[j]] {
      assert (stack + [node])[i] == stack[i] && (stack + [node])[j] == stack[j];
    }
    NotOpenBelow(sh, stack, node);
    OpenPlus(sh, stack, node);
    EdgesInPlus(d.order, edge);
    EnteredFirstPlus(sh, s, d, edge);
  }

  lemma NotOpenBelow(sh: Shape, stack: seq<Node>, node: Node)
    requires forall n :: n in stack + [node] ==> n in sh.producer
    requires forall i, j :: 0 <= i < j <= |stack| ==>
      sh.producer[(stack + [node])[i]] != sh.producer[(stack + [node])[j]]
    ensures node in sh.producer && sh.producer[node] !in Open(sh, stack)
  {
    var longer := stack + [node];
    assert longer[|stack|] == node && node in longer;
    forall n | n in stack ensures n in sh.producer && sh.producer[n] != sh.producer[node] {
      var i :| 0 <= i < |stack| && stack[i] == n;
      assert longer[i] == n && n in longer;
    }
  }

  lemma EnteredFirstPlus(sh: Shape, s: PlanState, d: Search, edge: Edge)
    requires EnteredFirst(sh, s.done, d.order, d.entered)
    requires forall n :: n in sh.Ins(edge) ==> Visited(sh, s, d, n)
    ensures EnteredFirst(sh, s.done, d.order + [edge], d.entered)
  {
    var longer := d.order + [edge];
    forall k, n | 0 <= k < |longer| && n in sh.Ins(longer[k]) && n in d.entered && n in sh.producer
      ensures sh.producer[n] in s.done + EdgesIn(longer[..k])
    {
      if k < |d.order| {
        assert longer[k] == d.order[k] && longer[..k] == d.order[..k];
      } else {
        assert longer[..k] == d.order;
      }
    }
  }

  lemma WalkPrefix(sh: Shape, stack: seq<Node>, node: Node)
    requires Walk(sh, stack + [node])
    ensures Walk(sh, stack)
  {
    var longer := stack + [node];
    forall n | n in stack ensures n in sh.producer {
      assert n in longer;
    }
    forall k | 0 < k < |stack| ensures stack[k] in sh.Ins(sh.producer[stack[k - 1]]) {
      assert longer[k] == stack[k] && longer[k - 1] == stack[k - 1];
    }
  }

  lemma EdgesInPlus(order: seq<Edge>, edge: Edge)
    ensures EdgesIn(order + [edge]) == EdgesIn(order) + {edge}
  {
    assert forall e :: e in order + [edge] <==> e in order || e == edge;
  }

  lemma TopologicalPlus(sh: Shape, done: set<Edge>, order: seq<Edge>, edge: Edge)
    requires Topological(sh, done, order) && sh.Prods(edge) <= done + EdgesIn(order)
    ensures Topological(sh, done, order + [edge])
  {
    var longer := order + [edge];
    forall k | 0 <= k < |longer| ensures sh.Prods(longer[k]) <= done + EdgesIn(longer[..k]) {
      if k < |order| {
        assert longer[k] == order[k] && longer[..k] == order[..k];
      } else {
        assert longer[..k] == order;
      }
    }
  }

  /** A new entry, or a higher claim on one, keeps the invariant. */
  lemma Insert(sh: Shape, s: PlanState, s': PlanState, e: Edge, flag: bool)
    requires Core(sh, s) && Fresh(s) && e in sh.edges && e !in s.done
    requires e in s.want ==> !s.want[e]
    requires s' ==
      s.(want := s.want[e := flag], planned := s.planned + {e}, wanted := s'.wanted, commands := s'.commands)
    ensures Core(sh, s') && Fresh(s')
  {
    hide Accounted, FullOrEmpty, Recorded, Count;
    FreshIsRecorded(sh, s');
    forall pool | pool in sh.pools ensures Accounted(s', pool) && FullOrEmpty(s', pool) {
      SamePools(s, s', pool);
    }
  }

  lemma Inserted(sh: Shape, s: PlanState, s': PlanState, e: Edge)
    requires Core(sh, s) && Fresh(s) && e in s.want && !s.want[e]
    requires s' == s.(want := s.want[e := true], wanted := s'.wanted)
    ensures Core(sh, s') && Fresh(s') && e in s'.want && s'.want[e] && e !in s'.running + s'.failed
  {
    hide Core;
    InGraph(sh, s, e);
    assert s.planned + {e} == s.planned;
    Insert(sh, s, s', e, true);
  }

  /** The entry of `e` was set, and `e` was scheduled if its producers are ready, and counted. */
  lemma NowWanted(s0: PlanState, s1: PlanState, s2: PlanState, s3: PlanState, e: Edge, r: bool)
    requires Fresh(s0) && e in s0.want && s1 == s0.(want := s0.want[e := true], wanted := s0.wanted + 1)
    requires if r then Admitted(s1, s2, e) else s2 == s1
    requires s3 == s2.(commands := s3.commands)
    ensures Fresh(s3) && s0.Scheduled() <= s3.Scheduled() && (r ==> e in s3.Scheduled())
    ensures s3 == s0.(want := s0.want[e := true], ready := s3.ready, delayed := s3.delayed, use := s3.use,
                      wanted := s0.wanted + 1, commands := s3.commands)
    ensures s2.commands == s0.commands
  {}

  lemma FreshIsRecorded(sh: Shape, s: PlanState)
    requires Fresh(s)
    ensures Recorded(sh, s)
  {}

  /** Counting a newly wanted edge. */
  lemma CountWanted(s: PlanState, s': PlanState, e: Edge)
    requires Counted(s) && Fresh(s) && (e in s.want ==> !s.want[e])
    requires s'.want == s.want[e := true] && s'.planned == s.planned + {e} && s'.flushed == {}
    requires s'.wanted == s.wanted + 1 && s'.commands == s.commands + if e.phony then 0 else 1
    ensures Counted(s')
  {
    hide Count;
    assert s'.Trues() == s.Trues() + {e};
    CountPlus(s.Trues(), e);
    assert s.Ran() == {} && s'.Ran() == {};
    assert s.Trues() + s.Ran() == s.Trues() && s'.Trues() + s'.Ran() == s'.Trues();
    if e.phony {
      assert Commands(s'.Trues()) == Commands(s.Trues());
    } else {
      assert Commands(s'.Trues()) == Commands(s.Trues()) + {e};
      CountPlus(Commands(s.Trues()), e);
    }
  }

  lemma CountUnwanted(s: PlanState, s': PlanState, e: Edge)
    requires Counted(s) && Fresh(s) && e !in s.want
    requires s'.want == s.want[e := false] && s'.planned == s.planned + {e} && s'.flushed == {}
    requires s'.wanted == s.wanted && s'.commands == s.commands
    ensures Counted(s')
  {
    hide Count;
    assert s'.Trues() == s.Trues() && s.Ran() == {} && s'.Ran() == {};
  }

  /** `Enter` for an edge that has no entry yet. */
  lemma Entered(sh: Shape, s: PlanState, s': PlanState, e: Edge, node: Node, cone: set<Edge>)
    requires Adding(sh, s) && Scanned(sh, s.done, s.dirty, cone)
    requires e in cone && node in sh.Outs(e) && e !in s.done && e !in s.want
    requires Grown(s, s', cone) && s'.planned == s.planned + {e} && s'.want == s.want[e := node in s.dirty]
    requires s'.wanted == s.wanted + (if node in s.dirty then 1 else 0)
    requires s'.commands == s.commands + if node in s.dirty && !e.phony then 1 else 0
    requires s.Scheduled() <= s'.Scheduled()
    requires node in s.dirty && sh.Prods(e) <= s.done ==> e in s'.Scheduled()
    ensures Adding(sh, s')
  {
    hide Shape.Prods, Overdue, WantsDirty, Counted;
    if node in s.dirty {
      CountWanted(s, s', e);
    } else {
      CountUnwanted(s, s', e);
    }
    EnteredWants(sh, s, s', e, node, cone);
    EnteredOverdue(sh, s, s', e, node, cone);
  }

  lemma EnteredWants(sh: Shape, s: PlanState, s': PlanState, e: Edge, node: Node, cone: set<Edge>)
    requires WantsDirty(sh, s) && Scanned(sh, s.done, s.dirty, cone) && e in cone && node in sh.Outs(e)
    requires s'.want == s.want[e := node in s.dirty] && s'.dirty == s.dirty
    ensures WantsDirty(sh, s')
  {
    hide Shape.Prods;
    if node in s.dirty {
      assert node in sh.OutsOf({e}) * s.dirty;
    } else {
      assert forall a :: a in sh.Outs(e) ==> a !in s.dirty;
    }
  }

  lemma EnteredOverdue(sh: Shape, s: PlanState, s': PlanState, e: Edge, node: Node, cone: set<Edge>)
    requires Overdue(sh, s) == {} && Scanned(sh, s.done, s.dirty, cone) && e in cone && node in sh.Outs(e)
    requires e !in s.done && s'.want.Keys == s.want.Keys + {e} && s'.done == s.done && s.Scheduled() <= s'.Scheduled()
    requires node in s.dirty && sh.Prods(e) <= s.done ==> e in s'.Scheduled()
    ensures Overdue(sh, s') == {}
  {
    forall f | f in Overdue(sh, s') ensures f in Overdue(sh, s) {
      assert f != e;
    }
  }

  /** An edge that is already in the plan is wanted if this output is dirty. */
  lemma AlreadyEntered(sh: Shape, s: PlanState, e: Edge, node: Node)
    requires WantsDirty(sh, s) && e in s.want && node in sh.Outs(e) && node in s.dirty
    ensures s.want[e]
  {
    assert node in sh.OutsOf({e}) * s.dirty;
  }

  /** What an error-free visit of `node` below `stack` has achieved. */
  ghost predicate Explored(sh: Shape, s: PlanState, s': PlanState, cone: set<Edge>, stack: seq<Node>,
                           d: Search, d': Search, node: Node)
  {
    && Core(sh, s') && Adding(sh, s') && Searching(sh, s', stack, d')
    && Grown(s, s', cone) && Visited(sh, s', d', node) && Extends(d, d')
  }

  /** What a visit has achieved that reported a cycle: the path is closed, and runs through nodes by
      which edges that are not ready came into the plan. */
  ghost predicate FoundCycle(sh: Shape, done: set<Edge>, path: seq<Node>, d: Search, d': Search)
  {
    && ClosedWalk(sh, path) && NodesIn(path) <= d'.entered && d.entered <= d'.entered
    && OncePerEdge(sh, d'.entered) && Makers(sh, NodesIn(path)) !! done
  }

  lemma CycleOnStack(sh: Shape, s: PlanState, stack: seq<Node>, d: Search, at: nat, node: Node)
    requires Core(sh, s) && Searching(sh, s, stack, d) && at < |stack| && stack[at] == node
    requires node in sh.producer && node in sh.Ins(sh.producer[stack[|stack| - 1]])
    ensures FoundCycle(sh, s.done, stack[at..] + [node], d, d)
  {
    hide Core, SourcesPresent, Topological, Trapped, Open, OncePerEdge, EnteredFirst;
    EntriesNotDone(sh, s);
    StackWithCycle(sh, stack, at, node);
    assert NodesIn(stack[at..] + [node]) <= NodesIn(stack) by {
      assert forall n :: n in stack[at..] + [node] ==> n in stack;
    }
  }

  lemma EntriesNotDone(sh: Shape, s: PlanState)
    requires Core(sh, s)
    ensures s.want.Keys !! s.done
  {
    hide Recorded, Accounted, FullOrEmpty;
  }

  lemma NothingToDo(sh: Shape, s: PlanState, cone: set<Edge>, stack: seq<Node>, d: Search, d': Search, node: Node)
    requires Core(sh, s) && Adding(sh, s) && Extends(d, d')
    requires Searching(sh, s, stack, d') && Visited(sh, s, d', node)
    ensures Explored(sh, s, s, cone, stack, d, d', node)
  {
    hide Core, Adding, Searching, Visited;
  }

  /** An edge of the plan has been visited unless it is open; then `node` is another of its outputs,
      and every open edge needs an open edge. */
  lemma InPlanAlready(sh: Shape, s: PlanState, stack: seq<Node>, d: Search, node: Node) returns (d': Search)
    requires Searching(sh, s, stack, d) && node !in stack
    requires sh.WellFormed() && node in sh.producer && sh.producer[node] in s.want
    requires stack != [] ==>
      stack[|stack| - 1] in sh.producer && node in sh.Ins(sh.producer[stack[|stack| - 1]])
    ensures Extends(d, d') && Searching(sh, s, stack, d') && Visited(sh, s, d', node)
    ensures d' == d.(trap := if sh.producer[node] in Open(sh, stack) then d.trap + Open(sh, stack) else d.trap)
  {
    hide Searching, Trapped, Open, Shape.WellFormed;
    d' := d;
    if sh.producer[node] in Open(sh, stack) {
      TrapGrows(sh, s, stack, d, node);
      d' := d.(trap := d.trap + Open(sh, stack));
    } else {
      PlanEdgeVisited(sh, s, stack, d, sh.producer[node]);
    }
    if sh.producer[node] in Open(sh, stack) {
      OpenNotEntered(sh, s, stack, d, node);
    }
  }

  lemma OpenNotEntered(sh: Shape, s: PlanState, stack: seq<Node>, d: Search, node: Node)
    requires Searching(sh, s, stack, d) && node !in stack && node in sh.producer && sh.producer[node] in Open(sh, stack)
    ensures node !in d.entered
  {
    hide SourcesPresent, Topological, Trapped, Shape.SingleOutput, Shape.Prods, InTurn;
    var m :| m in stack && m in sh.producer && sh.producer[m] == sh.producer[node];
    assert m in NodesIn(stack);
  }

  lemma PlanEdgeVisited(sh: Shape, s: PlanState, stack: seq<Node>, d: Search, e: Edge)
    requires Searching(sh, s, stack, d) && e in s.want && e !in Open(sh, stack)
    ensures e in d.order
  {
    hide SourcesPresent, Topological, Trapped, OncePerEdge, Open, NodesIn, Shape.SingleOutput, Walk, InTurn;
  }

  lemma TrapGrows(sh: Shape, s: PlanState, stack: seq<Node>, d: Search, node: Node)
    requires Searching(sh, s, stack, d) && node !in stack && sh.WellFormed()
    requires node in sh.producer && sh.producer[node] in Open(sh, stack)
    requires stack != [] ==>
      stack[|stack| - 1] in sh.producer && node in sh.Ins(sh.producer[stack[|stack| - 1]])
    ensures Searching(sh, s, stack, d.(trap := d.trap + Open(sh, stack))) && Open(sh, stack) != {}
  {
    hide Searching, Trapped, Open, Shape.WellFormed, Shape.SingleOutput, Walk;
    SearchingParts(sh, s, stack, d);
    AnotherOutput(sh, stack, node);
    OpenHasTop(sh, stack, node);
    OpenIsTrapped(sh, stack, node);
    TrappedUnion(sh, d.trap, Open(sh, stack));
    WithTrap(sh, s, stack, d, d.trap + Open(sh, stack));
  }

  lemma SearchingParts(sh: Shape, s: PlanState, stack: seq<Node>, d: Search)
    requires Searching(sh, s, stack, d)
    ensures Walk(sh, stack) && Open(sh, stack) <= s.want.Keys && Trapped(sh, d.trap) && d.trap <= s.want.Keys
  {}

  lemma WithTrap(sh: Shape, s: PlanState, stack: seq<Node>, d: Search, trap: set<Edge>)
    requires Searching(sh, s, stack, d) && Trapped(sh, trap) && d.trap <= trap <= s.want.Keys && trap != {}
    requires !sh.SingleOutput()
    ensures Searching(sh, s, stack, d.(trap := trap))
  {
    hide Topological, Trapped, OncePerEdge, Open, NodesIn, Shape.SingleOutput, Shape.Prods, Walk, SourcesPresent;
    hide Makers, EnteredFirst;
  }

  lemma AnotherOutput(sh: Shape, stack: seq<Node>, node: Node)
    requires sh.WellFormed() && node in sh.producer && sh.producer[node] in Open(sh, stack) && node !in stack
    ensures !sh.SingleOutput()
  {
    hide Shape.WellFormed, Shape.SingleOutput;
    var m :| m in stack && m in sh.producer && sh.producer[m] == sh.producer[node];
    if sh.SingleOutput() {
      OnlyOutput(sh, m, node);
    }
  }

  lemma TrappedUnion(sh: Shape, a: set<Edge>, b: set<Edge>)
    requires Trapped(sh, a) && Trapped(sh, b)
    ensures Trapped(sh, a + b)
  {
    forall e | e in a + b ensures sh.Prods(e) * (a + b) != {} {
      var p :| p in sh.Prods(e) && p in if e in a then a else b;
      assert p in sh.Prods(e) * (a + b);
    }
  }

  lemma OpenHasTop(sh: Shape, stack: seq<Node>, node: Node)
    requires node in sh.producer && sh.producer[node] in Open(sh, stack)
    ensures stack != []
  {}

  lemma OpenIsTrapped(sh: Shape, stack: seq<Node>, node: Node)
    requires Walk(sh, stack) && stack != [] && node in sh.Ins(sh.producer[stack[|stack| - 1]])
    requires node in sh.producer && sh.producer[node] in Open(sh, stack)
    ensures Trapped(sh, Open(sh, stack))
  {
    forall e | e in Open(sh, stack) ensures sh.Prods(e) * Open(sh, stack) != {} {
      var k :| 0 <= k < |stack| && sh.producer[stack[k]] == e;
      var next := if k + 1 < |stack| then stack[k + 1] else node;
      ProdsOf(sh, e, next);
      assert sh.producer[next] in sh.Prods(e) * Open(sh, stack);
    }
  }

  /** A trap cannot be put in order, whatever else is in the plan. */
  lemma TrapIsCyclic(sh: Shape, planned: set<Edge>, trap: set<Edge>, rank: map<Edge, nat>, e: Edge)
    requires Trapped(sh, trap) && trap <= planned && Ranked(sh, planned, rank)
    ensures e !in trap
    decreases if e in rank then rank[e] else 0
  {
    if e in trap {
      var p :| p in sh.Prods(e) * trap;
      TrapIsCyclic(sh, planned, trap, rank, p);
    }
  }

  lemma OnlyOutput(sh: Shape, a: Node, b: Node)
    requires sh.WellFormed() && sh.SingleOutput()
    requires a in sh.producer && b in sh.producer && sh.producer[a] == sh.producer[b]
    ensures a == b
  {
    var edge := sh.producer[a];
    assert a in sh.outs[edge] && b in sh.outs[edge];
    assert |sh.Outs(edge)| == 1;
  }

  lemma NeededNode(sh: Shape, s: PlanState, cone: set<Edge>, node: Node)
    requires sh.WellFormed() && Scanned(sh, s.done, s.dirty, cone) && NeededFrom(sh, s, cone, node)
    ensures node in sh.nodes
    ensures node in sh.producer ==> sh.producer[node] in s.done + cone && node in sh.Outs(sh.producer[node])
    ensures node in sh.producer ==> sh.producer[node] in sh.edges && sh.producer[node].pool in sh.pools
  {}

  lemma NeededInput(sh: Shape, s: PlanState, cone: set<Edge>, e: Edge, n: Node)
    requires sh.WellFormed() && Scanned(sh, s.done, s.dirty, cone) && e in cone && n in sh.Ins(e)
    ensures NeededFrom(sh, s, cone, n)
  {
    if n in sh.producer {
      ProdsOf(sh, e, n);
    }
  }

  lemma GrownFacts(s: PlanState, s': PlanState, cone: set<Edge>)
    requires Grown(s, s', cone)
    ensures s'.done == s.done && s'.dirty == s.dirty && s.want.Keys <= s'.want.Keys
  {}

  ghost predicate AllVisited(sh: Shape, s: PlanState, d: Search, nodes: seq<Node>)
  {
    forall n :: n in nodes ==> Visited(sh, s, d, n)
  }

  lemma NoneVisited(sh: Shape, s: PlanState, d: Search)
    ensures AllVisited(sh, s, d, [])
  {}

  lemma NextInput(sh: Shape, s1: PlanState, before: PlanState, s: PlanState, cone: set<Edge>, stack: seq<Node>,
                  d1: Search, d: Search, d': Search, inputs: seq<Node>, i: nat)
    requires i < |inputs| && AllVisited(sh, before, d, inputs[..i]) && Grown(s1, before, cone) && Extends(d1, d)
    requires Searching(sh, before, stack, d) && Explored(sh, before, s, cone, stack, d, d', inputs[i])
    ensures Core(sh, s) && Adding(sh, s) && Searching(sh, s, stack, d')
    ensures Grown(s1, s, cone) && Extends(d1, d') && s1.want.Keys <= s.want.Keys
    ensures s.done == s1.done && s.dirty == s1.dirty
    ensures AllVisited(sh, s, d', inputs[..i + 1])
  {
    hide Core, Adding, Searching, Visited;
    GrownTransitive(s1, before, s, cone);
    AllEntered(sh, before, stack, d);
    AllEntered(sh, s, stack, d');
    forall n | n in inputs[..i] ensures Visited(sh, s, d', n) {
      VisitedStays(sh, before, s, d, d', n, cone);
    }
    assert forall n :: n in inputs[..i + 1] <==> n in inputs[..i] || n == inputs[i];
  }

  lemma AllEntered(sh: Shape, s: PlanState, stack: seq<Node>, d: Search)
    requires Searching(sh, s, stack, d)
    ensures Makers(sh, d.entered) == s.want.Keys && OncePerEdge(sh, d.entered)
  {}

  lemma FinishVisit(sh: Shape, s0: PlanState, s1: PlanState, s: PlanState, cone: set<Edge>, stack: seq<Node>,
                    d: Search, d': Search, node: Node)
    requires Core(sh, s) && Adding(sh, s) && Searching(sh, s, stack + [node], d')
    requires Extends(d, d') && Grown(s0, s1, cone) && Grown(s1, s, cone)
    requires node in sh.producer && AllVisited(sh, s, d', sh.Ins(sh.producer[node]))
    ensures Explored(sh, s0, s, cone, stack, d, d'.(order := d'.order + [sh.producer[node]]), node)
  {
    hide Core, Adding, Searching, Visited;
    GrownTransitive(s0, s1, s, cone);
    Pop(sh, s, stack, d', node);
  }

  lemma FoundLater(sh: Shape, done: set<Edge>, err: AddError, d0: Search, d: Search, d': Search)
    requires err.DependencyCycle? ==> FoundCycle(sh, done, err.path, d, d')
    requires d0.entered <= d.entered
    ensures err.DependencyCycle? ==> FoundCycle(sh, done, err.path, d0, d')
  {}

  lemma GrownReflexive(s: PlanState, cone: set<Edge>)
    ensures Grown(s, s, cone)
  {}

  lemma InCone(sh: Shape, s: PlanState, cone: set<Edge>, node: Node)
    requires sh.WellFormed() && Scanned(sh, s.done, s.dirty, cone)
    requires node in sh.producer && sh.producer[node] in cone
    ensures sh.producer[node] in sh.edges && node in sh.Outs(sh.producer[node])
  {}

  lemma CommandsFree(sh: Shape, s: PlanState, s': PlanState)
    requires Core(sh, s) && s' == s.(commands := s'.commands)
    ensures Core(sh, s')
  {
    hide Accounted, FullOrEmpty;
    forall pool | pool in sh.pools ensures Accounted(s', pool) && FullOrEmpty(s', pool) {
      SamePools(s, s', pool);
    }
  }

  lemma EmptySearch(sh: Shape, s: PlanState)
    requires s.want == map[]
    ensures Searching(sh, s, [], Search([], {}, {}))
  {
    assert Open(sh, []) == {} && NodesIn([]) == {} && EdgesIn([]) == {};
  }

  lemma EmptyPlan(sh: Shape, s: PlanState)
    requires sh.WellFormed() && s.done <= sh.edges
    requires s == PlanState(map[], {}, {}, {}, {}, s.done, s.dirty, map p | p in sh.pools :: 0, 0, 0, {}, {}, [])
    ensures Core(sh, s) && Adding(sh, s) && Searching(sh, s, [], Search([], {}, {}))
    ensures forall pool :: InPool(s.delayed, pool) == {}
  {
    hide Count, Searching, Shape.Prods;
    EmptyCount();
    EmptySearch(sh, s);
    assert s.Trues() == {} && s.Ran() == {} && Commands(s.Trues() + s.Ran()) == {};
    forall pool | pool in sh.pools ensures Accounted(s, pool) && FullOrEmpty(s, pool) {
      assert InPool(s.Busy(), pool) == {} && InPool(s.flushed, pool) == {};
    }
  }

  /** Along a walk the ranks of the edges fall. */
  lemma {:induction false} WalkFalls(sh: Shape, path: seq<Node>, rank: map<Edge, nat>, k: nat)
    requires sh.WellFormed() && Ranked(sh, sh.edges, rank) && Walk(sh, path) && k < |path|
    ensures sh.producer[path[0]] in rank && sh.producer[path[k]] in rank
    ensures rank[sh.producer[path[k]]] + k <= rank[sh.producer[path[0]]]
    decreases k
  {
    hide Shape.WellFormed;
    ProducerInGraph(sh, path[k]);
    if k > 0 {
      WalkFalls(sh, path, rank, k - 1);
      ProdsOf(sh, sh.producer[path[k - 1]], path[k]);
    }
  }

  lemma ProducerInGraph(sh: Shape, n: Node)
    requires sh.WellFormed() && n in sh.producer
    ensures sh.producer[n] in sh.edges
  {}

  /** No cycle is reported for a graph that has none. */
  lemma NoFalseAlarm(sh: Shape, path: seq<Node>)
    requires sh.WellFormed() && Acyclic(sh, sh.edges)
    ensures !ClosedWalk(sh, path)
  {
    hide Shape.WellFormed;
    if ClosedWalk(sh, path) {
      var rank :| Ranked(sh, sh.edges, rank);
      WalkFalls(sh, path, rank, |path| - 1);
    }
  }
}
