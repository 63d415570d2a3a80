// The build plan (src/build.h, src/build.cc): which edges are wanted, which are ready, and how the
// end of one edge makes others ready.

module Plan {
  import opened Graph
  import opened PlanModel
  import opened PlanSteps
  import opened PlanCascade
  import opened PlanTargets
  import opened PlanCycles
  import opened PlanPruning
  import opened Staleness

  class Plan {
    var want: map<Edge, bool>
    var ready: set<Edge>
    var commandEdges: int
    var wantedEdges: int
    const sh: Shape
    ghost var s: PlanState

    /** An empty plan over scanned edges and nodes and unused pools. */
    constructor (sh: Shape)
      requires sh.WellFormed()
      requires forall p :: p in sh.pools ==> p.currentUse == 0 && p.delayed == {}
      ensures this.sh == sh && Linked() && Core(sh, s) && Adding(sh, s) && Searching(sh, s, [], Search([], {}, {}))
      ensures s.want == map[] && s.planned == {} && s.done <= sh.edges && s.dirty <= sh.nodes
      ensures forall e :: e in sh.edges ==> (e in s.done <==> e.outputsReady)
      ensures forall n :: n in sh.nodes ==> (n in s.dirty <==> n.dirty)
    {
      hide Core, Adding, Searching, InPool, Shape.WellFormed;
      this.sh := sh;
      want, ready, commandEdges, wantedEdges := map[], {}, 0, 0;
      s := PlanState(map[], {}, {}, {}, {}, set e | e in sh.edges && e.outputsReady,
                     set n | n in sh.nodes && n.dirty, map p | p in sh.pools :: 0, 0, 0, {}, {}, []);
      new;
      EmptyPlan(sh, s);
    }

    /** The fields of the plan, the edges, the nodes and the pools hold the values of `s`. */
    ghost predicate Linked()
      reads this, sh.edges, sh.nodes, sh.pools
    {
      && sh.WellFormed()
      && want == s.want && ready == s.ready && commandEdges == s.commands && wantedEdges == s.wanted
      && sh.Flagged(s.done, s.dirty) && sh.PoolsHold(s.use, s.delayed)
    }

    predicate MoreToDo()
      reads this`wantedEdges, this`commandEdges
    {
      wantedEdges > 0 && commandEdges > 0
    }

    function CommandEdgeCount(): int
      reads this`commandEdges
    {
      commandEdges
    }

    /** Adds `node` and what it needs to the plan. Unless an error is reported, the plan is closed
        under unready producers, nothing outside the scanned region is in it, it wants exactly its
        dirty edges, everything that can be scheduled is, and `d'.order` lists its edges with
        producers first, except when a trap was met. A cycle that is reported is one, and none is left
        among the files by which edges came into the plan. So the plan can be put in order if each
        output of an edge on a cycle is needed to make that edge; and where all cycles run through
        the edge of `node`, one is reported exactly if `node` is needed to make it. */
    method AddTarget(node: Node, ghost cone: set<Edge>, ghost d: Search)
      returns (added: bool, err: AddError, ghost d': Search)
      requires Linked() && Core(sh, s) && Adding(sh, s) && Searching(sh, s, [], d)
      requires Scanned(sh, s.done, s.dirty, cone) && NeededFrom(sh, s, cone, node)
      modifies this, sh.pools
      ensures Linked()
      ensures err == NoError ==> Explored(sh, old(s), s, cone, [], d, d', node)
      ensures err.MissingInput? ==> err.node in old(s).dirty && err.node in sh.nodes && err.node !in sh.producer
      ensures err.DependencyCycle? ==> FoundCycle(sh, old(s).done, err.path, d, d')
      ensures node !in sh.producer ==> (err == NoError <==> node !in old(s).dirty)
      ensures node !in sh.producer ==> s == old(s) && !err.DependencyCycle?
      ensures node in sh.producer && sh.producer[node] !in old(s).done + old(s).want.Keys ==> node in d'.entered
      ensures err == NoError && node in sh.producer && sh.producer[node] !in old(s).done + old(s).want.Keys
        ==> d'.order != [] && d'.order[|d'.order| - 1] == sh.producer[node]
      ensures added == (err == NoError && node in sh.producer && sh.producer[node] !in old(s).done)
      ensures err == NoError ==> CyclesCaught(sh, d'.entered) && (Catchable(sh, old(s).done) ==> Acyclic(sh, s.planned))
      ensures node in sh.producer && sh.producer[node] !in old(s).done + old(s).want.Keys ==>
        Uses(sh, old(s).done, sh.producer[node], node) ==> err != NoError
      ensures node in sh.producer && sh.producer[node] !in old(s).done + old(s).want.Keys ==>
        err.DependencyCycle? && AllThrough(sh, old(s).done, sh.producer[node]) ==>
          Uses(sh, old(s).done, sh.producer[node], node)
    {
      assert sh.WellFormed();
      hide *;
      ghost var s0 := s;
      added, err, d' := AddSubTarget(node, [], cone, d);
      if err == NoError {
        SearchEnds(sh, s0, s, cone, d, d', node);
      } else if err.DependencyCycle? && node in d'.entered && node in sh.producer {
        if AllThrough(sh, s0.done, sh.producer[node]) {
          OnlyUsedIsReported(sh, s0.done, err.path, d, d', node);
        }
      }
    }

    /** The search of `AddTarget`, with the nodes being visited on `stack`. */
    method AddSubTarget(node: Node, stack: seq<Node>, ghost cone: set<Edge>, ghost d: Search)
      returns (added: bool, err: AddError, ghost d': Search)
      requires Linked() && Core(sh, s) && Adding(sh, s) && Searching(sh, s, stack, d)
      requires Scanned(sh, s.done, s.dirty, cone) && NeededFrom(sh, s, cone, node)
      requires stack != [] ==>
        stack[|stack| - 1] in sh.producer && node in sh.Ins(sh.producer[stack[|stack| - 1]])
      modifies this, sh.pools
      ensures Linked() && s.dirty == old(s).dirty && s.done == old(s).done
      ensures err == NoError ==> Explored(sh, old(s), s, cone, stack, d, d', node)
      ensures err.MissingInput? ==> err.node in old(s).dirty && err.node in sh.nodes && err.node !in sh.producer
      ensures err.DependencyCycle? ==> FoundCycle(sh, old(s).done, err.path, d, d')
      ensures node !in sh.producer ==> (err == NoError <==> node !in old(s).dirty)
      ensures node !in sh.producer ==> s == old(s) && !err.DependencyCycle?
      ensures added == (err == NoError && node in sh.producer && sh.producer[node] !in old(s).done)
      ensures err != NoError ==> d.entered <= d'.entered
      ensures stack == [] && node in sh.producer && sh.producer[node] !in old(s).done + old(s).want.Keys
        ==> node in d'.entered
      ensures err == NoError && node in sh.producer && sh.producer[node] !in old(s).done + old(s).want.Keys
        ==> d'.order != [] && d'.order[|d'.order| - 1] == sh.producer[node]
      decreases sh.edges - want.Keys, 0
    {
      hide Core, Adding, Scanned, NeededFrom, Searching, AllVisited, Grown, Explored, FoundCycle, Open;
      hide Shape.WellFormed, Shape.PoolsHold;
      NeededNode(sh, s, cone, node);
      added, err, d' := false, NoError, d;
      if node !in sh.producer {
        if node.dirty {
          err := MissingInput(node, if stack == [] then None else Some(stack[|stack| - 1]));
        } else {
          NothingToDo(sh, s, cone, stack, d, d, node);
        }
        return;
      }
      var edge := sh.producer[node];
      var at := Find(stack, node);
      if at < |stack| {
        CycleOnStack(sh, s, stack, d, at, node);
        err := DependencyCycle(stack[at..] + [node]);
        return;
      }
      if edge.outputsReady {
        NothingToDo(sh, s, cone, stack, d, d, node);
        return;
      }
      added := true;
      if edge in want {
        d' := InPlanAlready(sh, s, stack, d, node);
        NothingToDo(sh, s, cone, stack, d, d', node);
      }
      var isNew := Enter(node, edge, cone);
      if !isNew {
        return;
      }
      ghost var s0, s1 := old(s), s;
      Push(sh, s0, s1, stack, d, node, cone);
      GrownFacts(s0, s1, cone);
      err, d' := AddInputs(edge, node, stack + [node], cone, d.(entered := d.entered + {node}));
      if err != NoError {
        added := false;
        FoundLater(sh, s.done, err, d, d.(entered := d.entered + {node}), d');
        return;
      }
      FinishVisit(sh, s0, s1, s, cone, stack, d, d', node);
      d' := d'.(order := d'.order + [edge]);
    }

    /** The loop of `AddSubTarget` over the inputs of `edge`, which makes the top of the stack. */
    method AddInputs(edge: Edge, node: Node, stack: seq<Node>, ghost cone: set<Edge>, ghost d: Search)
      returns (err: AddError, ghost d': Search)
      requires Linked() && Core(sh, s) && Adding(sh, s) && Searching(sh, s, stack, d)
      requires Scanned(sh, s.done, s.dirty, cone) && edge in cone
      requires |stack| > 0 && stack[|stack| - 1] == node && node in sh.producer && sh.producer[node] == edge
      modifies this, sh.pools
      ensures Linked() && s.dirty == old(s).dirty && s.done == old(s).done && d.entered <= d'.entered
      ensures err == NoError ==> Core(sh, s) && Adding(sh, s) && Searching(sh, s, stack, d')
      ensures err == NoError ==> Grown(old(s), s, cone) && Extends(d, d') && AllVisited(sh, s, d', sh.Ins(edge))
      ensures err.MissingInput? ==> err.node in old(s).dirty && err.node in sh.nodes && err.node !in sh.producer
      ensures err.DependencyCycle? ==> FoundCycle(sh, old(s).done, err.path, d, d')
      decreases sh.edges - want.Keys, 1
    {
      hide Core, Adding, Scanned, NeededFrom, Searching, AllVisited, Grown, Explored, FoundCycle;
      hide Shape.WellFormed, Shape.PoolsHold, Shape.Flagged;
      ghost var s1 := s;
      err, d' := NoError, d;
      GrownReflexive(s1, cone);
      var inputs := sh.Ins(edge);
      assert AllVisited(sh, s1, d, inputs[..0]) by { NoneVisited(sh, s1, d); }
      for i := 0 to |inputs|
        invariant Linked() && Core(sh, s) && Adding(sh, s) && Searching(sh, s, stack, d')
        invariant Grown(s1, s, cone) && Extends(d, d') && s1.want.Keys <= want.Keys
        invariant s.done == s1.done && s.dirty == s1.dirty && err == NoError
        invariant AllVisited(sh, s, d', inputs[..i])
      {
        ghost var before, dBefore := s, d';
        NeededInput(sh, s, cone, edge, inputs[i]);
        var added;
        added, err, d' := AddSubTarget(inputs[i], stack, cone, d');
        if !added && err != NoError {
          FoundLater(sh, s.done, err, d, dBefore, d');
          return;
        }
        NextInput(sh, s1, before, s, cone, stack, d, dBefore, d', inputs, i);
      }
      assert inputs[..|inputs|] == inputs;
    }

    /** `find(stack.begin(), stack.end(), node)`. */
    static method Find(stack: seq<Node>, node: Node) returns (at: nat)
      ensures at <= |stack| && node !in stack[..at] && (at < |stack| ==> stack[at] == node)
    {
      at := 0;
      while at < |stack| && stack[at] != node
        invariant at <= |stack| && node !in stack[..at]
      {
        at := at + 1;
      }
    }

    /** Gives `edge` its entry in the plan, as wanted if its output `node` is dirty. */
    method Enter(node: Node, edge: Edge, ghost cone: set<Edge>) returns (isNew: bool)
      requires Linked() && Core(sh, s) && Adding(sh, s) && Scanned(sh, s.done, s.dirty, cone)
      requires node in sh.nodes && node in sh.producer && sh.producer[node] == edge && edge in cone && edge !in s.done
      modifies this, sh.pools
      ensures Linked() && Core(sh, s) && Adding(sh, s) && Grown(old(s), s, cone)
      ensures isNew == (edge !in old(s).want) && s.want.Keys == old(s).want.Keys + {edge}
      ensures !isNew ==> s == old(s)
    {
      hide Core, Scanned, Counted, Overdue, WantsDirty, Shape.WellFormed, Shape.PoolsHold;
      ghost var s0 := s;
      InCone(sh, s, cone, node);
      isNew := edge !in want;
      if isNew {
        want := want[edge := false];
        s := s.(want := want, planned := s.planned + {edge});
        Insert(sh, s0, s, edge, false);
      } else if node.dirty {
        AlreadyEntered(sh, s, edge, node);
      }
      if node.dirty && !want[edge] {
        Want(edge);
      }
      if isNew {
        Entered(sh, s0, s, edge, node, cone);
      }
    }

    /** Marks an entry of the plan as wanted. */
    method Want(edge: Edge)
      requires Linked() && Core(sh, s) && Fresh(s) && edge in s.want && !s.want[edge]
      modifies this, sh.pools
      ensures Linked() && Core(sh, s) && Fresh(s)
      ensures s == old(s).(want := old(s).want[edge := true], ready := s.ready, delayed := s.delayed, use := s.use,
                           wanted := old(s).wanted + 1, commands := old(s).commands + if edge.phony then 0 else 1)
      ensures old(s).Scheduled() <= s.Scheduled()
      ensures sh.Prods(edge) <= s.done ==> edge in s.Scheduled()
    {
      hide *;
      ghost var s0 := s;
      InGraph(sh, s, edge);
      SetWanted(edge);
      Inserted(sh, s0, s, edge);
      ghost var s1 := s;
      var r := AllInputsReady(edge);
      if r {
        ScheduleWork(edge);
      }
      ghost var s2 := s;
      CountCommand(edge);
      NowWanted(s0, s1, s2, s, edge, r);
    }

    method SetWanted(edge: Edge)
      requires Linked() && edge in s.want
      modifies this`want, this`wantedEdges, this`s
      ensures Linked() && s == old(s).(want := old(s).want[edge := true], wanted := old(s).wanted + 1)
    {
      hide Shape.WellFormed, Shape.PoolsHold, Shape.Flagged;
      want := want[edge := true];
      wantedEdges := wantedEdges + 1;
      s := s.(want := want, wanted := s.wanted + 1);
    }

    method CountCommand(edge: Edge)
      requires Linked() && Core(sh, s)
      modifies this`commandEdges, this`s
      ensures Linked() && Core(sh, s)
      ensures s == old(s).(commands := old(s).commands + if edge.phony then 0 else 1)
    {
      hide Core, Shape.WellFormed, Shape.PoolsHold, Shape.Flagged;
      if !edge.phony {
        commandEdges := commandEdges + 1;
        s := s.(commands := s.commands + 1);
        CommandsFree(sh, old(s), s);
      }
    }

    /** Takes some ready edge: an edge that never ran before, whose inputs are all made. */
    method FindWork() returns (edge: Edge?)
      requires Linked() && Core(sh, s)
      modifies this
      ensures edge == null <==> old(ready) == {}
      ensures edge == null ==> s == old(s)
      ensures edge != null ==> Taken(old(s), s, edge)
      ensures Linked() && Core(sh, s) && Overdue(sh, s) == Overdue(sh, old(s))
    {
      hide Core, Overdue, InPool, Count, Shape.WellFormed, Shape.Flagged;
      if ready == {} {
        return null;
      }
      edge :| edge in ready;
      ready := ready - {edge};
      s := s.(ready := ready, running := s.running + {edge}, trace := s.trace + [Started(edge)]);
      Start(sh, old(s), s, edge);
    }

    /** A command that fails changes nothing in the plan: its edge keeps its entry and its slot. */
    ghost method CommandFailed(edge: Edge)
      requires Linked() && edge in s.running
      modifies this`s
      ensures Linked() && s == old(s).(running := old(s).running - {edge}, failed := old(s).failed + {edge})
    {
      s := s.(running := s.running - {edge}, failed := s.failed + {edge});
    }

    /** The call `pool->RetrieveReadyEdges(&ready_)`. */
    method RetrieveFrom(pool: Pool) returns (ghost moved: set<Edge>)
      requires Linked() && pool in sh.pools && (pool.depth == 0 ==> InPool(s.delayed, pool) == {})
      modifies this`ready, this`s, pool
      ensures Linked()
      ensures moved <= InPool(old(s).delayed, pool)
      ensures s == old(s).(ready := old(s).ready + moved, delayed := old(s).delayed - moved,
                           use := old(s).use[pool := old(s).use[pool] + Count(moved)])
      ensures InPool(s.delayed, pool) == {} || pool.depth <= s.use[pool]
      ensures moved != {} ==> s.use[pool] <= pool.depth
    {
      hide Count, InPool, Shape.WellFormed, Shape.Flagged;
      ready, moved := pool.RetrieveReadyEdges(ready);
      s := s.(ready := ready, delayed := s.delayed - moved, use := s.use[pool := s.use[pool] + Count(moved)]);
      forall p | p in sh.pools
        ensures p in s.use && p.currentUse == s.use[p] && p.delayed == InPool(s.delayed, p)
      {
        InPoolMinus(old(s).delayed, moved, pool);
        if p != pool {
          assert InPool(s.delayed, p) == InPool(old(s).delayed, p);
        }
      }
      assert Linked();
    }

    /** Lets `pool` hand out its free slots. */
    method Resume(pool: Pool)
      requires Linked() && Core(sh, s, {pool}) && pool in sh.pools
      modifies this`ready, this`s, pool
      ensures Linked() && Core(sh, s)
      ensures s == old(s).(ready := s.ready, delayed := s.delayed, use := s.use)
      ensures old(s).ready <= s.ready && s.ready + s.delayed == old(s).ready + old(s).delayed
      ensures Overdue(sh, s) == Overdue(sh, old(s))
    {
      hide *;
      if pool.depth == 0 {
        UnboundedNeverDelays(sh, s, pool, {pool});
      }
      ghost var moved := RetrieveFrom(pool);
      Retrieve(sh, old(s), s, pool, moved);
    }

    method ScheduleWork(edge: Edge)
      requires Linked() && Core(sh, s)
      requires edge in s.want && s.want[edge] && sh.Prods(edge) <= s.done && edge !in s.running + s.failed
      modifies this, sh.pools
      ensures Linked() && Core(sh, s) && Admitted(old(s), s, edge)
    {
      hide Core, Overdue, InPool, Count, Shape.WellFormed, Shape.Flagged;
      InGraph(sh, s, edge);
      var pool := edge.pool;
      if pool.ShouldDelayEdge() {
        if edge in ready {
          return;
        }
        pool.DelayEdge(edge);
        InPoolPlus(s.delayed, edge);
        s := s.(delayed := s.delayed + {edge});
        Delay(sh, old(s), s, edge);
        Resume(pool);
      } else {
        pool.EdgeScheduled(edge);
        ready := ready + {edge};
        s := s.(ready := ready);
        MakeReady(sh, old(s), s, edge);
      }
    }

    /** Whether the producers of all inputs are ready. */
    method AllInputsReady(edge: Edge) returns (r: bool)
      requires Linked() && edge in sh.edges
      ensures r == (sh.Prods(edge) <= s.done)
    {
      var inputs := sh.Ins(edge);
      for i := 0 to |inputs|
        invariant forall n :: n in inputs[..i] && n in sh.producer ==> sh.producer[n] in s.done
      {
        var node := inputs[i];
        if node in sh.producer && !sh.producer[node].outputsReady {
          assert sh.producer[node] in sh.Prods(edge);
          return false;
        }
      }
      return true;
    }

    /** The first half of `EdgeFinished`: `edge` leaves the plan and gives its slot back. */
    method Leave(edge: Edge)
      requires Linked() && edge in s.want && edge in sh.edges && edge.pool in sh.pools
      modifies this, edge`outputsReady, edge.pool`currentUse
      ensures Linked() && edge.pool in old(s).use && s == Release(old(s), edge)
    {
      hide Shape.WellFormed, Shape.PoolsHold, Shape.Flagged, InPool;
      ghost var s0 := s;
      if want[edge] {
        wantedEdges := wantedEdges - 1;
      }
      want := want - {edge};
      s := s.(want := want, wanted := wantedEdges, running := s.running - {edge},
              flushed := s.flushed + if s0.want[edge] then {} else {edge}, trace := s.trace + [Finished(edge)]);
      SetReady(edge);
      GiveBack(edge);
      assert s == Release(s0, edge);
    }

    method SetReady(edge: Edge)
      requires Linked() && edge in sh.edges
      modifies this`s, edge`outputsReady
      ensures Linked() && s == old(s).(done := old(s).done + {edge})
    {
      hide Shape.WellFormed, InPool;
      edge.outputsReady := true;
      s := s.(done := s.done + {edge});
    }

    /** The call `pool()->EdgeFinished(edge)`. */
    method GiveBack(edge: Edge)
      requires Linked() && edge.pool in sh.pools
      modifies this`s, edge.pool`currentUse
      ensures Linked() && edge.pool in old(s).use
      ensures s ==
        old(s).(use := old(s).use[edge.pool := old(s).use[edge.pool] - if edge.pool.depth != 0 then 1 else 0])
    {
      hide Shape.WellFormed, Shape.Flagged, InPool;
      edge.pool.EdgeFinished(edge);
      s := s.(use := s.use[edge.pool := edge.pool.currentUse]);
    }

    method SetClean(node: Node)
      requires Linked() && Core(sh, s) && node in sh.nodes
      modifies this`s, node`dirty
      ensures Linked() && Core(sh, s) && s == old(s).(dirty := old(s).dirty - {node})
    {
      hide Shape.WellFormed, InPool;
      node.dirty := false;
      s := s.(dirty := s.dirty - {node});
      DirtyFree(sh, old(s), s);
    }

    /** Marks `edge` as built. Whatever becomes ready by that is scheduled, and entries that are
        only passed through leave the plan in turn. */
    method EdgeFinished(edge: Edge)
      requires Linked() && Core(sh, s) && MayFinish(sh, s, edge)
      modifies this, sh.edges`outputsReady, sh.nodes`dirty, sh.pools
      ensures Linked() && Core(sh, s) && edge in old(s).want && Finish(sh, old(s), s, edge)
      decreases want.Keys, 0
    {
      hide Core, Overdue, Settled, Idle, Cascade, Finish, NodesIn, Shape.WellFormed, Shape.Flagged, Shape.PoolsHold;
      ghost var s0 := s;
      LeavingEdge(sh, s, edge);
      Leave(edge);
      ReleaseKeepsCore(sh, s0, edge);
      Resume(edge.pool);
      ghost var s1 := s;
      var outputs := sh.Outs(edge);
      CascadeReflexive(sh, s1);
      ConsumersWait(sh, s0, edge);
      assert NodesIn(outputs[..0]) == {} by { NoNodes(); }
      for i := 0 to |outputs|
        invariant Linked() && Core(sh, s)
        invariant Cascade(sh, s1, s, NodesIn(outputs[..i]))
        invariant s.running == s1.running && s.failed == s1.failed && want.Keys <= s1.want.Keys
        invariant Settled(sh, s, NodesIn(outputs[..i]))
      {
        ghost var before := s;
        assert outputs[i] in NodesIn(outputs) by { NodesInPrefix(outputs, i); }
        IdleAtAll(sh, s0, s, NodesIn(outputs), outputs[i]);
        NodeFinished(outputs[i]);
        CascadeFacts(sh, before, s, {outputs[i]});
        CascadeTransitive(sh, s1, before, s, NodesIn(outputs[..i]), {outputs[i]});
        SettledUnion(sh, before, s, NodesIn(outputs[..i]), {outputs[i]});
        NodesInPrefix(outputs, i);
      }
      assert outputs[..|outputs|] == outputs;
      CascadeFacts(sh, s1, s, NodesIn(outputs));
      OverdueAfterRelease(sh, s0, s1, s, edge);
      CascadeIsFinish(sh, s0, s1, s, edge);
    }

    /** One turn of the loop of `NodeFinished`. */
    method CheckConsumer(edge: Edge)
      requires Linked() && Core(sh, s) && edge !in s.running + s.failed
      modifies this, sh.edges`outputsReady, sh.nodes`dirty, sh.pools
      ensures Linked() && Core(sh, s) && Cascade(sh, old(s), s, {}) && edge !in Overdue(sh, s)
      decreases want.Keys, 1
    {
      hide Core, Overdue, Cascade, Finish, Admitted, Shape.Prods, Shape.WellFormed, Shape.Flagged, Shape.PoolsHold;
      ghost var s0 := s;
      NotOverdue(sh, s, edge);
      CascadeReflexive(sh, s);
      if edge in want {
        InGraph(sh, s, edge);
        var r := AllInputsReady(edge);
        if r {
          if want[edge] {
            ScheduleWork(edge);
            AdmittedIsCascade(sh, s0, s, edge);
          } else {
            EdgeFinished(edge);
            FinishIsCascade(sh, s0, s, edge);
          }
        }
      }
    }

    /** Marks `node` clean and looks at the edges that use it. */
    method NodeFinished(node: Node)
      requires Linked() && Core(sh, s) && node in sh.nodes
      requires Idle(sh, s, {node})
      modifies this, sh.edges`outputsReady, sh.nodes`dirty, sh.pools
      ensures Linked() && Core(sh, s) && Cascade(sh, old(s), s, {node})
      ensures Settled(sh, s, {node})
      decreases want.Keys, 2
    {
      hide Core, Overdue, Cascade, Finish, Admitted, Shape.Prods, Shape.WellFormed, Shape.Flagged, Shape.PoolsHold;
      ghost var s0 := s;
      SetClean(node);
      CascadeStart(sh, s0, s, node);
      var outEdges := sh.Consumers(node);
      for i := 0 to |outEdges|
        invariant Linked() && Core(sh, s) && Cascade(sh, s0, s, {node})
        invariant s.running == s0.running && s.failed == s0.failed && want.Keys <= s0.want.Keys
        invariant Overdue(sh, s) !! EdgesIn(outEdges[..i])
      {
        ghost var before := s;
        CheckConsumer(outEdges[i]);
        CascadeFacts(sh, before, s, {});
        CascadeTransitive(sh, s0, before, s, {node}, {});
        assert {node} + {} == {node};
      }
    }

    /** What the scan recorded is as `fx` says, and all files of `edges` were examined. */
    ghost predicate Known(log: Log, fx: Facts, edges: set<Edge>)
      reads sh.edges`depsMissing, sh.nodes`mtime
    {
      && Timed(sh, fx.mtimes) && fx.log == log && (forall e :: e in edges ==> AllExamined(sh, fx.mtimes, e))
      && (forall e :: e in sh.edges ==> e.depsMissing == (e in fx.missing))
    }

    /** Cleans `node` and takes every edge out of the wanted ones that has nothing left to do. */
    method CleanNode(node: Node, log: Log, ghost fx: Facts, ghost rank: map<Edge, nat>, ghost top: nat)
      requires Linked() && Core(sh, s) && Counted(s) && Known(log, fx, rank.Keys)
      requires RankedBelow(sh, s.planned, rank, top)
      requires node in sh.nodes && node in sh.producer && sh.producer[node] in s.want
      modifies this, sh.nodes`dirty
      ensures Linked() && Core(sh, s) && Counted(s) && Known(log, fx, rank.Keys)
      ensures RankedBelow(sh, s.planned, rank, top)
      ensures Pruned(sh, fx, old(s), s, {node}) && Thorough(sh, fx, old(s), s, {node}, {})
      ensures OffAbove(old(s), s, rank, sh.producer[node])
      decreases Height(rank, top, sh.producer[node]), 2
    {
      hide Core, Counted, Pruned, Thorough, Justified, Prunable, OffAbove, Touched, RankedBelow, Known, TurnOff;
      hide Shape.WellFormed, Shape.Flagged, Shape.PoolsHold;
      ghost var s0 := s;
      SetClean(node);
      var outEdges := sh.Consumers(node);
      CleanedOne(sh, fx, s0, s, node, rank, top);
      assert outEdges[0..] == outEdges;
      for j := 0 to |outEdges|
        invariant Linked() && Core(sh, s) && Counted(s) && Known(log, fx, rank.Keys)
        invariant RankedBelow(sh, s.planned, rank, top)
        invariant Pruned(sh, fx, s0, s, {node}) && Thorough(sh, fx, s0, s, {node}, EdgesIn(outEdges[j..]))
        invariant OffAbove(s0, s, rank, sh.producer[node]) && s.want.Keys == s0.want.Keys
      {
        assert EdgesIn(outEdges[j..]) == EdgesIn(outEdges[j + 1..]) + {outEdges[j]};
        PruneConsumer(node, outEdges[j], log, fx, rank, top, s0, EdgesIn(outEdges[j + 1..]));
      }
      assert EdgesIn(outEdges[|outEdges|..]) == {};
    }

    /** One turn of the loop of `CleanNode`, for an edge that uses `node`. */
    method PruneConsumer(node: Node, edge: Edge, log: Log, ghost fx: Facts, ghost rank: map<Edge, nat>, ghost top: nat,
                         ghost s0: PlanState, ghost rest: set<Edge>)
      requires Linked() && Core(sh, s) && Counted(s) && Known(log, fx, rank.Keys)
      requires RankedBelow(sh, s.planned, rank, top)
      requires node in sh.nodes && node in sh.producer && sh.producer[node] in s.want && edge in sh.Consumers(node)
      requires Pruned(sh, fx, s0, s, {node}) && Thorough(sh, fx, s0, s, {node}, rest + {edge})
      requires OffAbove(s0, s, rank, sh.producer[node])
      modifies this, sh.nodes`dirty
      ensures Linked() && Core(sh, s) && Counted(s) && Known(log, fx, rank.Keys)
      ensures RankedBelow(sh, s.planned, rank, top)
      ensures Pruned(sh, fx, s0, s, {node}) && Thorough(sh, fx, s0, s, {node}, rest)
      ensures OffAbove(s0, s, rank, sh.producer[node]) && s.want.Keys == old(s).want.Keys
      decreases Height(rank, top, sh.producer[node]), 1
    {
      hide Core, Counted, Pruned, Thorough, Justified, Prunable, OffAbove, Touched, RankedBelow, Known, TurnOff;
      hide Shape.WellFormed, Shape.Flagged, Shape.PoolsHold;
      UsesUnfinished(sh, s, node, edge);
      DropRest(sh, fx, s0, s, {node}, rest, edge);
      EntriesRanked(sh, s, rank, top);
      var prunable := IsPrunable(edge, log, fx, rank);
      if !prunable {
        return;
      }
      PrunableIsWanted(sh, fx, s, edge);
      RankedHigher(sh, s, rank, top, sh.producer[node], edge);
      Prune(node, edge, log, fx, rank, top, s0, rest);
    }

    /** The end of that turn, for an edge with nothing left to do. */
    method Prune(node: Node, edge: Edge, log: Log, ghost fx: Facts, ghost rank: map<Edge, nat>, ghost top: nat,
                 ghost s0: PlanState, ghost rest: set<Edge>)
      requires Linked() && Core(sh, s) && Counted(s) && Known(log, fx, rank.Keys)
      requires RankedBelow(sh, s.planned, rank, top)
      requires Prunable(sh, fx, s, edge) && edge in s.want && s.want[edge] && edge in sh.edges && edge !in s.Scheduled()
      requires node in sh.producer && Touched(sh, edge, {node})
      requires sh.producer[node] in rank && edge in rank && rank[sh.producer[node]] < rank[edge]
      requires Height(rank, top, edge) < Height(rank, top, sh.producer[node])
      requires Pruned(sh, fx, s0, s, {node}) && Thorough(sh, fx, s0, s, {node}, rest + {edge})
      requires OffAbove(s0, s, rank, sh.producer[node])
      modifies this, sh.nodes`dirty
      ensures Linked() && Core(sh, s) && Counted(s) && Known(log, fx, rank.Keys)
      ensures RankedBelow(sh, s.planned, rank, top)
      ensures Pruned(sh, fx, s0, s, {node}) && Thorough(sh, fx, s0, s, {node}, rest)
      ensures OffAbove(s0, s, rank, sh.producer[node]) && s.want.Keys == old(s).want.Keys
      decreases Height(rank, top, sh.producer[node]), 0
    {
      hide Core, Counted, Pruned, Thorough, Justified, Prunable, OffAbove, Touched, RankedBelow, Known, TurnOff, Height;
      hide Shape.WellFormed, Shape.Flagged, Shape.PoolsHold;
      ghost var before := s;
      CleanOutputs(edge, log, fx, rank, top, s0, {node}, rest + {edge}, sh.producer[node]);
      TurnOffDone(sh, fx, s0, before, s, node, rest, rank, sh.producer[node], edge);
      Unwant(edge);
    }

    /** The tests of that turn. */
    method IsPrunable(edge: Edge, log: Log, ghost fx: Facts, ghost rank: map<Edge, nat>) returns (r: bool)
      requires Linked() && edge in sh.edges && Known(log, fx, rank.Keys) && s.want.Keys <= rank.Keys
      ensures r == Prunable(sh, fx, s, edge)
    {
      hide Shape.WellFormed, Shape.Flagged, Shape.PoolsHold;
      if edge !in want || !want[edge] || edge.depsMissing {
        return false;
      }
      var clean := RegularInputsClean(edge);
      if !clean {
        return false;
      }
      RegularKnown(sh, fx.mtimes, edge);
      var recent := MostRecent(sh.Regular(edge), fx.mtimes);
      var stale := RecomputeOutputsDirty(sh, log, edge, recent, fx.mtimes);
      return !stale;
    }

    /** An edge with clean outputs is no longer wanted. */
    method Unwant(edge: Edge)
      requires Linked() && edge in s.want
      modifies this`want, this`wantedEdges, this`commandEdges, this`s
      ensures Linked() && s == TurnOff(old(s), edge)
    {
      want := want[edge := false];
      wantedEdges := wantedEdges - 1;
      if !edge.phony {
        commandEdges := commandEdges - 1;
      }
      s := TurnOff(s, edge);
    }

    /** Cleans the outputs of an edge that is about to be pruned. */
    method CleanOutputs(edge: Edge, log: Log, ghost fx: Facts, ghost rank: map<Edge, nat>, ghost top: nat,
                        ghost s0: PlanState, ghost nodes: set<Node>, ghost rest: set<Edge>, ghost low: Edge)
      requires Linked() && Core(sh, s) && Counted(s) && Known(log, fx, rank.Keys)
      requires RankedBelow(sh, s.planned, rank, top)
      requires edge in s.want && s.want[edge] && edge in sh.edges
      requires low in rank && edge in rank && rank[low] < rank[edge]
      requires Pruned(sh, fx, s0, s, nodes) && Thorough(sh, fx, s0, s, nodes, rest) && OffAbove(s0, s, rank, low)
      modifies this, sh.nodes`dirty
      ensures Linked() && Core(sh, s) && Counted(s) && Known(log, fx, rank.Keys)
      ensures RankedBelow(sh, s.planned, rank, top)
      ensures Pruned(sh, fx, s0, s, nodes + NodesIn(sh.Outs(edge)))
      ensures Thorough(sh, fx, s0, s, nodes + NodesIn(sh.Outs(edge)), rest) && OffAbove(s0, s, rank, low)
      ensures s == old(s).(want := s.want, dirty := s.dirty, wanted := s.wanted, commands := s.commands)
      ensures s.want.Keys == old(s).want.Keys && s.want[edge] && s.dirty <= old(s).dirty
      decreases Height(rank, top, edge), 3
    {
      hide Core, Counted, Pruned, Thorough, Justified, Prunable, OffAbove, Touched, RankedBelow, Known, TurnOff;
      hide Shape.WellFormed, Shape.Flagged, Shape.PoolsHold;
      LinkedNodes(sh, edge);
      ghost var start := s;
      var outputs := sh.Outs(edge);
      assert nodes + NodesIn(outputs[..0]) == nodes;
      for k := 0 to |outputs|
        invariant Linked() && Core(sh, s) && Counted(s) && Known(log, fx, rank.Keys)
        invariant RankedBelow(sh, s.planned, rank, top)
        invariant Pruned(sh, fx, s0, s, nodes + NodesIn(outputs[..k]))
        invariant Thorough(sh, fx, s0, s, nodes + NodesIn(outputs[..k]), rest) && OffAbove(s0, s, rank, low)
        invariant s == start.(want := s.want, dirty := s.dirty, wanted := s.wanted, commands := s.commands)
        invariant s.want.Keys == start.want.Keys && s.want[edge] && s.dirty <= start.dirty
      {
        ghost var before := s;
        ghost var ns := nodes + NodesIn(outputs[..k]);
        CleanNode(outputs[k], log, fx, rank, top);
        PrunedFacts(sh, fx, before, s, {outputs[k]}, rank, edge);
        PrunedTransitive(sh, fx, s0, before, s, ns, {outputs[k]});
        ThoroughTransitive(sh, fx, s0, before, s, ns, {outputs[k]}, rest);
        OffAboveTransitive(sh, fx, s0, before, s, ns, {outputs[k]}, rank, low, edge);
        NodesInPrefix(outputs, k);
        assert ns + {outputs[k]} == nodes + NodesIn(outputs[..k + 1]);
      }
      assert outputs[..|outputs|] == outputs;
    }

    /** `find_if(begin, end, dirty) == end` over the inputs that are not order-only. */
    method RegularInputsClean(edge: Edge) returns (r: bool)
      requires Linked() && edge in sh.edges
      ensures r == forall n :: n in sh.Regular(edge) ==> n !in s.dirty
    {
      hide Shape.WellFormed, Shape.PoolsHold;
      LinkedNodes(sh, edge);
      var inputs := sh.Regular(edge);
      for i := 0 to |inputs|
        invariant forall n :: n in inputs[..i] ==> n !in s.dirty
      {
        if inputs[i].dirty {
          return false;
        }
      }
      return true;
    }
  }
}
