// The build graph: nodes (files), edges (build statements) and pools, as the mutable records
// that the scan, the plan and the daemon share (src/graph.h, src/state.h).

module Graph {
  datatype Option<T> = None | Some(value: T)

  /** A file: the flags that the scan, the plan and the daemon change. Its links are in `Shape`. */
  class Node {
    const path: string
    // -1: not examined, 0: examined and missing, > 0: modification time
    var mtime: int
    var dirty: bool
    // index in the deps log, or -1
    var id: int

    constructor (path: string)
      ensures this.path == path && mtime == -1 && !dirty && id == -1
    {
      this.path, mtime, dirty, id := path, -1, false, -1;
    }
  }

  /** A build statement: its pool, what its rule says (phony, restat, generator, the hash of its
      command), and its flags. */
  class Edge {
    const phony: bool
    const restat: bool
    const generator: bool
    const commandHash: nat
    const pool: Pool
    var outputsReady: bool
    var depsMissing: bool

    constructor (phony: bool, restat: bool, generator: bool, commandHash: nat, pool: Pool)
      ensures this.phony == phony && this.restat == restat && this.generator == generator
      ensures this.commandHash == commandHash && this.pool == pool && !outputsReady && !depsMissing
    {
      this.phony, this.restat, this.generator, this.commandHash := phony, restat, generator, commandHash;
      this.pool, outputsReady, depsMissing := pool, false, false;
    }

    function Weight(): nat { 1 }
  }

  /** A limit on how many of its edges may be scheduled at once; depth 0 means no limit. */
  class Pool {
    const depth: nat
    var currentUse: int
    var delayed: set<Edge>

    constructor (depth: nat)
      ensures this.depth == depth && currentUse == 0 && delayed == {}
    {
      this.depth, currentUse, delayed := depth, 0, {};
    }

    predicate ShouldDelayEdge() { depth != 0 }

    method EdgeScheduled(edge: Edge)
      modifies this`currentUse
      ensures currentUse == old(currentUse) + if depth != 0 then edge.Weight() else 0
    {
      if depth != 0 {
        currentUse := currentUse + edge.Weight();
      }
    }

    method EdgeFinished(edge: Edge)
      modifies this`currentUse
      ensures currentUse == old(currentUse) - if depth != 0 then edge.Weight() else 0
    {
      if depth != 0 {
        currentUse := currentUse - edge.Weight();
      }
    }

    method DelayEdge(edge: Edge)
      requires depth != 0
      modifies this`delayed
      ensures delayed == old(delayed) + {edge}
    {
      delayed := delayed + {edge};
    }

    /** Moves delayed edges to the ready queue while a slot is free: it stops only when no delayed
        edge is left or no slot is, and never takes the last slot twice. */
    method RetrieveReadyEdges(readyQueue: set<Edge>) returns (queue: set<Edge>, ghost moved: set<Edge>)
      requires depth == 0 ==> delayed == {}
      modifies this`currentUse, this`delayed
      ensures moved <= old(delayed) && delayed == old(delayed) - moved && queue == readyQueue + moved
      ensures currentUse == old(currentUse) + Count(moved)
      ensures delayed == {} || depth <= currentUse
      ensures moved != {} ==> currentUse <= depth
    {
      hide Count;
      queue, moved := readyQueue, {};
      EmptyCount();
      var rest := delayed;
      while rest != {}
        invariant delayed == old(delayed) == rest + moved && rest !! moved
        invariant queue == readyQueue + moved && currentUse == old(currentUse) + Count(moved)
        invariant moved != {} ==> currentUse <= depth
        decreases rest
      {
        var edge :| edge in rest;
        if depth < currentUse + edge.Weight() {
          break;
        }
        queue := queue + {edge};
        EdgeScheduled(edge);
        CountPlus(moved, edge);
        rest, moved := rest - {edge}, moved + {edge};
      }
      delayed := rest;
    }
  }

  /** The links of the graph. No step of a scan or a build changes them, so they are a value:
      inputs (explicit, then implicit, then order-only) and outputs of each edge, in-edge and
      out-edges of each node. */
  datatype Shape = Shape(
    edges: set<Edge>, nodes: set<Node>, pools: set<Pool>,
    ins: map<Edge, seq<Node>>, orderOnly: map<Edge, nat>, outs: map<Edge, seq<Node>>,
    producer: map<Node, Edge>, consumers: map<Node, seq<Edge>>)
  {
    function Ins(e: Edge): seq<Node> { if e in ins then ins[e] else [] }

    function Outs(e: Edge): seq<Node> { if e in outs then outs[e] else [] }

    function Consumers(n: Node): seq<Edge> { if n in consumers then consumers[n] else [] }

    /** The inputs that are not order-only. */
    function Regular(e: Edge): seq<Node>
    {
      if e in orderOnly && orderOnly[e] <= |Ins(e)| then Ins(e)[..|Ins(e)| - orderOnly[e]] else Ins(e)
    }

    /** The edges that make an input of `e`. */
    ghost function Prods(e: Edge): set<Edge>
    {
      set n | n in Ins(e) && n in producer :: producer[n]
    }

    ghost function OutsOf(es: set<Edge>): set<Node>
    {
      set e, n | e in es && n in Outs(e) :: n
    }

    ghost predicate Pooled()
    {
      forall e :: e in edges ==> e.pool in pools
    }

    /** What `AddIn` and `AddOut` establish when no file is made by two edges: outputs and
        in-edges agree, inputs and out-edges agree. */
    ghost predicate WellFormed()
    {
      && Pooled() && ins.Keys == orderOnly.Keys == outs.Keys == edges
      && consumers.Keys == nodes && producer.Keys <= nodes
      && (forall e :: e in edges ==> orderOnly[e] <= |ins[e]|)
      && (forall e, n :: e in edges && n in ins[e] ==> n in nodes && e in consumers[n])
      && (forall e, n :: e in edges && n in outs[e] ==> n in producer && producer[n] == e)
      && (forall n :: n in producer ==> producer[n] in edges && n in outs[producer[n]])
      && (forall n, e :: n in nodes && e in consumers[n] ==> e in edges && n in ins[e])
    }

    /** The flags stored in the objects: `done` are the edges whose outputs are ready. */
    ghost predicate Flagged(done: set<Edge>, dirty: set<Node>)
      reads edges`outputsReady, nodes`dirty
    {
      && (forall e :: e in edges ==> e.outputsReady == (e in done))
      && (forall n :: n in nodes ==> n.dirty == (n in dirty))
    }

    /** What the pools hold. */
    ghost predicate PoolsHold(use: map<Pool, int>, delayed: set<Edge>)
      reads pools`currentUse, pools`delayed
    {
      forall p :: p in pools ==> p in use && p.currentUse == use[p] && p.delayed == InPool(delayed, p)
    }

    ghost predicate SingleOutput()
    {
      forall e :: e in edges ==> |Outs(e)| == 1
    }
  }

  /** The size of a set of edges. */
  ghost function Count(es: set<Edge>): nat { |es| }

  lemma EmptyCount()
    ensures Count({}) == 0 && forall e: Edge :: Count({e}) == 1
  {}

  lemma CountPlus(es: set<Edge>, e: Edge)
    requires e !in es
    ensures Count(es + {e}) == Count(es) + 1
  {}

  lemma CountMinus(es: set<Edge>, e: Edge)
    requires e in es
    ensures Count(es - {e}) == Count(es) - 1
  {}

  lemma CountSubset(a: set<Edge>, b: set<Edge>)
    requires a <= b
    ensures Count(a) <= Count(b)
  {
    assert b == a + (b - a);
  }

  ghost function InPool(es: set<Edge>, pool: Pool): set<Edge>
  {
    set e | e in es && e.pool == pool
  }

  ghost function NodesIn(ns: seq<Node>): set<Node>
  {
    set n | n in ns
  }

  ghost function EdgesIn(es: seq<Edge>): set<Edge>
  {
    set e | e in es
  }

  lemma NoNodes()
    ensures NodesIn([]) == {}
  {}

  lemma NodesInPrefix(ns: seq<Node>, i: nat)
    requires i < |ns|
    ensures NodesIn(ns[..i + 1]) == NodesIn(ns[..i]) + {ns[i]} && ns[i] in NodesIn(ns)
  {}

  lemma ProdsOf(sh: Shape, e: Edge, n: Node)
    requires n in sh.Ins(e) && n in sh.producer
    ensures sh.producer[n] in sh.Prods(e)
  {}

  lemma LinkedNodes(sh: Shape, e: Edge)
    requires sh.WellFormed() && e in sh.edges
    ensures forall n :: n in sh.Outs(e) ==> n in sh.nodes && n in sh.producer && sh.producer[n] == e
    ensures forall n :: n in sh.Ins(e) ==> n in sh.nodes && e in sh.Consumers(n)
    ensures forall n :: n in sh.Regular(e) ==> n in sh.Ins(e)
  {}
}
