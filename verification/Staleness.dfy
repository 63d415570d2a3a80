// When an output has to be made again, judged from modification times and the build log
// (RecomputeOutputsDirty and RecomputeOutputDirty in src/graph.cc).

module Staleness {
  import opened Graph

  datatype LogEntry = LogEntry(commandHash: nat, startTime: int, endTime: int, restatMtime: int)

  type Log = Option<map<string, LogEntry>>

  function Lookup(log: Log, path: string): Option<LogEntry>
  {
    if log.Some? && path in log.value then Some(log.value[path]) else None
  }

  /** Whether an output with modification time `mtime` is out of date for `edge`, when the newest
      input has time `newest`. */
  predicate OutputStale(edge: Edge, noInputs: bool, newest: Option<int>, path: string, mtime: int, log: Log)
  {
    var entry := Lookup(log, path);
    if edge.phony then
      noInputs && mtime == 0
    else
      || mtime == 0
      || (newest.Some? && mtime < newest.value
          && (if edge.restat && entry.Some? then entry.value.restatMtime else mtime) < newest.value)
      || (!edge.generator && log.Some? && (entry.None? || entry.value.commandHash != edge.commandHash))
  }

  /** The greatest modification time among `nodes`. */
  ghost function Newest(nodes: seq<Node>, mtimes: map<Node, int>): (t: Option<int>)
    requires forall n :: n in nodes ==> n in mtimes
    ensures t.None? <==> nodes == []
    ensures t.Some? ==> (exists n :: n in nodes && mtimes[n] == t.value)
    ensures t.Some? ==> forall n :: n in nodes ==> mtimes[n] <= t.value
  {
    if nodes == [] then None
    else
      var last := nodes[|nodes| - 1];
      assert nodes == nodes[..|nodes| - 1] + [last];
      match Newest(nodes[..|nodes| - 1], mtimes)
      case None => Some(mtimes[last])
      case Some(t) => Some(if t < mtimes[last] then mtimes[last] else t)
  }

  /** The outputs of `e` are out of date by their own times and log entries, whatever else is dirty. */
  ghost predicate Stale(sh: Shape, mtimes: map<Node, int>, log: Log, e: Edge)
  {
    (forall n :: n in sh.Regular(e) ==> n in mtimes) &&
    exists o :: o in sh.Outs(e) && o in mtimes &&
      OutputStale(e, sh.Ins(e) == [], Newest(sh.Regular(e), mtimes), o.path, mtimes[o], log)
  }

  /** The examined nodes carry these times. */
  ghost predicate Timed(sh: Shape, mtimes: map<Node, int>)
    reads sh.nodes`mtime
  {
    forall n :: n in sh.nodes && n in mtimes ==> n.mtime == mtimes[n] != -1
  }

  ghost predicate AllExamined(sh: Shape, mtimes: map<Node, int>, e: Edge)
  {
    (forall n :: n in sh.Ins(e) ==> n in mtimes) && forall n :: n in sh.Outs(e) ==> n in mtimes
  }

  /** The loops over the inputs that keep the most recent one. */
  method MostRecent(nodes: seq<Node>, ghost mtimes: map<Node, int>) returns (recent: Node?)
    requires forall n :: n in nodes ==> n in mtimes && n.mtime == mtimes[n]
    ensures recent == null <==> nodes == []
    ensures recent != null ==> recent in nodes && Newest(nodes, mtimes) == Some(recent.mtime)
  {
    recent := null;
    for i := 0 to |nodes|
      invariant recent == null <==> i == 0
      invariant recent != null ==> recent in nodes[..i] && Newest(nodes[..i], mtimes) == Some(recent.mtime)
    {
      assert nodes[..i + 1][..i] == nodes[..i];
      if recent == null || recent.mtime < nodes[i].mtime {
        recent := nodes[i];
      }
    }
    assert nodes[..|nodes|] == nodes;
  }

  /** `RecomputeOutputsDirty` when all times are known. */
  method RecomputeOutputsDirty(sh: Shape, log: Log, edge: Edge, recent: Node?, ghost mtimes: map<Node, int>)
    returns (dirty: bool)
    requires sh.WellFormed() && Timed(sh, mtimes) && edge in sh.edges && AllExamined(sh, mtimes, edge)
    requires recent == null <==> sh.Regular(edge) == []
    requires recent != null ==> Newest(sh.Regular(edge), mtimes) == Some(recent.mtime)
    ensures dirty == Stale(sh, mtimes, log, edge)
  {
    hide OutputStale, Newest, Shape.WellFormed, Shape.Regular;
    LinkedNodes(sh, edge);
    var newest := if recent == null then None else Some(recent.mtime);
    var outputs := sh.Outs(edge);
    for i := 0 to |outputs|
      invariant forall o :: o in outputs[..i] ==>
        !OutputStale(edge, sh.Ins(edge) == [], newest, o.path, mtimes[o], log)
    {
      if OutputStale(edge, sh.Ins(edge) == [], newest, outputs[i].path, outputs[i].mtime, log) {
        return true;
      }
    }
    return false;
  }
}
