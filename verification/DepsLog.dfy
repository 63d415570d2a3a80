// The dependency log (src/deps_log.cc): recording, loading, compacting.

module DepsLog {
  import opened Graph
  import opened DepsLogFormat
  import opened DepsLogRecovery

  /** The nodes of a process by path (src/state.h). */
  class State {
    var paths: map<string, Node>

    constructor ()
      ensures paths == map[]
    {
      paths := map[];
    }

    ghost predicate Owns()
      reads this
    {
      forall p :: p in paths ==> paths[p].path == p
    }

    method GetNode(path: string) returns (node: Node)
      requires Owns()
      modifies this
      ensures Owns() && node.path == path && path in paths && paths[path] == node
      ensures path in old(paths) ==> paths == old(paths)
      ensures path !in old(paths) ==> fresh(node) && node.id == -1 && paths == old(paths)[path := node]
    {
      if path in paths {
        return paths[path];
      }
      node := new Node(path);
      paths := paths[path := node];
    }
  }

  datatype Deps = Deps(mtime: int, nodes: seq<Node>)

  /** `nodes` and `deps` hold what `v` says. */
  ghost predicate Represents(nodes: seq<Node>, deps: seq<Option<Deps>>, v: View)
  {
    && |nodes| == |v.paths| && (forall k :: 0 <= k < |nodes| ==> nodes[k].path == v.paths[k])
    && (forall k: nat :: k in v.deps <==> k < |deps| && deps[k].Some?)
    && (forall k :: k in v.deps ==> DepsAre(nodes, deps[k].value, v.deps[k]))
    && (deps != [] ==> deps[|deps| - 1].Some?)
  }

  ghost predicate DepsAre(nodes: seq<Node>, d: Deps, w: DepsView)
  {
    && d.mtime == w.mtime && |d.nodes| == |w.ins|
    && forall i :: 0 <= i < |w.ins| ==> w.ins[i] < |nodes| && d.nodes[i] == nodes[w.ins[i]]
  }

  lemma {:induction false} DistinctInSet(s: seq<string>, keys: set<string>)
    requires (forall i, j :: 0 <= i < j < |s| ==> s[i] != s[j]) && forall i :: 0 <= i < |s| ==> s[i] in keys
    ensures |s| <= |keys|
    decreases |s|
  {
    if s != [] {
      DistinctInSet(s[..|s| - 1], keys - {s[|s| - 1]});
    }
  }

  /** The position of `node`, or -1. */
  ghost function IndexOf(nodes: seq<Node>, node: Node): (k: int)
    ensures -1 <= k < |nodes| && (k == -1 <==> node !in nodes) && (k >= 0 ==> nodes[k] == node)
  {
    if nodes == [] then -1 else if nodes[|nodes| - 1] == node then |nodes| - 1 else IndexOf(nodes[..|nodes| - 1], node)
  }

  lemma IndexAt(nodes: seq<Node>, k: nat)
    requires Distinct(nodes) && k < |nodes|
    ensures IndexOf(nodes, nodes[k]) == k
  {}

  lemma IndexMore(nodes: seq<Node>, node: Node, n: Node)
    ensures IndexOf(nodes + [node], n) == if n == node then |nodes| else IndexOf(nodes, n)
  {
    assert (nodes + [node])[..|nodes|] == nodes;
  }

  ghost predicate Distinct(nodes: seq<Node>)
  {
    forall i, j :: 0 <= i < j < |nodes| ==> nodes[i] != nodes[j]
  }

  ghost predicate Owned(paths: map<string, Node>, older node: Node)
  {
    node.path in paths && paths[node.path] == node
  }

  ghost predicate AllRecordable(paths: map<string, Node>, nodes: seq<Node>)
  {
    forall n :: n in nodes ==> Recordable(paths, n)
  }

  ghost predicate PathsGrow(a: map<string, Node>, b: map<string, Node>)
  {
    forall p :: p in a ==> p in b && b[p] == a[p]
  }

  /** A node of a process that holds fewer than 2^31 of them, with a path as canonicalization leaves it. */
  ghost predicate Recordable(paths: map<string, Node>, node: Node)
  {
    |paths| < DEPS_BIT && Owned(paths, node) && IsPath(node.path)
  }

  /** What a log holds in memory, and the records it stands for. */
  ghost predicate Sound(paths: map<string, Node>, nodes: seq<Node>, deps: seq<Option<Deps>>, records: seq<Record>)
  {
    && (forall p :: p in paths ==> paths[p].path == p)
    && Distinct(nodes) && (forall k :: 0 <= k < |nodes| ==> Owned(paths, nodes[k]))
    && IsLog(records) && Represents(nodes, deps, Replay(records))
  }

  ghost function DepsOf(nodes: seq<Node>, deps: seq<Option<Deps>>, node: Node): Option<Deps>
  {
    var k := IndexOf(nodes, node);
    if k < 0 || k >= |deps| then None else deps[k]
  }

  lemma PrefixIn(a: seq<Node>, b: seq<Node>)
    requires a <= b
    ensures forall n :: n in a ==> n in b
  {
    forall n | n in a ensures n in b {
      var k :| 0 <= k < |a| && a[k] == n;
      assert b[k] == n;
    }
  }

  lemma AllIn(node: Node, inputs: seq<Node>, nodes: seq<Node>)
    requires forall n :: n in [node] + inputs ==> n in nodes
    ensures node in nodes && forall n :: n in inputs ==> n in nodes
  {
    assert ([node] + inputs)[0] == node;
    assert forall n :: n in inputs ==> n in [node] + inputs;
  }

  lemma NeedsTooLong(node: Node, inputs: seq<Node>)
    ensures (exists n :: n in [node] + inputs && SizeOf(PathRecord(n.path)) > MAX_RECORD_SIZE) ==> TooLong(node, inputs)
    ensures 4 * (2 + |inputs|) > MAX_RECORD_SIZE ==> TooLong(node, inputs)
  {}

  lemma DepsFit(paths: map<string, Node>, nodes: seq<Node>, deps: seq<Option<Deps>>, records: seq<Record>)
    requires Sound(paths, nodes, deps, records)
    ensures |deps| <= |nodes|
  {
    hide IsLog, Replay;
    LogIsRewritable(records);
    if deps != [] {
      assert |deps| - 1 in Replay(records).deps;
    }
  }

  /** New ids do not change what is recorded. */
  lemma DepsOfMore(nodes: seq<Node>, nodes': seq<Node>, deps: seq<Option<Deps>>)
    requires nodes <= nodes' && Distinct(nodes') && |deps| <= |nodes|
    ensures forall n :: DepsOf(nodes', deps, n) == DepsOf(nodes, deps, n)
  {
    forall n ensures DepsOf(nodes', deps, n) == DepsOf(nodes, deps, n) {
      var k, k' := IndexOf(nodes, n), IndexOf(nodes', n);
      if k >= 0 {
        assert nodes'[k] == n;
        IndexAt(nodes', k);
      } else {
        assert forall j :: 0 <= j < |nodes| ==> nodes'[j] in nodes;
      }
    }
  }

  lemma DepsOfUpdated(nodes: seq<Node>, deps: seq<Option<Deps>>, node: Node, d: Deps)
    requires node in nodes
    ensures DepsOf(nodes, Updated(deps, IndexOf(nodes, node), d), node) == Some(d)
    ensures forall n :: n != node ==> DepsOf(nodes, Updated(deps, IndexOf(nodes, node), d), n) == DepsOf(nodes, deps, n)
  {
    hide Updated;
  }

  lemma NotRecorded(paths: map<string, Node>, nodes: seq<Node>, deps: seq<Option<Deps>>, records: seq<Record>,
                    node: Node)
    requires Sound(paths, nodes, deps, records) && node in nodes
    ensures DepsOf(nodes, deps, node) == None ==> IndexOf(nodes, node) !in Replay(records).deps
  {
    hide IsLog, Replay;
  }

  /** A node with deps, and the nodes it depends on, have ids. */
  lemma RecordedHaveIds(paths: map<string, Node>, nodes: seq<Node>, deps: seq<Option<Deps>>, records: seq<Record>,
                        node: Node, mtime: int, inputs: seq<Node>)
    requires Sound(paths, nodes, deps, records)
    ensures DepsOf(nodes, deps, node) == Some(Deps(mtime, inputs)) ==> forall n :: n in [node] + inputs ==> n in nodes
  {
    hide IsLog, Replay;
    var k := IndexOf(nodes, node);
    if 0 <= k < |deps| && deps[k] == Some(Deps(mtime, inputs)) {
      var v := Replay(records);
      assert k in v.deps && DepsAre(nodes, deps[k].value, v.deps[k]);
      forall n | n in inputs ensures n in nodes {
        var i :| 0 <= i < |inputs| && inputs[i] == n;
        assert nodes[v.deps[k].ins[i]] == n;
      }
    }
  }

  /** A record that is needed does not fit. */
  ghost predicate TooLong(node: Node, inputs: seq<Node>)
  {
    || 4 * (2 + |inputs|) > MAX_RECORD_SIZE
    || exists n :: n in [node] + inputs && SizeOf(PathRecord(n.path)) > MAX_RECORD_SIZE
  }

  /** The positions of `inputs`. */
  ghost function Positions(nodes: seq<Node>, inputs: seq<Node>): (ins: seq<nat>)
    requires forall n :: n in inputs ==> n in nodes
    ensures |ins| == |inputs| && forall i :: 0 <= i < |ins| ==> ins[i] == IndexOf(nodes, inputs[i])
  {
    seq(|inputs|, i requires 0 <= i < |inputs| => assert inputs[i] in inputs; IndexOf(nodes, inputs[i]))
  }

  lemma PositionsAt(nodes: seq<Node>, inputs: seq<Node>, i: nat)
    requires (forall n :: n in inputs ==> n in nodes) && i < |inputs|
    ensures Positions(nodes, inputs)[i] == IndexOf(nodes, inputs[i]) && inputs[i] in inputs
  {}

  lemma NoWords(ins: seq<nat>)
    ensures Words(ins[..0]) == []
  {}

  lemma WordsMore(ins: seq<nat>, i: nat)
    requires i < |ins|
    ensures Words(ins[..i + 1]) == Words(ins[..i]) + Le32(ins[i])
  {
    assert ins[..i + 1][..i] == ins[..i];
  }

  lemma DepsBytes(v: View, r: Record, size: nat)
    requires r.DepsRecord? && size == SizeOf(r)
    ensures Le32(size + DEPS_BIT) + Le32(r.out) + Le32(Bits(r.mtime)) + Words(r.ins) == Encode(v, r)
  {
    hide Le32, Words;
    Regroup(Le32(size + DEPS_BIT), Le32(r.out), Le32(Bits(r.mtime)), Words(r.ins));
  }

  lemma NextDeps(paths: map<string, Node>, nodes: seq<Node>, deps: seq<Option<Deps>>, records: seq<Record>,
                 node: Node, mtime: int, inputs: seq<Node>, r: Record)
    requires |paths| < DEPS_BIT
    requires Sound(paths, nodes, deps, records) && node in nodes && IsInt32(mtime)
    requires 4 * (2 + |inputs|) <= MAX_RECORD_SIZE
    requires forall n :: n in inputs ==> n in nodes
    requires r == DepsRecord(IndexOf(nodes, node), mtime, Positions(nodes, inputs))
    ensures Sound(paths, nodes, Updated(deps, r.out, Deps(mtime, inputs)), records + [r]) && IsLog(records + [r])
    ensures FileOf(records + [r]) == FileOf(records) + Encode(Replay(records), r)
  {
    FewNodes(paths, nodes);
    hide IsLog, Replay, FileOf, Encode, Represents, IndexOf, Positions, Updated, DepsAre;
    PositionsRepresent(nodes, inputs, mtime);
    RepresentsUpdated(nodes, deps, Replay(records), r.out, Deps(mtime, inputs), r.ins);
    RepresentsLength(nodes, deps, Replay(records));
    AppendRecord(records, r);
  }

  lemma PositionsRepresent(nodes: seq<Node>, inputs: seq<Node>, mtime: int)
    requires forall n :: n in inputs ==> n in nodes
    ensures DepsAre(nodes, Deps(mtime, inputs), DepsView(mtime, Positions(nodes, inputs)))
    ensures AllBelow(Positions(nodes, inputs), |nodes|)
  {
    forall i | 0 <= i < |inputs| ensures inputs[i] == nodes[Positions(nodes, inputs)[i]] {
      PositionsAt(nodes, inputs, i);
    }
  }

  lemma RepresentsLength(nodes: seq<Node>, deps: seq<Option<Deps>>, v: View)
    requires Represents(nodes, deps, v)
    ensures |nodes| == |v.paths|
  {}

  lemma FewNodes(paths: map<string, Node>, nodes: seq<Node>)
    requires Distinct(nodes) && forall k :: 0 <= k < |nodes| ==> Owned(paths, nodes[k])
    ensures |nodes| <= |paths|
  {
    var names := seq(|nodes|, k requires 0 <= k < |nodes| => nodes[k].path);
    forall i, j | 0 <= i < j < |names| ensures names[i] != names[j] {
      assert Owned(paths, nodes[i]) && Owned(paths, nodes[j]);
    }
    forall i | 0 <= i < |names| ensures names[i] in paths.Keys {
      assert Owned(paths, nodes[i]);
    }
    DistinctInSet(names, paths.Keys);
    assert |paths| == |paths.Keys|;
  }

  /** A node without an id can be given the next one. */
  lemma NextPath(paths: map<string, Node>, nodes: seq<Node>, deps: seq<Option<Deps>>, records: seq<Record>, node: Node)
    requires Sound(paths, nodes, deps, records) && Recordable(paths, node) && node !in nodes
    requires SizeOf(PathRecord(node.path)) <= MAX_RECORD_SIZE
    ensures Sound(paths, nodes + [node], deps, records + [PathRecord(node.path)])
    ensures FileOf(records + [PathRecord(node.path)]) ==
      FileOf(records) + Encode(Replay(records), PathRecord(node.path))
    ensures |nodes| == |Replay(records).paths| && Replay(records + [PathRecord(node.path)]).deps == Replay(records).deps
  {
    var v, r := Replay(records), PathRecord(node.path);
    PathIsNew(paths, nodes, deps, v, node);
    hide IsLog, Replay, FileOf, Encode, Represents;
    AppendRecord(records, r);
    RepresentsMore(nodes, deps, v, node);
  }

  lemma PathIsNew(paths: map<string, Node>, nodes: seq<Node>, deps: seq<Option<Deps>>, v: View, node: Node)
    requires Represents(nodes, deps, v) && Distinct(nodes) && (forall k :: 0 <= k < |nodes| ==> Owned(paths, nodes[k]))
    requires Owned(paths, node) && node !in nodes
    ensures node.path !in v.paths && |v.paths| <= |paths|
  {
    forall k | 0 <= k < |v.paths| ensures v.paths[k] != node.path {
      assert nodes[k].path == v.paths[k] && Owned(paths, nodes[k]);
    }
    FewNodes(paths, nodes);
  }

  lemma RepresentsMore(nodes: seq<Node>, deps: seq<Option<Deps>>, v: View, node: Node)
    requires Represents(nodes, deps, v)
    ensures Represents(nodes + [node], deps, Apply(v, PathRecord(node.path)))
  {
    forall k | k in v.deps ensures DepsAre(nodes + [node], deps[k].value, v.deps[k]) {
      assert DepsAre(nodes, deps[k].value, v.deps[k]);
    }
  }

  lemma PathBytes(v: View, path: string, n: nat)
    requires n == |v.paths|
    ensures Le32(SizeOf(PathRecord(path))) + Bytes(path) + Zeros(Padding(|path|)) + Le32(Complement(n)) ==
      Encode(v, PathRecord(path))
  {
    hide Le32, Bytes, Zeros;
    Regroup(Le32(SizeOf(PathRecord(path))), Bytes(path), Zeros(Padding(|path|)), Le32(Complement(n)));
  }

  lemma Regroup(a: seq<byte>, b: seq<byte>, c: seq<byte>, d: seq<byte>)
    ensures a + b + c + d == a + (b + c + d)
  {}

  /** `deps` with entry `out` set, after it was made long enough. */
  function Updated(deps: seq<Option<Deps>>, out: nat, d: Deps): (r: seq<Option<Deps>>)
    ensures |r| == if out < |deps| then |deps| else out + 1
    ensures forall k :: 0 <= k < |r| ==> r[k] == if k == out then Some(d) else if k < |deps| then deps[k] else None
  {
    if out < |deps| then deps[out := Some(d)] else deps + seq(out - |deps|, i => None) + [Some(d)]
  }

  lemma RepresentsUpdated(nodes: seq<Node>, deps: seq<Option<Deps>>, v: View, out: nat, d: Deps, ins: seq<nat>)
    requires Represents(nodes, deps, v) && DepsAre(nodes, d, DepsView(d.mtime, ins))
    ensures Represents(nodes, Updated(deps, out, d), Apply(v, DepsRecord(out, d.mtime, ins)))
  {
    hide DepsAre;
  }

  class DepsLog {
    const state: State
    var nodes: seq<Node>
    var deps: seq<Option<Deps>>
    var file: seq<byte>
    var needsRecompaction: bool
    ghost var records: seq<Record>

    constructor (state: State)
      ensures this.state == state && nodes == [] && deps == [] && file == [] && records == [] && !needsRecompaction
    {
      this.state, nodes, deps, file, needsRecompaction, records := state, [], [], [], false, [];
    }

    /** Ids are dense: a node in `nodes` has its position there, and all other nodes have none. */
    ghost predicate Ids()
      reads this`nodes, state, state.paths.Values`id
    {
      forall p :: p in state.paths ==> state.paths[p].id == IndexOf(nodes, state.paths[p])
    }

    /** Memory holds what the records say, whatever else the file may hold. */
    ghost predicate InMemory()
      reads this`nodes, this`deps, this`records, state, state.paths.Values`id
    {
      Ids() && Sound(state.paths, nodes, deps, records)
    }

    /** Memory and file agree with the records. */
    ghost predicate Valid()
      reads this, state, state.paths.Values`id
    {
      Ids() && Sound(state.paths, nodes, deps, records) && file == FileOf(records)
    }

    function GetDeps(node: Node): Option<Deps>
      reads this`deps, node`id
    {
      if node.id < 0 || node.id >= |deps| then None else deps[node.id]
    }

    /** Writes and flushes the bytes of a record; a failure may leave part of them in the file. */
    method Write(bytes: seq<byte>) returns (ok: bool)
      modifies this`file
      ensures ok ==> file == old(file) + bytes
      ensures !ok ==> old(file) <= file <= old(file) + bytes
    {
      var written :| 0 <= written <= |bytes|;
      var flushed: bool := *;
      ok := written == |bytes| && flushed;
      file := file + bytes[..written];
      assert bytes == bytes[..written] + bytes[written..];
    }

    /** A write failed: the file is the log and a part of one more record. */
    ghost predicate Torn()
      reads this`records, this`file
    {
      exists r :: IsLog(records + [r]) && FileOf(records) <= file <= FileOf(records + [r])
    }

    lemma IsTorn(r: Record)
      requires IsLog(records + [r]) && FileOf(records) <= file <= FileOf(records + [r])
      ensures Torn()
    {}

    /** Writes the bytes of `r` as the next record. */
    method Log(bytes: seq<byte>, ghost r: Record) returns (ok: bool)
      requires file == FileOf(records) && IsLog(records + [r]) && FileOf(records + [r]) == file + bytes
      modifies this`file, this`records
      ensures ok ==> records == old(records) + [r] && file == FileOf(records)
      ensures !ok ==> records == old(records) && Torn()
    {
      hide *;
      ok := Write(bytes);
      if ok {
        records := records + [r];
      } else {
        IsTorn(r);
      }
    }

    /** Gives `node` an id. A path that does not fit a record is refused. */
    method RecordId(node: Node) returns (ok: bool)
      requires Valid() && Recordable(state.paths, node) && node !in nodes
      modifies this`nodes, this`file, this`records, node`id
      ensures ok ==> Valid() && nodes == old(nodes) + [node] && records == old(records) + [PathRecord(node.path)]
      ensures !ok ==> nodes == old(nodes) && records == old(records) && node.id == old(node.id)
      ensures !ok ==> if SizeOf(PathRecord(node.path)) > MAX_RECORD_SIZE then Valid() else Torn()
    {
      hide Sound, FileOf, Represents, Replay, IsLog, Encode, Bytes, Le32, Zeros, Torn, IndexOf;
      var size := |node.path| + Padding(|node.path|) + 4;
      if size > MAX_RECORD_SIZE {
        return false;
      }
      ghost var r := PathRecord(node.path);
      NextPath(state.paths, nodes, deps, records, node);
      PathBytes(Replay(records), node.path, |nodes|);
      SoundIsLog(state.paths, nodes + [node], deps, records + [r]);
      ok := Log(Le32(size) + Bytes(node.path) + Zeros(Padding(|node.path|)) + Le32(Complement(|nodes|)), r);
      if ok {
        Take(node);
      }
    }

    /** Gives `node` an id unless it has one. */
    method AssignId(node: Node) returns (ok: bool, madeChange: bool)
      requires Valid() && Recordable(state.paths, node)
      modifies this`nodes, this`file, this`records, node`id
      ensures ok ==> Valid() && node in nodes
      ensures !ok ==> (Valid() && SizeOf(PathRecord(node.path)) > MAX_RECORD_SIZE) || Torn()
      ensures old(nodes) <= nodes && Replay(records).deps == old(Replay(records).deps)
      ensures old(OncePerOutput(records)) ==> OncePerOutput(records)
      ensures node in old(nodes) ==> ok && !madeChange
      ensures !madeChange ==> nodes == old(nodes) && records == old(records) && (ok ==> file == old(file))
    {
      hide Sound, FileOf, Represents, Replay, IsLog, Encode, Torn, IndexOf, OncePerOutput;
      ok, madeChange := true, false;
      if node.id < 0 {
        ok := RecordId(node);
        if ok {
          madeChange := true;
          AddedPath(old(records), node.path);
          if OncePerOutput(old(records)) {
            OncePerOutputMore(old(records), PathRecord(node.path));
          }
        }
      }
    }

    /** Gives ids to all of `all` that have none. */
    method AssignIds(all: seq<Node>) returns (ok: bool, madeChange: bool)
      requires Valid() && forall n :: n in all ==> Recordable(state.paths, n)
      modifies this`nodes, this`file, this`records, state.paths.Values`id
      ensures ok ==> Valid() && forall n :: n in all ==> n in nodes
      ensures !ok ==> (Valid() && exists n :: n in all && SizeOf(PathRecord(n.path)) > MAX_RECORD_SIZE) || Torn()
      ensures old(nodes) <= nodes && Replay(records).deps == old(Replay(records).deps)
      ensures old(OncePerOutput(records)) ==> OncePerOutput(records)
      ensures (forall n :: n in all ==> n in old(nodes)) ==> ok && !madeChange
      ensures !madeChange ==> nodes == old(nodes) && records == old(records) && (ok ==> file == old(file))
    {
      hide Valid, Torn, Replay, OncePerOutput;
      ok, madeChange := true, false;
      for i := 0 to |all|
        invariant ok && Valid() && forall n :: n in all[..i] ==> n in nodes
        invariant old(nodes) <= nodes && Replay(records).deps == old(Replay(records).deps)
        invariant old(OncePerOutput(records)) ==> OncePerOutput(records)
        invariant (forall n :: n in all ==> n in old(nodes)) ==> !madeChange
        invariant !madeChange ==> nodes == old(nodes) && records == old(records) && file == old(file)
      {
        assert all[i] in all && Recordable(state.paths, all[i]) && all[i] in state.paths.Values;
        var made;
        ghost var before := nodes;
        ok, made := AssignId(all[i]);
        PrefixIn(before, nodes);
        madeChange := madeChange || made;
        if !ok {
          return;
        }
      }
    }

    /** Records that `node` depends on `inputs`. Nothing is written if the log says so already; what it
        says of other nodes stays the same. A record that is too long is refused; if a write fails, the
        file is the log and a part of one record. */
    method RecordDeps(node: Node, mtime: int, inputs: seq<Node>) returns (ok: bool)
      requires Valid() && Recordable(state.paths, node) && AllRecordable(state.paths, inputs) && IsInt32(mtime)
      modifies this`nodes, this`deps, this`file, this`records, state.paths.Values`id
      ensures ok ==> Valid() && GetDeps(node) == Some(Deps(mtime, inputs))
      ensures !ok ==> (Valid() && TooLong(node, inputs)) || Torn()
      ensures ok ==> forall n :: Owned(state.paths, n) && n != node ==> GetDeps(n) == old(GetDeps(n))
      ensures !ok && Valid() ==> forall n :: Owned(state.paths, n) ==> GetDeps(n) == old(GetDeps(n))
      ensures old(GetDeps(node)) == Some(Deps(mtime, inputs)) ==> ok && file == old(file) && records == old(records)
      ensures ok && old(GetDeps(node)) == None && old(OncePerOutput(records)) ==> OncePerOutput(records)
    {
      RecordedHaveIds(state.paths, nodes, deps, records, node, mtime, inputs);
      AllDepsAt();
      hide *;
      var madeChange;
      ok, madeChange := AssignIdsOf(node, inputs);
      if ok {
        ok := AddIfNew(node, mtime, inputs, madeChange);
      }
    }

    /** The second half of `RecordDeps`. */
    method AddIfNew(node: Node, mtime: int, inputs: seq<Node>, madeChange: bool) returns (ok: bool)
      requires Valid() && Recordable(state.paths, node) && node in nodes && IsInt32(mtime)
      requires AllRecordable(state.paths, inputs) && AllHaveIds(inputs)
      modifies this`deps, this`file, this`records
      ensures ok ==> Valid() && GetDeps(node) == Some(Deps(mtime, inputs))
      ensures !ok ==> (Valid() && TooLong(node, inputs)) || Torn()
      ensures ok ==> forall n :: Owned(state.paths, n) && n != node ==> GetDeps(n) == old(GetDeps(n))
      ensures !ok && Valid() ==> forall n :: Owned(state.paths, n) ==> GetDeps(n) == old(GetDeps(n))
      ensures !madeChange && old(GetDeps(node)) == Some(Deps(mtime, inputs)) ==>
        ok && file == old(file) && records == old(records)
      ensures ok && old(GetDeps(node)) == None && old(OncePerOutput(records)) ==> OncePerOutput(records)
    {
      hide Valid, Torn, TooLong, OncePerOutput, Recordable, AllRecordable, AllHaveIds;
      if !madeChange {
        var same := IsRecorded(node, mtime, inputs);
        if same {
          return true;
        }
      }
      ok := AddDeps(node, mtime, inputs);
    }

    /** The first half of `RecordDeps`. */
    method AssignIdsOf(node: Node, inputs: seq<Node>) returns (ok: bool, madeChange: bool)
      requires Valid() && Recordable(state.paths, node) && AllRecordable(state.paths, inputs)
      modifies this`nodes, this`file, this`records, state.paths.Values`id
      ensures ok ==> Valid() && node in nodes && AllHaveIds(inputs)
      ensures !ok ==> (Valid() && TooLong(node, inputs)) || Torn()
      ensures ok || Valid() ==> forall n :: Owned(state.paths, n) ==> GetDeps(n) == old(GetDeps(n))
      ensures old(OncePerOutput(records)) ==> OncePerOutput(records)
      ensures (forall n :: n in [node] + inputs ==> n in old(nodes)) ==> ok && !madeChange
      ensures !madeChange ==> nodes == old(nodes) && records == old(records) && (ok ==> file == old(file))
    {
      ghost var nodes0, deps0 := nodes, deps;
      AllDepsAt();
      ValidParts();
      DepsFit(state.paths, nodes, deps, records);
      assert forall n :: n in [node] + inputs ==> n == node || n in inputs;
      assert Tells(nodes0, deps0);
      hide Valid, Torn, Replay, GetDeps, DepsOf, Distinct, TooLong, OncePerOutput, Owned, Recordable, Sound;
      ok, madeChange := AssignIds([node] + inputs);
      if ok || Valid() {
        StillTells(nodes0);
      }
      if ok {
        AllIn(node, inputs, nodes);
      } else {
        NeedsTooLong(node, inputs);
      }
    }

    /** More ids change nothing about deps. */
    lemma StillTells(nodes0: seq<Node>)
      requires Valid() && nodes0 <= nodes && |deps| <= |nodes0|
      ensures Tells(nodes0, deps)
    {
      AllDepsAt();
      hide Valid, GetDeps, DepsOf, Owned, Distinct;
      DepsOfMore(nodes0, nodes, deps);
    }

    /** Writes a record that says something new. */
    method AddDeps(node: Node, mtime: int, inputs: seq<Node>) returns (ok: bool)
      requires Valid() && Recordable(state.paths, node) && node in nodes && IsInt32(mtime)
      requires AllRecordable(state.paths, inputs) && AllHaveIds(inputs)
      modifies this`deps, this`file, this`records
      ensures ok ==> Valid() && GetDeps(node) == Some(Deps(mtime, inputs))
      ensures !ok ==> (Valid() && TooLong(node, inputs)) || Torn()
      ensures ok ==> forall n :: Owned(state.paths, n) && n != node ==> GetDeps(n) == old(GetDeps(n))
      ensures !ok && Valid() ==> forall n :: Owned(state.paths, n) ==> GetDeps(n) == old(GetDeps(n))
      ensures ok && old(GetDeps(node)) == None && old(OncePerOutput(records)) ==> OncePerOutput(records)
    {
      ghost var deps0, records0 := deps, records;
      AllDepsAt();
      NotRecorded(state.paths, nodes, deps, records, node);
      hide Valid, InMemory, Torn, Replay, GetDeps, DepsOf, Distinct, TooLong, OncePerOutput, Updated;
      ok := WriteDeps(node, mtime, inputs);
      if ok || Valid() {
        AllDepsAt();
        DepsOfUpdated(nodes, deps0, node, Deps(mtime, inputs));
      }
      if ok && OncePerOutput(records0) && old(GetDeps(node)) == None {
        OncePerOutputMore(records0, DepsRecord(IndexOf(nodes, node), mtime, Positions(nodes, inputs)));
      }
      NeedsTooLong(node, inputs);
    }

    ghost predicate AllHaveIds(inputs: seq<Node>)
      reads this`nodes
    {
      forall n :: n in inputs ==> n in nodes
    }

    lemma AllDepsAt()
      requires Valid() || InMemory()
      ensures forall n :: Owned(state.paths, n) ==> GetDeps(n) == DepsOf(nodes, deps, n)
      ensures Distinct(nodes)
    {
      hide IndexOf, Represents, IsLog, Replay, FileOf;
    }

    /** The deps of all nodes, as they are told by `nodes0` and `deps0`. */
    ghost predicate Tells(nodes0: seq<Node>, deps0: seq<Option<Deps>>)
      reads this`deps, state, state.paths.Values`id
    {
      forall n :: Owned(state.paths, n) ==> GetDeps(n) == DepsOf(nodes0, deps0, n)
    }

    /** The test of `RecordDeps` whether the log says the same already. */
    method IsRecorded(node: Node, mtime: int, inputs: seq<Node>) returns (same: bool)
      ensures same <==> GetDeps(node) == Some(Deps(mtime, inputs))
    {
      var recorded := GetDeps(node);
      if recorded == None || recorded.value.mtime != mtime || |recorded.value.nodes| != |inputs| {
        return false;
      }
      for i := 0 to |inputs|
        invariant recorded.value.nodes[..i] == inputs[..i]
      {
        if recorded.value.nodes[i] != inputs[i] {
          return false;
        }
      }
      assert recorded.value.nodes == inputs;
      return true;
    }

    /** Writes a deps record; all nodes have ids. One that is too long is refused. */
    method WriteDeps(node: Node, mtime: int, inputs: seq<Node>) returns (ok: bool)
      requires Valid() && Recordable(state.paths, node) && node in nodes && IsInt32(mtime)
      requires forall n :: n in inputs ==> Owned(state.paths, n) && n in nodes
      modifies this`deps, this`file, this`records
      ensures ok ==> Valid() && deps == Updated(old(deps), IndexOf(nodes, node), Deps(mtime, inputs))
      ensures ok ==> records == old(records) + [DepsRecord(IndexOf(nodes, node), mtime, Positions(nodes, inputs))]
      ensures !ok ==> deps == old(deps) && records == old(records)
      ensures !ok ==> if 4 * (2 + |inputs|) > MAX_RECORD_SIZE then Valid() else Torn()
    {
      hide Sound, FileOf, Represents, Replay, IsLog, Encode, Le32, Words, Torn, IndexOf, Positions, Writable, Bits;
      var size := 4 * (1 + 1 + |inputs|);
      if size > MAX_RECORD_SIZE {
        return false;
      }
      ghost var out, ins := IndexOf(nodes, node), Positions(nodes, inputs);
      ghost var r := DepsRecord(out, mtime, ins);
      NextDeps(state.paths, nodes, deps, records, node, mtime, inputs, r);
      var words := IdWords(inputs);
      DepsBytes(Replay(records), r, size);
      ok := Log(Le32(size + DEPS_BIT) + Le32(node.id) + Le32(Bits(mtime)) + words, r);
      if ok {
        var deleteOld := UpdateDeps(node.id, Deps(mtime, inputs));
      }
    }

    /** The ids of nodes, as words. */
    method IdWords(inputs: seq<Node>) returns (bytes: seq<byte>)
      requires Ids() && forall n :: n in inputs ==> Owned(state.paths, n) && n in nodes
      ensures bytes == Words(Positions(nodes, inputs))
    {
      hide IndexOf, Positions, Le32, Words;
      ghost var ins := Positions(nodes, inputs);
      bytes := [];
      assert Words(ins[..0]) == [] by { NoWords(ins); }
      for i := 0 to |inputs|
        invariant bytes == Words(ins[..i])
      {
        PositionsAt(nodes, inputs, i);
        WordsMore(ins, i);
        bytes := bytes + Le32(inputs[i].id);
      }
      assert ins[..|ins|] == ins;
    }

    /** Sets the deps of an id; tells whether there were any. */
    method UpdateDeps(outId: nat, d: Deps) returns (deleteOld: bool)
      modifies this`deps
      ensures deps == Updated(old(deps), outId, d)
      ensures deleteOld == (outId < |old(deps)| && old(deps)[outId].Some?)
    {
      deleteOld := outId < |deps| && deps[outId].Some?;
      if outId >= |deps| {
        deps := deps + seq(outId + 1 - |deps|, i => None);
      }
      deps := deps[outId := Some(d)];
    }

    /** The end of `RecordId`. */
    method Take(node: Node)
      requires Ids() && Owned(state.paths, node) && node !in nodes
      modifies this`nodes, node`id
      ensures Ids() && nodes == old(nodes) + [node]
    {
      node.id := |nodes|;
      nodes := nodes + [node];
      forall p | p in state.paths ensures state.paths[p].id == IndexOf(nodes, state.paths[p]) {
        IndexMore(old(nodes), node, state.paths[p]);
      }
    }

    /** What is known while a file is being read. */
    ghost predicate Reading(v: View)
      reads this`nodes, this`deps, state, state.paths.Values`id
    {
      && Ids() && state.Owns() && Distinct(nodes) && Represents(nodes, deps, v)
      && forall k :: 0 <= k < |nodes| ==> Owned(state.paths, nodes[k])
    }

    /** The nodes listed in the body of a deps record, unless an id is too large. */
    method ReadInputs(body: seq<byte>) returns (ok: bool, inputs: seq<Node>)
      requires |body| >= 8 && |body| % 4 == 0
      ensures ok ==> Stand(nodes, Numbers(body), inputs) && |inputs| + 2 == |Numbers(body)|
      ensures ok <==> forall i :: 2 <= i < |Numbers(body)| ==> Numbers(body)[i] < |nodes|
    {
      hide Numbers, Word;
      ghost var ns := Numbers(body);
      inputs := [];
      for i := 0 to |body| / 4 - 2
        invariant |inputs| == i && Stand(nodes, ns, inputs)
        invariant forall k :: 2 <= k < i + 2 ==> ns[k] < |nodes|
      {
        NumbersAt(body, i + 2);
        var id := Word(body[4 * (i + 2)..]);
        if id >= |nodes| {
          return false, inputs;
        }
        inputs := inputs + [nodes[id]];
      }
      ok := true;
    }

    /** Takes in the body of a deps record; `unique` if it is the first one for its output. */
    method LoadDeps(body: seq<byte>, ghost v: View) returns (ok: bool, unique: nat)
      requires Reading(v)
      modifies this`deps
      ensures ok <==> ReadDeps(body, v).Got?
      ensures ok ==> Outputs(Apply(v, ReadDeps(body, v).record)) == Outputs(v) + unique
      ensures ok ==> Reading(Apply(v, ReadDeps(body, v).record))
    {
      hide Numbers, Word, Represents, Distinct, Ids, Updated, Outputs;
      unique := 0;
      RepresentsLength(nodes, deps, v);
      if |body| % 4 != 0 || |body| < 8 {
        return false, 0;
      }
      ghost var ns := Numbers(body);
      NumbersAt(body, 0);
      NumbersAt(body, 1);
      assert body[4 * 0..] == body && body[4 * 1..] == body[4..];
      var outId, mtime := Word(body), Signed(Word(body[4..]));
      var inputs;
      ok, inputs := ReadInputs(body);
      if !ok || outId >= DEPS_BIT {
        return false, 0;
      }
      HasDeps(nodes, deps, v, outId);
      OutputsMore(v, DepsRecord(outId, mtime, ns[2..]));
      var deleteOld := UpdateDeps(outId, Deps(mtime, inputs));
      unique := if deleteOld then 0 else 1;
      StandingDeps(nodes, ns, inputs, mtime);
      RepresentsUpdated(nodes, old(deps), v, outId, Deps(mtime, inputs), ns[2..]);
    }

    lemma GotNode(v: View, paths0: map<string, Node>, node: Node)
      requires Distinct(nodes) && Represents(nodes, deps, v) && state.Owns() && Owned(state.paths, node)
      requires forall k :: 0 <= k < |nodes| ==> Owned(paths0, nodes[k])
      requires forall p :: p in paths0 ==> paths0[p].id == IndexOf(nodes, paths0[p])
      requires || state.paths == paths0
               || (node.path !in paths0 && state.paths == paths0[node.path := node] && node.id == -1)
      ensures Reading(v)
    {
      hide Represents;
      assert node in nodes ==> Owned(paths0, node);
    }

    /** Takes in the body of a path record. A checksum that does not fit is a failure. */
    method LoadPath(body: seq<byte>, ghost v: View) returns (end: Option<LoadResult>)
      requires Reading(v)
      modifies this`nodes, state, state.paths.Values`id
      ensures end == if ReadPath(body, v).Got? then None else Some(EndOf(ReadPath(body, v)))
      ensures end == None ==> Reading(Apply(v, ReadPath(body, v).record))
      ensures end != None ==> Reading(v)
      ensures PathsGrow(old(state.paths), state.paths)
      ensures forall p :: p in state.paths ==> state.paths[p] in old(state.paths.Values) || fresh(state.paths[p])
    {
      hide Word, Represents, IndexOf, Stripped, Chars;
      RepresentsLength(nodes, deps, v);
      if |body| <= 4 {
        return Some(Aborted);
      }
      var path := Chars(Stripped(body[..|body| - 4], 3));
      if path == "" && |body| < 7 {
        return Some(Overran);
      }
      ghost var paths0 := state.paths;
      var node := state.GetNode(path);
      assert Reading(v) by { GotNode(v, paths0, node); }
      PathTaken(state.paths, nodes, deps, v, node);
      RepresentsMore(nodes, deps, v, node);
      if Complement(Word(body[|body| - 4..])) != |nodes| {
        return Some(Recovered);
      }
      if node.id >= 0 {
        return Some(Aborted);
      }
      Take(node);
      end := None;
    }

    /** One turn of the loop of `Load`. */
    method LoadNext(offset: nat, ghost v: View) returns (end: Option<LoadResult>, length: nat, total: nat, unique: nat)
      requires Reading(v) && offset <= |file|
      modifies this`nodes, this`deps, state, state.paths.Values`id
      ensures end == None <==> ReadRecord(file[offset..], v).Got?
      ensures end == None ==> length == ReadRecord(file[offset..], v).length
      ensures end == None ==> Apply(v, ReadRecord(file[offset..], v).record).total == v.total + total
      ensures end == None ==> Outputs(Apply(v, ReadRecord(file[offset..], v).record)) == Outputs(v) + unique
      ensures end == None ==>
        0 < length && offset + length <= |file| && Reading(Apply(v, ReadRecord(file[offset..], v).record))
      ensures end != None ==>
        end == Some(EndOf(ReadRecord(file[offset..], v)))
      ensures end == Some(Loaded) || end == Some(Recovered) ==> Reading(v)
      ensures PathsGrow(old(state.paths), state.paths)
      ensures forall p :: p in state.paths ==> state.paths[p] in old(state.paths.Values) || fresh(state.paths[p])
    {
      hide Word, ReadPath, ReadDeps, Represents, Ids, Distinct, Outputs;
      end, length, total, unique := None, 0, 0, 0;
      if |file| - offset < 4 {
        end := Some(Loaded);
        return;
      }
      ReadRecordAt(file, offset, v);
      hide ReadRecord;
      var head := Word(file[offset..]);
      var size, isDeps := head % DEPS_BIT, head >= DEPS_BIT;
      if size > BUFFER_SIZE && |file| - offset - 4 > BUFFER_SIZE {
        end := Some(Overran);
        return;
      }
      if size == 0 || |file| - offset - 4 < size || size > MAX_RECORD_SIZE {
        end := Some(Recovered);
        return;
      }
      var body := file[offset + 4..offset + 4 + size];
      if isDeps {
        var ok;
        ok, unique := LoadDeps(body, v);
        total := 1;
        IsDeps(body, v);
        end := if ok then None else Some(Aborted);
      } else {
        end := LoadPath(body, v);
        IsPathRecord(body, v);
      }
      if end == None {
        length := 4 + size;
      }
    }

    /** Reads the file of the log. It is cut off behind the last good record if a failure is noticed. */
    method Load() returns (result: LoadResult)
      requires nodes == [] && deps == [] && Ids() && state.Owns()
      modifies this, state, state.paths.Values`id
      ensures !HasHeader(old(file)) ==> result == StartedOver && file == [] && nodes == [] && deps == []
      ensures needsRecompaction ==
        (old(needsRecompaction) || (result == Loaded && Crowded(LoadFrom(old(file), EMPTY_VIEW, 16).view)))
      ensures HasHeader(old(file)) && result != Aborted && result != Overran ==>
        Reading(LoadFrom(old(file), EMPTY_VIEW, 16).view)
      ensures HasHeader(old(file)) ==>
        match LoadFrom(old(file), EMPTY_VIEW, 16).end
        case AtEnd => result == Loaded && file == old(file)
        case Broken =>
          (result == Recovered && file == AfterLoad(old(file))) || (result == TruncateFailed && file == old(file))
        case Overrun => result == Overran
        case _ => result == Aborted
      ensures PathsGrow(old(state.paths), state.paths)
    {
      if !HasHeader(file) {
        file := [];
        return StartedOver;
      }
      EmptyIsRead();
      HeaderLength(file);
      hide Reading, ReadRecord, HasHeader, LoadFrom, Outputs;
      var offset, total, unique;
      result, offset, total, unique := LoadRecords();
      if result == Recovered {
        var truncated: bool := *;
        if truncated {
          file := file[..offset];
        } else {
          result := TruncateFailed;
        }
      } else if result == Loaded {
        // Rebuild the log if there are too many dead records.
        if total > MIN_COMPACTION_ENTRY_COUNT && total > unique * COMPACTION_RATIO {
          needsRecompaction := true;
        }
      }
    }

    lemma HeaderLength(b: seq<byte>)
      requires HasHeader(b)
      ensures |b| >= 16
    {}

    /** The loop of `Load`. */
    method LoadRecords() returns (result: LoadResult, offset: nat, total: nat, unique: nat)
      requires Reading(EMPTY_VIEW) && |file| >= 16
      modifies this`nodes, this`deps, state, state.paths.Values`id
      ensures var l := LoadFrom(file, EMPTY_VIEW, 16);
        && offset == l.offset && total == l.view.total && unique == Outputs(l.view)
        && (result == Loaded || result == Recovered ==> Reading(l.view))
        && result == EndOf(l.end)
      ensures PathsGrow(old(state.paths), state.paths)
    {
      NoOutputs();
      hide Reading, ReadRecord, Ids, HasHeader, LoadFrom, Outputs;
      ghost var v := EMPTY_VIEW;
      offset, total, unique := 16, 0, 0;
      while true
        invariant total == v.total && unique == Outputs(v)
        invariant offset <= |file| && Reading(v) && LoadFrom(file, v, offset) == LoadFrom(file, EMPTY_VIEW, 16)
        invariant PathsGrow(old(state.paths), state.paths)
        invariant forall p :: p in state.paths ==> state.paths[p] in old(state.paths.Values) || fresh(state.paths[p])
        decreases |file| - offset
      {
        ghost var next := ReadRecord(file[offset..], v);
        var end, length, more, first := LoadNext(offset, v);
        LoadTurn(file, v, offset);
        if end != None {
          result := end.value;
          return;
        }
        v, offset, total, unique := Apply(v, next.record), offset + length, total + more, unique + first;
      }
    }

    lemma EmptyIsRead()
      requires nodes == [] && deps == [] && Ids() && state.Owns()
      ensures Reading(EMPTY_VIEW)
    {}

    /** Loads a log of which a crash left the first `k` bytes. The records that are whole are there
        again, and if the file was left or made whole, more can be recorded. */
    method LoadLog(ghost rs: seq<Record>, ghost k: nat) returns (result: LoadResult)
      requires nodes == [] && deps == [] && Ids() && state.Owns()
      requires IsLog(rs) && 16 <= k <= |FileOf(rs)| && file == FileOf(rs)[..k]
      modifies this, state, state.paths.Values`id
      ensures Represents(nodes, deps, Replay(rs[..Whole(rs, k)])) && PathsGrow(old(state.paths), state.paths)
      ensures InMemory() && records == rs[..Whole(rs, k)]
      ensures result ==
        if k - Start(rs, Whole(rs, k)) < 4 then Loaded else if file == old(file) then TruncateFailed else Recovered
      ensures Valid() <==> k == Start(rs, Whole(rs, k)) || result == Recovered
      ensures needsRecompaction == (old(needsRecompaction) || (result == Loaded && Crowded(Replay(rs[..Whole(rs, k)]))))
    {
      hide *;
      ghost var j := Whole(rs, k);
      LoadingPrefix(rs, k);
      result := Load();
      records := rs[..j];
      HasRead(Replay(records));
    }

    lemma HasRead(v: View)
      requires Reading(v)
      ensures Represents(nodes, deps, v)
      ensures v == Replay(records) && IsLog(records) ==> InMemory()
      ensures v == Replay(records) && IsLog(records) ==> (Valid() <==> file == FileOf(records))
    {}

    /** Opens the log for recording. A log that should be written again is; a new file gets the header. */
    method OpenForWrite() returns (ok: bool)
      requires needsRecompaction ==> InMemory() && |state.paths| < DEPS_BIT
      modifies this, state.paths.Values`id
      ensures needsRecompaction == old(needsRecompaction)
      ensures !old(needsRecompaction) ==> nodes == old(nodes) && deps == old(deps) && records == old(records)
      ensures !old(needsRecompaction) ==> forall p :: p in state.paths ==> state.paths[p].id == old(state.paths[p].id)
      ensures !old(needsRecompaction) && ok ==> file == if old(file) == [] then Header() else old(file)
      ensures old(needsRecompaction) && ok ==> Valid() && OncePerOutput(records)
      ensures old(needsRecompaction) && ok ==> forall n :: Owned(state.paths, n) ==> GetDeps(n) == old(GetDeps(n))
      decreases if needsRecompaction then 4 else 0
    {
      ok := true;
      if needsRecompaction {
        ok := Recompact();
        if !ok {
          return;
        }
        FileIsNotEmpty();
      }
      if file == [] {
        ok := Write(Header());
      }
    }

    lemma FileIsNotEmpty()
      requires Valid()
      ensures file != []
    {}

    /** Takes the ids from all nodes. */
    method ClearIds()
      requires Ids() && forall k :: 0 <= k < |nodes| ==> Owned(state.paths, nodes[k])
      modifies state.paths.Values`id
      ensures forall p :: p in state.paths ==> state.paths[p].id == -1
    {
      hide IndexOf;
      for i := 0 to |nodes|
        invariant forall p :: p in state.paths ==>
          state.paths[p].id == -1 ||
          (state.paths[p].id == IndexOf(nodes, state.paths[p]) && state.paths[p] !in nodes[..i])
      {
        assert Owned(state.paths, nodes[i]) && state.paths[nodes[i].path] in state.paths.Values;
        nodes[i].id := -1;
      }
      assert nodes[..|nodes|] == nodes;
    }

    /** Writes the log again without its dead records. Unless the file system fails, every node has the
        deps it had, ids are dense again, and there is one record for each output with deps. */
    method Recompact() returns (ok: bool)
      requires InMemory() && |state.paths| < DEPS_BIT
      modifies this, state.paths.Values`id
      ensures needsRecompaction == old(needsRecompaction)
      ensures ok ==> Valid() && OncePerOutput(records)
      ensures ok ==> forall n :: Owned(state.paths, n) ==> GetDeps(n) == old(GetDeps(n))
      decreases 3
    {
      AllDepsAt();
      assert Tells(nodes, deps);
      ok := Rewrite();
    }

    /** The work of `Recompact`. */
    method Rewrite() returns (ok: bool)
      requires Ids() && Sound(state.paths, nodes, deps, records) && |state.paths| < DEPS_BIT
      modifies this, state.paths.Values`id
      ensures needsRecompaction == old(needsRecompaction)
      ensures ok ==> Valid() && OncePerOutput(records) && Tells(old(nodes), old(deps))
      decreases 2
    {
      hide Valid, Ids, Sound, OncePerOutput, DepsOf, GetDeps, Torn;
      var newLog;
      ok, newLog := OpenAnother();
      if ok {
        ok := CopyDeps(newLog);
      }
      if ok {
        ok := Steal(newLog);
      }
    }

    /** Starts another log, in which no node has an id. */
    method OpenAnother() returns (ok: bool, newLog: DepsLog)
      requires Ids() && Sound(state.paths, nodes, deps, records)
      modifies state.paths.Values`id
      ensures newLog != this && fresh(newLog) && newLog.state == state
      ensures ok ==> newLog.Valid() && OncePerOutput(newLog.records)
      ensures ok ==> forall n :: Owned(state.paths, n) ==> newLog.GetDeps(n) == None
      decreases 1
    {
      SoundFacts(state.paths, nodes, deps, records);
      hide Valid, Ids, Sound, OncePerOutput, GetDeps, IndexOf, FileOf;
      newLog := new DepsLog(state);
      ok := newLog.OpenForWrite();
      if ok {
        ClearIds();
        newLog.StartsEmpty();
      }
    }

    lemma ValidParts()
      requires Valid()
      ensures Ids() && Sound(state.paths, nodes, deps, records)
    {}

    lemma IsRepresented()
      requires Valid()
      ensures IsLog(records) && Represents(nodes, deps, Replay(records)) && file == FileOf(records)
    {}

    lemma IsFileOf()
      requires Valid()
      ensures file == FileOf(records)
    {}

    /** Takes over the data of `newLog`, to which the ids of all nodes refer now. Replacing the file
        may fail. */
    method Steal(newLog: DepsLog) returns (ok: bool)
      requires newLog != this && newLog.state == state && newLog.Valid() && OncePerOutput(newLog.records)
      modifies this
      ensures ok ==> Valid() && OncePerOutput(records)
      ensures needsRecompaction == old(needsRecompaction)
      ensures forall n: Node {:trigger GetDeps(n)} :: GetDeps(n) == newLog.GetDeps(n)
    {
      hide Sound, OncePerOutput, IndexOf, FileOf;
      deps, nodes, records := newLog.deps, newLog.nodes, newLog.records;
      ok := *;
      if ok {
        file := newLog.file;
      }
    }

    lemma StartsEmpty()
      requires nodes == [] && deps == [] && records == [] && file == Header() && state.Owns()
      requires forall p :: p in state.paths ==> state.paths[p].id == -1
      ensures Valid() && OncePerOutput(records) && forall n :: Owned(state.paths, n) ==> GetDeps(n) == None
    {}

    /** The loop of `Recompact`. */
    method CopyDeps(newLog: DepsLog) returns (ok: bool)
      requires newLog != this && newLog.state == state && Sound(state.paths, nodes, deps, records)
      requires |state.paths| < DEPS_BIT
      requires newLog.Valid() && OncePerOutput(newLog.records)
      requires forall n :: Owned(state.paths, n) ==> newLog.GetDeps(n) == None
      modifies newLog, state.paths.Values`id
      ensures ok ==> newLog.Valid() && OncePerOutput(newLog.records)
      ensures ok ==> forall n :: Owned(state.paths, n) ==> newLog.GetDeps(n) == DepsOf(nodes, deps, n)
      ensures !ok ==> newLog.Torn()
    {
      hide Valid, Sound, OncePerOutput, DepsOf, GetDeps, Torn, TooLong;
      ok := true;
      NoDepsYet(nodes, deps);
      for oldId := 0 to |deps|
        invariant ok && newLog.Valid() && OncePerOutput(newLog.records)
        invariant forall n :: Owned(state.paths, n) ==> newLog.GetDeps(n) == DepsOf(nodes, deps[..oldId], n)
      {
        DepsFit(state.paths, nodes, deps, records);
        DepsOfNext(state.paths, nodes, deps, records, oldId);
        if deps[oldId] != None {
          var d := deps[oldId].value;
          StillRecordable(state.paths, nodes, deps, records, oldId);
          ok := newLog.RecordDeps(nodes[oldId], d.mtime, d.nodes);
          if !ok {
            return;
          }
        }
      }
      assert deps[..|deps|] == deps;
    }
  }

  lemma NoDepsYet(nodes: seq<Node>, deps: seq<Option<Deps>>)
    ensures forall n :: DepsOf(nodes, deps[..0], n) == None
  {}

  lemma SoundFacts(paths: map<string, Node>, nodes: seq<Node>, deps: seq<Option<Deps>>, records: seq<Record>)
    requires Sound(paths, nodes, deps, records)
    ensures forall k :: 0 <= k < |nodes| ==> Owned(paths, nodes[k])
    ensures forall p :: p in paths ==> paths[p].path == p
  {}

  lemma DepsOfNext(paths: map<string, Node>, nodes: seq<Node>, deps: seq<Option<Deps>>, records: seq<Record>, k: nat)
    requires Sound(paths, nodes, deps, records) && k < |deps| <= |nodes|
    ensures Owned(paths, nodes[k]) && DepsOf(nodes, deps[..k], nodes[k]) == None
    ensures DepsOf(nodes, deps[..k + 1], nodes[k]) == deps[k]
    ensures forall n :: n != nodes[k] || deps[k] == None ==>
      DepsOf(nodes, deps[..k + 1], n) == DepsOf(nodes, deps[..k], n)
  {
    hide IsLog, Replay, Represents;
    IndexAt(nodes, k);
  }

  /** What was recorded once fits a record again. */
  lemma StillRecordable(paths: map<string, Node>, nodes: seq<Node>, deps: seq<Option<Deps>>, records: seq<Record>,
                        k: nat)
    requires Sound(paths, nodes, deps, records) && |paths| < DEPS_BIT && k < |deps| <= |nodes| && deps[k] != None
    ensures Recordable(paths, nodes[k]) && AllRecordable(paths, deps[k].value.nodes) && IsInt32(deps[k].value.mtime)
    ensures !TooLong(nodes[k], deps[k].value.nodes)
  {
    hide IsLog, Replay, TooLong;
    var v := Replay(records);
    LogIsRewritable(records);
    assert k in v.deps && Rewritable(v, k) && DepsAre(nodes, deps[k].value, v.deps[k]);
    forall n | n in [nodes[k]] + deps[k].value.nodes
      ensures Recordable(paths, n) && SizeOf(PathRecord(n.path)) <= MAX_RECORD_SIZE
    {
      RecordedNode(paths, nodes, deps, records, k, n);
    }
    FitsAgain(nodes[k], deps[k].value.nodes);
  }

  lemma RecordedNode(paths: map<string, Node>, nodes: seq<Node>, deps: seq<Option<Deps>>, records: seq<Record>,
                     k: nat, n: Node)
    requires Sound(paths, nodes, deps, records) && |paths| < DEPS_BIT && k < |deps| <= |nodes| && deps[k] != None
    requires n in [nodes[k]] + deps[k].value.nodes
    ensures Recordable(paths, n) && SizeOf(PathRecord(n.path)) <= MAX_RECORD_SIZE
  {
    hide IsLog, Replay;
    var v := Replay(records);
    assert k in v.deps && DepsAre(nodes, deps[k].value, v.deps[k]);
    var i: nat;
    if n == nodes[k] {
      i := k;
    } else {
      assert n in deps[k].value.nodes;
      var m :| 0 <= m < |deps[k].value.nodes| && deps[k].value.nodes[m] == n;
      i := v.deps[k].ins[m];
    }
    assert nodes[i] == n && n.path == v.paths[i];
    PathOfLog(records, i);
  }

  lemma PathOfLog(records: seq<Record>, i: nat)
    requires IsLog(records) && i < |Replay(records).paths|
    ensures IsPath(Replay(records).paths[i]) && SizeOf(PathRecord(Replay(records).paths[i])) <= MAX_RECORD_SIZE
    decreases |records|
  {
    var v, r := Replay(records[..|records| - 1]), records[|records| - 1];
    assert Writable(v, r) && Replay(records) == Apply(v, r);
    if i < |v.paths| {
      PathOfLog(records[..|records| - 1], i);
    }
  }

  lemma FitsAgain(node: Node, inputs: seq<Node>)
    requires 4 * (2 + |inputs|) <= MAX_RECORD_SIZE
    requires forall n :: n in [node] + inputs ==> SizeOf(PathRecord(n.path)) <= MAX_RECORD_SIZE
    ensures !TooLong(node, inputs)
  {}

  function PathsOf(nodes: seq<Node>): seq<string>
  {
    if nodes == [] then [] else PathsOf(nodes[..|nodes| - 1]) + [nodes[|nodes| - 1].path]
  }

  lemma {:induction false} SamePaths(a: seq<Node>, b: seq<Node>)
    requires |a| == |b| && forall i :: 0 <= i < |a| ==> a[i].path == b[i].path
    ensures PathsOf(a) == PathsOf(b)
    decreases |a|
  {
    if a != [] {
      SamePaths(a[..|a| - 1], b[..|b| - 1]);
    }
  }

  /** The same ids and deps, up to the identity of nodes. */
  ghost predicate Alike(nodesA: seq<Node>, depsA: seq<Option<Deps>>, nodesB: seq<Node>, depsB: seq<Option<Deps>>)
  {
    && PathsOf(nodesA) == PathsOf(nodesB) && |depsA| == |depsB|
    && (forall k :: 0 <= k < |depsA| ==> (depsA[k].Some? <==> depsB[k].Some?))
    && (forall k :: 0 <= k < |depsA| && depsA[k].Some? ==>
      depsA[k].value.mtime == depsB[k].value.mtime && PathsOf(depsA[k].value.nodes) == PathsOf(depsB[k].value.nodes))
  }

  /** Two processes that hold the same log agree. */
  lemma SameLogSameDeps(nodesA: seq<Node>, depsA: seq<Option<Deps>>, nodesB: seq<Node>, depsB: seq<Option<Deps>>,
                        v: View)
    requires Represents(nodesA, depsA, v) && Represents(nodesB, depsB, v)
    ensures Alike(nodesA, depsA, nodesB, depsB)
  {
    SamePaths(nodesA, nodesB);
    SameSize(nodesA, depsA, nodesB, depsB, v);
    SameSize(nodesB, depsB, nodesA, depsA, v);
    forall k | 0 <= k < |depsA| && k < |depsB|
      ensures depsA[k].Some? <==> depsB[k].Some?
      ensures depsA[k].Some? ==>
        depsA[k].value.mtime == depsB[k].value.mtime && PathsOf(depsA[k].value.nodes) == PathsOf(depsB[k].value.nodes)
    {
      assert depsA[k].Some? <==> k in v.deps;
      assert depsB[k].Some? <==> k in v.deps;
      if k in v.deps {
        assert DepsAre(nodesA, depsA[k].value, v.deps[k]) && DepsAre(nodesB, depsB[k].value, v.deps[k]);
        SamePaths(depsA[k].value.nodes, depsB[k].value.nodes);
      }
    }
  }

  lemma SameSize(nodesA: seq<Node>, depsA: seq<Option<Deps>>, nodesB: seq<Node>, depsB: seq<Option<Deps>>, v: View)
    requires Represents(nodesA, depsA, v) && Represents(nodesB, depsB, v)
    ensures |depsA| <= |depsB|
  {
    if depsA != [] {
      var last: nat := |depsA| - 1;
      assert last in v.deps;
    }
  }

  lemma WholeFile(records: seq<Record>)
    ensures |FileOf(records)| >= 16
    ensures var k := |FileOf(records)|;
      Whole(records, k) == |records| && Start(records, |records|) == k && FileOf(records)[..k] == FileOf(records)
    ensures records[..|records|] == records
  {
    hide Start, Encoded, Header;
    var j := Whole(records, |FileOf(records)|);
    StartWithin(records, j);
    if j < |records| {
      StartWithin(records, j + 1);
    }
  }

  /** What was recorded is there again for a process that starts with the file and no nodes. */
  method ReadBack(log: DepsLog) returns (copy: DepsLog, result: LoadResult)
    requires log.Valid()
    ensures fresh(copy) && result == Loaded && copy.Valid() && copy.file == log.file
    ensures Alike(log.nodes, log.deps, copy.nodes, copy.deps)
  {
    WholeFile(log.records);
    log.ValidParts();
    log.IsRepresented();
    hide *;
    var state := new State();
    copy := NewLog(state, log.file);
    result := copy.LoadLog(log.records, |log.file|);
    SameLogSameDeps(log.nodes, log.deps, copy.nodes, copy.deps, Replay(log.records));
    copy.IsFileOf();
  }

  method NewLog(state: State, file: seq<byte>) returns (log: DepsLog)
    requires state.paths == map[]
    ensures fresh(log) && log.state == state && log.nodes == [] && log.deps == [] && log.file == file
    ensures log.Ids() && state.Owns()
  {
    log := new DepsLog(state);
    log.file := file;
  }

  /** How loading ends: with the file as it is, with the file cut off behind the last good record,
      with a file of another format removed, with a file that could not be cut off, with a failed
      assertion, or with a read outside the buffer of the record. */
  datatype LoadResult = Loaded | Recovered | StartedOver | TruncateFailed | Aborted | Overran

  function EndOf(end: DepsLogFormat.Reading): LoadResult
  {
    match end
    case AtEnd => Loaded
    case Broken => Recovered
    case Overrun => Overran
    case _ => Aborted
  }

  lemma LoadingPrefix(rs: seq<Record>, k: nat)
    requires IsLog(rs) && 16 <= k <= |FileOf(rs)|
    ensures HasHeader(FileOf(rs)[..k]) && IsLog(rs[..Whole(rs, k)])
    ensures var j, b, l := Whole(rs, k), FileOf(rs)[..k], LoadFrom(FileOf(rs)[..k], EMPTY_VIEW, 16);
      && |FileOf(rs[..j])| == Start(rs, j)
      && l.view == Replay(rs[..j]) && l.end == (if k - Start(rs, j) < 4 then AtEnd else Broken)
      && (k == Start(rs, j) ==> b == FileOf(rs[..j]))
      && (k >= Start(rs, j) + 4 ==> AfterLoad(b) == FileOf(rs[..j]) && AfterLoad(b) != b)
  {
    HeaderOfFile(rs, k);
    LoadPrefix(rs, k);
    RecoveryIsExact(rs, k);
    PrefixIsLog(rs, Whole(rs, k));
    StartIsLength(rs, Whole(rs, k));
    hide HasHeader, LoadFrom, FileOf, IsLog, Replay, Whole, Start;
  }

  lemma LoadTurn(b: seq<byte>, v: View, offset: nat)
    requires offset <= |b|
    ensures var r := ReadRecord(b[offset..], v);
      && (!r.Got? ==> LoadFrom(b, v, offset) == Loading(v, offset, r))
      && (r.Got? && offset + r.length <= |b| ==>
        LoadFrom(b, v, offset) == LoadFrom(b, Apply(v, r.record), offset + r.length))
  {
    hide ReadRecord, Apply;
  }

  /** One turn of the loop, in terms of bytes. */
  lemma ReadRecordAt(b: seq<byte>, offset: nat, v: View)
    requires offset + 4 <= |b|
    ensures var rest, size := b[offset..], Word(b[offset..]) % DEPS_BIT;
      ReadRecord(rest, v) ==
      if size > BUFFER_SIZE && |b| - offset - 4 > BUFFER_SIZE then Overrun
      else if size == 0 || |b| - offset - 4 < size || size > MAX_RECORD_SIZE then Broken
      else if Word(rest) >= DEPS_BIT then ReadDeps(b[offset + 4..offset + 4 + size], v)
      else ReadPath(b[offset + 4..offset + 4 + size], v)
  {
    hide Word, ReadDeps, ReadPath;
    var size := Word(b[offset..]) % DEPS_BIT;
    if offset + 4 + size <= |b| {
      assert b[offset..][4..4 + size] == b[offset + 4..offset + 4 + size];
    }
  }

  lemma PathTaken(paths: map<string, Node>, nodes: seq<Node>, deps: seq<Option<Deps>>, v: View, node: Node)
    requires Represents(nodes, deps, v) && Owned(paths, node) && forall k :: 0 <= k < |nodes| ==> Owned(paths, nodes[k])
    ensures node.path in v.paths <==> node in nodes
    ensures Distinct(nodes) && node !in nodes ==> Distinct(nodes + [node])
  {
    if node.path in v.paths {
      var k :| 0 <= k < |v.paths| && v.paths[k] == node.path;
      assert nodes[k].path == node.path && Owned(paths, nodes[k]);
    } else {
      forall k | 0 <= k < |nodes| ensures nodes[k] != node {
        assert nodes[k].path == v.paths[k];
      }
    }
  }

  lemma IsDeps(body: seq<byte>, v: View)
    ensures var r := ReadDeps(body, v); r.Got? ==> Apply(v, r.record).total == v.total + 1
  {
    hide Numbers, Word;
  }

  lemma IsPathRecord(body: seq<byte>, v: View)
    ensures var r := ReadPath(body, v);
      r.Got? ==> Apply(v, r.record).total == v.total && Outputs(Apply(v, r.record)) == Outputs(v)
  {
    hide Word, Stripped, Chars, Size;
  }

  lemma HasDeps(nodes: seq<Node>, deps: seq<Option<Deps>>, v: View, id: nat)
    requires Represents(nodes, deps, v)
    ensures (id < |deps| && deps[id].Some?) <==> id in v.deps
  {}

  lemma StandingDeps(nodes: seq<Node>, ns: seq<nat>, inputs: seq<Node>, mtime: int)
    requires Stand(nodes, ns, inputs) && |ns| == |inputs| + 2
    ensures DepsAre(nodes, Deps(mtime, inputs), DepsView(mtime, ns[2..]))
  {
    var ins := ns[2..];
    assert |ins| == |inputs|;
    forall i | 0 <= i < |inputs| ensures ins[i] < |nodes| && inputs[i] == nodes[ins[i]] {
      assert inputs[i] == nodes[ns[i + 2]] && ns[i + 2] < |nodes| && ins[i] == ns[i + 2];
    }
  }

  lemma {:induction false} NumbersAt(b: seq<byte>, i: nat)
    requires 4 * i + 4 <= |b|
    ensures Numbers(b)[i] == Word(b[4 * i..])
    decreases i
  {
    hide Word;
    if i > 0 {
      NumbersAt(b[4..], i - 1);
      assert b[4..][4 * (i - 1)..] == b[4 * i..];
    } else {
      assert b[0..] == b;
    }
  }

  /** The nodes that the numbers from the third on stand for. */
  ghost predicate Stand(nodes: seq<Node>, ns: seq<nat>, inputs: seq<Node>)
  {
    |inputs| + 2 <= |ns| && forall i :: 0 <= i < |inputs| ==> ns[i + 2] < |nodes| && inputs[i] == nodes[ns[i + 2]]
  }

  lemma AddedPath(records: seq<Record>, path: string)
    ensures Replay(records + [PathRecord(path)]).deps == Replay(records).deps
  {
    assert (records + [PathRecord(path)])[..|records|] == records;
  }

  lemma SoundIsLog(paths: map<string, Node>, nodes: seq<Node>, deps: seq<Option<Deps>>, records: seq<Record>)
    requires Sound(paths, nodes, deps, records)
    ensures IsLog(records)
  {}
}
