// The distance between two words (src/edit_distance.cc), and the suggestions made from it
// (SpellcheckStringV in src/util.cc, SpellcheckNode in src/state.cc).

module EditDistance {
  import opened Graph

  // ----- what the distance should be -----

  datatype Edit = Keep | Delete | Insert(c: char) | Replace(c: char)

  /** The script, read from left to right, turns `s` into `t`. */
  predicate Turns(script: seq<Edit>, s: string, t: string)
  {
    if script == [] then s == [] && t == []
    else
      var rest := script[..|script| - 1];
      match script[|script| - 1]
      case Keep => s != [] && t != [] && s[|s| - 1] == t[|t| - 1] && Turns(rest, s[..|s| - 1], t[..|t| - 1])
      case Delete => s != [] && Turns(rest, s[..|s| - 1], t)
      case Insert(c) => t != [] && t[|t| - 1] == c && Turns(rest, s, t[..|t| - 1])
      case Replace(c) => s != [] && t != [] && t[|t| - 1] == c && Turns(rest, s[..|s| - 1], t[..|t| - 1])
  }

  function Cost(script: seq<Edit>): nat
  {
    if script == [] then 0 else Cost(script[..|script| - 1]) + if script[|script| - 1] == Keep then 0 else 1
  }

  predicate Allowed(script: seq<Edit>, replacements: bool)
  {
    replacements || forall e :: e in script ==> !e.Replace?
  }

  /** `d` is the least cost of a script that turns `s` into `t`. */
  ghost predicate IsDistance(s: string, t: string, replacements: bool, d: nat)
  {
    && (exists script :: Turns(script, s, t) && Allowed(script, replacements) && Cost(script) == d)
    && (forall script :: Turns(script, s, t) && Allowed(script, replacements) ==> d <= Cost(script))
  }

  // ----- the recurrence -----

  function Min(a: int, b: int): int { if a <= b then a else b }

  function Dist(s: string, t: string, replacements: bool): nat
    decreases |s| + |t|
  {
    if s == [] then |t|
    else if t == [] then |s|
    else
      var s', t' := s[..|s| - 1], t[..|t| - 1];
      var same := s[|s| - 1] == t[|t| - 1];
      if replacements then
        Min(Dist(s', t', true) + (if same then 0 else 1), Min(Dist(s, t', true), Dist(s', t, true)) + 1)
      else if same then
        Dist(s', t', false)
      else
        Min(Dist(s, t', false), Dist(s', t, false)) + 1
  }

  /** One letter more or less changes the distance by at most one. */
  lemma {:induction false} Neighbours(s: string, t: string, replacements: bool)
    ensures s != [] ==> Dist(s[..|s| - 1], t, replacements) <= Dist(s, t, replacements) + 1
    ensures s != [] ==> Dist(s, t, replacements) <= Dist(s[..|s| - 1], t, replacements) + 1
    ensures t != [] ==> Dist(s, t[..|t| - 1], replacements) <= Dist(s, t, replacements) + 1
    ensures t != [] ==> Dist(s, t, replacements) <= Dist(s, t[..|t| - 1], replacements) + 1
    decreases |s| + |t|
  {
    if s != [] && t != [] {
      Neighbours(s[..|s| - 1], t, replacements);
      Neighbours(s, t[..|t| - 1], replacements);
      Neighbours(s[..|s| - 1], t[..|t| - 1], replacements);
    }
  }

  /** No script is cheaper than the recurrence says, although without replacements it keeps equal
      letters without trying anything else. */
  lemma {:induction false} NoCheaper(script: seq<Edit>, s: string, t: string, replacements: bool)
    requires Turns(script, s, t) && Allowed(script, replacements)
    ensures Dist(s, t, replacements) <= Cost(script)
    decreases |script|
  {
    if script != [] {
      var rest := script[..|script| - 1];
      Neighbours(s, t, replacements);
      match script[|script| - 1]
      case Keep => NoCheaper(rest, s[..|s| - 1], t[..|t| - 1], replacements);
      case Delete => NoCheaper(rest, s[..|s| - 1], t, replacements);
      case Insert(c) => NoCheaper(rest, s, t[..|t| - 1], replacements);
      case Replace(c) =>
        assert script[|script| - 1] in script;
        NoCheaper(rest, s[..|s| - 1], t[..|t| - 1], replacements);
    }
  }

  /** Some script is as cheap as the recurrence says. */
  lemma {:induction false} Cheapest(s: string, t: string, replacements: bool) returns (script: seq<Edit>)
    ensures Turns(script, s, t) && Allowed(script, replacements) && Cost(script) == Dist(s, t, replacements)
    decreases |s| + |t|
  {
    if s == [] && t == [] {
      script := [];
      return;
    }
    var last: Edit;
    if s == [] || (t != [] && Dist(s, t, replacements) == Dist(s, t[..|t| - 1], replacements) + 1) {
      script := Cheapest(s, t[..|t| - 1], replacements);
      last := Insert(t[|t| - 1]);
    } else if t == [] || Dist(s, t, replacements) == Dist(s[..|s| - 1], t, replacements) + 1 {
      script := Cheapest(s[..|s| - 1], t, replacements);
      last := Delete;
    } else {
      script := Cheapest(s[..|s| - 1], t[..|t| - 1], replacements);
      last := if s[|s| - 1] == t[|t| - 1] then Keep else Replace(t[|t| - 1]);
    }
    assert (script + [last])[..|script|] == script;
    script := script + [last];
  }

  lemma DistIsDistance(s: string, t: string, replacements: bool)
    ensures IsDistance(s, t, replacements, Dist(s, t, replacements))
  {
    var best := Cheapest(s, t, replacements);
    forall script | Turns(script, s, t) && Allowed(script, replacements)
      ensures Dist(s, t, replacements) <= Cost(script)
    {
      NoCheaper(script, s, t, replacements);
    }
  }

  lemma DistanceIsUnique(s: string, t: string, replacements: bool, d: nat)
    requires IsDistance(s, t, replacements, d)
    ensures d == Dist(s, t, replacements)
  {
    DistIsDistance(s, t, replacements);
  }

  /** The least entry of a row never exceeds an entry of a later row. */
  lemma {:induction false} RowsRise(s: string, t: string, y: nat, replacements: bool) returns (x: nat)
    requires y <= |s|
    ensures x <= |t| && Dist(s[..y], t[..x], replacements) <= Dist(s, t, replacements)
    decreases |s| + |t|
  {
    if y == |s| {
      x := |t|;
      assert s[..y] == s && t[..x] == t;
    } else if t == [] {
      x := 0;
    } else {
      var s', t' := s[..|s| - 1], t[..|t| - 1];
      assert s'[..y] == s[..y];
      if Dist(s, t, replacements) == Dist(s, t', replacements) + 1 {
        x := RowsRise(s, t', y, replacements);
        assert t'[..x] == t[..x];
      } else if Dist(s, t, replacements) == Dist(s', t, replacements) + 1 {
        x := RowsRise(s', t, y, replacements);
      } else {
        x := RowsRise(s', t', y, replacements);
        assert t'[..x] == t[..x];
      }
    }
  }

  // ----- the algorithm -----

  /** The first entries of `row` are the distances of `s` to the beginnings of `t`. */
  ghost predicate Row(row: seq<int>, s: string, t: string, replacements: bool, upTo: nat)
  {
    upTo <= |t| && upTo < |row| && forall x :: 0 <= x <= upTo ==> row[x] == Dist(s, t[..x], replacements)
  }

  lemma RowStarts(s: string, t: string, replacements: bool)
    ensures Dist(s, t[..0], replacements) == |s|
  {}

  lemma FirstRow(t: string, x: nat, replacements: bool)
    requires x <= |t|
    ensures Dist([], t[..x], replacements) == x
  {}

  /** How an entry follows from its three neighbours. */
  lemma NextEntry(s: string, t: string, y: nat, x: nat, replacements: bool)
    requires y < |s| && x < |t|
    ensures Dist(s[..y + 1], t[..x + 1], replacements) ==
      if replacements then
        Min(Dist(s[..y], t[..x], true) + (if s[y] == t[x] then 0 else 1),
            Min(Dist(s[..y + 1], t[..x], true), Dist(s[..y], t[..x + 1], true)) + 1)
      else if s[y] == t[x] then Dist(s[..y], t[..x], false)
      else Min(Dist(s[..y + 1], t[..x], false), Dist(s[..y], t[..x + 1], false)) + 1
  {
    assert s[..y + 1][..y] == s[..y] && t[..x + 1][..x] == t[..x];
  }

  /** The inner loop: fills `current` with the row after `previous`. */
  method FillRow(s1: string, s2: string, allowReplacements: bool, y: nat, previous: array<int>, current: array<int>)
    returns (bestThisRow: int)
    requires y < |s1| && previous != current && previous.Length == current.Length == |s2| + 1
    requires Row(previous[..], s1[..y], s2, allowReplacements, |s2|)
    modifies current
    ensures Row(current[..], s1[..y + 1], s2, allowReplacements, |s2|)
    ensures forall x :: 0 <= x <= |s2| ==> bestThisRow <= Dist(s1[..y + 1], s2[..x], allowReplacements)
    ensures exists x :: 0 <= x <= |s2| && bestThisRow == Dist(s1[..y + 1], s2[..x], allowReplacements)
  {
    hide Dist;
    RowStarts(s1[..y + 1], s2, allowReplacements);
    current[0] := y + 1;
    bestThisRow := current[0];
    for x := 1 to |s2| + 1
      invariant Row(previous[..], s1[..y], s2, allowReplacements, |s2|)
      invariant Row(current[..], s1[..y + 1], s2, allowReplacements, x - 1)
      invariant forall k :: 0 <= k < x ==> bestThisRow <= Dist(s1[..y + 1], s2[..k], allowReplacements)
      invariant exists k :: 0 <= k < x && bestThisRow == Dist(s1[..y + 1], s2[..k], allowReplacements)
    {
      NextEntry(s1, s2, y, x - 1, allowReplacements);
      assert previous[..][x] == previous[x] && previous[..][x - 1] == previous[x - 1];
      assert current[..][x - 1] == current[x - 1];
      if allowReplacements {
        current[x] := Min(previous[x - 1] + (if s1[y] == s2[x - 1] then 0 else 1),
                          Min(current[x - 1], previous[x]) + 1);
      } else if s1[y] == s2[x - 1] {
        current[x] := previous[x - 1];
      } else {
        current[x] := Min(current[x - 1], previous[x]) + 1;
      }
      bestThisRow := Min(bestThisRow, current[x]);
    }
  }

  /** The distance is exact unless it exceeds a limit that is not 0; then it may be cut off. */
  method EditDistance(s1: string, s2: string, allowReplacements: bool, maxEditDistance: nat) returns (d: nat)
    ensures IsDistance(s1, s2, allowReplacements, d) || d == maxEditDistance + 1
    ensures !IsDistance(s1, s2, allowReplacements, d) ==> maxEditDistance != 0
    ensures maxEditDistance == 0 ==> d == Dist(s1, s2, allowReplacements)
    ensures Dist(s1, s2, allowReplacements) <= maxEditDistance ==> d == Dist(s1, s2, allowReplacements)
    ensures Dist(s1, s2, allowReplacements) > maxEditDistance ==> d > maxEditDistance
  {
    hide Dist, IsDistance;
    DistIsDistance(s1, s2, allowReplacements);
    var m, n := |s1|, |s2|;
    var previous := new int[n + 1];
    var current := new int[n + 1];
    for i := 0 to n + 1
      invariant forall x :: 0 <= x < i ==> previous[x] == x
    {
      previous[i] := i;
    }
    forall x | 0 <= x <= n ensures previous[..][x] == Dist(s1[..0], s2[..x], allowReplacements) {
      FirstRow(s2, x, allowReplacements);
    }
    for y := 1 to m + 1
      invariant previous != current && previous.Length == current.Length == n + 1 && fresh(previous) && fresh(current)
      invariant Row(previous[..], s1[..y - 1], s2, allowReplacements, n)
    {
      var bestThisRow := FillRow(s1, s2, allowReplacements, y - 1, previous, current);
      if maxEditDistance != 0 && bestThisRow > maxEditDistance {
        var x := RowsRise(s1, s2, y, allowReplacements);
        return maxEditDistance + 1;
      }
      current, previous := previous, current;
    }
    assert s1[..m] == s1 && s2[..n] == s2;
    assert previous[..][n] == Dist(s1[..m], s2[..n], allowReplacements);
    return previous[n];
  }

  // ----- suggestions -----

  const ALLOW_REPLACEMENTS := true
  const MAX_VALID_EDIT_DISTANCE := 3

  /** The first of the words that are nearest to `text`, if any is within three edits of it. */
  method SpellcheckStringV(text: string, words: seq<string>) returns (result: Option<string>)
    ensures result.None? <==> forall w :: w in words ==> Dist(w, text, true) > MAX_VALID_EDIT_DISTANCE
    ensures result.Some? ==> exists k :: 0 <= k < |words| && IsFirstNearest(text, words, k) && words[k] == result.value
  {
    hide Dist;
    var minDistance := MAX_VALID_EDIT_DISTANCE + 1;
    result := None;
    ghost var at := 0;
    for i := 0 to |words|
      invariant 0 <= minDistance <= MAX_VALID_EDIT_DISTANCE + 1
      invariant result.None? <==> minDistance == MAX_VALID_EDIT_DISTANCE + 1
      invariant forall j :: 0 <= j < i ==> minDistance <= Dist(words[j], text, true)
      invariant result.Some? ==> 0 <= at < i && words[at] == result.value && Dist(words[at], text, true) == minDistance
      invariant result.Some? ==> forall j :: 0 <= j < at ==> minDistance < Dist(words[j], text, true)
    {
      var distance := EditDistance(words[i], text, ALLOW_REPLACEMENTS, MAX_VALID_EDIT_DISTANCE);
      if distance < minDistance {
        minDistance := distance;
        result := Some(words[i]);
        at := i;
      }
    }
  }

  ghost predicate IsFirstNearest(text: string, words: seq<string>, k: nat)
  {
    && k < |words| && Dist(words[k], text, true) <= MAX_VALID_EDIT_DISTANCE
    && (forall j :: 0 <= j < |words| ==> Dist(words[k], text, true) <= Dist(words[j], text, true))
    && (forall j :: 0 <= j < k ==> Dist(words[k], text, true) < Dist(words[j], text, true))
  }

  /** Some node whose path is nearest to `path`, if any is within three edits of it. The nodes come
      in the order of a hash table, which is not known. */
  method SpellcheckNode(paths: map<string, Node?>, path: string) returns (result: Node?)
    ensures result == null <==>
      forall p :: p in paths && paths[p] != null ==> Dist(p, path, true) > MAX_VALID_EDIT_DISTANCE
    ensures result != null ==> exists p :: p in paths && paths[p] == result && IsNearest(paths, path, p)
  {
    hide Dist;
    var minDistance := MAX_VALID_EDIT_DISTANCE + 1;
    result := null;
    ghost var at := [];
    var rest := paths.Keys;
    while rest != {}
      invariant rest <= paths.Keys && 0 <= minDistance <= MAX_VALID_EDIT_DISTANCE + 1
      invariant result == null <==> minDistance == MAX_VALID_EDIT_DISTANCE + 1
      invariant forall p :: p in paths && p !in rest && paths[p] != null ==> minDistance <= Dist(p, path, true)
      invariant result != null ==> at in paths && paths[at] == result && Dist(at, path, true) == minDistance
      decreases rest
    {
      var p :| p in rest;
      rest := rest - {p};
      var distance := EditDistance(p, path, ALLOW_REPLACEMENTS, MAX_VALID_EDIT_DISTANCE);
      if distance < minDistance && paths[p] != null {
        minDistance := distance;
        result := paths[p];
        at := p;
      }
    }
  }

  ghost predicate IsNearest(paths: map<string, Node?>, path: string, p: string)
  {
    && p in paths && Dist(p, path, true) <= MAX_VALID_EDIT_DISTANCE
    && forall q :: q in paths && paths[q] != null ==> Dist(p, path, true) <= Dist(q, path, true)
  }
}
