// The in-place rewriting of paths (CanonicalizePath in src/util.cc).

module Canonicalize {
  import opened Graph

  const MAX_PATH_COMPONENTS := 30

  // ----- what the result should be -----

  /** Where the first component of `s` ends. */
  function Slash(s: string): (k: nat)
    ensures k <= |s| && '/' !in s[..k] && (k < |s| ==> s[k] == '/')
  {
    if s == "" || s[0] == '/' then 0 else 1 + Slash(s[1..])
  }

  function Split(s: string): seq<string>
  {
    var k := Slash(s);
    if k == |s| then [s] else [s[..k]] + Split(s[k + 1..])
  }

  /** A path that was resolved as far as its components tell: so many steps up, then these names down. */
  datatype Steps = Steps(ups: nat, names: seq<string>)
  {
    function Text(): string { Ups(ups) + Joined(names) }
  }

  function Ups(n: nat): string { if n == 0 then "" else Ups(n - 1) + "../" }

  function Joined(names: seq<string>): string
  {
    if names == [] then "" else Joined(names[..|names| - 1]) + names[|names| - 1] + "/"
  }

  function Step(st: Steps, c: string): Option<Steps>
  {
    if c == "" || c == "." then Some(st)
    else if c == ".." then
      Some(if st.names != [] then st.(names := st.names[..|st.names| - 1]) else st.(ups := st.ups + 1))
    else if |st.names| == MAX_PATH_COMPONENTS then None
    else Some(st.(names := st.names + [c]))
  }

  function Resolve(st: Steps, components: seq<string>): Option<Steps>
    decreases |components|
  {
    if components == [] then Some(st)
    else
      match Step(st, components[0])
      case None => None
      case Some(next) => Resolve(next, components[1..])
  }

  datatype Failure = EmptyPath | EmptyResult | TooManyComponents

  datatype Outcome = Canonical(text: string) | Failed(why: Failure)

  predicate Rooted(path: string) { path != "" && path[0] == '/' }

  function Root(path: string): string { if Rooted(path) then "/" else "" }

  function Rest(path: string): string { if Rooted(path) then path[1..] else path }

  /** The components of `path`, resolved against each other and joined; the last separator is dropped. */
  function Canonicalized(path: string): Outcome
  {
    if path == "" then Failed(EmptyPath)
    else
      match Resolve(Steps(0, []), Split(Rest(path)))
      case None => Failed(TooManyComponents)
      case Some(st) =>
        var text := Root(path) + st.Text();
        if text == "" then Failed(EmptyResult) else Canonical(text[..|text| - 1])
  }

  // ----- the algorithm refines it -----

  lemma SplitHead(st: Steps, s: string)
    ensures var k := Slash(s);
      Resolve(st, Split(s)) ==
      match Step(st, s[..k])
      case None => None
      case Some(next) => Resolve(next, Split(if k < |s| then s[k + 1..] else ""))
  {
    var k := Slash(s);
    if k == |s| {
      assert s[..k] == s;
    }
  }

  lemma SlashAt(s: string, k: nat)
    requires k <= |s| && '/' !in s[..k] && (k < |s| ==> s[k] == '/')
    ensures Slash(s) == k
  {
    if k > 0 {
      assert s[0] == s[..k][0] && s[1..][..k - 1] == s[..k][1..];
      SlashAt(s[1..], k - 1);
    }
  }

  /** What is still to be read. */
  function Remaining(s: string, src: nat): string
  {
    if src <= |s| then s[src..] else ""
  }

  /** The characters before `dst` spell `text`, but for the last one when the end of the path was
      copied in place of a separator. */
  ghost predicate Written(a: seq<char>, dst: nat, text: string, atEnd: bool)
  {
    && dst == |text| <= |a| && (dst > 0 ==> a[..dst - 1] == text[..dst - 1])
    && (!atEnd ==> a[..dst] == text)
  }

  /** The components that can be backed over start where `offsets` says. */
  ghost predicate Offsets(offsets: seq<int>, count: nat, base: nat, st: Steps)
  {
    && count == |st.names| <= MAX_PATH_COMPONENTS == |offsets|
    && forall i :: 0 <= i < count ==> offsets[i] == base + |Steps(st.ups, st.names[..i]).Text()|
  }

  /** What was written when `path` was resolved to `st`. */
  function PathText(path: string, st: Steps): string { Root(path) + st.Text() }

  function Longer(text: string, name: string): string { text + name + "/" }

  ghost predicate SameTail(a: seq<char>, a': seq<char>, n: nat)
  {
    |a'| == |a| && n <= |a| && a'[n..] == a[n..]
  }

  lemma PathTextPush(path: string, st: Steps, c: string)
    ensures PathText(path, st.(names := st.names + [c])) == Longer(PathText(path, st), c)
  {
    TextPush(st, c);
    hide Root, Steps.Text;
    Associates(Root(path), st.Text(), c, "/");
  }

  lemma TextPush(st: Steps, c: string)
    ensures st.(names := st.names + [c]).Text() == st.Text() + c + "/"
  {
    var names := st.names + [c];
    assert names[..|names| - 1] == st.names && names[|names| - 1] == c;
    assert Joined(names) == Joined(st.names) + c + "/";
    Associates(Ups(st.ups), Joined(st.names), c, "/");
  }

  lemma Associates(a: string, b: string, c: string, d: string)
    ensures a + (b + c + d) == a + b + c + d
  {}

  lemma TextUp(st: Steps)
    requires st.names == []
    ensures st.(ups := st.ups + 1).Text() == st.Text() + "../"
  {}

  lemma TextPop(st: Steps)
    requires st.names != []
    ensures st.Text() == st.(names := st.names[..|st.names| - 1]).Text() + st.names[|st.names| - 1] + "/"
  {
    TextPush(st.(names := st.names[..|st.names| - 1]), st.names[|st.names| - 1]);
    assert st.names[..|st.names| - 1] + [st.names[|st.names| - 1]] == st.names;
  }

  /** `src` and `dst` as the loop moves them, and the components that can be backed over. */
  ghost predicate Reading(path: string, a: seq<char>, st: Steps, src: nat, dst: nat, offsets: seq<int>, count: nat,
                          base: nat)
  {
    && path != "" && |path| < |a| && dst <= src <= |path| + 1
    && Resolve(Steps(0, []), Split(Rest(path))) == Resolve(st, Split(Remaining(path, src)))
    && (forall i :: src <= i < |path| ==> a[i] == path[i])
    && Written(a, dst, PathText(path, st), src > |path|)
    && base == |Root(path)| && Offsets(offsets, count, base, st)
  }

  lemma NextRemaining(path: string, src: nat, k: nat)
    requires src < |path| && k == Slash(path[src..])
    ensures Remaining(path, src + k + 1) == if k < |path| - src then path[src..][k + 1..] else ""
  {}

  /** What the component at `src` does to `st`. */
  lemma Consume(path: string, a: seq<char>, st: Steps, src: nat, dst: nat, offsets: seq<int>, count: nat, base: nat,
                k: nat)
    requires Reading(path, a, st, src, dst, offsets, count, base) && src < |path|
    requires src + k <= |path| && '/' !in path[src..src + k] && (src + k < |path| ==> path[src + k] == '/')
    ensures Resolve(Steps(0, []), Split(Rest(path))) ==
      match Step(st, path[src..src + k])
      case None => None
      case Some(next) => Resolve(next, Split(Remaining(path, src + k + 1)))
  {
    hide Reading, Resolve, Split, Step;
    var s := path[src..];
    assert s[..k] == path[src..src + k];
    SlashAt(s, k);
    NextRemaining(path, src, k);
    assert Resolve(Steps(0, []), Split(Rest(path))) == Resolve(st, Split(s)) by {
      ReadingSplit(path, a, st, src, dst, offsets, count, base);
    }
    SplitHead(st, s);
  }

  lemma ReadingSplit(path: string, a: seq<char>, st: Steps, src: nat, dst: nat, offsets: seq<int>, count: nat,
                     base: nat)
    requires Reading(path, a, st, src, dst, offsets, count, base) && src < |path|
    ensures Resolve(Steps(0, []), Split(Rest(path))) == Resolve(st, Split(path[src..]))
  {}

  /** What begins at `src`: "." or ".." as a whole component, an empty component, or a name. */
  datatype Kind = Dot | DotDot | Separator | Name

  function KindAt(a: seq<char>, src: nat, len: nat): Kind
    requires src < len < |a|
  {
    if a[src] == '/' then Separator
    else if a[src] == '.' && (src + 1 == len || a[src + 1] == '/') then Dot
    else if a[src] == '.' && a[src + 1] == '.' && (src + 2 == len || a[src + 2] == '/') then DotDot
    else Name
  }

  ghost predicate Is(path: string, a: seq<char>, src: nat, kind: Kind)
  {
    src < |path| < |a| && KindAt(a, src, |path|) == kind
  }

  lemma SkipDot(path: string, a: seq<char>, st: Steps, src: nat, dst: nat, offsets: seq<int>, count: nat, base: nat)
    requires Reading(path, a, st, src, dst, offsets, count, base) && Is(path, a, src, Dot)
    ensures Reading(path, a, st, src + 2, dst, offsets, count, base)
  {
    hide Resolve, Split;
    assert path[src..src + 1] == ".";
    Consume(path, a, st, src, dst, offsets, count, base, 1);
  }

  lemma SkipSlash(path: string, a: seq<char>, st: Steps, src: nat, dst: nat, offsets: seq<int>, count: nat, base: nat)
    requires Reading(path, a, st, src, dst, offsets, count, base) && Is(path, a, src, Separator)
    ensures Reading(path, a, st, src + 1, dst, offsets, count, base)
  {
    hide Resolve, Split;
    assert path[src..src + 0] == "";
    Consume(path, a, st, src, dst, offsets, count, base, 0);
  }

  lemma UpSteps(path: string, a: seq<char>, st: Steps, src: nat, dst: nat, offsets: seq<int>, count: nat, base: nat)
    requires Reading(path, a, st, src, dst, offsets, count, base) && Is(path, a, src, DotDot)
    ensures Resolve(Steps(0, []), Split(Rest(path))) == Resolve(Step(st, "..").value, Split(Remaining(path, src + 3)))
  {
    hide Resolve, Split;
    assert path[src..src + 2] == "..";
    Consume(path, a, st, src, dst, offsets, count, base, 2);
  }

  lemma WrittenLess(a: seq<char>, dst: nat, text: string, dst': nat, text': string, atEnd: bool)
    requires Written(a, dst, text, false) && text' <= text && dst' == |text'|
    ensures Written(a, dst', text', atEnd)
  {
    assert a[..dst'] == a[..dst][..dst'];
  }

  lemma OffsetsPop(offsets: seq<int>, count: nat, base: nat, st: Steps)
    requires Offsets(offsets, count, base, st) && count > 0
    ensures offsets[count - 1] == base + |st.(names := st.names[..count - 1]).Text()|
    ensures Offsets(offsets, count - 1, base, st.(names := st.names[..count - 1]))
  {
    hide Steps.Text;
    assert forall i :: 0 <= i < count - 1 ==> st.names[..count - 1][..i] == st.names[..i];
  }

  lemma OffsetsPush(offsets: seq<int>, count: nat, base: nat, st: Steps, name: string)
    requires Offsets(offsets, count, base, st) && count < MAX_PATH_COMPONENTS
    ensures Offsets(offsets[count := base + |st.Text()|], count + 1, base, st.(names := st.names + [name]))
  {
    hide Steps.Text;
    assert forall i :: 0 <= i <= count ==> (st.names + [name])[..i] == st.names[..i];
    assert st.names[..count] == st.names;
  }

  lemma BackUp(path: string, a: seq<char>, st: Steps, src: nat, dst: nat, offsets: seq<int>, count: nat, base: nat)
    requires Reading(path, a, st, src, dst, offsets, count, base) && Is(path, a, src, DotDot) && count > 0
    ensures count == |st.names| <= |offsets| && 0 <= offsets[count - 1]
    ensures Reading(path, a, st.(names := st.names[..count - 1]), src + 3, offsets[count - 1], offsets, count - 1, base)
  {
    hide Resolve, Split, Steps.Text, Written;
    UpSteps(path, a, st, src, dst, offsets, count, base);
    OffsetsPop(offsets, count, base, st);
    TextPop(st);
    hide Offsets;
    var popped := st.(names := st.names[..count - 1]);
    WrittenLess(a, dst, PathText(path, st), offsets[count - 1], PathText(path, popped), src + 3 > |path|);
    assert dst == |PathText(path, st)| by { WrittenLength(a, dst, PathText(path, st), false); }
  }

  lemma WrittenLength(a: seq<char>, dst: nat, text: string, atEnd: bool)
    requires Written(a, dst, text, atEnd)
    ensures dst == |text|
  {}

  lemma CopyUp(path: string, a: seq<char>, a': seq<char>, st: Steps, src: nat, dst: nat, offsets: seq<int>,
               count: nat, base: nat)
    requires Reading(path, a, st, src, dst, offsets, count, base) && Is(path, a, src, DotDot) && count == 0
    requires UpCopied(path, a, a', src, dst)
    ensures Reading(path, a', st.(ups := st.ups + 1), src + 3, dst + 3, offsets, 0, base)
  {
    hide *;
    DotDotAt(path, a, src);
    UpSteps(path, a, st, src, dst, offsets, count, base);
    ReadingParts(path, a, st, src, dst, offsets, count, base);
    NoNames(path, a, st, src, dst, offsets, count, base);
    UpBounds(path, a, a', src, dst);
    WrittenMore(a, a', dst, PathText(path, st), "..", src + 3 > |path|);
    UpText(path, st);
    IsReading(path, a', st.(ups := st.ups + 1), src + 3, dst + 3, offsets, 0, base);
  }

  ghost predicate UpCopied(path: string, a: seq<char>, a': seq<char>, src: nat, dst: nat)
  {
    && dst <= src && src + 2 <= |path| < |a| == |a'| && (forall i :: 0 <= i < dst ==> a'[i] == a[i])
    && a'[dst] == '.' && a'[dst + 1] == '.' && a'[dst + 2] == a[src + 2]
    && forall i :: src + 3 <= i < |a| ==> a'[i] == a[i]
  }

  lemma UpBounds(path: string, a: seq<char>, a': seq<char>, src: nat, dst: nat)
    requires UpCopied(path, a, a', src, dst) && Is(path, a, src, DotDot)
    requires forall i :: src <= i < |path| ==> a[i] == path[i]
    ensures Appended(a, a', dst, "..", src + 3 > |path|)
    ensures forall i :: src + 3 <= i < |path| ==> a'[i] == path[i]
    ensures src + 3 <= |path| + 1 && dst + 2 < |a| == |a'|
  {}

  /** Where a '..' cannot be resolved there is nothing to back over. */
  lemma NoNames(path: string, a: seq<char>, st: Steps, src: nat, dst: nat, offsets: seq<int>, count: nat, base: nat)
    requires Reading(path, a, st, src, dst, offsets, count, base) && count == 0
    ensures st.names == [] && Step(st, "..") == Some(st.(ups := st.ups + 1))
    ensures Offsets(offsets, 0, base, st.(ups := st.ups + 1))
  {}

  lemma UpText(path: string, st: Steps)
    requires st.names == []
    ensures PathText(path, st.(ups := st.ups + 1)) == Longer(PathText(path, st), "..")
  {
    TextUp(st);
    assert "../" == ".." + "/";
    hide Root, Steps.Text;
    Associates(Root(path), st.Text(), "..", "/");
    assert st.Text() + "../" == st.Text() + ".." + "/";
  }

  /** A component that is not "", "." or "..". */
  predicate IsName(c: string) { c != "" && c != "." && c != ".." }

  lemma NameAt(path: string, a: seq<char>, src: nat, k: nat)
    requires src < |path| < |a| && (forall i :: src <= i < |path| ==> a[i] == path[i]) && k == Slash(path[src..])
    requires Is(path, a, src, Name)
    ensures src + k <= |path| && IsName(path[src..src + k])
  {
    var c := path[src..][..k];
    assert c == path[src..src + k];
    if k < |path| - src {
      assert path[src..][k] == '/';
    }
    if k > 0 {
      assert c[0] == a[src];
    }
    if k > 1 {
      assert c[1] == a[src + 1];
    }
  }

  lemma NoRoom(path: string, a: seq<char>, st: Steps, src: nat, dst: nat, offsets: seq<int>, count: nat, base: nat)
    requires Reading(path, a, st, src, dst, offsets, count, base) && src < |path| && count == MAX_PATH_COMPONENTS
    requires Is(path, a, src, Name)
    ensures Canonicalized(path) == Failed(TooManyComponents)
  {
    hide Resolve, Split;
    var k := Slash(path[src..]);
    NameAt(path, a, src, k);
    assert path[src..][..k] == path[src..src + k];
    Consume(path, a, st, src, dst, offsets, count, base, k);
  }

  /** `name` was written behind the first `dst` characters, with a separator or the end of the path. */
  ghost predicate Appended(a: seq<char>, a': seq<char>, dst: nat, name: string, atEnd: bool)
  {
    && |a'| == |a| && dst + |name| < |a| && a'[..dst] == a[..dst] && a'[dst..dst + |name|] == name
    && (!atEnd ==> a'[dst + |name|] == '/')
  }

  lemma WrittenMore(a: seq<char>, a': seq<char>, dst: nat, text: string, name: string, atEnd: bool)
    requires Written(a, dst, text, false) && Appended(a, a', dst, name, atEnd)
    ensures Written(a', dst + |name| + 1, Longer(text, name), atEnd)
  {
    assert a'[..dst + |name|] == a'[..dst] + a'[dst..dst + |name|];
    assert Longer(text, name)[..dst + |name|] == text + name;
    assert a'[..dst + |name| + 1] == a'[..dst + |name|] + [a'[dst + |name|]];
  }

  /** The name at `src0` was copied to `dst0`, with the character that follows it. */
  ghost predicate NameCopied(path: string, a: seq<char>, a': seq<char>, src0: nat, src: nat, dst0: nat, dst: nat)
  {
    && dst0 <= src0 < |path| < |a| == |a'| && (forall i :: src0 <= i < |path| ==> a[i] == path[i])
    && Is(path, a, src0, Name)
    && src == src0 + Slash(path[src0..]) + 1 && dst == dst0 + (src - src0)
    && a'[..dst0] == a[..dst0] && a'[dst0..dst] == a[src0..src] && a'[src..] == a[src..]
  }

  lemma CopyName(path: string, a: seq<char>, a': seq<char>, st: Steps, src0: nat, src: nat, dst0: nat, dst: nat,
                 offsets: seq<int>, offsets': seq<int>, count: nat, base: nat)
    requires Reading(path, a, st, src0, dst0, offsets, count, base) && count < MAX_PATH_COMPONENTS
    requires NameCopied(path, a, a', src0, src, dst0, dst)
    requires count < |offsets| && offsets' == offsets[count := dst0]
    ensures src <= |path| + 1
    ensures Reading(path, a', st.(names := st.names + [path[src0..src - 1]]), src, dst, offsets', count + 1, base)
  {
    hide *;
    NameBounds(path, a, a', src0, src, dst0, dst);
    NameResolved(path, a, a', st, src0, src, dst0, dst, offsets, count, base);
    NameWritten(path, a, a', st, src0, src, dst0, dst, offsets, count, base);
    NameOffset(path, a, st, src0, dst0, offsets, count, base, path[src0..src - 1]);
    IsReading(path, a', st.(names := st.names + [path[src0..src - 1]]), src, dst, offsets', count + 1, base);
  }

  lemma NameBounds(path: string, a: seq<char>, a': seq<char>, src0: nat, src: nat, dst0: nat, dst: nat)
    requires NameCopied(path, a, a', src0, src, dst0, dst)
    ensures path != "" && |path| < |a| == |a'| && dst0 <= src0 < src <= |path| + 1 && src0 < |path|
    ensures dst == dst0 + (src - src0) && dst <= src && dst0 < dst
    ensures forall i :: src <= i < |path| ==> a'[i] == path[i]
    ensures IsName(path[src0..src - 1]) && '/' !in path[src0..src - 1] && (src - 1 < |path| ==> path[src - 1] == '/')
    ensures Appended(a, a', dst0, path[src0..src - 1], src > |path|)
  {
    var k := Slash(path[src0..]);
    assert path[src0..][..k] == path[src0..src - 1];
    NameAt(path, a, src0, k);
    assert a'[dst0..dst - 1] == a'[dst0..dst][..k] && a[src0..src][..k] == path[src0..src - 1];
    assert a'[dst - 1] == a'[dst0..dst][k] && a[src - 1] == a[src0..src][k];
    assert forall i :: src <= i < |path| ==> a'[i] == a'[src..][i - src] && a[i] == a[src..][i - src];
  }

  lemma NameResolved(path: string, a: seq<char>, a': seq<char>, st: Steps, src0: nat, src: nat, dst0: nat, dst: nat,
                     offsets: seq<int>, count: nat, base: nat)
    requires Reading(path, a, st, src0, dst0, offsets, count, base) && count < MAX_PATH_COMPONENTS
    requires NameCopied(path, a, a', src0, src, dst0, dst)
    ensures src0 < src <= |path| + 1
    ensures Resolve(Steps(0, []), Split(Rest(path))) ==
      Resolve(st.(names := st.names + [path[src0..src - 1]]), Split(Remaining(path, src)))
  {
    ReadingParts(path, a, st, src0, dst0, offsets, count, base);
    RoomLeft(offsets, count, base, st);
    hide *;
    NameBounds(path, a, a', src0, src, dst0, dst);
    Consume(path, a, st, src0, dst0, offsets, count, base, src - 1 - src0);
    StepName(st, path[src0..src - 1]);
  }

  lemma NameWritten(path: string, a: seq<char>, a': seq<char>, st: Steps, src0: nat, src: nat, dst0: nat, dst: nat,
                    offsets: seq<int>, count: nat, base: nat)
    requires Reading(path, a, st, src0, dst0, offsets, count, base) && NameCopied(path, a, a', src0, src, dst0, dst)
    ensures src0 < src <= |path| + 1
    ensures Written(a', dst, PathText(path, st.(names := st.names + [path[src0..src - 1]])), src > |path|)
  {
    hide *;
    NameBounds(path, a, a', src0, src, dst0, dst);
    ReadingParts(path, a, st, src0, dst0, offsets, count, base);
    WrittenMore(a, a', dst0, PathText(path, st), path[src0..src - 1], src > |path|);
    PathTextPush(path, st, path[src0..src - 1]);
  }

  lemma NameOffset(path: string, a: seq<char>, st: Steps, src: nat, dst: nat, offsets: seq<int>, count: nat,
                   base: nat, name: string)
    requires Reading(path, a, st, src, dst, offsets, count, base) && src < |path| && count < MAX_PATH_COMPONENTS
    ensures count < |offsets| && base == |Root(path)| && dst >= 0
    ensures Offsets(offsets[count := dst], count + 1, base, st.(names := st.names + [name]))
    ensures Resolve(Steps(0, []), Split(Rest(path))) == Resolve(st, Split(Remaining(path, src)))
  {
    hide Resolve, Split;
    WrittenLength(a, dst, PathText(path, st), false);
    OffsetsPush(offsets, count, base, st, name);
  }

  lemma StepName(st: Steps, name: string)
    requires IsName(name) && |st.names| < MAX_PATH_COMPONENTS
    ensures Step(st, name) == Some(st.(names := st.names + [name]))
  {}

  lemma ReadingParts(path: string, a: seq<char>, st: Steps, src: nat, dst: nat, offsets: seq<int>, count: nat,
                     base: nat)
    requires Reading(path, a, st, src, dst, offsets, count, base) && src < |path|
    ensures path != "" && |path| < |a| && dst <= src
    ensures forall i :: src <= i < |path| ==> a[i] == path[i]
    ensures Written(a, dst, PathText(path, st), false) && base == |Root(path)| && Offsets(offsets, count, base, st)
  {}

  lemma IsReading(path: string, a: seq<char>, st: Steps, src: nat, dst: nat, offsets: seq<int>, count: nat, base: nat)
    requires path != "" && |path| < |a| && dst <= src <= |path| + 1
    requires Resolve(Steps(0, []), Split(Rest(path))) == Resolve(st, Split(Remaining(path, src)))
    requires forall i :: src <= i < |path| ==> a[i] == path[i]
    requires Written(a, dst, PathText(path, st), src > |path|) && base == |Root(path)|
    requires Offsets(offsets, count, base, st)
    ensures Reading(path, a, st, src, dst, offsets, count, base)
  {}

  lemma RoomLeft(offsets: seq<int>, count: nat, base: nat, st: Steps)
    requires Offsets(offsets, count, base, st)
    ensures count == |st.names|
  {}

  lemma Finished(path: string, a: seq<char>, st: Steps, src: nat, dst: nat, offsets: seq<int>, count: nat, base: nat)
    requires Reading(path, a, st, src, dst, offsets, count, base) && src >= |path|
    ensures dst <= |path| + 1
    ensures Canonicalized(path) == if dst == 0 then Failed(EmptyResult) else Canonical(a[..dst - 1])
  {
    assert Split("") == [""];
    assert Resolve(st, [""]) == Some(st);
  }

  /** Copies one component, and the '/' or the terminator after it. */
  method CopyComponent(path: array<char>, src0: nat, dst0: nat, end: nat) returns (src: nat, dst: nat)
    requires dst0 <= src0 < end < path.Length
    modifies path
    ensures src == src0 + Slash(old(path[src0..end])) + 1 && dst == dst0 + (src - src0) && src <= end + 1
    ensures path[..dst0] == old(path[..dst0]) && path[dst0..dst] == old(path[src0..src])
    ensures path[src..] == old(path[src..])
    ensures SameTail(old(path[..]), path[..], end)
  {
    src, dst := src0, dst0;
    ghost var before := path[..];
    while path[src] != '/' && src != end
      invariant src0 <= src <= end && dst == dst0 + (src - src0)
      invariant forall i :: 0 <= i < dst0 ==> path[i] == before[i]
      invariant forall i :: src <= i < path.Length ==> path[i] == before[i]
      invariant forall j :: dst0 <= j < dst ==> path[j] == before[j - dst0 + src0]
      invariant forall k :: src0 <= k < src ==> before[k] != '/'
      decreases end - src
    {
      path[dst] := path[src];
      src, dst := src + 1, dst + 1;
    }
    SlashAt(before[src0..end], src - src0);
    path[dst] := path[src];
    src, dst := src + 1, dst + 1;
    SameSlices(before, path[..], src0, src, dst0, dst, end);
  }

  lemma SameSlices(a: seq<char>, a': seq<char>, src0: nat, src: nat, dst0: nat, dst: nat, end: nat)
    requires |a'| == |a| && dst0 <= dst && src0 <= src <= end + 1 <= |a| && dst <= src && dst - dst0 == src - src0
    requires forall i :: 0 <= i < dst0 ==> a'[i] == a[i]
    requires forall i :: src <= i < |a| ==> a'[i] == a[i]
    requires forall j :: dst0 <= j < dst ==> a'[j] == a[j - dst0 + src0]
    requires forall i :: end <= i < |a| ==> a'[i] == a[i]
    ensures a'[..dst0] == a[..dst0] && a'[dst0..dst] == a[src0..src] && a'[src..] == a[src..] && SameTail(a, a', end)
  {}

  lemma Start(path: string, a: seq<char>, offsets: seq<int>)
    requires path != "" && |path| < |a| && a[..|path|] == path && |offsets| == MAX_PATH_COMPONENTS
    ensures Reading(path, a, Steps(0, []), |Root(path)|, |Root(path)|, offsets, 0, |Root(path)|)
  {
    hide Resolve, Split;
    assert forall i :: 0 <= i < |path| ==> a[i] == a[..|path|][i];
    assert Steps(0, []).Text() == "";
  }

  lemma ReadingBounds(path: string, a: seq<char>, st: Steps, src: nat, dst: nat, offsets: seq<int>, count: nat,
                      base: nat)
    requires Reading(path, a, st, src, dst, offsets, count, base)
    ensures dst <= src <= |path| + 1 <= |a| && count == |st.names| <= MAX_PATH_COMPONENTS == |offsets|
    ensures forall i :: src <= i < |path| ==> a[i] == path[i]
  {}

  /** The branch for a '..' component that cannot be resolved. */
  method CopyDotDot(ghost s: string, path: array<char>, ghost st0: Steps, src0: nat, dst0: nat,
                    ghost offsets: seq<int>, ghost base: nat)
    returns (src: nat, dst: nat, ghost st: Steps)
    requires Reading(s, path[..], st0, src0, dst0, offsets, 0, base) && Is(s, path[..], src0, DotDot)
    modifies path
    ensures Reading(s, path[..], st, src, dst, offsets, 0, base) && src == src0 + 3
    ensures SameTail(old(path[..]), path[..], |s|)
  {
    hide *;
    ReadingBounds(s, path[..], st0, src0, dst0, offsets, 0, base);
    DotDotAt(s, path[..], src0);
    ghost var before := path[..];
    path[dst0] := path[src0];
    path[dst0 + 1] := path[src0 + 1];
    path[dst0 + 2] := path[src0 + 2];
    IsUpCopied(s, before, path[..], src0, dst0);
    CopyUp(s, before, path[..], st0, src0, dst0, offsets, 0, base);
    src, dst, st := src0 + 3, dst0 + 3, st0.(ups := st0.ups + 1);
  }

  lemma DotDotAt(path: string, a: seq<char>, src: nat)
    requires Is(path, a, src, DotDot)
    ensures src + 2 <= |path| < |a| && a[src] == '.' && a[src + 1] == '.'
  {}

  lemma IsUpCopied(path: string, a: seq<char>, a': seq<char>, src: nat, dst: nat)
    requires dst <= src && src + 2 <= |path| < |a| && a[src] == '.' && a[src + 1] == '.'
    requires a' == a[dst := a[src]][dst + 1 := a[src + 1]][dst + 2 := a[src + 2]]
    ensures UpCopied(path, a, a', src, dst) && SameTail(a, a', |path|)
  {}

  /** The end of the loop body, for a component that is a name. */
  method CopyNextName(ghost s: string, path: array<char>, len: nat, ghost st0: Steps, src0: nat, dst0: nat,
                      components: array<int>, count0: nat, ghost base: nat)
    returns (src: nat, dst: nat, count: nat, ghost st: Steps)
    requires Reading(s, path[..], st0, src0, dst0, components[..], count0, base) && src0 < |s|
    requires count0 < MAX_PATH_COMPONENTS
    requires Is(s, path[..], src0, Name)
    requires len == |s| < path.Length && components.Length == MAX_PATH_COMPONENTS
    modifies path, components
    ensures Reading(s, path[..], st, src, dst, components[..], count, base) && src > src0
    ensures SameTail(old(path[..]), path[..], |s|)
  {
    hide *;
    ReadingBounds(s, path[..], st0, src0, dst0, components[..], count0, base);
    ghost var before, offsets := path[..], components[..];
    components[count0] := dst0;
    count := count0 + 1;
    src, dst := CopyComponent(path, src0, dst0, len);
    assert NameCopied(s, before, path[..], src0, src, dst0, dst) by {
      JustCopied(s, before, path[..], src0, src, dst0, dst);
    }
    CopyName(s, before, path[..], st0, src0, src, dst0, dst, offsets, components[..], count0, base);
    st := st0.(names := st0.names + [s[src0..src - 1]]);
  }

  lemma JustCopied(path: string, a: seq<char>, a': seq<char>, src0: nat, src: nat, dst0: nat, dst: nat)
    requires dst0 <= src0 < |path| < |a| == |a'| && forall i :: src0 <= i < |path| ==> a[i] == path[i]
    requires Is(path, a, src0, Name)
    requires src == src0 + Slash(a[src0..|path|]) + 1 && dst == dst0 + (src - src0)
    requires src <= |a| && a'[..dst0] == a[..dst0] && a'[dst0..dst] == a[src0..src] && a'[src..] == a[src..]
    ensures NameCopied(path, a, a', src0, src, dst0, dst)
  {
    assert a[src0..|path|] == path[src0..];
  }

  /** The branch for a '..' component: backs up if possible. */
  method ResolveUp(ghost s: string, path: array<char>, ghost st0: Steps, src0: nat, dst0: nat,
                   components: array<int>, count0: nat, ghost base: nat)
    returns (src: nat, dst: nat, count: nat, ghost st: Steps)
    requires Reading(s, path[..], st0, src0, dst0, components[..], count0, base) && Is(s, path[..], src0, DotDot)
    modifies path
    ensures Reading(s, path[..], st, src, dst, components[..], count, base) && src > src0
    ensures SameTail(old(path[..]), path[..], |s|)
  {
    hide *;
    ReadingBounds(s, path[..], st0, src0, dst0, components[..], count0, base);
    NoChange(path[..], |s|);
    if count0 > 0 {
      BackUp(s, path[..], st0, src0, dst0, components[..], count0, base);
      src, dst, count := src0 + 3, components[count0 - 1], count0 - 1;
      st := st0.(names := st0.names[..count]);
    } else {
      src, dst, st := CopyDotDot(s, path, st0, src0, dst0, components[..], base);
      count := 0;
    }
  }

  lemma IsItsKind(path: string, a: seq<char>, src: nat)
    requires src < |path| < |a|
    ensures Is(path, a, src, KindAt(a, src, |path|))
  {}

  lemma NoChange(a: seq<char>, n: nat)
    requires n <= |a|
    ensures SameTail(a, a, n)
  {}

  /** One turn of the main loop. */
  method CopyNext(ghost s: string, path: array<char>, len: nat, ghost st0: Steps, src0: nat, dst0: nat,
                  components: array<int>, count0: nat, ghost base: nat)
    returns (tooMany: bool, src: nat, dst: nat, count: nat, ghost st: Steps)
    requires Reading(s, path[..], st0, src0, dst0, components[..], count0, base) && src0 < len == |s|
    modifies path, components
    ensures !tooMany ==> Reading(s, path[..], st, src, dst, components[..], count, base) && src > src0
    ensures tooMany ==> Canonicalized(s) == Failed(TooManyComponents)
    ensures SameTail(old(path[..]), path[..], len)
  {
    hide *;
    ReadingBounds(s, path[..], st0, src0, dst0, components[..], count0, base);
    tooMany, src, dst, count, st := false, src0, dst0, count0, st0;
    var kind := KindOf(path, src, len);
    ghost var a, offsets := path[..], components[..];
    IsItsKind(s, a, src);
    NoChange(a, len);
    match kind
    case Dot =>
      SkipDot(s, a, st, src, dst, offsets, count, base);
      src := src + 2;
    case DotDot =>
      src, dst, count, st := ResolveUp(s, path, st, src, dst, components, count, base);
    case Separator =>
      SkipSlash(s, a, st, src, dst, offsets, count, base);
      src := src + 1;
    case Name =>
      if count == MAX_PATH_COMPONENTS {
        NoRoom(s, a, st, src, dst, offsets, count, base);
        tooMany := true;
      } else {
        src, dst, count, st := CopyNextName(s, path, len, st, src, dst, components, count, base);
      }
  }

  /** The component that begins at `src`. */
  function ComponentAt(a: seq<char>, src: nat, len: nat): string
    requires src <= len <= |a|
  {
    a[src..len][..Slash(a[src..len])]
  }

  lemma KindOfComponent(a: seq<char>, src: nat, len: nat)
    requires src < len < |a|
    ensures var kind, c := KindAt(a, src, len), ComponentAt(a, src, len);
      && (kind == Separator <==> c == "") && (kind == Dot <==> c == ".") && (kind == DotDot <==> c == "..")
      && (kind == Name <==> IsName(c))
  {
    hide Slash;
    var s, k := a[src..len], Slash(a[src..len]);
    assert s[0] == a[src] && (src + 1 < len ==> s[1] == a[src + 1]) && (src + 2 < len ==> s[2] == a[src + 2]);
    var c := s[..k];
    assert |c| == k && (k > 0 ==> c[0] == s[0]) && (k > 1 ==> c[1] == s[1]);
  }

  /** The tests of the main loop tell apart what component begins at `src`. */
  method KindOf(path: array<char>, src: nat, len: nat) returns (kind: Kind)
    requires src < len < path.Length
    ensures kind == KindAt(path[..], src, len)
    ensures var c := ComponentAt(path[..], src, len);
      && (kind == Separator <==> c == "") && (kind == Dot <==> c == ".") && (kind == DotDot <==> c == "..")
      && (kind == Name <==> IsName(c))
  {
    KindOfComponent(path[..], src, len);
    hide ComponentAt, IsName;
    if path[src] == '.' {
      if src + 1 == len || path[src + 1] == '/' {
        return Dot;
      } else if path[src + 1] == '.' && (src + 2 == len || path[src + 2] == '/') {
        return DotDot;
      }
    }
    return if path[src] == '/' then Separator else Name;
  }

  /** Rewrites the first `len` characters of `path`; a terminator follows them. */
  method CanonicalizePath(path: array<char>, len: nat) returns (err: Option<Failure>, newLen: nat)
    requires len == 0 || len < path.Length
    modifies path
    ensures newLen <= len && (len < path.Length ==> path[len..] == old(path[len..]))
    ensures match Canonicalized(old(path[..if len <= path.Length then len else 0]))
      case Canonical(text) => err == None && newLen == |text| && path[..newLen] == text
      case Failed(why) => err == Some(why)
  {
    newLen := 0;
    if len == 0 {
      return Some(EmptyPath), 0;
    }
    ghost var s := path[..len];
    var components := new int[MAX_PATH_COMPONENTS];
    var componentCount, src, dst := 0, 0, 0;
    if path[0] == '/' {
      src, dst := 1, 1;
    }
    ghost var base, st := dst, Steps(0, []);
    Start(s, path[..], components[..]);
    hide Reading, Canonicalized, Steps.Text;
    while src < len
      invariant 0 <= src && 0 <= dst && 0 <= componentCount
      invariant Reading(s, path[..], st, src, dst, components[..], componentCount, base)
      invariant SameTail(old(path[..]), path[..], len)
      decreases len - src
    {
      var tooMany;
      tooMany, src, dst, componentCount, st := CopyNext(s, path, len, st, src, dst, components, componentCount, base);
      if tooMany {
        return Some(TooManyComponents), 0;
      }
    }
    Finished(s, path[..], st, src, dst, components[..], componentCount, base);
    if dst == 0 {
      return Some(EmptyResult), 0;
    }
    return None, dst - 1;
  }

  // ----- what the result is good for -----

  ghost predicate Clean(st: Steps)
  {
    |st.names| <= MAX_PATH_COMPONENTS && forall c :: c in st.names ==> IsName(c) && '/' !in c
  }

  function Upward(n: nat): (r: seq<string>)
    ensures |r| == n && forall i :: 0 <= i < n ==> r[i] == ".."
  {
    if n == 0 then [] else Upward(n - 1) + [".."]
  }

  function Components(st: Steps): (r: seq<string>)
    ensures |r| == st.ups + |st.names|
  {
    Upward(st.ups) + st.names
  }

  lemma {:induction false} SplitHasNoSlash(s: string)
    ensures forall c :: c in Split(s) ==> '/' !in c
    decreases |s|
  {
    var k := Slash(s);
    if k == |s| {
      assert s[..k] == s;
    } else {
      SplitHasNoSlash(s[k + 1..]);
    }
  }

  lemma {:induction false} ResolveClean(st: Steps, components: seq<string>)
    requires Clean(st) && forall c :: c in components ==> '/' !in c
    ensures Resolve(st, components).Some? ==> Clean(Resolve(st, components).value)
    decreases |components|
  {
    if components != [] && Step(st, components[0]).Some? {
      assert components[0] in components;
      ResolveClean(Step(st, components[0]).value, components[1..]);
    }
  }

  lemma {:induction false} SplitAppend(a: string, c: string)
    requires '/' !in c
    ensures Split(a + "/" + c) == Split(a) + [c]
    decreases |a|
  {
    var s, k := a + "/" + c, Slash(a);
    assert s[..k] == a[..k];
    SlashAt(s, k);
    if k == |a| {
      assert s[k + 1..] == c;
      SlashAt(c, |c|);
      assert a[..k] == a;
    } else {
      assert s[k + 1..] == a[k + 1..] + "/" + c;
      SplitAppend(a[k + 1..], c);
    }
  }

  lemma SplitOne(c: string)
    requires '/' !in c
    ensures Split(c) == [c]
  {
    SlashAt(c, |c|);
  }

  /** Resolved steps without the last one. */
  lemma LastStep(st: Steps) returns (shorter: Steps, last: string)
    requires Clean(st) && Components(st) != []
    ensures Clean(shorter) && Components(st) == Components(shorter) + [last] && '/' !in last
    ensures st.Text() == shorter.Text() + last + "/" && shorter.ups + |shorter.names| < st.ups + |st.names|
  {
    if st.names == [] {
      shorter, last := st.(ups := st.ups - 1), "..";
      TextUp(shorter);
    } else {
      shorter, last := st.(names := st.names[..|st.names| - 1]), st.names[|st.names| - 1];
      TextPop(st);
      assert last in st.names;
    }
  }

  lemma SplitLonger(before: string, components: seq<string>, last: string)
    requires '/' !in last
    requires if components == [] then before == ""
             else before != "" && before[|before| - 1] == '/' && Split(before[..|before| - 1]) == components
    ensures Split(before + last) == components + [last]
  {
    if components == [] {
      assert before + last == last;
      SplitOne(last);
    } else {
      assert before + last == before[..|before| - 1] + "/" + last;
      SplitAppend(before[..|before| - 1], last);
    }
  }

  /** The text of resolved steps, without the last separator, splits into just these steps. */
  lemma {:induction false} SplitText(st: Steps)
    requires Clean(st) && Components(st) != []
    ensures st.Text() != "" && Split(st.Text()[..|st.Text()| - 1]) == Components(st)
    decreases st.ups + |st.names|
  {
    var shorter, last := LastStep(st);
    TextSize(shorter);
    if Components(shorter) != [] {
      SplitText(shorter);
      EndsWithSlash(shorter);
    }
    hide Split, Components, Steps.Text;
    SplitLonger(shorter.Text(), Components(shorter), last);
    assert st.Text()[..|st.Text()| - 1] == shorter.Text() + last;
  }

  lemma EndsWithSlash(st: Steps)
    requires st.Text() != ""
    ensures st.Text()[|st.Text()| - 1] == '/'
  {}

  lemma {:induction false} ResolveComponents(st: Steps, i: nat)
    requires Clean(st) && i <= |Components(st)|
    ensures Resolve(if i <= st.ups then Steps(i, []) else st.(names := st.names[..i - st.ups]), Components(st)[i..]) ==
      Some(st)
    decreases |Components(st)| - i
  {
    if i < |Components(st)| {
      ResolveComponents(st, i + 1);
      assert Components(st)[i..][1..] == Components(st)[i + 1..];
      if i < st.ups {
        assert Components(st)[i] == "..";
      } else {
        assert Components(st)[i] == st.names[i - st.ups] && st.names[i - st.ups] in st.names;
        assert st.names[..i - st.ups] + [st.names[i - st.ups]] == st.names[..i - st.ups + 1];
      }
    } else {
      assert st.names[..|st.names|] == st.names;
    }
  }

  /** A canonical path: its components are names after a run of ".."; none is "" or ".". */
  lemma CanonicalIsClean(path: string) returns (st: Steps)
    requires Canonicalized(path).Canonical? && Canonicalized(path).text != ""
    ensures var q := Canonicalized(path).text;
      && Clean(st) && Components(st) != [] && Resolve(Steps(0, []), Split(Rest(path))) == Some(st)
      && Rooted(q) == Rooted(path) && Split(Rest(q)) == Components(st)
  {
    st := Resolve(Steps(0, []), Split(Rest(path))).value;
    var q, text := Canonicalized(path).text, Root(path) + st.Text();
    SplitHasNoSlash(Rest(path));
    ResolveClean(Steps(0, []), Split(Rest(path)));
    TextSize(st);
    SplitText(st);
    var inner := st.Text()[..|st.Text()| - 1];
    assert q == Root(path) + inner;
    if !Rooted(path) {
      StartsWithName(inner, st);
    }
    assert Rest(q) == inner;
  }

  lemma StartsWithName(inner: string, st: Steps)
    requires Clean(st) && Components(st) != [] && Split(inner) == Components(st)
    ensures !Rooted(inner)
  {
    assert Components(st)[0] == if st.ups > 0 then ".." else st.names[0];
    assert Components(st)[0] != "" && Split(inner)[0] == inner[..Slash(inner)];
  }

  lemma TextSize(st: Steps)
    requires Clean(st)
    ensures Components(st) == [] ==> st.Text() == ""
    ensures Components(st) != [] ==> |st.Text()| > 1
  {
    if st.names != [] {
      TextPop(st);
      assert st.names[|st.names| - 1] in st.names;
    }
  }

  /** Canonicalizing again changes nothing, unless the result was empty. */
  lemma CanonicalIsFixed(path: string)
    requires Canonicalized(path).Canonical? && Canonicalized(path).text != ""
    ensures Canonicalized(Canonicalized(path).text) == Canonicalized(path)
  {
    hide Resolve, Split, Steps.Text, Components, Rest;
    var st := CanonicalIsClean(path);
    ResolveComponents(st, 0);
    assert Components(st)[0..] == Components(st);
  }

  // In a file system without symbolic links a directory is the list of names that lead to it.

  function Enter(dir: seq<string>, c: string): seq<string>
  {
    if c == "" || c == "." then dir
    else if c == ".." then (if dir == [] then [] else dir[..|dir| - 1])
    else dir + [c]
  }

  function Walk(dir: seq<string>, components: seq<string>): seq<string>
    decreases |components|
  {
    if components == [] then dir else Walk(Enter(dir, components[0]), components[1..])
  }

  function Location(cwd: seq<string>, path: string): seq<string>
  {
    Walk(if Rooted(path) then [] else cwd, Split(Rest(path)))
  }

  lemma {:induction false} WalkAppend(dir: seq<string>, components: seq<string>, c: string)
    ensures Walk(dir, components + [c]) == Enter(Walk(dir, components), c)
    decreases |components|
  {
    if components == [] {
      assert components + [c] == [c];
    } else {
      assert (components + [c])[1..] == components[1..] + [c];
      WalkAppend(Enter(dir, components[0]), components[1..], c);
    }
  }

  lemma StepKeepsLocation(dir: seq<string>, st: Steps, c: string)
    requires Clean(st) && Step(st, c).Some?
    ensures Walk(dir, Components(Step(st, c).value)) == Enter(Walk(dir, Components(st)), c)
  {
    var next := Step(st, c).value;
    if c == "" || c == "." {
    } else if c == ".." && st.names != [] {
      assert Components(st) == Components(next) + [st.names[|st.names| - 1]];
      WalkAppend(dir, Components(next), st.names[|st.names| - 1]);
      assert st.names[|st.names| - 1] in st.names;
    } else {
      assert Components(next) == Components(st) + [c];
      WalkAppend(dir, Components(st), c);
    }
  }

  lemma {:induction false} ResolveKeepsLocation(dir: seq<string>, st: Steps, components: seq<string>)
    requires Clean(st) && (forall c :: c in components ==> '/' !in c) && Resolve(st, components).Some?
    ensures Walk(Walk(dir, Components(st)), components) == Walk(dir, Components(Resolve(st, components).value))
    decreases |components|
  {
    if components != [] {
      assert components[0] in components;
      StepKeepsLocation(dir, st, components[0]);
      ResolveClean(st, [components[0]]);
      assert [components[0]][1..] == [];
      ResolveKeepsLocation(dir, Step(st, components[0]).value, components[1..]);
    }
  }

  /** One name down, one step up, or neither. */
  function Turn(c: string): int { if c == "" || c == "." then 0 else if c == ".." then -1 else 1 }

  /** How far below the start the components lead. */
  function Depth(components: seq<string>): int
  {
    if components == [] then 0 else Depth(components[..|components| - 1]) + Turn(components[|components| - 1])
  }

  /** The components never lead above the start, nor further below it than the code can follow. */
  ghost predicate InDepth(components: seq<string>)
  {
    forall k :: 0 <= k <= |components| ==> 0 <= Depth(components[..k]) <= MAX_PATH_COMPONENTS
  }

  /** They lead back to the start in the end. */
  ghost predicate CancelOut(components: seq<string>)
  {
    InDepth(components) && Depth(components) == 0
  }

  lemma {:induction false} ResolveLast(st: Steps, components: seq<string>, c: string)
    ensures Resolve(st, components + [c]) ==
      match Resolve(st, components)
      case None => None
      case Some(next) => Step(next, c)
    decreases |components|
  {
    hide Step;
    var longer := components + [c];
    if components == [] {
      assert longer[1..] == [];
    } else {
      assert longer[1..] == components[1..] + [c] && longer[0] == components[0];
      match Step(st, components[0])
      case None =>
      case Some(next) => ResolveLast(next, components[1..], c);
    }
  }

  /** While nothing leads above the start, the depth is the number of names. */
  lemma {:induction false} DepthIsNames(components: seq<string>)
    ensures var r := Resolve(Steps(0, []), components);
      InDepth(components) <==> r.Some? && r.value.ups == 0
    ensures var r := Resolve(Steps(0, []), components);
      r.Some? && r.value.ups == 0 ==> |r.value.names| == Depth(components) <= MAX_PATH_COMPONENTS
    decreases |components|
  {
    assert components[..|components|] == components;
    if components != [] {
      var before, c := components[..|components| - 1], components[|components| - 1];
      DepthIsNames(before);
      ResolveLast(Steps(0, []), before, c);
      assert before + [c] == components;
      assert forall k :: 0 <= k < |components| ==> components[..k] == before[..k];
      DepthOfPrefixes(components);
    }
  }

  lemma DepthOfPrefixes(components: seq<string>)
    requires components != []
    ensures var before := components[..|components| - 1];
      InDepth(components) <==> InDepth(before) && 0 <= Depth(components) <= MAX_PATH_COMPONENTS
  {
    hide Depth;
    var before := components[..|components| - 1];
    assert components[..|components|] == components;
    assert forall k :: 0 <= k <= |before| ==> components[..k] == before[..k];
    forall k | 0 <= k <= |before| ensures Depth(components[..k]) == Depth(before[..k]) {}
  }

  /** Exactly the paths whose components cancel out leave nothing: a rooted one becomes the empty path,
      any other is refused. */
  lemma EmptyIff(path: string)
    ensures Canonicalized(path) == Canonical("") <==> Rooted(path) && CancelOut(Split(Rest(path)))
    ensures Canonicalized(path) == Failed(EmptyResult) <==> path != "" && !Rooted(path) && CancelOut(Split(Rest(path)))
  {
    hide Split, Resolve, Depth, Steps.Text;
    var components := Split(Rest(path));
    DepthIsNames(components);
    SplitHasNoSlash(Rest(path));
    ResolveClean(Steps(0, []), components);
    match Resolve(Steps(0, []), components)
    case None =>
    case Some(st) =>
      TextSize(st);
      assert CancelOut(components) <==> Components(st) == [];
  }

  /** A canonical path leads where the original path did, from every directory, exactly if the original
      is not a rooted path whose components cancel out. */
  lemma SameLocation(path: string)
    requires Canonicalized(path).Canonical?
    ensures (forall cwd :: Location(cwd, Canonicalized(path).text) == Location(cwd, path))
      <==> !(Rooted(path) && CancelOut(Split(Rest(path))))
  {
    hide Canonicalized, Location, Split, Rooted, CancelOut, Rest;
    EmptyIff(path);
    var text := Canonicalized(path).text;
    if text == "" {
      EmptyLocation(path, ["a"]);
    } else {
      forall cwd ensures Location(cwd, text) == Location(cwd, path) {
        LocationKept(path, cwd);
      }
    }
  }

  lemma LocationKept(path: string, cwd: seq<string>)
    requires Canonicalized(path).Canonical? && Canonicalized(path).text != ""
    ensures Location(cwd, Canonicalized(path).text) == Location(cwd, path)
  {
    var st := ResolvedLocation(path, cwd);
    var st' := CanonicalIsClean(path);
  }

  /** The empty path stands for the current directory, not for the root. */
  lemma EmptyLocation(path: string, cwd: seq<string>)
    requires Canonicalized(path) == Canonical("")
    ensures Location(cwd, path) == [] && Location(cwd, "") == cwd
  {
    var st := ResolvedLocation(path, cwd);
    TextSize(st);
    assert |Root(path) + st.Text()| == 1;
    SplitOne("");
    assert Walk(cwd, [""]) == cwd;
  }

  lemma ResolvedLocation(path: string, cwd: seq<string>) returns (st: Steps)
    requires Resolve(Steps(0, []), Split(Rest(path))).Some?
    ensures Resolve(Steps(0, []), Split(Rest(path))) == Some(st) && Clean(st)
    ensures Location(cwd, path) == Walk(if Rooted(path) then [] else cwd, Components(st))
  {
    st := Resolve(Steps(0, []), Split(Rest(path))).value;
    SplitHasNoSlash(Rest(path));
    ResolveClean(Steps(0, []), Split(Rest(path)));
    ResolveKeepsLocation(if Rooted(path) then [] else cwd, Steps(0, []), Split(Rest(path)));
    assert Components(Steps(0, [])) == [];
  }

  /** Only a path to the current directory is refused for being empty. */
  lemma RefusedLocation(path: string, cwd: seq<string>)
    requires Canonicalized(path) == Failed(EmptyResult)
    ensures !Rooted(path) && Location(cwd, path) == cwd
  {
    var st := ResolvedLocation(path, cwd);
    TextSize(st);
  }

  /** The root directory itself becomes the empty path. */
  lemma RootVanishes()
    ensures Canonicalized("/") == Canonical("") && Canonicalized("/a/..") == Canonical("")
  {
    hide Resolve, Split, Steps.Text;
    CancelsOut();
    assert Rest("/") == "" && Root("/") == "/";
    assert Split("") == [""] by { SplitOne(""); }
    assert Rest("/a/..") == "a" + "/" + ".." && Root("/a/..") == "/";
    assert Split("a") == ["a"] by { SplitOne("a"); }
    assert Split("..") == [".."] by { SplitOne(".."); }
    assert Split("a" + "/" + "..") == ["a"] + [".."] by { SplitAppend("a", ".."); }
    assert Canonicalized("/") == Canonical("");
    assert Canonicalized("/a/..") == Canonical("");
  }

  lemma CancelsOut()
    ensures Resolve(Steps(0, []), [""]) == Some(Steps(0, []))
    ensures Resolve(Steps(0, []), ["a"] + [".."]) == Some(Steps(0, []))
    ensures Steps(0, []).Text() == ""
  {
    var components := ["a"] + [".."];
    assert [] + ["a"] == ["a"] && ["a"][..0] == [] && Steps(0, []).names == [];
    assert components[0] == "a" && components[1..] == [".."] && [".."][1..] == [] && [""][1..] == [];
    assert Step(Steps(0, []), "a") == Some(Steps(0, ["a"])) && Step(Steps(0, ["a"]), "..") == Some(Steps(0, []));
    assert Step(Steps(0, []), "") == Some(Steps(0, []));
  }
}
