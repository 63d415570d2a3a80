// The byte format of the dependency log (src/deps_log.h, src/deps_log.cc): what is written for a
// record, and what reading makes of any bytes.

module DepsLogFormat {
  import opened Graph

  type byte = x: int | 0 <= x < 256

  const MAX_RECORD_SIZE := 524287
  const BUFFER_SIZE := MAX_RECORD_SIZE + 1
  const DEPS_BIT := 0x8000_0000
  const WORD := 0x1_0000_0000
  const CURRENT_VERSION := 3
  // "# ninjadeps" and a newline
  const SIGNATURE: seq<byte> := [35, 32, 110, 105, 110, 106, 97, 100, 101, 112, 115, 10]

  // ----- words -----

  /** Four bytes, least significant first; higher bits and the sign are lost, as in a cast. */
  function Le32(n: int): (b: seq<byte>)
    ensures |b| == 4
  {
    [n % 256, n / 256 % 256, n / 65536 % 256, n / 16777216 % 256]
  }

  function Word(b: seq<byte>): (n: int)
    requires |b| >= 4
    ensures 0 <= n < WORD
  {
    (b[0] as int) + 256 * (b[1] as int) + 65536 * (b[2] as int) + 16777216 * (b[3] as int)
  }

  lemma WordOfLe32(n: int, rest: seq<byte>)
    requires 0 <= n < WORD
    ensures Word(Le32(n) + rest) == n
  {
    Digits(n, n / 256, n / 65536, n / 16777216);
  }

  lemma Digits(n: int, a: int, b: int, c: int)
    requires 0 <= n < WORD && a == n / 256 && b == n / 65536 && c == n / 16777216
    ensures n % 256 + 256 * (a % 256) + 65536 * (b % 256) + 16777216 * c == n
  {
    assert b == a / 256 && c == b / 256;
  }

  /** The bits of a signed 32-bit number, and the number that has given bits. */
  function Bits(i: int): int { if i < 0 then i + WORD else i }

  function Signed(n: int): int { if n >= DEPS_BIT then n - WORD else n }

  predicate IsInt32(i: int) { -0x8000_0000 <= i < 0x8000_0000 }

  function Complement(n: int): int { WORD - 1 - n }

  // ----- records -----

  datatype Record = PathRecord(path: string) | DepsRecord(out: nat, mtime: int, ins: seq<nat>)

  /** What the log says: the path of each id, the last deps recorded for an id, and how many deps
      records there are. */
  datatype DepsView = DepsView(mtime: int, ins: seq<nat>)

  datatype View = View(paths: seq<string>, deps: map<nat, DepsView>, total: nat)

  const EMPTY_VIEW := View([], map[], 0)

  function Size(ids: set<nat>): nat { |ids| }

  /** How many outputs have deps. */
  function Outputs(v: View): nat { Size(v.deps.Keys) }

  const MIN_COMPACTION_ENTRY_COUNT := 1000
  const COMPACTION_RATIO := 3

  /** Whether most of the deps records are dead. */
  predicate Crowded(v: View)
  {
    v.total > MIN_COMPACTION_ENTRY_COUNT && v.total > Outputs(v) * COMPACTION_RATIO
  }

  function Apply(v: View, r: Record): View
  {
    match r
    case PathRecord(path) => v.(paths := v.paths + [path])
    case DepsRecord(out, mtime, ins) => v.(deps := v.deps[out := DepsView(mtime, ins)], total := v.total + 1)
  }

  function Replay(records: seq<Record>): View
  {
    if records == [] then EMPTY_VIEW else Apply(Replay(records[..|records| - 1]), records[|records| - 1])
  }

  function Padding(n: nat): nat { (4 - n % 4) % 4 }

  function SizeOf(r: Record): nat
  {
    match r
    case PathRecord(path) => |path| + Padding(|path|) + 4
    case DepsRecord(_, _, ins) => 4 * (2 + |ins|)
  }

  /** A path that canonicalization lets through: not empty, and made of bytes other than NUL. */
  predicate IsPath(path: string) { path != "" && forall c :: c in path ==> 0 < c as int < 256 }

  predicate AllBelow(ns: seq<nat>, limit: int)
  {
    forall i :: 0 <= i < |ns| ==> ns[i] < limit
  }

  /** The records a log may write after `v`. */
  predicate Writable(v: View, r: Record)
  {
    && SizeOf(r) <= MAX_RECORD_SIZE && |v.paths| < DEPS_BIT
    && match r
       case PathRecord(path) => IsPath(path) && path !in v.paths
       case DepsRecord(out, mtime, ins) => out < |v.paths| && IsInt32(mtime) && AllBelow(ins, |v.paths|)
  }

  predicate IsLog(records: seq<Record>)
  {
    records == [] ||
    (IsLog(records[..|records| - 1]) && Writable(Replay(records[..|records| - 1]), records[|records| - 1]))
  }

  function Bytes(path: string): (b: seq<byte>)
    ensures |b| == |path| && forall i :: 0 <= i < |path| ==> b[i] == path[i] as int % 256
  {
    if path == "" then [] else [path[0] as int % 256] + Bytes(path[1..])
  }

  function Chars(b: seq<byte>): (s: string)
    ensures |s| == |b|
  {
    seq(|b|, i requires 0 <= i < |b| => b[i] as char)
  }

  function Zeros(n: nat): (b: seq<byte>)
    ensures |b| == n && forall i :: 0 <= i < n ==> b[i] == 0
  {
    seq(n, i => 0)
  }

  function Words(ns: seq<nat>): (b: seq<byte>)
    ensures |b| == 4 * |ns|
  {
    if ns == [] then [] else Words(ns[..|ns| - 1]) + Le32(ns[|ns| - 1])
  }

  /** The size word; its high bit tells the kinds of records apart. */
  function SizeWord(r: Record): int
  {
    if r.PathRecord? then SizeOf(r) else SizeOf(r) + DEPS_BIT
  }

  function Body(v: View, r: Record): (b: seq<byte>)
    ensures |b| == SizeOf(r)
  {
    match r
    case PathRecord(path) => Bytes(path) + Zeros(Padding(|path|)) + Le32(Complement(|v.paths|))
    case DepsRecord(out, mtime, ins) => Le32(out) + Le32(Bits(mtime)) + Words(ins)
  }

  /** The bytes of `r` as the record after `v`. */
  function Encode(v: View, r: Record): (b: seq<byte>)
    ensures |b| == 4 + SizeOf(r)
  {
    Le32(SizeWord(r)) + Body(v, r)
  }

  function Header(): (b: seq<byte>)
    ensures |b| == 16
  {
    SIGNATURE + Le32(CURRENT_VERSION)
  }

  function Encoded(records: seq<Record>): seq<byte>
  {
    if records == [] then []
    else Encoded(records[..|records| - 1]) + Encode(Replay(records[..|records| - 1]), records[|records| - 1])
  }

  // ----- reading -----

  /** What reading one record comes to: the end of the file, a failure that is recovered from, a
      failed assertion, a read outside the buffer, or a record and the bytes it takes. The bytes are
      read into the buffer before their number is judged. */
  datatype Reading = AtEnd | Broken | Asserted | Overrun | Got(record: Record, length: nat)

  /** At most three NULs are taken off the end. */
  function Stripped(b: seq<byte>, most: nat): seq<byte>
  {
    if most > 0 && b != [] && b[|b| - 1] == 0 then Stripped(b[..|b| - 1], most - 1) else b
  }

  function Numbers(b: seq<byte>): (ns: seq<nat>)
    ensures |ns| == |b| / 4
  {
    if |b| < 4 then [] else [Word(b)] + Numbers(b[4..])
  }

  /** One turn of the loop of `Load`, when `v` was read before. */
  function ReadRecord(b: seq<byte>, v: View): Reading
  {
    if |b| < 4 then AtEnd
    else
      var size, isDeps := Word(b) % DEPS_BIT, Word(b) >= DEPS_BIT;
      if size > BUFFER_SIZE && |b| - 4 > BUFFER_SIZE then Overrun
      else if size == 0 || |b| - 4 < size || size > MAX_RECORD_SIZE then Broken
      else if isDeps then ReadDeps(b[4..4 + size], v)
      else ReadPath(b[4..4 + size], v)
  }

  function ReadDeps(body: seq<byte>, v: View): (r: Reading)
    ensures r == Asserted || (r.Got? && r.length == 4 + |body|)
  {
    if |body| % 4 != 0 || |body| < 8 then Asserted
    else
      var ns := Numbers(body);
      if ns[0] >= DEPS_BIT || exists i :: 2 <= i < |ns| && ns[i] >= |v.paths| then Asserted
      else Got(DepsRecord(ns[0], Signed(ns[1]), ns[2..]), 4 + |body|)
  }

  /** A path must have a byte, but that may be a NUL: one or two NULs are taken off and the byte in front
      of the buffer is looked at, and three leave the empty path. */
  function ReadPath(body: seq<byte>, v: View): (r: Reading)
    ensures r.Got? ==> r.length == 4 + |body|
  {
    if |body| <= 4 then Asserted
    else
      var path := Chars(Stripped(body[..|body| - 4], 3));
      if path == "" && |body| < 7 then Overrun
      else if Complement(Word(body[|body| - 4..])) != |v.paths| then Broken
      else if path in v.paths then Asserted
      else Got(PathRecord(path), 4 + |body|)
  }

  /** What loading comes to: what was read, how many bytes it took, and how it ended. */
  datatype Loading = Loading(view: View, offset: nat, end: Reading)

  function LoadFrom(b: seq<byte>, v: View, offset: nat): (l: Loading)
    requires offset <= |b|
    ensures offset <= l.offset <= |b| && !l.end.Got?
    decreases |b| - offset
  {
    match ReadRecord(b[offset..], v)
    case Got(r, length) => LoadFrom(b, Apply(v, r), offset + length)
    case end => Loading(v, offset, end)
  }

  /** A path of one or two NULs makes the loop look in front of the buffer, and only three NULs are the
      empty path. */
  lemma NulPath(body: seq<byte>, v: View)
    ensures ReadPath(body, v) == Overrun <==> 4 < |body| < 7 && forall i :: 0 <= i < |body| - 4 ==> body[i] == 0
    ensures ReadPath(body, v) == Got(PathRecord(""), 4 + |body|) <==>
      && |body| == 7 && (forall i :: 0 <= i < 3 ==> body[i] == 0)
      && Complement(Word(body[3..])) == |v.paths| && "" !in v.paths
  {
    hide Word, Complement;
    if |body| > 4 {
      var raw := body[..|body| - 4];
      AllStripped(raw, 3);
      assert Chars(Stripped(raw, 3)) == "" <==> Stripped(raw, 3) == [];
    }
  }

  lemma {:induction false} AllStripped(b: seq<byte>, most: nat)
    ensures Stripped(b, most) == [] <==> |b| <= most && forall i :: 0 <= i < |b| ==> b[i] == 0
    decreases most
  {
    if most > 0 && b != [] && b[|b| - 1] == 0 {
      AllStripped(b[..|b| - 1], most - 1);
    }
  }

  // ----- what was written is read back -----

  lemma SignedBits(i: int)
    requires IsInt32(i)
    ensures 0 <= Bits(i) < WORD && Signed(Bits(i)) == i
  {}

  lemma {:induction false} StrippedZeros(b: seq<byte>, n: nat, most: nat)
    requires n <= most && b != [] && b[|b| - 1] != 0
    ensures Stripped(b + Zeros(n), most) == b
    decreases n
  {
    if n == 0 {
      assert b + Zeros(0) == b;
    } else {
      assert (b + Zeros(n))[..|b| + n - 1] == b + Zeros(n - 1);
      StrippedZeros(b, n - 1, most - 1);
    }
  }

  lemma CharsOfBytes(path: string)
    requires IsPath(path)
    ensures Chars(Bytes(path)) == path && Bytes(path) != [] && Bytes(path)[|path| - 1] != 0
  {
    hide Bytes;
    forall i | 0 <= i < |path| ensures Bytes(path)[i] == path[i] as int > 0 {
      assert path[i] in path;
    }
  }

  lemma {:induction false} NumbersOfWords(ns: seq<nat>, n: nat, m: nat)
    requires AllBelow(ns, DEPS_BIT) && n < WORD && m < WORD
    ensures Numbers(Le32(n) + Le32(m) + Words(ns)) == [n, m] + ns
  {
    WordOfLe32(n, Le32(m) + Words(ns));
    WordOfLe32(m, Words(ns));
    var b := Le32(n) + Le32(m) + Words(ns);
    assert b == Le32(n) + (Le32(m) + Words(ns));
    assert b[4..] == Le32(m) + Words(ns);
    assert b[4..][4..] == Words(ns);
    NumbersOfWordsOnly(ns);
  }

  lemma {:induction false} NumbersAppend(b: seq<byte>, n: nat)
    requires n < WORD && |b| % 4 == 0
    ensures Numbers(b + Le32(n)) == Numbers(b) + [n]
    decreases |b|
  {
    if b == [] {
      assert b + Le32(n) == Le32(n) + [];
      WordOfLe32(n, []);
    } else {
      assert (b + Le32(n))[4..] == b[4..] + Le32(n);
      NumbersAppend(b[4..], n);
    }
  }

  lemma {:induction false} NumbersOfWordsOnly(ns: seq<nat>)
    requires AllBelow(ns, DEPS_BIT)
    ensures Numbers(Words(ns)) == ns
    decreases |ns|
  {
    if ns != [] {
      NumbersOfWordsOnly(ns[..|ns| - 1]);
      NumbersAppend(Words(ns[..|ns| - 1]), ns[|ns| - 1]);
    }
  }

  /** The record at the start of the bytes is read back, whatever follows. */
  lemma ReadEncoded(v: View, r: Record, rest: seq<byte>)
    requires Writable(v, r)
    ensures ReadRecord(Encode(v, r) + rest, v) == Got(r, |Encode(v, r)|)
  {
    ReadEncodedBody(v, r);
    ReadFramed(v, SizeWord(r), Body(v, r), rest);
  }

  lemma ReadFramed(v: View, word: int, body: seq<byte>, rest: seq<byte>)
    requires 0 < |body| <= MAX_RECORD_SIZE && (word == |body| || word == |body| + DEPS_BIT)
    ensures ReadRecord(Le32(word) + body + rest, v) == if word >= DEPS_BIT then ReadDeps(body, v) else ReadPath(body, v)
  {
    hide Le32, Word, ReadPath, ReadDeps;
    var b := Le32(word) + body + rest;
    assert b == Le32(word) + (body + rest);
    WordOfLe32(word, body + rest);
    assert b[4..4 + |body|] == body;
  }

  lemma ReadEncodedBody(v: View, r: Record)
    requires Writable(v, r)
    ensures (if r.PathRecord? then ReadPath(Body(v, r), v) else ReadDeps(Body(v, r), v)) == Got(r, 4 + SizeOf(r))
  {
    match r
    case PathRecord(path) => ReadEncodedPath(v, path);
    case DepsRecord(out, mtime, ins) => ReadEncodedDeps(v, out, mtime, ins);
  }

  lemma ReadEncodedPath(v: View, path: string)
    requires Writable(v, PathRecord(path))
    ensures ReadPath(Body(v, PathRecord(path)), v) == Got(PathRecord(path), 4 + SizeOf(PathRecord(path)))
  {
    hide Bytes, Zeros, Le32, Word, Chars, Stripped, Padding;
    var body := Body(v, PathRecord(path));
    BodyParts(Bytes(path) + Zeros(Padding(|path|)), Le32(Complement(|v.paths|)));
    PaddedPath(path);
    WordOfLe32(Complement(|v.paths|), []);
  }

  lemma BodyParts(padded: seq<byte>, check: seq<byte>)
    requires |check| == 4
    ensures var body := padded + check;
      body[..|body| - 4] == padded && body[|body| - 4..] == check + []
  {}

  lemma PaddedPath(path: string)
    requires IsPath(path)
    ensures path != "" && Chars(Stripped(Bytes(path) + Zeros(Padding(|path|)), 3)) == path
  {
    hide Bytes, Zeros, Chars, Stripped;
    CharsOfBytes(path);
    StrippedZeros(Bytes(path), Padding(|path|), 3);
  }

  lemma ReadEncodedDeps(v: View, out: nat, mtime: int, ins: seq<nat>)
    requires Writable(v, DepsRecord(out, mtime, ins))
    ensures ReadDeps(Body(v, DepsRecord(out, mtime, ins)), v)
      == Got(DepsRecord(out, mtime, ins), 4 + SizeOf(DepsRecord(out, mtime, ins)))
  {
    SignedBits(mtime);
    NumbersOfWords(ins, out, Bits(mtime));
    hide Numbers, Words, Le32;
    var ns := Numbers(Body(v, DepsRecord(out, mtime, ins)));
    assert ns == [out, Bits(mtime)] + ins;
    assert ns[0] == out && ns[1] == Bits(mtime) && ns[2..] == ins;
    assert forall i :: 2 <= i < |ns| ==> ns[i] == ins[i - 2];
  }

  /** Of a record that was cut off, at least the size word must be there for the loss to be noticed. */
  lemma ReadCutOff(v: View, r: Record, k: nat)
    requires Writable(v, r) && k < |Encode(v, r)|
    ensures ReadRecord(Encode(v, r)[..k], v) == if k < 4 then AtEnd else Broken
  {
    hide Body, Le32, Word, ReadPath, ReadDeps;
    if k >= 4 {
      assert Encode(v, r)[..k] == Le32(SizeWord(r)) + Body(v, r)[..k - 4];
      WordOfLe32(SizeWord(r), Body(v, r)[..k - 4]);
    }
  }
}
