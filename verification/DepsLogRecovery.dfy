// Loading a dependency log that was cut off anywhere.

module DepsLogRecovery {
  import opened DepsLogFormat

  /** A whole log: the header and the records. */
  function FileOf(records: seq<Record>): seq<byte>
  {
    Header() + Encoded(records)
  }

  predicate HasHeader(b: seq<byte>)
  {
    |b| >= 16 && b[..12] == SIGNATURE && Word(b[12..16]) == CURRENT_VERSION
  }

  lemma {:induction false} PrefixIsLog(records: seq<Record>, i: nat)
    requires i <= |records|
    ensures Encoded(records[..i]) <= Encoded(records) && (IsLog(records) ==> IsLog(records[..i]))
    decreases |records|
  {
    hide Encode, Writable;
    if i == |records| {
      assert records[..i] == records;
    } else {
      PrefixIsLog(records[..|records| - 1], i);
      assert records[..|records| - 1][..i] == records[..i];
    }
  }

  /** Where the record after the first `i` begins. */
  function Start(records: seq<Record>, i: nat): (k: nat)
    requires i <= |records|
    ensures k >= 16
  {
    if i == 0 then 16 else Start(records, i - 1) + 4 + SizeOf(records[i - 1])
  }

  lemma {:induction false} StartIsLength(records: seq<Record>, i: nat)
    requires i <= |records|
    ensures Start(records, i) == |FileOf(records[..i])|
    decreases i
  {
    hide Replay, Encode, Header;
    if i > 0 {
      StartIsLength(records, i - 1);
      assert records[..i][..i - 1] == records[..i - 1];
    }
  }

  lemma StartWithin(records: seq<Record>, i: nat)
    requires i <= |records|
    ensures Start(records, i) <= Start(records, |records|) == |FileOf(records)|
  {
    StartIsLength(records, i);
    StartIsLength(records, |records|);
    hide Encode, Replay;
    PrefixIsLog(records, i);
    assert records[..|records|] == records;
  }

  /** How many records, from the one at `i` on, lie wholly within the first `k` bytes of the log. */
  function WholeFrom(records: seq<Record>, i: nat, k: nat): (j: nat)
    requires i <= |records| && Start(records, i) <= k
    ensures i <= j <= |records| && Start(records, j) <= k && (j < |records| ==> k < Start(records, j + 1))
    decreases |records| - i
  {
    if i < |records| && Start(records, i + 1) <= k then WholeFrom(records, i + 1, k) else i
  }

  function Whole(records: seq<Record>, k: nat): (j: nat)
    requires 16 <= k
    ensures j <= |records| && Start(records, j) <= k && (j < |records| ==> k < Start(records, j + 1))
  {
    WholeFrom(records, 0, k)
  }

  lemma NextRecord(records: seq<Record>, i: nat)
    requires IsLog(records) && i < |records|
    ensures IsLog(records[..i]) && IsLog(records[..i + 1]) && Writable(Replay(records[..i]), records[i])
    ensures Encoded(records[..i + 1]) == Encoded(records[..i]) + Encode(Replay(records[..i]), records[i])
    ensures Replay(records[..i + 1]) == Apply(Replay(records[..i]), records[i])
    ensures Encoded(records[..i + 1]) <= Encoded(records)
  {
    hide Encode, Writable, Apply;
    PrefixIsLog(records, i);
    PrefixIsLog(records, i + 1);
    assert records[..i + 1][..i] == records[..i];
  }

  /** The bytes of the record at `i`. */
  lemma BytesAt(records: seq<Record>, i: nat)
    requires IsLog(records) && i < |records|
    ensures Writable(Replay(records[..i]), records[i])
    ensures Start(records, i + 1) == Start(records, i) + |Encode(Replay(records[..i]), records[i])|
    ensures Start(records, i + 1) <= |FileOf(records)|
    ensures FileOf(records)[Start(records, i)..Start(records, i + 1)] == Encode(Replay(records[..i]), records[i])
    ensures Replay(records[..i + 1]) == Apply(Replay(records[..i]), records[i])
  {
    NextRecord(records, i);
    StartWithin(records, i + 1);
    StartIsLength(records, i);
    StartIsLength(records, i + 1);
    hide Encode, Writable, Replay, Encoded, IsLog, Header, Apply;
    Slice(Header(), Encoded(records), Encoded(records[..i]), Encode(Replay(records[..i]), records[i]));
  }

  lemma Slice(head: seq<byte>, whole: seq<byte>, before: seq<byte>, bytes: seq<byte>)
    requires before + bytes <= whole
    ensures (head + whole)[|head + before|..|head + (before + bytes)|] == bytes
  {
    assert (before + bytes)[|before|..] == bytes;
    assert (head + whole)[|head + before|..|head + (before + bytes)|] == whole[|before|..|before + bytes|];
  }

  /** Reading one whole record of a log of which `k` bytes are left. */
  lemma LoadWhole(records: seq<Record>, i: nat, k: nat)
    requires IsLog(records) && i < |records| && k <= |FileOf(records)| && Start(records, i + 1) <= k
    ensures Start(records, i) <= k
    ensures LoadFrom(FileOf(records)[..k], Replay(records[..i]), Start(records, i)) ==
      LoadFrom(FileOf(records)[..k], Replay(records[..i + 1]), Start(records, i + 1))
  {
    BytesAt(records, i);
    StartWithin(records, i + 1);
    hide *;
    var at, next := Start(records, i), Start(records, i + 1);
    assert FileOf(records)[..k][at..next] == FileOf(records)[at..next];
    LoadStep(FileOf(records)[..k], Replay(records[..i]), records[i], at);
  }

  lemma LoadStep(b: seq<byte>, v: View, r: Record, at: nat)
    requires Writable(v, r) && at + |Encode(v, r)| <= |b| && b[at..at + |Encode(v, r)|] == Encode(v, r)
    ensures LoadFrom(b, v, at) == LoadFrom(b, Apply(v, r), at + |Encode(v, r)|)
  {
    hide Encode, Writable, Apply, ReadRecord;
    var next := at + |Encode(v, r)|;
    assert b[at..] == Encode(v, r) + b[next..];
    ReadEncoded(v, r, b[next..]);
  }

  lemma {:induction false} LoadUpTo(records: seq<Record>, i: nat, j: nat, k: nat)
    requires IsLog(records) && i <= j <= |records| && k <= |FileOf(records)| && Start(records, j) <= k
    ensures Start(records, i) <= k
    ensures LoadFrom(FileOf(records)[..k], Replay(records[..i]), Start(records, i)) ==
      LoadFrom(FileOf(records)[..k], Replay(records[..j]), Start(records, j))
    decreases j - i
  {
    hide *;
    StartWithin(records, i);
    if i < j {
      LoadUpTo(records, i + 1, j, k);
      LoadWhole(records, i, k);
    }
  }

  /** Loading the first `k` bytes of a log gives exactly the records that lie wholly within them. The
      loss of a broken record is noticed iff its size word survived. */
  lemma LoadPrefix(records: seq<Record>, k: nat)
    requires IsLog(records) && 16 <= k <= |FileOf(records)|
    ensures LoadFrom(FileOf(records)[..k], EMPTY_VIEW, 16) ==
      Loading(Replay(records[..Whole(records, k)]), Start(records, Whole(records, k)),
              if k - Start(records, Whole(records, k)) < 4 then AtEnd else Broken)
  {
    var j := Whole(records, k);
    StartWithin(records, j);
    assert records[..0] == [] && Replay([]) == EMPTY_VIEW && Start(records, 0) == 16;
    hide ReadRecord, Encode, Writable, Replay, Encoded, IsLog, Header, Apply, FileOf, Start, Whole;
    LoadUpTo(records, 0, j, k);
    LoadRest(records, j, k);
  }

  lemma LoadRest(records: seq<Record>, j: nat, k: nat)
    requires IsLog(records) && 16 <= k <= |FileOf(records)| && j == Whole(records, k)
    ensures ReadRecord(FileOf(records)[..k][Start(records, j)..], Replay(records[..j]))
      == if k - Start(records, j) < 4 then AtEnd else Broken
  {
    hide *;
    StartWithin(records, j);
    var at := Start(records, j);
    if j == |records| {
      assert FileOf(records)[..k][at..] == [];
      ReadNothing(Replay(records[..j]));
    } else {
      BytesAt(records, j);
      CutSlice(FileOf(records), at, Start(records, j + 1), k);
      ReadCutOff(Replay(records[..j]), records[j], k - at);
    }
  }

  lemma CutSlice(b: seq<byte>, at: nat, next: nat, k: nat)
    requires at <= k < next <= |b|
    ensures b[..k][at..] == b[at..next][..k - at]
  {}

  lemma ReadNothing(v: View)
    ensures ReadRecord([], v) == AtEnd
  {}

  lemma HeaderOfFile(records: seq<Record>, k: nat)
    requires IsLog(records) && 16 <= k <= |FileOf(records)|
    ensures HasHeader(FileOf(records)[..k])
  {
    hide Encoded, IsLog, Le32, Word;
    var b := FileOf(records)[..k];
    assert b[..16] == Header();
    assert b[..12] == b[..16][..12] && b[12..16] == b[..16][12..] == Le32(CURRENT_VERSION) + [];
    WordOfLe32(CURRENT_VERSION, []);
  }

  /** The file after it was loaded: what lies behind the last good record is cut off when a failure
      was noticed. */
  function AfterLoad(b: seq<byte>): seq<byte>
    requires |b| >= 16
  {
    var l := LoadFrom(b, EMPTY_VIEW, 16);
    if l.end == Broken then b[..l.offset] else b
  }

  /** After a crash the file is whole again, so that records can be added, unless one to three bytes of
      a size word were left. */
  lemma RecoveryIsExact(records: seq<Record>, k: nat)
    requires IsLog(records) && 16 <= k <= |FileOf(records)|
    ensures var j := Whole(records, k);
      AfterLoad(FileOf(records)[..k]) == FileOf(records[..j]) <==> k == Start(records, j) || k >= Start(records, j) + 4
  {
    var j := Whole(records, k);
    LoadPrefix(records, k);
    StartIsLength(records, j);
    StartWithin(records, j);
    hide LoadFrom, Start, Whole, Replay;
    FilePrefix(records, j);
    assert FileOf(records)[..k][..Start(records, j)] == FileOf(records)[..Start(records, j)];
  }

  lemma FilePrefix(records: seq<Record>, j: nat)
    requires j <= |records|
    ensures FileOf(records[..j]) <= FileOf(records)
  {
    PrefixIsLog(records, j);
    hide Encoded;
  }

  /** One stray byte, left by a crash in the middle of the first record, makes the next load lose a
      record that was added behind it. */
  lemma StrayByte()
    ensures var r := PathRecord("a");
      && IsLog([r]) && 17 < |FileOf([r])| && AfterLoad(FileOf([r])[..17]) == FileOf([r])[..17]
      && LoadFrom(FileOf([r])[..17] + Encode(EMPTY_VIEW, r), EMPTY_VIEW, 16) == Loading(EMPTY_VIEW, 16, Broken)
  {
    hide LoadFrom, Encode, Header, IsLog, FileOf, Start, Whole, Replay;
    var r := PathRecord("a");
    OneLetter();
    OneRecord(r);
    LoadPrefix([r], 17);
    assert Whole([r], 17) == 0;
    StrayLoaded(Header(), Encode(EMPTY_VIEW, r));
  }

  lemma OneLetter()
    ensures var r := PathRecord("a");
      Writable(EMPTY_VIEW, r) && SizeOf(r) == 8 && Encode(EMPTY_VIEW, r)[..4] == [8, 0, 0, 0]
  {
    assert Le32(8) == [8, 0, 0, 0];
  }

  lemma OneRecord(r: Record)
    requires Writable(EMPTY_VIEW, r)
    ensures IsLog([r]) && FileOf([r]) == Header() + Encode(EMPTY_VIEW, r)
    ensures Start([r], 0) == 16 && Start([r], 1) == 20 + SizeOf(r) && Replay([r][..0]) == EMPTY_VIEW
  {
    hide Writable, Encode, Header;
    assert [r][..0] == [] && [r][0] == r;
    assert Encoded([r]) == Encoded([]) + Encode(EMPTY_VIEW, r);
  }

  /** The stray byte and the first three of the next record make a size word that is too large. */
  lemma StrayLoaded(head: seq<byte>, bytes: seq<byte>)
    requires |head| == 16 && |bytes| == 12 && bytes[..4] == [8, 0, 0, 0]
    ensures LoadFrom((head + bytes)[..17] + bytes, EMPTY_VIEW, 16) == Loading(EMPTY_VIEW, 16, Broken)
  {
    hide ReadPath, ReadDeps;
    var b := (head + bytes)[..17] + bytes;
    assert bytes[0] == bytes[..4][0] && bytes[1] == bytes[..4][1] && bytes[2] == bytes[..4][2];
    assert b[16..] == [8] + bytes;
    assert Word(b[16..]) == 2056;
  }

  /** Bytes behind the records of a log are reached after its records. */
  lemma {:induction false} LoadThrough(rs: seq<Record>, tail: seq<byte>, i: nat)
    requires IsLog(rs) && i <= |rs|
    ensures Start(rs, i) <= |FileOf(rs)|
    ensures LoadFrom(FileOf(rs) + tail, Replay(rs[..i]), Start(rs, i)) ==
      LoadFrom(FileOf(rs) + tail, Replay(rs), |FileOf(rs)|)
    decreases |rs| - i
  {
    hide IsLog, FileOf, Replay, Start, LoadFrom, Writable, Encode, Apply;
    StartWithin(rs, i);
    if i == |rs| {
      assert rs[..i] == rs;
    } else {
      BytesAt(rs, i);
      StartWithin(rs, i + 1);
      SliceOfWhole(FileOf(rs), tail, Start(rs, i), Start(rs, i + 1));
      LoadStep(FileOf(rs) + tail, Replay(rs[..i]), rs[i], Start(rs, i));
      LoadThrough(rs, tail, i + 1);
    }
  }

  lemma SliceOfWhole(a: seq<byte>, b: seq<byte>, i: nat, j: nat)
    requires i <= j <= |a|
    ensures (a + b)[i..j] == a[i..j]
  {}

  /** A log that a crash cut off anywhere is read within the buffer. */
  lemma NoOverrun(records: seq<Record>, k: nat)
    requires IsLog(records) && 16 <= k <= |FileOf(records)|
    ensures LoadFrom(FileOf(records)[..k], EMPTY_VIEW, 16).end != Overrun
  {
    hide *;
    LoadPrefix(records, k);
  }

  /** But a stray byte that a crash left, a long deps record that was added behind it, and enough
      further bytes make the load read over the end of its buffer. */
  lemma StrayOverrun(rs: seq<Record>, stray: byte, r: Record, rest: seq<byte>)
    requires IsLog(rs) && Writable(Replay(rs), r) && r.DepsRecord? && |r.ins| > 510
    requires |Encode(Replay(rs), r) + rest| > BUFFER_SIZE + 3
    ensures LoadFrom(FileOf(rs) + ([stray] + (Encode(Replay(rs), r) + rest)), EMPTY_VIEW, 16).end == Overrun
  {
    hide IsLog, Writable, Encode, Replay, FileOf, LoadFrom, ReadRecord;
    var tail := [stray] + (Encode(Replay(rs), r) + rest);
    LoadThrough(rs, tail, 0);
    assert rs[..0] == [] && Start(rs, 0) == 16 && Replay([]) == EMPTY_VIEW by { NothingRead(); }
    assert (FileOf(rs) + tail)[|FileOf(rs)|..] == tail;
    ShiftedSize(Replay(rs), stray, r, rest);
    LoadEnds(FileOf(rs) + tail, Replay(rs), |FileOf(rs)|);
  }

  lemma NothingRead()
    ensures Replay([]) == EMPTY_VIEW
  {}

  lemma LoadEnds(b: seq<byte>, v: View, offset: nat)
    requires offset <= |b| && !ReadRecord(b[offset..], v).Got?
    ensures LoadFrom(b, v, offset).end == ReadRecord(b[offset..], v)
  {
    hide ReadRecord;
  }

  /** One byte further on, the size word of a record counts 256 times as much. */
  lemma ShiftedSize(v: View, stray: byte, r: Record, rest: seq<byte>)
    requires Writable(v, r) && r.DepsRecord? && |r.ins| > 510 && |Encode(v, r) + rest| > BUFFER_SIZE + 3
    ensures ReadRecord([stray] + (Encode(v, r) + rest), v) == Overrun
  {
    hide Body, ReadPath, ReadDeps;
    var size := SizeOf(r);
    var bytes := [stray] + (Encode(v, r) + rest);
    var word := Le32(SizeWord(r));
    assert bytes[1] == word[0] && bytes[2] == word[1] && bytes[3] == word[2];
    assert SizeWord(r) == size + DEPS_BIT;
    LowBytes(size);
    assert Word(bytes) == (stray as int) + 256 * size;
  }

  lemma LowBytes(size: int)
    requires 0 <= size <= MAX_RECORD_SIZE
    ensures var word := Le32(size + DEPS_BIT);
      (word[0] as int) + 256 * (word[1] as int) + 65536 * (word[2] as int) == size
  {
    var n := size + DEPS_BIT;
    Digits(n, n / 256, n / 65536, n / 16777216);
    assert n / 16777216 == 128;
  }

  /** Such an input. */
  lemma OverrunInput(rest: seq<byte>)
    requires |rest| >= BUFFER_SIZE
    ensures var a, r := PathRecord("a"), DepsRecord(0, 0, seq(511, i => 0));
      && IsLog([a]) && Writable(Replay([a]), r)
      && LoadFrom(FileOf([a]) + ([8] + (Encode(Replay([a]), r) + rest)), EMPTY_VIEW, 16).end == Overrun
  {
    hide LoadFrom, FileOf, Encode;
    var a, r := PathRecord("a"), DepsRecord(0, 0, seq(511, i => 0));
    OneLetter();
    OneRecord(a);
    assert Replay([a]).paths == ["a"] by {
      assert [a][..0] == [] && [a][0] == a;
    }
    StrayOverrun([a], 8, r, rest);
  }

  lemma AppendRecord(records: seq<Record>, r: Record)
    requires IsLog(records) && Writable(Replay(records), r)
    ensures IsLog(records + [r]) && Replay(records + [r]) == Apply(Replay(records), r)
    ensures FileOf(records + [r]) == FileOf(records) + Encode(Replay(records), r)
  {
    var longer := records + [r];
    assert longer[..|longer| - 1] == records;
    hide Writable, Encode, Apply;
    assert Encoded(longer) == Encoded(records) + Encode(Replay(records), r);
  }

  /** What a log leaves behind could be written again. */
  ghost predicate Rewritable(v: View, k: nat)
    requires k in v.deps
  {
    && k < |v.paths| && AllBelow(v.deps[k].ins, |v.paths|) && IsInt32(v.deps[k].mtime)
    && 4 * (2 + |v.deps[k].ins|) <= MAX_RECORD_SIZE
  }

  lemma {:induction false} LogIsRewritable(records: seq<Record>)
    requires IsLog(records)
    ensures forall k :: k in Replay(records).deps ==> Rewritable(Replay(records), k)
    ensures forall p :: p in Replay(records).paths ==> SizeOf(PathRecord(p)) <= MAX_RECORD_SIZE
    decreases |records|
  {
    if records != [] {
      LogIsRewritable(records[..|records| - 1]);
      var v, r := Replay(records[..|records| - 1]), records[|records| - 1];
      assert Writable(v, r) && Replay(records) == Apply(v, r);
      hide Replay, IsLog;
      forall k | k in Apply(v, r).deps ensures Rewritable(Apply(v, r), k) {
        if k in v.deps {
          assert Rewritable(v, k);
        }
      }
    }
  }

  /** How many deps records there are for an id. */
  function RecordsFor(records: seq<Record>, id: nat): nat
  {
    if records == [] then 0
    else
      var last := records[|records| - 1];
      RecordsFor(records[..|records| - 1], id) + if last.DepsRecord? && last.out == id then 1 else 0
  }

  lemma {:induction false} RecordedAtLeastOnce(records: seq<Record>, id: nat)
    ensures RecordsFor(records, id) > 0 <==> id in Replay(records).deps
    decreases |records|
  {
    if records != [] {
      RecordedAtLeastOnce(records[..|records| - 1], id);
    }
  }

  lemma RecordsForMore(records: seq<Record>, r: Record, id: nat)
    ensures RecordsFor(records + [r], id) == RecordsFor(records, id) + if r.DepsRecord? && r.out == id then 1 else 0
  {
    assert (records + [r])[..|records|] == records;
  }

  /** A log without dead records. */
  ghost predicate OncePerOutput(records: seq<Record>)
  {
    forall id: nat :: RecordsFor(records, id) <= 1
  }

  lemma OncePerOutputMore(records: seq<Record>, r: Record)
    requires OncePerOutput(records) && (r.DepsRecord? ==> r.out !in Replay(records).deps)
    ensures OncePerOutput(records + [r])
  {
    forall id: nat ensures RecordsFor(records + [r], id) <= 1 {
      RecordsForMore(records, r, id);
      RecordedAtLeastOnce(records, id);
    }
  }

  lemma OutputsMore(v: View, r: Record)
    ensures Outputs(Apply(v, r)) == Outputs(v) + if r.DepsRecord? && r.out !in v.deps then 1 else 0
  {
    hide Size;
    if r.DepsRecord? {
      assert Apply(v, r).deps.Keys == v.deps.Keys + {r.out};
      SizePlus(v.deps.Keys, r.out);
    }
  }

  lemma SizePlus(ids: set<nat>, id: nat)
    ensures Size(ids + {id}) == Size(ids) + if id in ids then 0 else 1
  {
    if id in ids {
      assert ids + {id} == ids;
    }
  }

  /** A log without dead records counts as many records as outputs, so that it is not written again. */
  lemma {:induction false} NothingDead(records: seq<Record>)
    requires OncePerOutput(records)
    ensures Replay(records).total == Outputs(Replay(records)) && !Crowded(Replay(records))
    decreases |records|
  {
    hide Outputs;
    if records == [] {
      assert Outputs(EMPTY_VIEW) == 0 by { NoOutputs(); }
    } else {
      var before, r := records[..|records| - 1], records[|records| - 1];
      assert before + [r] == records;
      forall id: nat ensures RecordsFor(before, id) <= 1 {
        RecordsForMore(before, r, id);
      }
      NothingDead(before);
      OutputsMore(Replay(before), r);
      if r.DepsRecord? {
        RecordsForMore(before, r, r.out);
        RecordedAtLeastOnce(before, r.out);
      }
    }
  }

  lemma NoOutputs()
    ensures Outputs(EMPTY_VIEW) == 0
  {
    assert EMPTY_VIEW.deps.Keys == {};
  }

  /** In a log without dead records every output with deps has one record, and no other id has any. */
  lemma ExactlyOnce(records: seq<Record>, id: nat)
    requires OncePerOutput(records)
    ensures RecordsFor(records, id) == if id in Replay(records).deps then 1 else 0
  {
    RecordedAtLeastOnce(records, id);
  }
}
