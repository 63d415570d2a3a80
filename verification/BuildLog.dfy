// The build log (src/build_log.cc): one line of text for each output of each command that ran.

module BuildLog {
  import opened Graph
  import opened Staleness
  import LR = LineReader

  // ----- numbers as text -----

  const WORD64 := 0x1_0000_0000_0000_0000

  function Digit(c: char): nat
  {
    if '0' <= c <= '9' then c as int - '0' as int
    else if 'a' <= c <= 'f' then c as int - 'a' as int + 10
    else if 'A' <= c <= 'F' then c as int - 'A' as int + 10
    else 99
  }

  function DigitChar(d: nat): char
    requires d < 16
  {
    if d < 10 then '0' + d as char else 'a' + (d - 10) as char
  }

  /** The number that the digits at the start of `s` continue `acc` to. */
  function Digits(s: string, acc: nat, base: nat): nat
  {
    if s == "" || Digit(s[0]) >= base then acc else Digits(s[1..], acc * base + Digit(s[0]), base)
  }

  function Quotient(n: nat, base: nat): (q: nat)
    requires base == 10 || base == 16
    ensures q * base <= n < q * base + base && (n >= base ==> 0 < q < n)
  {
    if base == 10 then n / 10 else n / 16
  }

  function Numeral(n: nat, base: nat): (s: string)
    requires base == 10 || base == 16
    ensures s != "" && forall c :: c in s ==> Digit(c) < base
  {
    if n < base then [DigitChar(n)]
    else
      var q := Quotient(n, base);
      Numeral(q, base) + [DigitChar(n - q * base)]
  }

  lemma {:induction false} DigitsAppend(s: string, c: char, acc: nat, base: nat)
    requires (forall k :: k in s ==> Digit(k) < base) && Digit(c) < base
    ensures Digits(s + [c], acc, base) == Digits(s, acc, base) * base + Digit(c)
    decreases |s|
  {
    if s != "" {
      assert (s + [c])[1..] == s[1..] + [c];
      DigitsAppend(s[1..], c, acc * base + Digit(s[0]), base);
    }
  }

  lemma {:induction false} DigitsOfNumeral(n: nat, base: nat)
    requires base == 10 || base == 16
    ensures Digits(Numeral(n, base), 0, base) == n
    decreases n
  {
    if n >= base {
      var q := Quotient(n, base);
      DigitsOfNumeral(q, base);
      DigitsAppend(Numeral(q, base), DigitChar(n - q * base), 0, base);
    }
  }

  predicate IsSpace(c: char) { c == ' ' || '\t' as int <= c as int <= '\r' as int }

  function SkipSpace(s: string): string
  {
    if s != "" && IsSpace(s[0]) then SkipSpace(s[1..]) else s
  }

  /** `atoi`, for numbers that fit. */
  function Atoi(s: string): int
  {
    var t := SkipSpace(s);
    if t != "" && t[0] == '-' then 0 - Digits(t[1..], 0, 10)
    else if t != "" && t[0] == '+' then Digits(t[1..], 0, 10)
    else Digits(t, 0, 10)
  }

  /** `strtoull` in base 16. */
  function Strtoull(s: string): nat
  {
    var t := SkipSpace(s);
    var signed := t != "" && (t[0] == '-' || t[0] == '+');
    var u := if signed then t[1..] else t;
    var v := if |u| > 2 && u[0] == '0' && (u[1] == 'x' || u[1] == 'X') && Digit(u[2]) < 16 then u[2..] else u;
    var n := Digits(v, 0, 16);
    if n >= WORD64 then WORD64 - 1 else if signed && t[0] == '-' then (WORD64 - n) % WORD64 else n
  }

  /** What `%d` and `%llx` print. */
  function Decimal(i: int): string { if i < 0 then "-" + Numeral(-i, 10) else Numeral(i, 10) }

  function Hex(n: nat): string { Numeral(n, 16) }

  lemma AtoiOfDecimal(i: int)
    ensures Atoi(Decimal(i)) == i
  {
    var s := Decimal(i);
    if i >= 0 {
      assert s[0] in s;
    } else {
      assert s[1..] == Numeral(-i, 10);
    }
    DigitsOfNumeral(if i < 0 then -i else i, 10);
  }

  lemma StrtoullOfHex(n: nat)
    requires n < WORD64
    ensures Strtoull(Hex(n)) == n
  {
    var s := Hex(n);
    assert s[0] in s;
    if |s| > 1 {
      assert s[1] in s;
    }
    DigitsOfNumeral(n, 16);
  }

  // ----- lines -----

  /** Where the first field of `s` ends. */
  function Tab(s: string): (k: nat)
    ensures k <= |s| && '\t' !in s[..k] && (k < |s| ==> s[k] == '\t')
  {
    if s == "" || s[0] == '\t' then 0 else 1 + Tab(s[1..])
  }

  lemma {:induction false} TabAt(a: string, b: string)
    requires '\t' !in a
    ensures Tab(a + "\t" + b) == |a|
    decreases |a|
  {
    if a != "" {
      assert (a + "\t" + b)[1..] == a[1..] + "\t" + b;
      TabAt(a[1..], b);
    }
  }

  /** The first field of `s` and what follows its tab. */
  function Cut(s: string): Option<(string, string)>
  {
    var k := Tab(s);
    if k == |s| then None else Some((s[..k], s[k + 1..]))
  }

  lemma CutAt(a: string, b: string)
    requires '\t' !in a
    ensures Cut(a + "\t" + b) == Some((a, b))
  {
    TabAt(a, b);
    hide Tab;
    var s := a + "\t" + b;
    assert s[..|a|] == a && s[|a| + 1..] == b;
  }

  /** What `WriteEntry` prints, up to the newline. */
  function EntryLine(output: string, e: LogEntry): string
  {
    Decimal(e.startTime) + "\t" +
    (Decimal(e.endTime) + "\t" + (Decimal(e.restatMtime) + "\t" + (output + "\t" + Hex(e.commandHash))))
  }

  /** The entry on a line, if it has five fields. Old logs hold the command itself, not its hash. */
  function ParseLine(line: string, version: int, hash: string -> nat): Option<(string, LogEntry)>
  {
    match Cut(line)
    case None => None
    case Some((startTime, rest)) =>
      match Cut(rest)
      case None => None
      case Some((endTime, rest)) =>
        match Cut(rest)
        case None => None
        case Some((restatMtime, rest)) =>
          match Cut(rest)
          case None => None
          case Some((output, command)) =>
            Some((output, LogEntry(if version >= 5 then Strtoull(command) else hash(command),
                                   Atoi(startTime), Atoi(endTime), Atoi(restatMtime))))
  }

  /** Output paths that survive being printed. */
  predicate Printable(output: string) { forall c :: c in output ==> c != '\t' && c != '\n' && c != '\0' }

  lemma DecimalHasNoTab(i: int)
    ensures '\t' !in Decimal(i) && '\n' !in Decimal(i)
  {}

  lemma ParseFields(a: string, b: string, c: string, d: string, e: string, version: int, hash: string -> nat)
    requires '\t' !in a && '\t' !in b && '\t' !in c && '\t' !in d
    ensures ParseLine(a + "\t" + (b + "\t" + (c + "\t" + (d + "\t" + e))), version, hash) ==
      Some((d, LogEntry(if version >= 5 then Strtoull(e) else hash(e), Atoi(a), Atoi(b), Atoi(c))))
  {
    hide Cut, Atoi, Strtoull;
    CutAt(a, b + "\t" + (c + "\t" + (d + "\t" + e)));
    CutAt(b, c + "\t" + (d + "\t" + e));
    CutAt(c, d + "\t" + e);
    CutAt(d, e);
  }

  /** An entry that was printed is read back. */
  lemma ParseEntryLine(output: string, e: LogEntry, version: int, hash: string -> nat)
    requires Printable(output) && e.commandHash < WORD64 && version >= 5
    ensures ParseLine(EntryLine(output, e), version, hash) == Some((output, e))
  {
    DecimalHasNoTab(e.startTime);
    DecimalHasNoTab(e.endTime);
    DecimalHasNoTab(e.restatMtime);
    AtoiOfDecimal(e.startTime);
    AtoiOfDecimal(e.endTime);
    AtoiOfDecimal(e.restatMtime);
    StrtoullOfHex(e.commandHash);
    hide Decimal, Hex, Atoi, Strtoull, ParseLine;
    ParseFields(Decimal(e.startTime), Decimal(e.endTime), Decimal(e.restatMtime), output, Hex(e.commandHash),
                version, hash);
  }

  /** An entry that was added behind a part of a line that ends within the start time has another start
      time. */
  lemma BehindStartTime(part: string, output: string, e: LogEntry, version: int, hash: string -> nat)
    requires Printable(output) && e.commandHash < WORD64 && version >= 5 && '\t' !in part
    ensures ParseLine(part + EntryLine(output, e), version, hash) ==
      Some((output, e.(startTime := Atoi(part + Decimal(e.startTime)))))
  {
    DecimalHasNoTab(e.startTime);
    DecimalHasNoTab(e.endTime);
    DecimalHasNoTab(e.restatMtime);
    AtoiOfDecimal(e.endTime);
    AtoiOfDecimal(e.restatMtime);
    StrtoullOfHex(e.commandHash);
    hide Decimal, Hex, Atoi, Strtoull, ParseLine;
    var end, restat, h := Decimal(e.endTime), Decimal(e.restatMtime), Hex(e.commandHash);
    ParseFields(part + Decimal(e.startTime), end, restat, output, h, version, hash);
    Reassociate(part, Decimal(e.startTime), end + "\t" + (restat + "\t" + (output + "\t" + h)));
  }

  /** If the part ends within the end time, the entry counts for another output. */
  lemma BehindEndTime(start: string, part: string, output: string, e: LogEntry, version: int, hash: string -> nat)
    requires Printable(output) && version >= 5 && '\t' !in start && '\t' !in part
    ensures var r := ParseLine(start + "\t" + (part + EntryLine(output, e)), version, hash);
      r.Some? && r.value.0 == Decimal(e.restatMtime)
  {
    DecimalHasNoTab(e.startTime);
    DecimalHasNoTab(e.endTime);
    DecimalHasNoTab(e.restatMtime);
    hide Decimal, Hex, Atoi, Strtoull, ParseLine;
    var end, restat, h := Decimal(e.endTime), Decimal(e.restatMtime), Hex(e.commandHash);
    ParseFields(start, part + Decimal(e.startTime), end, restat, output + "\t" + h, version, hash);
    Reassociate(part, Decimal(e.startTime), end + "\t" + (restat + "\t" + (output + "\t" + h)));
  }

  lemma Reassociate(a: string, b: string, c: string)
    ensures a + (b + "\t" + c) == (a + b) + "\t" + c
  {}

  lemma EntryLineHasNoNewline(output: string, e: LogEntry)
    requires Printable(output)
    ensures '\n' !in EntryLine(output, e)
  {
    DecimalHasNoTab(e.startTime);
    DecimalHasNoTab(e.endTime);
    DecimalHasNoTab(e.restatMtime);
    assert '\n' !in Hex(e.commandHash);
  }

  // ----- the file -----

  const SIGNATURE := "# ninja log v"
  const OLDEST_SUPPORTED_VERSION := 4
  const CURRENT_VERSION := 5

  /** The version that the first line gives, or 0. */
  function Version(line: string): int
  {
    if SIGNATURE <= line then Atoi(line[|SIGNATURE|..]) else 0
  }

  function HeaderLine(): string { SIGNATURE + Decimal(CURRENT_VERSION) }

  type Written = (string, LogEntry)

  /** The lines of a log to which these entries were written. */
  function LogLines(ws: seq<Written>): (lines: seq<string>)
    ensures |lines| == |ws| + 1
  {
    if ws == [] then [HeaderLine()] else LogLines(ws[..|ws| - 1]) + [EntryLine(ws[|ws| - 1].0, ws[|ws| - 1].1)]
  }

  function Text(lines: seq<string>): string
  {
    if lines == [] then "" else Text(lines[..|lines| - 1]) + (lines[|lines| - 1] + "\n")
  }

  function FileOf(ws: seq<Written>): string { Text(LogLines(ws)) }

  /** The last entry written for an output counts. */
  function Replayed(ws: seq<Written>): map<string, LogEntry>
  {
    if ws == [] then map[] else Replayed(ws[..|ws| - 1])[ws[|ws| - 1].0 := ws[|ws| - 1].1]
  }

  predicate IsEntry(w: Written) { Printable(w.0) && w.1.commandHash < WORD64 }

  /** A path as a C string holds it. */
  predicate IsCString(output: string) { '\0' !in output }

  predicate AllEntries(ws: seq<Written>) { forall w :: w in ws ==> IsEntry(w) }

  /** The entries that were read, how many outputs they added and how many lines held one. */
  datatype Tally = Tally(entries: map<string, LogEntry>, unique: nat, total: nat)

  /** What one line does to the entries that were read. */
  function Store(t: Tally, line: string, version: int, hash: string -> nat): Tally
  {
    match ParseLine(line, version, hash)
    case None => t
    case Some(w) => Tally(t.entries[w.0 := w.1], t.unique + if w.0 in t.entries then 0 else 1, t.total + 1)
  }

  function StoreAll(t: Tally, lines: seq<string>, version: int, hash: string -> nat): Tally
    decreases |lines|
  {
    if lines == [] then t else StoreAll(Store(t, lines[0], version, hash), lines[1..], version, hash)
  }

  lemma {:induction false} StoreAllAppend(t: Tally, lines: seq<string>, line: string, version: int, hash: string -> nat)
    ensures StoreAll(t, lines + [line], version, hash) == Store(StoreAll(t, lines, version, hash), line, version, hash)
    decreases |lines|
  {
    hide Store;
    if lines == [] {
      assert lines + [line] == [line];
      assert [line][1..] == [];
    } else {
      assert (lines + [line])[1..] == lines[1..] + [line];
      StoreAllAppend(Store(t, lines[0], version, hash), lines[1..], line, version, hash);
    }
  }

  /** Reading back all lines of a log gives what was written last for each output, and the numbers of
      outputs and of entries. */
  lemma {:induction false} StoreLogLines(entries: map<string, LogEntry>, ws: seq<Written>, hash: string -> nat)
    requires AllEntries(ws)
    ensures var t := StoreAll(Tally(entries, 0, 0), LogLines(ws), CURRENT_VERSION, hash);
      && t.entries == entries + Replayed(ws) && t.total == |ws|
      && t.unique == Added(entries, Replayed(ws))
    decreases |ws|
  {
    hide ParseLine, EntryLine, IsEntry, Store, StoreAll, Added;
    var start := Tally(entries, 0, 0);
    if ws == [] {
      HeaderIsNoEntry(hash);
      StoreNothing(start, HeaderLine(), CURRENT_VERSION, hash);
      NothingAdded(entries);
    } else {
      var last, shorter := ws[|ws| - 1], ws[..|ws| - 1];
      assert last in ws && forall w :: w in shorter ==> w in ws;
      StoreLogLines(entries, shorter, hash);
      StoreAllAppend(start, LogLines(shorter), EntryLine(last.0, last.1), CURRENT_VERSION, hash);
      ReadEntry(last, hash);
      var t := StoreAll(start, LogLines(shorter), CURRENT_VERSION, hash);
      StoreEntry(t, EntryLine(last.0, last.1), CURRENT_VERSION, hash);
      OneMoreOutput(entries, Replayed(shorter), last);
    }
  }

  lemma StoreNothing(t: Tally, line: string, version: int, hash: string -> nat)
    requires ParseLine(line, version, hash) == None
    ensures Store(t, line, version, hash) == t && StoreAll(t, [line], version, hash) == t
  {
    hide ParseLine;
    assert [line][1..] == [];
  }

  lemma StoreEntry(t: Tally, line: string, version: int, hash: string -> nat)
    ensures var r, next := ParseLine(line, version, hash), Store(t, line, version, hash);
      && (r == None ==> next == t)
      && (r.Some? ==> next.entries == t.entries[r.value.0 := r.value.1] && next.total == t.total + 1
                       && next.unique == t.unique + if r.value.0 in t.entries then 0 else 1)
  {
    hide ParseLine;
  }

  /** How many outputs are not among those known before. */
  function Added(known: map<string, LogEntry>, entries: map<string, LogEntry>): nat
  {
    Size(entries.Keys - known.Keys)
  }

  function Size(keys: set<string>): nat { |keys| }

  lemma SizePlus(keys: set<string>, key: string)
    ensures Size(keys + {key}) == Size(keys) + if key in keys then 0 else 1
  {
    if key in keys {
      assert keys + {key} == keys;
    }
  }

  lemma NothingAdded(known: map<string, LogEntry>)
    ensures Added(known, map[]) == 0 && known + map[] == known
  {}

  lemma OneMoreOutput(known: map<string, LogEntry>, entries: map<string, LogEntry>, w: Written)
    ensures known + entries[w.0 := w.1] == (known + entries)[w.0 := w.1]
    ensures Added(known, entries[w.0 := w.1]) == Added(known, entries) + if w.0 in known + entries then 0 else 1
  {
    hide Added;
    OneMoreKey(known, entries, w.0, w.1);
  }

  lemma OneMoreKey(known: map<string, LogEntry>, entries: map<string, LogEntry>, key: string, e: LogEntry)
    ensures Added(known, entries[key := e]) == Added(known, entries) + if key in known || key in entries then 0 else 1
  {
    hide Size;
    var keys, more := entries.Keys - known.Keys, entries[key := e].Keys - known.Keys;
    SizePlus(keys, key);
    assert more == if key in known then keys else keys + {key};
  }

  lemma ReadEntry(w: Written, hash: string -> nat)
    requires IsEntry(w)
    ensures ParseLine(EntryLine(w.0, w.1), CURRENT_VERSION, hash) == Some(w)
  {
    ParseEntryLine(w.0, w.1, CURRENT_VERSION, hash);
  }

  lemma HeaderIsNoEntry(hash: string -> nat)
    ensures ParseLine(HeaderLine(), CURRENT_VERSION, hash) == None && Version(HeaderLine()) == CURRENT_VERSION
    ensures '\n' !in HeaderLine()
  {
    var line := HeaderLine();
    DecimalHasNoTab(CURRENT_VERSION);
    AtoiOfDecimal(CURRENT_VERSION);
    hide Decimal, Tab;
    assert line[|SIGNATURE|..] == Decimal(CURRENT_VERSION);
    assert '\t' !in line;
    NoTab(line);
    assert Cut(line) == None;
  }

  lemma NoTab(s: string)
    requires '\t' !in s
    ensures Tab(s) == |s|
  {}

  lemma TextEnds(lines: seq<string>)
    ensures Text(lines) == "" || Text(lines)[|Text(lines)| - 1] == '\n'
  {}

  /** Text that was made of lines splits into them again. */
  lemma {:induction false} LinesOfText(lines: seq<string>)
    requires forall l :: l in lines ==> '\n' !in l
    ensures LR.Lines(Text(lines)) == lines
    decreases |lines|
  {
    hide LR.Lines;
    if lines != [] {
      var shorter, last := lines[..|lines| - 1], lines[|lines| - 1];
      assert last in lines && forall l :: l in shorter ==> l in lines;
      LinesOfText(shorter);
      TextEnds(shorter);
      LinesAppend(Text(shorter), last);
    } else {
      NoLines();
    }
  }

  lemma {:induction false} LinesAppend(s: string, line: string)
    requires '\n' !in line && (s == "" || s[|s| - 1] == '\n')
    ensures LR.Lines(s + (line + "\n")) == LR.Lines(s) + [line]
    decreases |s|
  {
    var u := line + "\n";
    OneLine(line);
    hide LR.Lines, LR.Newline;
    if s == "" {
      assert s + u == u;
      NoLines();
    } else {
      var k := LR.Newline(s);
      HasLine(s);
      var rest := s[k + 1..];
      LinesAppend(rest, line);
      LR.SameStart(s, u, k);
      LR.NewlineInPart(s + u, s, u);
      LR.LinesOf(s);
      LR.LinesOf(s + u);
      Regroup([s[..k]], LR.Lines(rest), [line]);
    }
  }

  lemma Regroup(a: seq<string>, b: seq<string>, c: seq<string>)
    ensures a + (b + c) == a + b + c
  {}

  lemma NoLines()
    ensures LR.Lines("") == []
  {}

  lemma HasLine(s: string)
    requires s != "" && s[|s| - 1] == '\n'
    ensures LR.Newline(s) < |s|
  {
    assert s[..|s|] == s && s[|s| - 1] in s;
  }

  lemma OneLine(line: string)
    requires '\n' !in line
    ensures LR.Lines(line + "\n") == [line]
  {
    var t := line + "\n";
    assert t[..|line|] == line;
    LR.NewlineAt(t, |line|);
    assert t[|line| + 1..] == "";
    assert LR.Newline("") == 0;
    assert LR.Lines("") == [];
  }

  // ----- recording, loading, compacting -----

  datatype LoadResult = Loaded | StartedOver

  /** What loading makes of a file: the version in its first line, then the lines the reader delivers. */
  function Loading(entries: map<string, LogEntry>, file: string, size: nat, hash: string -> nat): Option<Tally>
    requires size > 0
  {
    if file == "" then Some(Tally(entries, 0, 0))
    else
      var version := Version(file[..LR.Min(size, LR.Newline(file))]);
      if version < OLDEST_SUPPORTED_VERSION then None
      else Some(StoreAll(Tally(entries, 0, 0), LR.Delivered(file, size), version, hash))
  }

  const MIN_COMPACTION_ENTRY_COUNT := 100
  const COMPACTION_RATIO := 3

  /** Whether a log should be written again: it is of an older version, or most of its entries are dead. */
  predicate Stuffed(file: string, size: nat, t: Tally)
    requires size > 0
  {
    file != "" &&
    (Version(file[..LR.Min(size, LR.Newline(file))]) < CURRENT_VERSION ||
     (t.total > MIN_COMPACTION_ENTRY_COUNT && t.total > t.unique * COMPACTION_RATIO))
  }

  /** Every line fits the buffer of the reader. */
  predicate Short(ws: seq<Written>, size: nat)
  {
    forall line :: line in LogLines(ws) ==> |line| < size
  }

  lemma {:induction false} LogLinesAreLines(ws: seq<Written>)
    requires AllEntries(ws)
    ensures (forall line :: line in LogLines(ws) ==> '\n' !in line) && LogLines(ws)[0] == HeaderLine()
    decreases |ws|
  {
    if ws == [] {
      HeaderIsNoEntry(s => 0);
    } else {
      var last, shorter := ws[|ws| - 1], ws[..|ws| - 1];
      assert last in ws && forall w :: w in shorter ==> w in ws;
      LogLinesAreLines(shorter);
      EntryLineHasNoNewline(last.0, last.1);
    }
  }

  /** A log that was written is read back, if its lines fit the buffer. */
  lemma RoundTrip(entries: map<string, LogEntry>, ws: seq<Written>, size: nat, hash: string -> nat)
    requires AllEntries(ws) && size > 0 && Short(ws, size)
    ensures Loading(entries, FileOf(ws), size, hash) ==
      Some(Tally(entries + Replayed(ws), Added(entries, Replayed(ws)), |ws|))
  {
    hide *;
    LogIsDelivered(ws, size);
    FileVersion(ws, size);
    StoreLogLines(entries, ws, hash);
    LoadingOf(entries, FileOf(ws), size, hash);
  }

  lemma LoadingOf(entries: map<string, LogEntry>, file: string, size: nat, hash: string -> nat)
    requires size > 0 && file != "" && VersionOf(file, size) >= OLDEST_SUPPORTED_VERSION
    ensures Loading(entries, file, size, hash) ==
      Some(StoreAll(Tally(entries, 0, 0), LR.Delivered(file, size), VersionOf(file, size), hash))
    ensures CURRENT_VERSION >= OLDEST_SUPPORTED_VERSION
  {
    hide StoreAll, LR.Delivered, Version, LR.Newline;
  }

  lemma LogIsDelivered(ws: seq<Written>, size: nat)
    requires AllEntries(ws) && size > 0 && Short(ws, size)
    ensures LR.Delivered(FileOf(ws), size) == LR.Lines(FileOf(ws)) == LogLines(ws)
  {
    LogLinesAreLines(ws);
    LinesOfText(LogLines(ws));
    LR.DeliversLines(FileOf(ws), size);
    hide LogLines, LR.Delivered, LR.Lines, Text, IsEntry;
  }

  lemma FileVersion(ws: seq<Written>, size: nat)
    requires AllEntries(ws) && size > 0 && Short(ws, size)
    ensures FileOf(ws) != "" && VersionOf(FileOf(ws), size) == CURRENT_VERSION >= OLDEST_SUPPORTED_VERSION
  {
    hide *;
    LogIsDelivered(ws, size);
    VersionOfLog(FileOf(ws), ws, size);
  }

  lemma VersionOfLog(file: string, ws: seq<Written>, size: nat)
    requires AllEntries(ws) && size > 0 && Short(ws, size) && LR.Lines(file) == LogLines(ws)
    ensures file != "" && VersionOf(file, size) == CURRENT_VERSION >= OLDEST_SUPPORTED_VERSION
  {
    LogLinesAreLines(ws);
    HeaderIsNoEntry(s => 0);
    assert |HeaderLine()| < size by { assert LogLines(ws)[0] in LogLines(ws); }
    FirstLine(file);
    hide LogLines, LR.Delivered, LR.Lines, LR.Newline, FileOf, IsEntry, HeaderLine, Version;
  }

  lemma FirstLine(file: string)
    requires LR.Lines(file) != []
    ensures file != "" && LR.Lines(file)[0] == file[..LR.Newline(file)]
  {
    hide LR.Newline;
  }

  // ----- what a command adds -----

  /** What a command adds to a log: one entry for each of its outputs. */
  function Entries(outputs: seq<string>, e: LogEntry): (ws: seq<Written>)
    ensures |ws| == |outputs| && forall i :: 0 <= i < |ws| ==> ws[i] == (outputs[i], e)
  {
    seq(|outputs|, i requires 0 <= i < |outputs| => (outputs[i], e))
  }

  function EntryText(outputs: seq<string>, e: LogEntry): string
  {
    if outputs == [] then ""
    else EntryText(outputs[..|outputs| - 1], e) + (EntryLine(outputs[|outputs| - 1], e) + "\n")
  }

  lemma NoEntries(e: LogEntry)
    ensures Entries([], e) == [] && EntryText([], e) == ""
  {}

  lemma {:induction false} OneEntry(outputs: seq<string>, i: nat, e: LogEntry)
    requires i < |outputs|
    ensures Entries(outputs[..i + 1], e) == Entries(outputs[..i], e) + [(outputs[i], e)]
    ensures EntryText(outputs[..i + 1], e) == EntryText(outputs[..i], e) + (EntryLine(outputs[i], e) + "\n")
    ensures EntryText(outputs[..i + 1], e) <= EntryText(outputs, e)
    decreases |outputs|
  {
    hide EntryLine;
    assert outputs[..i + 1][..i] == outputs[..i];
    if i + 1 == |outputs| {
      assert outputs[..i + 1] == outputs;
    } else {
      var shorter := outputs[..|outputs| - 1];
      assert shorter[..i + 1] == outputs[..i + 1];
      OneEntry(shorter, i, e);
    }
  }

  /** A log with what a command added is the log before and the text that was printed. */
  lemma {:induction false} AllWritten(ws: seq<Written>, outputs: seq<string>, e: LogEntry)
    ensures FileOf(ws + Entries(outputs, e)) == FileOf(ws) + EntryText(outputs, e)
    decreases |outputs|
  {
    hide FileOf, EntryLine;
    if outputs == [] {
      assert ws + Entries(outputs, e) == ws;
    } else {
      var k := |outputs| - 1;
      AllWritten(ws, outputs[..k], e);
      OneEntry(outputs, k, e);
      assert outputs[..k + 1] == outputs;
      assert ws + Entries(outputs, e) == (ws + Entries(outputs[..k], e)) + [(outputs[k], e)];
      WrittenMore(ws + Entries(outputs[..k], e), (outputs[k], e));
    }
  }

  // ----- a log that was cut off -----

  /** How many of the entries written lie wholly within the first `k` characters of the file. */
  function WholeEntries(ws: seq<Written>, k: nat): (n: nat)
    ensures n <= |ws|
  {
    if ws == [] || k >= |FileOf(ws)| then |ws| else WholeEntries(ws[..|ws| - 1], k)
  }

  /** Of a log that was cut off behind its first line, the whole entries are left and a part of a line. */
  lemma {:induction false} CutLog(ws: seq<Written>, k: nat)
    requires AllEntries(ws) && |FileOf([])| <= k <= |FileOf(ws)|
    ensures var n := WholeEntries(ws, k);
      && |FileOf(ws[..n])| <= k && FileOf(ws[..n]) <= FileOf(ws)[..k]
      && (n < |ws| ==> k < |FileOf(ws[..n + 1])|) && '\n' !in FileOf(ws)[|FileOf(ws[..n])|..k]
    decreases |ws|
  {
    hide FileOf, EntryLine;
    if k == |FileOf(ws)| || ws == [] {
      assert ws[..|ws|] == ws;
    } else {
      var shorter, last := ws[..|ws| - 1], ws[|ws| - 1];
      assert last in ws && (forall w :: w in shorter ==> w in ws) && shorter + [last] == ws;
      WrittenMore(shorter, last);
      EntryLineHasNoNewline(last.0, last.1);
      if k < |FileOf(shorter)| {
        CutLog(shorter, k);
        var n := WholeEntries(shorter, k);
        assert shorter[..n] == ws[..n] && FileOf(shorter)[..k] == FileOf(ws)[..k];
        assert n < |shorter|;
        assert shorter[..n + 1] == ws[..n + 1];
        assert FileOf(shorter)[|FileOf(ws[..n])|..k] == FileOf(ws)[|FileOf(ws[..n])|..k];
      } else {
        WholeShorter(shorter, k);
        assert ws[..|shorter|] == shorter && ws[..|shorter| + 1] == ws;
        PartOfLine(FileOf(shorter), EntryLine(last.0, last.1), k);
      }
    }
  }

  lemma PartOfLine(file: string, line: string, k: nat)
    requires |file| <= k <= |file| + |line| && '\n' !in line
    ensures (file + (line + "\n"))[..k][..|file|] == file && '\n' !in (file + (line + "\n"))[|file|..k]
  {
    assert (file + (line + "\n"))[|file|..k] == line[..k - |file|];
  }

  lemma WholeShorter(ws: seq<Written>, k: nat)
    requires |FileOf(ws)| <= k
    ensures WholeEntries(ws, k) == |ws|
  {}

  /** A part of a line at the end is not a line. */
  lemma {:induction false} LinesBefore(s: string, tail: string)
    requires '\n' !in tail && (s == "" || s[|s| - 1] == '\n')
    ensures LR.Lines(s + tail) == LR.Lines(s)
    decreases |s|
  {
    hide LR.Lines, LR.Newline;
    if s == "" {
      assert s + tail == tail && tail[..|tail|] == tail;
      LR.NewlineAt(tail, |tail|);
      NoLineIn(tail);
      NoLines();
    } else {
      var k := LR.Newline(s);
      HasLine(s);
      LinesBefore(s[k + 1..], tail);
      LR.SameStart(s, tail, k);
      LR.NewlineInPart(s + tail, s, tail);
      LR.LinesOf(s);
      LR.LinesOf(s + tail);
    }
  }

  lemma NoLineIn(s: string)
    requires LR.Newline(s) == |s|
    ensures LR.Lines(s) == []
  {
    hide LR.Newline;
  }

  /** What a reader delivers of a log that was cut off: the lines of the whole entries. */
  lemma CutIsDelivered(ws: seq<Written>, k: nat, size: nat)
    requires AllEntries(ws) && size > 0 && Short(ws, size) && |FileOf([])| <= k <= |FileOf(ws)|
    ensures AllEntries(ws[..WholeEntries(ws, k)]) && Short(ws[..WholeEntries(ws, k)], size)
    ensures var cut := FileOf(ws)[..k];
      && LR.Delivered(cut, size) == LR.Lines(cut) == LogLines(ws[..WholeEntries(ws, k)])
      && cut != "" && VersionOf(cut, size) == CURRENT_VERSION >= OLDEST_SUPPORTED_VERSION
  {
    hide *;
    var n, cut := WholeEntries(ws, k), FileOf(ws)[..k];
    var whole := ws[..n];
    CutLog(ws, k);
    PrefixIsShort(ws, n, size);
    LogIsDelivered(whole, size);
    FileEnds(whole);
    var tail := FileOf(ws)[|FileOf(whole)|..k];
    assert cut == FileOf(whole) + tail;
    LinesBefore(FileOf(whole), tail);
    FitsLines(cut, whole, size);
    LR.DeliversLines(cut, size);
    VersionOfLog(cut, whole, size);
  }

  lemma FileEnds(ws: seq<Written>)
    ensures FileOf(ws) != "" && FileOf(ws)[|FileOf(ws)| - 1] == '\n'
  {
    TextOfLines(LogLines(ws));
    TextEnds(LogLines(ws));
  }

  lemma FitsLines(file: string, ws: seq<Written>, size: nat)
    requires LR.Lines(file) == LogLines(ws) && Short(ws, size)
    ensures LR.LinesFit(file, size)
  {
    hide LR.Lines, LogLines;
  }

  /** A log that was cut off within its first line has no entries, and its version only if the line is whole. */
  lemma CutHeader(ws: seq<Written>, k: nat, size: nat, hash: string -> nat)
    requires AllEntries(ws) && size > 0 && Short(ws, size) && k < |FileOf([])| && k <= |FileOf(ws)|
    ensures var cut, t := FileOf(ws)[..k], Tally(map[], 0, 0);
      && Loading(map[], cut, size, hash) == (if 0 < k < |HeaderLine()| then None else Some(t))
      && (k == 0 || k == |HeaderLine()| ==> !Stuffed(cut, size, t))
  {
    var cut := FileOf(ws)[..k];
    FirstIsHeader(ws, k);
    HeaderIsNoEntry(hash);
    HeaderFits(ws, size);
    PartOfHeader(k);
    hide *;
    assert cut[..|cut|] == cut && HeaderLine()[..|HeaderLine()|] == HeaderLine();
    LR.NewlineAt(cut, k);
    LR.NothingAfter(cut, size);
    OneChunk(cut, size, hash);
  }

  lemma OneChunk(file: string, size: nat, hash: string -> nat)
    requires LR.Newline(file) == |file| < size && LR.Delivered(file, size) == []
    requires Version(file) == 0 || Version(file) == CURRENT_VERSION
    ensures var t := Tally(map[], 0, 0);
      && Loading(map[], file, size, hash) == (if file != "" && Version(file) == 0 then None else Some(t))
      && (Version(file) == CURRENT_VERSION ==> !Stuffed(file, size, t))
      && (file == "" ==> !Stuffed(file, size, t))
  {
    hide LR.Newline, LR.Delivered, Version;
    assert file[..|file|] == file;
  }

  lemma HeaderFits(ws: seq<Written>, size: nat)
    requires AllEntries(ws) && Short(ws, size)
    ensures |HeaderLine()| < size && AllEntries([]) && Short([], size)
  {
    Readable(ws, size);
    Readable([], size);
  }

  lemma {:induction false} FirstIsHeader(ws: seq<Written>, k: nat)
    requires k <= |HeaderLine()|
    ensures |FileOf([])| == |HeaderLine()| + 1 <= |FileOf(ws)|
    ensures FileOf(ws)[..k] == HeaderLine()[..k]
    decreases |ws|
  {
    hide HeaderLine, FileOf, EntryLine;
    NothingWritten();
    if ws != [] {
      var shorter, last := ws[..|ws| - 1], ws[|ws| - 1];
      assert shorter + [last] == ws;
      FirstIsHeader(shorter, k);
      WrittenMore(shorter, last);
      assert FileOf(ws)[..k] == FileOf(shorter)[..k];
    }
  }

  lemma PartOfHeader(k: nat)
    ensures k < |HeaderLine()| ==> Version(HeaderLine()[..k]) == 0
  {
    assert |HeaderLine()| == |SIGNATURE| + 1;
    if k < |HeaderLine()| {
      var part := HeaderLine()[..k];
      if SIGNATURE <= part {
        assert part[|SIGNATURE|..] == "";
      }
    }
  }

  /** What is left of a log that was cut off: the entries that lie wholly within the rest, and none
      where not even the first line is whole. */
  function Left(ws: seq<Written>, k: nat): (left: seq<Written>)
    ensures left <= ws
  {
    if k < |FileOf([])| then [] else ws[..WholeEntries(ws, k)]
  }

  /** Most of the entries are dead. */
  predicate HasDead(ws: seq<Written>)
  {
    |ws| > MIN_COMPACTION_ENTRY_COUNT && |ws| > Size(Replayed(ws).Keys) * COMPACTION_RATIO
  }

  /** What is left can be read back, and is as much as lies within the rest of the file. */
  lemma LeftIsWhole(ws: seq<Written>, k: nat, size: nat)
    requires AllEntries(ws) && Short(ws, size) && k <= |FileOf(ws)|
    ensures AllEntries(Left(ws, k)) && Short(Left(ws, k), size)
    ensures k >= |FileOf([])| ==> FileOf(Left(ws, k)) <= FileOf(ws)[..k]
    ensures Left(ws, k) < ws ==> k < |FileOf(ws[..|Left(ws, k)| + 1])|
  {
    hide FileOf, AllEntries, Short, WholeEntries, HeaderLine;
    HeaderFits(ws, size);
    if k >= |FileOf([])| {
      CutLog(ws, k);
      PrefixIsShort(ws, WholeEntries(ws, k), size);
    } else if ws != [] {
      FirstIsHeader(ws[..1], 0);
    }
  }

  /** What loading makes of a log that was cut off. */
  lemma CutLoads(ws: seq<Written>, k: nat, size: nat, hash: string -> nat)
    requires AllEntries(ws) && size > 0 && Short(ws, size) && k <= |FileOf(ws)|
    ensures var cut, left := FileOf(ws)[..k], Left(ws, k);
      var t := Tally(Replayed(left), Size(Replayed(left).Keys), |left|);
      && Loading(map[], cut, size, hash) == (if 0 < k < |HeaderLine()| then None else Some(t))
      && (k == 0 || k >= |HeaderLine()| ==> (Stuffed(cut, size, t) <==> HasDead(left)))
      && (k == |FileOf(left)| ==> cut == FileOf(left)) && (0 < k < |HeaderLine()| ==> k != |FileOf(left)|)
      && (k < |HeaderLine()| ==> Replayed(left) == map[] && !HasDead(left))
  {
    hide *;
    FirstIsHeader(ws, 0);
    if k < |FileOf([])| {
      CutHeader(ws, k, size, hash);
      NothingLeft(ws, k);
    } else {
      WholeLoads(ws, k, size, hash);
    }
  }

  lemma NothingLeft(ws: seq<Written>, k: nat)
    requires k < |FileOf([])|
    ensures Left(ws, k) == [] && Replayed([]) == map[] && Size(Replayed([]).Keys) == 0 && !HasDead([])
  {
    hide FileOf;
    var none: map<string, LogEntry> := map[];
    assert none.Keys == {};
  }

  lemma WholeLoads(ws: seq<Written>, k: nat, size: nat, hash: string -> nat)
    requires AllEntries(ws) && size > 0 && Short(ws, size) && |FileOf([])| <= k <= |FileOf(ws)|
    ensures var cut, left := FileOf(ws)[..k], Left(ws, k);
      var t := Tally(Replayed(left), Size(Replayed(left).Keys), |left|);
      && Loading(map[], cut, size, hash) == Some(t) && (Stuffed(cut, size, t) <==> HasDead(left))
      && (k == |FileOf(left)| ==> cut == FileOf(left))
  {
    assert CURRENT_VERSION >= OLDEST_SUPPORTED_VERSION > 0;
    hide *;
    var left, cut := ws[..WholeEntries(ws, k)], FileOf(ws)[..k];
    IsLeft(ws, k);
    CutLog(ws, k);
    CutIsDelivered(ws, k, size);
    StoreLogLines(map[], left, hash);
    LoadingOf(map[], cut, size, hash);
    AllAdded(Replayed(left));
    NeedsRecompaction(map[], cut, size, hash, CURRENT_VERSION,
                      Tally(Replayed(left), Size(Replayed(left).Keys), |left|));
  }

  lemma IsLeft(ws: seq<Written>, k: nat)
    requires k >= |FileOf([])|
    ensures Left(ws, k) == ws[..WholeEntries(ws, k)]
    ensures var left := ws[..WholeEntries(ws, k)];
      HasDead(left) <==> |left| > MIN_COMPACTION_ENTRY_COUNT && |left| > Size(Replayed(left).Keys) * COMPACTION_RATIO
  {
    hide FileOf;
  }

  // ----- which logs can be read back -----

  predicate Fits(w: Written, size: nat) { IsEntry(w) && |EntryLine(w.0, w.1)| < size }

  /** What it takes to read a log back: every entry fits the buffer, and so does the header. */
  lemma {:induction false} Readable(ws: seq<Written>, size: nat)
    ensures AllEntries(ws) && Short(ws, size) <==> |HeaderLine()| < size && forall w :: w in ws ==> Fits(w, size)
    decreases |ws|
  {
    hide IsEntry, EntryLine, HeaderLine;
    if ws != [] {
      var shorter, last := ws[..|ws| - 1], ws[|ws| - 1];
      Readable(shorter, size);
      assert ws == shorter + [last];
      var line := EntryLine(last.0, last.1);
      assert LogLines(ws) == LogLines(shorter) + [line];
      assert (forall w :: w in ws <==> w in shorter || w == last)
          && forall l :: l in LogLines(ws) <==> l in LogLines(shorter) || l == line;
      assert Fits(last, size) <==> IsEntry(last) && |line| < size;
    } else {
      assert LogLines(ws) == [HeaderLine()];
      assert forall l :: l in LogLines(ws) <==> l == HeaderLine();
    }
  }

  lemma PrefixIsShort(ws: seq<Written>, n: nat, size: nat)
    requires AllEntries(ws) && Short(ws, size) && n <= |ws|
    ensures AllEntries(ws[..n]) && Short(ws[..n], size)
  {
    Readable(ws, size);
    Readable(ws[..n], size);
    hide *;
    assert forall w :: w in ws[..n] ==> w in ws;
  }

  class BuildLog {
    var entries: map<string, LogEntry>
    var file: string
    var isOpen: bool
    var needsRecompaction: bool
    ghost var written: seq<Written>

    constructor ()
      ensures entries == map[] && file == "" && !isOpen && !needsRecompaction && written == []
    {
      entries, file, isOpen, needsRecompaction, written := map[], "", false, false, [];
    }

    /** The file says what the entries say. */
    ghost predicate Valid()
      reads this`entries, this`written, this`file
    {
      entries == Replayed(written) && file == FileOf(written)
    }

    /** Prints a text to the file; a failure may leave part of it there. */
    method Print(text: string) returns (ok: bool)
      modifies this`file
      ensures ok ==> file == old(file) + text
      ensures !ok ==> old(file) <= file <= old(file) + text
    {
      var printed :| 0 <= printed <= |text|;
      ok := printed == |text|;
      file := file + text[..printed];
      assert text == text[..printed] + text[printed..];
    }

    /** Nothing was written yet. */
    ghost predicate New()
      reads this`entries, this`written, this`file
    {
      entries == map[] && written == [] && file == ""
    }

    /** Opens the file for recording. A log that should be written again is; a new file gets the header. */
    method OpenForWrite() returns (ok: bool)
      modifies this
      ensures entries == old(entries)
      ensures ok ==> isOpen && (old(needsRecompaction) ==> Valid() && OnceEach(written))
      ensures ok && !old(needsRecompaction) ==>
        written == old(written) && file == if old(file) == "" then HeaderLine() + "\n" else old(file)
      ensures ok && (old(Valid()) || old(New())) ==> Valid()
    {
      NothingWritten();
      hide *;
      ok := true;
      ghost var isNew := New();
      IsNew();
      if needsRecompaction {
        ok := Recompact();
        if !ok {
          return;
        }
      }
      HasHeader();
      isOpen := *;
      ok := isOpen;
      if ok && file == "" {
        ok := Print(HeaderLine() + "\n");
        if ok && isNew {
          StartsNew();
        }
      }
    }

    lemma IsNew()
      ensures New() <==> entries == map[] && written == [] && file == ""
    {}

    lemma HasHeader()
      ensures Valid() ==> file != "" && file == FileOf(written)
    {
      TextOfLines(LogLines(written));
    }

    method WriteEntry(output: string, e: LogEntry) returns (ok: bool)
      modifies this`file
      ensures ok ==> file == old(file) + (EntryLine(output, e) + "\n")
      ensures !ok ==> old(file) <= file <= old(file) + (EntryLine(output, e) + "\n")
    {
      ok := Print(EntryLine(output, e) + "\n");
    }

    /** Records a command for each of its outputs, in memory, and in the file if it is open. A failure may
        leave the file anywhere within what was to be added. */
    method RecordCommand(outputs: seq<string>, e: LogEntry) returns (ok: bool)
      requires forall o :: o in outputs ==> IsCString(o)
      modifies this`entries, this`file, this`written
      ensures ok && isOpen ==>
        file == old(file) + EntryText(outputs, e) && written == old(written) + Entries(outputs, e)
      ensures !ok ==> isOpen && old(file) <= file <= old(file) + EntryText(outputs, e)
      ensures !isOpen ==> file == old(file) && written == old(written)
      ensures ok && isOpen && old(Valid()) ==> Valid()
      ensures isOpen && old(Valid()) ==>
        file <= FileOf(old(written) + Entries(outputs, e)) && FileOf(old(written)) <= file
      ensures ok ==> forall o :: o in entries <==> o in old(entries) || o in outputs
      ensures ok ==> forall o :: o in entries ==> entries[o] == if o in outputs then e else old(entries)[o]
    {
      hide *;
      ghost var written0 := written;
      NoEntries(e);
      HasHeader();
      AllWritten(written, outputs, e);
      for i := 0 to |outputs|
        invariant isOpen ==> file == old(file) + EntryText(outputs[..i], e)
        invariant isOpen ==> written == written0 + Entries(outputs[..i], e)
        invariant !isOpen ==> file == old(file) && written == old(written)
        invariant isOpen && old(Valid()) ==> Valid()
        invariant forall o :: o in entries <==> o in old(entries) || o in outputs[..i]
        invariant forall o :: o in entries ==> entries[o] == if o in outputs[..i] then e else old(entries)[o]
      {
        OneEntry(outputs, i, e);
        assert outputs[..i + 1] == outputs[..i] + [outputs[i]];
        ok := RecordOne(outputs[i], e);
        if !ok {
          return;
        }
      }
      assert outputs[..|outputs|] == outputs;
      ok := true;
    }

    method RecordOne(output: string, e: LogEntry) returns (ok: bool)
      modifies this`entries, this`file, this`written
      ensures entries == old(entries)[output := e]
      ensures ok && isOpen ==>
        file == old(file) + (EntryLine(output, e) + "\n") && written == old(written) + [(output, e)]
      ensures !ok ==> isOpen && old(file) <= file <= old(file) + (EntryLine(output, e) + "\n")
      ensures ok && isOpen && old(Valid()) ==> Valid()
      ensures !isOpen ==> ok && file == old(file) && written == old(written)
    {
      hide *;
      ghost var valid := Valid();
      if valid {
        OneMore((output, e));
      }
      entries := entries[output := e];
      ok := true;
      if isOpen {
        ok := WriteEntry(output, e);
        if ok {
          written := written + [(output, e)];
          if valid {
            IsValid();
          }
        }
      }
    }

    lemma IsValid()
      ensures entries == Replayed(written) && file == FileOf(written) ==> Valid()
    {}

    lemma StartsNew()
      requires entries == map[] && written == [] && file == HeaderLine() + "\n"
      ensures Valid()
    {
      NothingWritten();
    }

    lemma OneMore(w: Written)
      requires Valid()
      ensures Replayed(written + [w]) == entries[w.0 := w.1]
      ensures FileOf(written + [w]) == file + (EntryLine(w.0, w.1) + "\n")
    {
      WrittenMore(written, w);
    }

    /** Writes the log again, with one line for each output, in the order of a hash table. */
    method Recompact() returns (ok: bool)
      modifies this
      ensures entries == old(entries) && needsRecompaction == old(needsRecompaction)
      ensures ok ==> Valid() && OnceEach(written)
    {
      hide *;
      isOpen := false;
      var temp;
      ghost var ws;
      ok, temp, ws := PrintAll(entries);
      // Replacing the file may fail.
      var replaced: bool := *;
      ok := ok && replaced;
      if ok {
        file, written := temp, ws;
        IsValid();
      }
    }

    /** Reads the file through a buffer of the given size. A file of another format is removed. */
    method Load(size: nat, hash: string -> nat) returns (result: LoadResult)
      requires size > 0
      modifies this`entries, this`file, this`needsRecompaction
      ensures result == StartedOver <==> Loading(old(entries), old(file), size, hash) == None
      ensures result == StartedOver ==>
        file == "" && entries == old(entries) && needsRecompaction == old(needsRecompaction)
      ensures result == Loaded ==> file == old(file)
      ensures result == Loaded ==> entries == Loading(old(entries), file, size, hash).value.entries
      ensures result == Loaded ==>
        needsRecompaction ==
          (old(needsRecompaction) || Stuffed(file, size, Loading(old(entries), file, size, hash).value))
    {
      hide *;
      var reader := new LR.LineReader(file, size);
      NoProgress(entries, file, size, hash);
      ghost var entries0 := entries;
      var version, unique, total;
      result, version, unique, total := LoadLines(reader, size, hash);
      if result == StartedOver {
        file := "";
      } else {
        NeedsRecompaction(entries0, file, size, hash, version, Tally(entries, unique, total));
        // A file that is empty has no version.
        if version != 0 &&
           (version < CURRENT_VERSION || (total > MIN_COMPACTION_ENTRY_COUNT && total > unique * COMPACTION_RATIO)) {
          needsRecompaction := true;
        }
      }
    }

    /** Loads a log that was written, and cut off anywhere: what there is then are the entries that lie
        wholly within what is left. */
    method LoadLog(ghost ws: seq<Written>, ghost k: nat, size: nat, hash: string -> nat) returns (result: LoadResult)
      requires entries == map[] && size > 0 && !needsRecompaction
      requires AllEntries(ws) && Short(ws, size) && k <= |FileOf(ws)| && file == FileOf(ws)[..k]
      modifies this`entries, this`file, this`needsRecompaction, this`written
      ensures written == Left(ws, k) && entries == Replayed(written)
      ensures Valid() <==> k == |FileOf(written)|
      ensures result == StartedOver <==> 0 < k < |HeaderLine()|
      ensures file == if k < |HeaderLine()| then "" else old(file)
      ensures needsRecompaction <==> HasDead(written)
    {
      hide *;
      CutLoads(ws, k, size, hash);
      result := Load(size, hash);
      written := Left(ws, k);
      HasHeader();
      IsValid();
    }

    /** The loop of `Load`. */
    method LoadLines(reader: LR.LineReader, size: nat, hash: string -> nat)
      returns (result: LoadResult, version: int, unique: nat, total: nat)
      requires reader.Valid() && reader.buf.Length == size > 0 && reader.Pending() == file && reader.lineEnd == None
      requires Progress(entries, file, size, hash, 0, Tally(entries, 0, 0), file)
      modifies this`entries, reader, reader.buf
      ensures result == Loaded ==> Loading(old(entries), file, size, hash) == Some(Tally(entries, unique, total))
      ensures result == Loaded ==> version == VersionOf(file, size)
      ensures result == StartedOver ==> Loading(old(entries), file, size, hash) == None && entries == old(entries)
    {
      assert OLDEST_SUPPORTED_VERSION > 0;
      hide *;
      version, unique, total := 0, 0, 0;
      while true
        invariant reader.Valid()
        invariant Progress(old(entries), file, size, hash, version, Tally(entries, unique, total), reader.Pending())
        invariant version == 0 ==> reader.lineEnd == None
        decreases |reader.Pending()|, reader.lineEnd.Some?
      {
        ghost var p := reader.Pending();
        var more := reader.ReadLine();
        if !more {
          ReadToEnd(old(entries), file, size, hash, version, Tally(entries, unique, total));
          result := Loaded;
          return;
        }
        version, unique, total := StoreLine(reader, version, unique, total, size, hash, old(entries), p);
        if version < OLDEST_SUPPORTED_VERSION {
          result := StartedOver;
          return;
        }
      }
    }

    /** One turn of the loop of `Load`: the version is taken from the first line, and an entry stored
        if the line holds one. */
    method StoreLine(reader: LR.LineReader, version0: int, unique0: nat, total0: nat, size: nat, hash: string -> nat,
                     ghost entries0: map<string, LogEntry>, ghost p: string)
      returns (version: int, unique: nat, total: nat)
      requires reader.Valid() && reader.IsNext(p) && reader.buf.Length == size > 0 && (version0 == 0 ==> p != "")
      requires Progress(entries0, file, size, hash, version0, Tally(entries, unique0, total0), p)
      modifies this`entries
      ensures version < OLDEST_SUPPORTED_VERSION ==> Loading(entries0, file, size, hash) == None && entries == entries0
      ensures version >= OLDEST_SUPPORTED_VERSION ==>
        Progress(entries0, file, size, hash, version, Tally(entries, unique, total), reader.Pending())
    {
      ghost var t := Tally(entries, unique0, total0);
      FirstChunk(reader, p);
      HasVersion(entries0, file, size, hash, version0, t, p);
      hide Progress, Loading, Version, ParseLine, Store, LR.LineReader.Pending, LR.LineReader.Valid;
      hide LR.LineReader.IsNext, LR.Newline;
      version, unique, total := version0, unique0, total0;
      if version == 0 {
        var end := if reader.lineEnd.Some? then reader.lineEnd.value else reader.bufEnd;
        version := Version(reader.buf[reader.lineStart..end]);
        if version < OLDEST_SUPPORTED_VERSION {
          return;
        }
      }
      NextLine(reader, p, entries0, file, size, hash, version, t);
      // If no newline was found in this chunk, read the next.
      if reader.lineEnd != None {
        unique, total := AddLine(reader.buf[reader.lineStart..reader.lineEnd.value], version, hash, unique, total);
      }
    }

    /** Stores the entry that a line holds, if it holds one, and counts it. */
    method AddLine(line: string, version: int, hash: string -> nat, unique0: nat, total0: nat)
      returns (unique: nat, total: nat)
      modifies this`entries
      ensures Tally(entries, unique, total) == Store(Tally(old(entries), unique0, total0), line, version, hash)
    {
      hide ParseLine;
      unique, total := unique0, total0;
      var w := ParseLine(line, version, hash);
      if w.Some? {
        if w.value.0 !in entries {
          unique := unique + 1;
        }
        total := total + 1;
        entries := entries[w.value.0 := w.value.1];
      }
    }
  }

  /** What was stored so far, and what is pending, amount to the whole file. */
  ghost predicate Progress(entries0: map<string, LogEntry>, file: string, size: nat, hash: string -> nat, version: int,
                           t: Tally, pending: string)
    requires size > 0
  {
    if version == 0 then pending == file && t == Tally(entries0, 0, 0)
    else
      && file != "" && version == VersionOf(file, size) && version >= OLDEST_SUPPORTED_VERSION
      && StoreAll(Tally(entries0, 0, 0), LR.Delivered(file, size), version, hash)
         == StoreAll(t, LR.Delivered(pending, size), version, hash)
  }

  /** The version a file gives, or 0 if it is empty. */
  function VersionOf(file: string, size: nat): int
    requires size > 0
  {
    if file == "" then 0 else Version(file[..LR.Min(size, LR.Newline(file))])
  }

  lemma NeedsRecompaction(entries0: map<string, LogEntry>, file: string, size: nat,
                          hash: string -> nat, version: int, t: Tally)
    requires size > 0 && Loading(entries0, file, size, hash) == Some(t) && version == VersionOf(file, size)
    ensures Stuffed(file, size, t) <==>
      version != 0 &&
      (version < CURRENT_VERSION || (t.total > MIN_COMPACTION_ENTRY_COUNT && t.total > t.unique * COMPACTION_RATIO))
  {
    hide Version, StoreAll, LR.Delivered;
  }

  lemma NoProgress(entries0: map<string, LogEntry>, file: string, size: nat, hash: string -> nat)
    requires size > 0
    ensures Progress(entries0, file, size, hash, 0, Tally(entries0, 0, 0), file)
  {}

  lemma ReadToEnd(entries0: map<string, LogEntry>, file: string, size: nat, hash: string -> nat, version: int, t: Tally)
    requires size > 0 && Progress(entries0, file, size, hash, version, t, "")
    ensures Loading(entries0, file, size, hash) == Some(t) && version == VersionOf(file, size)
  {
    hide Version;
  }

  lemma HasVersion(entries0: map<string, LogEntry>, file: string, size: nat,
                   hash: string -> nat, version: int, t: Tally, p: string)
    requires size > 0 && Progress(entries0, file, size, hash, version, t, p) && (version == 0 ==> p != "")
    ensures version == 0 ==>
      var v := Version(p[..LR.Min(size, LR.Newline(p))]);
      t == Tally(entries0, 0, 0) && if v < OLDEST_SUPPORTED_VERSION then Loading(entries0, file, size, hash) == None
                                    else Progress(entries0, file, size, hash, v, t, p)
    ensures version != 0 ==> version >= OLDEST_SUPPORTED_VERSION
  {
    hide Version, StoreAll, LR.Delivered;
  }

  lemma FirstChunk(reader: LR.LineReader, p: string)
    requires reader.Valid() && reader.IsNext(p)
    ensures var end := if reader.lineEnd.Some? then reader.lineEnd.value else reader.bufEnd;
      reader.lineStart <= end <= reader.buf.Length
      && reader.buf[reader.lineStart..end] == p[..LR.Min(reader.buf.Length, LR.Newline(p))]
  {
    var b := reader.buf[reader.lineStart..reader.bufEnd];
    if reader.lineEnd == None {
      assert p[..|b|] == b;
    }
  }

  lemma NextLine(reader: LR.LineReader, p: string, entries0: map<string, LogEntry>, file: string, size: nat,
                 hash: string -> nat, version: int, t: Tally)
    requires reader.Valid() && reader.IsNext(p) && reader.buf.Length == size > 0 && version != 0
    requires Progress(entries0, file, size, hash, version, t, p)
    ensures reader.lineEnd == None ==> Progress(entries0, file, size, hash, version, t, reader.Pending())
    ensures reader.lineEnd.Some? ==> reader.lineStart <= reader.lineEnd.value < reader.buf.Length
    ensures reader.lineEnd.Some? ==> Progress(entries0, file, size, hash, version,
      Store(t, reader.buf[reader.lineStart..reader.lineEnd.value], version, hash), reader.Pending())
  {
    hide Store, Version;
    var k := LR.Newline(p);
    if reader.lineEnd.Some? {
      assert LR.Delivered(p, size) == [p[..k]] + LR.Delivered(p[k + 1..], size);
    } else if p == "" {
      assert reader.Pending() == "";
    }
  }

  ghost predicate OnceEach(ws: seq<Written>)
  {
    forall i, j :: 0 <= i < j < |ws| ==> ws[i].0 != ws[j].0
  }

  /** The text of a log with these entries, if no write fails. */
  method PrintAll(entries: map<string, LogEntry>) returns (ok: bool, temp: string, ghost ws: seq<Written>)
    ensures ok ==> temp == FileOf(ws) && Replayed(ws) == entries && OnceEach(ws)
  {
    hide FileOf, Replayed, EntryLine, HeaderLine, IsEntry, OnceEach;
    temp, ws := HeaderLine() + "\n", [];
    NothingWritten();
    var rest := entries.Keys;
    while rest != {}
      invariant rest <= entries.Keys && temp == FileOf(ws) && OnceEach(ws)
      invariant forall w :: w in ws ==> w.0 in entries && w.1 == entries[w.0]
      invariant forall o :: o in Replayed(ws) <==> o in entries && o !in rest
      invariant forall o :: o in Replayed(ws) ==> Replayed(ws)[o] == entries[o]
      decreases rest
    {
      var o :| o in rest;
      rest := rest - {o};
      ok := *;
      if !ok {
        return;
      }
      WrittenMore(ws, (o, entries[o]));
      OnceMore(ws, (o, entries[o]));
      temp, ws := temp + (EntryLine(o, entries[o]) + "\n"), ws + [(o, entries[o])];
    }
    ok := true;
    assert Replayed(ws) == entries;
  }

  lemma OnceMore(ws: seq<Written>, w: Written)
    requires OnceEach(ws) && w.0 !in Replayed(ws)
    ensures OnceEach(ws + [w])
  {
    OutputsReplayed(ws);
  }

  lemma {:induction false} OutputsReplayed(ws: seq<Written>)
    ensures forall i :: 0 <= i < |ws| ==> ws[i].0 in Replayed(ws)
    decreases |ws|
  {
    if ws != [] {
      OutputsReplayed(ws[..|ws| - 1]);
    }
  }

  lemma NothingWritten()
    ensures FileOf([]) == HeaderLine() + "\n" && Replayed([]) == map[] && OnceEach([])
  {
    hide HeaderLine;
    assert LogLines([]) == [HeaderLine()];
    assert [HeaderLine()][..0] == [];
  }

  lemma WrittenMore(ws: seq<Written>, w: Written)
    ensures Replayed(ws + [w]) == Replayed(ws)[w.0 := w.1]
    ensures FileOf(ws + [w]) == FileOf(ws) + (EntryLine(w.0, w.1) + "\n")
  {
    assert (ws + [w])[..|ws|] == ws;
    hide EntryLine;
    LinesMore(LogLines(ws), EntryLine(w.0, w.1));
  }

  lemma TextOfLines(lines: seq<string>)
    requires lines != []
    ensures Text(lines) != ""
  {}

  /** What was recorded, or written again, is there for a process that starts with the file: for paths
      that can be printed, with a buffer that holds every line. */
  method ReadBack(log: BuildLog, size: nat, hash: string -> nat) returns (copy: BuildLog, result: LoadResult)
    requires log.Valid() && AllEntries(log.written) && size > 0 && Short(log.written, size)
    ensures fresh(copy) && result == Loaded && copy.entries == log.entries && copy.file == log.file
    ensures copy.needsRecompaction <==>
      |log.written| > MIN_COMPACTION_ENTRY_COUNT && |log.written| > Size(log.entries.Keys) * COMPACTION_RATIO
  {
    hide *;
    WrittenLoads(log, size, hash);
    copy := new BuildLog();
    copy.file := log.file;
    result := copy.Load(size, hash);
  }

  lemma WrittenLoads(log: BuildLog, size: nat, hash: string -> nat)
    requires log.Valid() && AllEntries(log.written) && size > 0 && Short(log.written, size)
    ensures var t := Tally(log.entries, Size(log.entries.Keys), |log.written|);
      && Loading(map[], log.file, size, hash) == Some(t)
      && (Stuffed(log.file, size, t) <==>
        |log.written| > MIN_COMPACTION_ENTRY_COUNT && |log.written| > Size(log.entries.Keys) * COMPACTION_RATIO)
  {
    hide FileOf, Replayed, Loading, AllEntries, Short, Size, VersionOf, Added;
    var ws := log.written;
    RoundTrip(map[], ws, size, hash);
    FileVersion(ws, size);
    AllAdded(log.entries);
    NeedsRecompaction(map[], log.file, size, hash, CURRENT_VERSION, Tally(log.entries, Size(log.entries.Keys), |ws|));
  }

  // ----- compacting, then reading back -----

  /** The entry that counts for an output was written. */
  lemma {:induction false} LastWasWritten(ws: seq<Written>, o: string)
    requires o in Replayed(ws)
    ensures (o, Replayed(ws)[o]) in ws
    decreases |ws|
  {
    var last, shorter := ws[|ws| - 1], ws[..|ws| - 1];
    assert ws == shorter + [last];
    if o != last.0 {
      LastWasWritten(shorter, o);
    }
  }

  /** Where each output occurs once, every entry counts. */
  lemma {:induction false} OnceEachCounts(ws: seq<Written>)
    requires OnceEach(ws)
    ensures forall w :: w in ws ==> w.0 in Replayed(ws) && Replayed(ws)[w.0] == w.1
    ensures Size(Replayed(ws).Keys) == |ws|
    decreases |ws|
  {
    hide Size;
    if ws != [] {
      var last, shorter := ws[|ws| - 1], ws[..|ws| - 1];
      assert ws == shorter + [last];
      OnceEachCounts(shorter);
      SizePlus(Replayed(shorter).Keys, last.0);
      if last.0 in Replayed(shorter) {
        LastWasWritten(shorter, last.0);
        assert false;
      }
      assert Replayed(ws).Keys == Replayed(shorter).Keys + {last.0};
    } else {
      NoKeys();
    }
  }

  lemma NoKeys()
    ensures Size(Replayed([]).Keys) == 0
  {
    var none: map<string, LogEntry> := map[];
    assert none.Keys == {};
  }

  /** Compaction writes nothing that had not been written before, so a log that could be read back can
      be read back afterwards. */
  lemma CompactedIsReadable(ws: seq<Written>, compacted: seq<Written>, size: nat)
    requires OnceEach(compacted) && Replayed(compacted) == Replayed(ws) && AllEntries(ws) && Short(ws, size)
    ensures (forall w :: w in compacted ==> w in ws) && |compacted| == Size(Replayed(ws).Keys)
    ensures AllEntries(compacted) && Short(compacted, size)
  {
    hide *;
    OnceEachCounts(compacted);
    forall w | w in compacted ensures w in ws {
      LastWasWritten(ws, w.0);
      assert w == (w.0, w.1);
    }
    Readable(ws, size);
    Readable(compacted, size);
    assert forall w :: w in compacted ==> Fits(w, size);
  }

  lemma ValidEntries(log: BuildLog)
    requires log.Valid()
    ensures log.entries == Replayed(log.written)
  {}

  /** A log that could be read back is compacted; what it held is there for a process that starts with
      the new file, and that process has no reason to compact it again. */
  method CompactAndReadBack(log: BuildLog, size: nat, hash: string -> nat)
    returns (ok: bool, copy: BuildLog, result: LoadResult)
    requires log.Valid() && AllEntries(log.written) && size > 0 && Short(log.written, size)
    modifies log
    ensures log.entries == old(log.entries)
    ensures ok ==> log.Valid() && AllEntries(log.written) && Short(log.written, size)
    ensures ok ==> |log.written| == Size(log.entries.Keys) && forall w :: w in log.written ==> w in old(log.written)
    ensures ok ==> copy.entries == log.entries && copy.file == log.file && result == Loaded && !copy.needsRecompaction
  {
    assert COMPACTION_RATIO > 0;
    hide *;
    ghost var ws := log.written;
    ValidEntries(log);
    ok := log.Recompact();
    copy, result := log, Loaded;
    if ok {
      ValidEntries(log);
      CompactedIsReadable(ws, log.written, size);
      copy, result := ReadBack(log, size, hash);
    }
  }

  // ----- from one process to the next -----

  /** Whether what a crash left of a log can be built on: nothing but whole lines is left, or not even the
      header, so that the log is started over, or it is written again. */
  predicate Sound(ws: seq<Written>, k: nat)
  {
    k < |HeaderLine()| || k == |FileOf(Left(ws, k))| || HasDead(Left(ws, k))
  }

  /** A process starts with a log that an earlier one may have left cut off, opens it, and records a
      command. The file is a log of what is in memory then, which the next process can read back, iff
      what was left could be built on. */
  method Session(log: BuildLog, ghost ws: seq<Written>, ghost k: nat, size: nat, hash: string -> nat,
                 outputs: seq<string>, e: LogEntry) returns (ok: bool)
    requires log.entries == map[] && size > 0 && !log.needsRecompaction
    requires AllEntries(ws) && Short(ws, size) && k <= |FileOf(ws)| && log.file == FileOf(ws)[..k]
    requires forall o :: o in outputs ==> Fits((o, e), size)
    modifies log
    ensures ok ==> AllEntries(log.written) && Short(log.written, size)
    ensures ok ==> (log.Valid() <==> Sound(ws, k))
    ensures ok ==> forall o :: o in log.entries <==> o in Replayed(Left(ws, k)) || o in outputs
    ensures ok ==> forall o :: o in log.entries ==>
      log.entries[o] == if o in outputs then e else Replayed(Left(ws, k))[o]
  {
    hide *;
    LeftIsWhole(ws, k, size);
    SoundCases(ws, k);
    StillReadable([], outputs, e, size);
    var result := log.LoadLog(ws, k, size, hash);
    log.IsNew();
    ok := log.OpenForWrite();
    if ok {
      if HasDead(Left(ws, k)) {
        ValidEntries(log);
        CompactedIsReadable(Left(ws, k), log.written, size);
      }
      StillReadable(log.written, outputs, e, size);
      AllWritten(log.written, outputs, e);
      ok := log.RecordCommand(outputs, e);
      log.HasHeader();
    }
  }

  lemma SoundCases(ws: seq<Written>, k: nat)
    ensures Sound(ws, k) <==> k < |HeaderLine()| || k == |FileOf(Left(ws, k))| || HasDead(Left(ws, k))
    ensures k < |HeaderLine()| ==> Left(ws, k) == [] && Replayed([]) == map[]
    ensures |HeaderLine()| > 0
  {
    FirstIsHeader(ws, 0);
    hide FileOf;
  }

  lemma StillReadable(ws: seq<Written>, outputs: seq<string>, e: LogEntry, size: nat)
    requires forall o :: o in outputs ==> Fits((o, e), size)
    ensures forall o :: o in outputs ==> IsCString(o)
    ensures AllEntries(ws) && Short(ws, size) ==>
      AllEntries(ws + Entries(outputs, e)) && Short(ws + Entries(outputs, e), size)
  {
    hide EntryLine, Short, AllEntries, HeaderLine, Entries;
    Readable(ws, size);
    Readable(ws + Entries(outputs, e), size);
    forall w | w in ws + Entries(outputs, e) ensures w in ws || Fits(w, size) {
      if w !in ws {
        assert w in Entries(outputs, e);
      }
    }
  }

  lemma AllAdded(entries: map<string, LogEntry>)
    ensures map[] + entries == entries && Added(map[], entries) == Size(entries.Keys)
  {
    hide Size;
    var none: map<string, LogEntry> := map[];
    assert entries.Keys - none.Keys == entries.Keys;
  }

  lemma LinesMore(lines: seq<string>, line: string)
    ensures Text(lines + [line]) == Text(lines) + (line + "\n")
  {
    assert (lines + [line])[..|lines|] == lines;
  }
}
