// Reading a file line by line through a buffer of fixed size (LineReader in src/build_log.cc).

module LineReader {
  import opened Graph

  // ----- lines -----

  /** Where the first line of `s` ends. */
  function Newline(s: string): (k: nat)
    ensures k <= |s| && '\n' !in s[..k] && (k < |s| ==> s[k] == '\n')
  {
    if s == "" || s[0] == '\n' then 0 else 1 + Newline(s[1..])
  }

  lemma {:induction false} NewlineAt(s: string, k: nat)
    requires k <= |s| && '\n' !in s[..k] && (k < |s| ==> s[k] == '\n')
    ensures Newline(s) == k
    decreases k
  {
    if k > 0 {
      assert s[0] == s[..k][0] && s[1..][..k - 1] == s[..k][1..];
      NewlineAt(s[1..], k - 1);
    }
  }

  /** The complete lines of a text. */
  function Lines(s: string): seq<string>
  {
    var k := Newline(s);
    if k == |s| then [] else [s[..k]] + Lines(s[k + 1..])
  }

  /** Every complete line and its newline fit a buffer of the given size. */
  predicate LinesFit(s: string, size: nat)
  {
    forall l :: l in Lines(s) ==> |l| < size
  }

  function Min(a: nat, b: nat): nat { if a <= b then a else b }

  /** The lines that a reader with a buffer of the given size delivers: when the buffer holds no
      newline, what it holds is lost. */
  function Delivered(s: string, size: nat): seq<string>
    requires size > 0
  {
    if s == "" then []
    else
      var k := Newline(s);
      if k < |s| && k < size then [s[..k]] + Delivered(s[k + 1..], size)
      else Delivered(s[Min(size, |s|)..], size)
  }

  lemma {:induction false} FirstDelivered(s: string, size: nat)
    requires size > 0 && Newline(s) < |s|
    ensures Delivered(s, size) != [] && |Delivered(s, size)[0]| <= Newline(s)
    decreases |s|
  {
    var k := Newline(s);
    if k >= size {
      var t := s[size..];
      assert t[..k - size] == s[..k][size..];
      NewlineAt(t, k - size);
      FirstDelivered(t, size);
    }
  }

  lemma {:induction false} LinesOf(s: string)
    requires Newline(s) < |s|
    ensures Lines(s) == [s[..Newline(s)]] + Lines(s[Newline(s) + 1..])
  {
    hide Newline;
  }

  /** The reader delivers just the complete lines iff each of them fits the buffer. */
  lemma {:induction false} DeliversLines(s: string, size: nat)
    requires size > 0
    ensures Delivered(s, size) == Lines(s) <==> LinesFit(s, size)
    decreases |s|
  {
    var k := Newline(s);
    if k == |s| {
      if s != "" {
        NothingAfter(s, size);
      }
    } else if k < size {
      var rest := s[k + 1..];
      DeliversLines(rest, size);
      var head := s[..k];
      assert Lines(s) == [head] + Lines(rest) && Delivered(s, size) == [head] + Delivered(rest, size);
      assert Delivered(s, size)[1..] == Delivered(rest, size) && Lines(s)[1..] == Lines(rest);
      assert forall l :: l in Lines(s) <==> l == head || l in Lines(rest);
    } else {
      var t := s[size..];
      assert t[..k - size] == s[..k][size..];
      NewlineAt(t, k - size);
      FirstDelivered(t, size);
      assert |Delivered(s, size)[0]| < k && Lines(s)[0] == s[..k] && Lines(s)[0] in Lines(s);
    }
  }

  lemma {:induction false} NothingAfter(s: string, size: nat)
    requires size > 0 && Newline(s) == |s|
    ensures Delivered(s, size) == []
    decreases |s|
  {
    if s != "" {
      var t := s[Min(size, |s|)..];
      assert '\n' !in s[..|s|] && s[..|s|] == s;
      NewlineAt(t, |t|);
      NothingAfter(t, size);
    }
  }

  // ----- the reader -----

  class LineReader {
    const buf: array<char>
    var bufEnd: nat
    var lineStart: nat
    // where the newline of the last line was found
    var lineEnd: Option<nat>
    // what was not read from the file yet
    var unread: string

    constructor (file: string, size: nat)
      requires size > 0
      ensures Valid() && fresh(buf) && buf.Length == size && Pending() == file && lineEnd == None
    {
      buf := new char[size];
      bufEnd, lineStart, lineEnd, unread := 0, 0, None, file;
    }

    ghost predicate Valid()
      reads this
    {
      && bufEnd <= buf.Length && buf.Length > 0
      && (lineEnd.Some? ==> lineStart <= lineEnd.value < bufEnd)
    }

    /** What is still to come: the buffer behind the last line, and the rest of the file. */
    ghost function Pending(): string
      requires Valid()
      reads this, buf
    {
      if lineEnd.Some? then buf[lineEnd.value + 1..bufEnd] + unread else unread
    }

    /** Reads from the file into the buffer. */
    method Read(from: nat) returns (read: nat)
      requires from <= buf.Length
      modifies buf, this`unread
      ensures read == Min(buf.Length - from, |old(unread)|) && unread == old(unread)[read..]
      ensures buf[..from] == old(buf[..from]) && buf[from..from + read] == old(unread)[..read]
    {
      read := Min(buf.Length - from, |unread|);
      forall i | 0 <= i < read {
        buf[from + i] := unread[i];
      }
      assert buf[from..from + read] == unread[..read];
      unread := unread[read..];
    }

    /** Moves the rest of the buffer to its start. */
    method MoveToFront(from: nat, count: nat)
      requires from + count <= buf.Length
      modifies buf
      ensures buf[..count] == old(buf[from..from + count])
    {
      forall i | 0 <= i < count {
        buf[i] := buf[from + i];
      }
    }

    /** `memchr(line_start, '\n', buf_end - line_start)`. */
    method FindNewline() returns (at: Option<nat>)
      requires lineStart <= bufEnd <= buf.Length
      ensures at == None <==> Newline(buf[lineStart..bufEnd]) == bufEnd - lineStart
      ensures at.Some? ==> lineStart <= at.value
      ensures at.Some? ==> at.value == lineStart + Newline(buf[lineStart..bufEnd]) < bufEnd
    {
      ghost var s := buf[lineStart..bufEnd];
      for i := lineStart to bufEnd
        invariant '\n' !in s[..i - lineStart]
      {
        if buf[i] == '\n' {
          NewlineAt(s, i - lineStart);
          return Some(i);
        }
        assert s[..i + 1 - lineStart] == s[..i - lineStart] + [buf[i]];
      }
      assert s[..|s|] == s;
      NewlineAt(s, |s|);
      return None;
    }

    /** The buffer from `lineStart` on, and the rest of the file, spell `p`. */
    ghost predicate Holds(p: string)
      reads this, buf
    {
      lineStart <= bufEnd <= buf.Length && buf.Length > 0 && p == buf[lineStart..bufEnd] + unread
    }

    /** The first step of `ReadLine`. */
    method Advance() returns (more: bool)
      requires Valid()
      modifies this`lineStart, this`bufEnd, this`unread, buf
      ensures more == !(lineEnd == None && old(Pending()) == "")
      ensures more ==> Holds(old(Pending()))
      ensures more && unread != [] ==> bufEnd == buf.Length || lineEnd.Some?
      ensures !more ==> unread == "" && bufEnd == old(bufEnd)
    {
      if lineStart >= bufEnd || lineEnd == None {
        // Buffer empty, refill.
        ghost var p := unread;
        var sizeRead := Read(0);
        if sizeRead == 0 {
          return false;
        }
        lineStart, bufEnd := 0, sizeRead;
        assert p == p[..sizeRead] + p[sizeRead..];
      } else {
        // Advance to next line in buffer.
        lineStart := lineEnd.value + 1;
      }
      return true;
    }

    /** Moves the rest of the data to the start of the buffer and fills the rest of it. */
    method Refill(ghost p: string)
      requires Holds(p)
      modifies this`lineStart, this`bufEnd, this`unread, buf
      ensures Holds(p) && lineStart == 0 && bufEnd == Min(buf.Length, |p|)
    {
      var sizeRest := bufEnd - lineStart;
      ghost var rest, file := buf[lineStart..bufEnd], unread;
      MoveToFront(lineStart, sizeRest);
      var read := Read(sizeRest);
      bufEnd, lineStart := sizeRest + read, 0;
      assert buf[..sizeRest + read] == buf[..sizeRest] + buf[sizeRest..sizeRest + read];
      assert file == file[..read] + file[read..];
    }

    /** Moves on to the next line. It is the first of what was pending if it fits the buffer; otherwise
        a buffer full of it, or what is left of the file, is skipped. */
    method ReadLine() returns (more: bool)
      requires Valid()
      modifies this, buf
      ensures Valid() && more == !(old(lineEnd) == None && old(Pending()) == "")
      ensures !more ==> Pending() == ""
      ensures more ==> IsNext(old(Pending()))
      ensures more ==> |Pending()| < |old(Pending())| || (Pending() == "" && old(lineEnd).Some? && lineEnd == None)
    {
      ghost var p := Pending();
      hide Newline, IsNext, Holds, Pending;
      more := Advance();
      if !more {
        return;
      }
      lineEnd := FindNewline();
      if lineEnd == None {
        Refill(p);
        lineEnd := FindNewline();
      }
      AtNext(p);
      Shrinks(p);
    }

    lemma Shrinks(p: string)
      requires Valid() && IsNext(p)
      ensures |Pending()| < |p| || (Pending() == p == "" && lineEnd == None)
    {}

    lemma AtNext(p: string)
      requires Valid() && Holds(p)
      requires lineEnd == None <==> Newline(buf[lineStart..bufEnd]) == bufEnd - lineStart
      requires lineEnd.Some? ==> lineEnd.value == lineStart + Newline(buf[lineStart..bufEnd])
      requires lineEnd == None ==> lineStart == 0 && bufEnd == Min(buf.Length, |p|)
      ensures IsNext(p)
    {
      SplitAtNewline(p, buf[lineStart..bufEnd], unread);
      hide Newline;
      if lineEnd.Some? {
        Slices(lineEnd.value);
      }
    }

    lemma Slices(at: nat)
      requires lineStart <= at < bufEnd <= buf.Length
      ensures buf[lineStart..at] == buf[lineStart..bufEnd][..at - lineStart]
      ensures buf[at + 1..bufEnd] == buf[lineStart..bufEnd][at + 1 - lineStart..]
    {}

    /** The reader is at the first line of `p`, or could not hold it. */
    ghost predicate IsNext(p: string)
      reads this, buf
      requires Valid()
    {
      var k, size := Newline(p), buf.Length;
      && Holds(p)
      && if k < |p| && k < size then
           lineEnd.Some? && buf[lineStart..lineEnd.value] == p[..k] && Pending() == p[k + 1..]
         else
           lineEnd == None && Pending() == p[Min(size, |p|)..] && lineStart == 0 && bufEnd == Min(size, |p|)
    }
  }

  lemma SplitAtNewline(p: string, part: string, rest: string)
    requires p == part + rest
    ensures var k := Newline(part);
      if k < |part| then Newline(p) == k && p[..k] == part[..k] && p[k + 1..] == part[k + 1..] + rest
      else Newline(p) >= |part| && p[|part|..] == rest
  {
    NewlineInPart(p, part, rest);
    hide Newline;
    if Newline(part) < |part| {
      SameStart(part, rest, Newline(part));
    } else {
      BehindPart(part, rest);
    }
  }

  lemma SameStart(s: string, u: string, k: nat)
    requires k < |s|
    ensures (s + u)[..k] == s[..k] && (s + u)[k + 1..] == s[k + 1..] + u
  {}

  lemma BehindPart(s: string, u: string)
    ensures (s + u)[|s|..] == u
  {}

  lemma NewlineInPart(p: string, part: string, rest: string)
    requires p == part + rest
    ensures Newline(part) < |part| ==> Newline(p) == Newline(part)
    ensures Newline(part) == |part| ==> Newline(p) >= |part|
  {
    var k, j := Newline(part), Newline(p);
    if k < |part| {
      assert p[..k] == part[..k];
      NewlineAt(p, k);
    } else {
      assert part[..k] == part;
      assert forall i :: 0 <= i < |part| ==> part[i] in part && p[i] == part[i];
    }
  }
}
