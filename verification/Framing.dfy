/**
 Lines in a byte stream: what repeatedly taking the first CRLF and retrieving past it yields.
 */
module Framing {
  import opened Bytes

  const CRLF: seq<byte> := [13, 10]

  predicate CRLFAt(s: seq<byte>, i: int) {
    0 <= i && i + 1 < |s| && s[i] == 13 && s[i + 1] == 10
  }

  ghost predicate NoCRLF(s: seq<byte>) {
    forall i :: !CRLFAt(s, i)
  }

  /** What findCRLF looks for: the first occurrence at or after `from`. */
  predicate IsFirst(s: seq<byte>, from: nat, i: int) {
    from <= i && CRLFAt(s, i) && forall k :: from <= k < i ==> !CRLFAt(s, k)
  }

  /** The first CRLF, or -1. */
  function IndexOf(s: seq<byte>): (i: int)
    ensures -1 <= i
    ensures i >= 0 ==> IsFirst(s, 0, i)
    ensures i < 0 <==> NoCRLF(s)
  {
    if |s| < 2 then -1
    else if s[0] == 13 && s[1] == 10 then 0
    else
      var r := IndexOf(s[1..]);
      assert forall k :: k >= 1 ==> CRLFAt(s, k) == CRLFAt(s[1..], k - 1);
      if r < 0 then -1 else r + 1
  }

  datatype Split = Split(lines: seq<seq<byte>>, rest: seq<byte>)

  /** All complete lines, and the unfinished one. */
  function Lines(s: seq<byte>): Split
    decreases |s|
  {
    var i := IndexOf(s);
    if i < 0 then Split([], s)
    else
      var more := Lines(s[i + 2..]);
      Split([s[..i]] + more.lines, more.rest)
  }

  function Join(lines: seq<seq<byte>>, rest: seq<byte>): seq<byte> {
    if lines == [] then rest else lines[0] + CRLF + Join(lines[1..], rest)
  }

  lemma FirstIsUnique(s: seq<byte>, i: int, j: int)
    requires IsFirst(s, 0, i) && IsFirst(s, 0, j)
    ensures i == j
  {
  }

  lemma IndexOfBounds(s: seq<byte>)
    requires IndexOf(s) >= 0
    ensures var i := IndexOf(s);
            && i + 2 <= |s| && s == s[..i] + CRLF + s[i + 2..]
            && forall k :: 0 <= k < i ==> !CRLFAt(s, k)
  {
    CutAt(s, IndexOf(s));
  }

  /** A stream cut around a line end. */
  lemma CutAt(s: seq<byte>, i: int)
    requires CRLFAt(s, i)
    ensures i + 2 <= |s| && s == s[..i] + CRLF + s[i + 2..]
  {
    assert s == s[..i] + s[i..];
    assert s[i..] == s[i..i + 2] + s[i + 2..];
    assert s[i..i + 2] == CRLF;
  }

  /** Splitting loses nothing, and what it yields contains no further line end. */
  lemma {:induction false} SplitThenJoin(s: seq<byte>)
    ensures Join(Lines(s).lines, Lines(s).rest) == s
    ensures NoCRLF(Lines(s).rest) && forall k :: 0 <= k < |Lines(s).lines| ==> NoCRLF(Lines(s).lines[k])
    decreases |s|
  {
    hide IsFirst, IndexOf;
    var i := IndexOf(s);
    if i >= 0 {
      IndexOfBounds(s);
      SplitThenJoin(s[i + 2..]);
      forall k ensures !CRLFAt(s[..i], k) {
        assert CRLFAt(s[..i], k) ==> CRLFAt(s, k);
      }
    }
  }

  /** Conversely, lines without line ends are recovered from their joined form. */
  lemma {:induction false} JoinThenSplit(lines: seq<seq<byte>>, rest: seq<byte>)
    requires NoCRLF(rest) && forall k :: 0 <= k < |lines| ==> NoCRLF(lines[k])
    ensures Lines(Join(lines, rest)) == Split(lines, rest)
  {
    var s := Join(lines, rest);
    if lines == [] {
      assert s == rest;
    } else {
      var n, tail := |lines[0]|, Join(lines[1..], rest);
      JoinThenSplit(lines[1..], rest);
      assert s == lines[0] + CRLF + tail;
      forall k | 0 <= k < n ensures !CRLFAt(s, k) {
        assert !CRLFAt(lines[0], k);
      }
      assert CRLFAt(s, n);
      FirstIsUnique(s, n, IndexOf(s));
      assert s[..n] == lines[0] && s[n + 2..] == tail;
      assert [lines[0]] + lines[1..] == lines;
    }
  }

  /** More bytes never change a line end already found. */
  lemma IndexOfPrefix(a: seq<byte>, b: seq<byte>)
    requires IndexOf(a) >= 0
    ensures IndexOf(a + b) == IndexOf(a)
  {
    var i := IndexOf(a);
    forall k | 0 <= k < i ensures !CRLFAt(a + b, k) {
      assert !CRLFAt(a, k);
    }
    assert CRLFAt(a + b, i);
    FirstIsUnique(a + b, i, IndexOf(a + b));
  }

  lemma LinesStep(s: seq<byte>, i: nat, tail: seq<byte>)
    requires IndexOf(s) == i && s[i + 2..] == tail
    ensures Lines(s) == Split([s[..i]] + Lines(tail).lines, Lines(tail).rest)
  {
  }

  /** Taking the complete lines of `a` first, then feeding `b`, gives the lines of `a + b`. */
  lemma {:induction false} FeedTwo(a: seq<byte>, b: seq<byte>)
    ensures var x := Lines(a); var y := Lines(x.rest + b);
            Lines(a + b) == Split(x.lines + y.lines, y.rest)
    decreases |a|, 1
  {
    var i := IndexOf(a);
    if i < 0 {
      hide NoCRLF, IsFirst, IndexOf;
      var y := Lines(a + b);
      assert [] + y.lines == y.lines;
    } else {
      FeedPast(a, b, i);
    }
  }

  lemma {:induction false} FeedPast(a: seq<byte>, b: seq<byte>, i: nat)
    requires IndexOf(a) == i
    ensures var x := Lines(a); var y := Lines(x.rest + b);
            Lines(a + b) == Split(x.lines + y.lines, y.rest)
    decreases |a|, 0
  {
    hide Lines, NoCRLF, IsFirst, IndexOf;
    IndexOfBounds(a);
    IndexOfPrefix(a, b);
    var tail := a[i + 2..];
    FeedTwo(tail, b);
    assert (a + b)[i + 2..] == tail + b;
    assert (a + b)[..i] == a[..i];
    LinesStep(a, i, tail);
    LinesStep(a + b, i, tail + b);
    var u, head := Lines(tail), [a[..i]];
    var y := Lines(u.rest + b);
    assert head + (u.lines + y.lines) == head + u.lines + y.lines;
  }

  function Concat(chunks: seq<seq<byte>>): seq<byte> {
    if chunks == [] then [] else chunks[0] + Concat(chunks[1..])
  }

  /** A reader that takes every complete line after each chunk arrives. */
  function FeedAll(pending: seq<byte>, chunks: seq<seq<byte>>): Split
    decreases |chunks|
  {
    if chunks == [] then Split([], pending)
    else
      var now := Lines(pending + chunks[0]);
      var later := FeedAll(now.rest, chunks[1..]);
      Split(now.lines + later.lines, later.rest)
  }

  /** The lines do not depend on how the stream was cut into chunks, even between a CR and its LF. */
  lemma {:induction false} ChunkingIrrelevant(pending: seq<byte>, chunks: seq<seq<byte>>)
    requires NoCRLF(pending)
    ensures FeedAll(pending, chunks) == Lines(pending + Concat(chunks))
    decreases |chunks|
  {
    if chunks == [] {
      assert pending + [] == pending;
    } else {
      var a, b := pending + chunks[0], Concat(chunks[1..]);
      assert pending + Concat(chunks) == a + b;
      SplitThenJoin(a);
      ChunkingIrrelevant(Lines(a).rest, chunks[1..]);
      FeedTwo(a, b);
    }
  }
}
