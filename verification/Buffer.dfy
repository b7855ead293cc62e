/**
 The Buffer class: a byte array with a reader and a writer index, refining a byte sequence edited at
 its two ends. Every method says what it does to the content and to the layout.
 */
module BufferClass {
  import opened Bytes
  import opened BufferLayout
  import opened Codec
  import opened Framing

  class Buffer {
    var buffer: array<byte>
    var readerIndex: nat
    var writerIndex: nat

    ghost predicate Valid()
      reads this
    {
      readerIndex <= writerIndex <= buffer.Length && CHEAP_PREPEND <= buffer.Length
    }

    /** The readable bytes. */
    ghost function Content(): seq<byte>
      requires Valid()
      reads this, buffer
    {
      buffer[readerIndex..writerIndex]
    }

    function Shape(): (l: Layout)
      requires Valid()
      reads this
      ensures l.Valid()
    {
      Layout(buffer.Length, readerIndex, writerIndex)
    }

    constructor (initialSize: nat := INITIAL_SIZE)
      ensures Valid() && fresh(buffer)
      ensures Content() == [] && Shape() == Fresh(initialSize)
      ensures readerIndex == 8 && writerIndex == 8 && buffer.Length == 8 + initialSize
    {
      buffer := new byte[CHEAP_PREPEND + initialSize](_ => 0);
      readerIndex := CHEAP_PREPEND;
      writerIndex := CHEAP_PREPEND;
    }

    function ReadableBytes(): (n: nat)
      requires Valid()
      reads this, buffer
      ensures n == |Content()|
    {
      writerIndex - readerIndex
    }

    function WritableBytes(): (n: nat)
      requires Valid()
      reads this
    {
      buffer.Length - writerIndex
    }

    method Swap(rhs: Buffer)
      requires Valid() && rhs.Valid()
      modifies this, rhs
      ensures Valid() && rhs.Valid()
      ensures Shape() == old(rhs.Shape()) && rhs.Shape() == old(Shape())
      ensures Content() == old(rhs.Content()) && rhs.Content() == old(Content())
    {
      buffer, rhs.buffer := rhs.buffer, buffer;
      readerIndex, rhs.readerIndex := rhs.readerIndex, readerIndex;
      writerIndex, rhs.writerIndex := rhs.writerIndex, writerIndex;
    }

    method RetrieveAll()
      requires Valid()
      modifies this
      ensures Valid() && buffer == old(buffer)
      ensures Content() == [] && Shape() == Layout(buffer.Length, CHEAP_PREPEND, CHEAP_PREPEND)
    {
      readerIndex := CHEAP_PREPEND;
      writerIndex := CHEAP_PREPEND;
    }

    method Retrieve(len: nat)
      requires Valid() && len <= ReadableBytes()
      modifies this
      ensures Valid() && buffer == old(buffer)
      ensures Content() == old(Content())[len..]
      ensures Shape() == old(Shape()).Retrieve(len)
    {
      if len < ReadableBytes() {
        readerIndex := readerIndex + len;
      } else {
        RetrieveAll();
      }
    }

    /** `end` is an offset from peek(). */
    method RetrieveUntil(end: nat)
      requires Valid() && end <= ReadableBytes()
      modifies this
      ensures Valid() && buffer == old(buffer)
      ensures Content() == old(Content())[end..]
      ensures Shape() == old(Shape()).Retrieve(end)
    {
      Retrieve(end);
    }

    method RetrieveAsString(len: nat) returns (result: seq<byte>)
      requires Valid() && len <= ReadableBytes()
      modifies this
      ensures Valid() && buffer == old(buffer)
      ensures result + Content() == old(Content()) && |result| == len
      ensures Shape() == old(Shape()).Retrieve(len)
    {
      result := buffer[readerIndex..readerIndex + len];
      assert Content() == result + Content()[len..];
      Retrieve(len);
    }

    method HasWritten(len: nat)
      requires Valid() && len <= WritableBytes()
      modifies this`writerIndex
      ensures Valid()
      ensures Content() == old(Content()) + buffer[old(writerIndex)..old(writerIndex) + len]
      ensures Shape() == old(Shape()).(writer := old(writerIndex) + len)
    {
      writerIndex := writerIndex + len;
    }

    method Unwrite(len: nat)
      requires Valid() && len <= ReadableBytes()
      modifies this`writerIndex
      ensures Valid()
      ensures Content() == old(Content())[..|old(Content())| - len]
      ensures Shape() == old(Shape()).(writer := old(writerIndex) - len)
    {
      writerIndex := writerIndex - len;
    }

    /** vector::resize to a larger size. */
    method Resize(size: nat)
      requires Valid() && size >= buffer.Length
      modifies this`buffer
      ensures Valid() && fresh(buffer) && buffer.Length == size
      ensures buffer[..old(buffer.Length)] == old(buffer[..]) && Content() == old(Content())
    {
      var bigger := new byte[size](_ => 0);
      forall k | 0 <= k < buffer.Length {
        bigger[k] := buffer[k];
      }
      buffer := bigger;
      assert buffer[..old(buffer.Length)] == old(buffer[..]);
      assert Content() == buffer[..old(buffer.Length)][readerIndex..writerIndex];
      assert old(Content()) == old(buffer[..])[readerIndex..writerIndex];
    }

    /** The forward std::copy over an overlapping range: the source is always ahead of the target. */
    method CopyDown(readable: nat)
      requires Valid() && CHEAP_PREPEND < readerIndex && readable == ReadableBytes()
      modifies buffer
      ensures buffer[CHEAP_PREPEND..CHEAP_PREPEND + readable] == old(Content())
    {
      ghost var content := Content();
      for i := 0 to readable
        invariant buffer[CHEAP_PREPEND..CHEAP_PREPEND + i] == content[..i]
        invariant forall k :: CHEAP_PREPEND + i <= k < buffer.Length ==> buffer[k] == old(buffer[k])
      {
        assert buffer[readerIndex + i] == content[i];
        buffer[CHEAP_PREPEND + i] := buffer[readerIndex + i];
        assert content[..i + 1] == content[..i] + [content[i]];
      }
    }

    /** Grow, or copy the readable bytes down over themselves; either way no content is lost. */
    method MakeSpace(len: nat)
      requires Valid() && WritableBytes() < len
      modifies this, buffer
      ensures Valid() && (buffer == old(buffer) || fresh(buffer))
      ensures Content() == old(Content()) && WritableBytes() >= len
      ensures Shape() == old(Shape()).MakeSpace(len)
    {
      if WritableBytes() + readerIndex < len + CHEAP_PREPEND {
        Resize(writerIndex + len);
      } else {
        assert CHEAP_PREPEND < readerIndex;
        var readable := ReadableBytes();
        CopyDown(readable);
        readerIndex := CHEAP_PREPEND;
        writerIndex := readerIndex + readable;
        assert readable == ReadableBytes();
      }
    }

    method EnsureWritableBytes(len: nat)
      requires Valid()
      modifies this, buffer
      ensures Valid() && (buffer == old(buffer) || fresh(buffer))
      ensures Content() == old(Content()) && WritableBytes() >= len
      ensures Shape() == old(Shape()).Ensure(len)
    {
      if WritableBytes() < len {
        MakeSpace(len);
      }
    }

    method Append(data: seq<byte>)
      requires Valid()
      modifies this, buffer
      ensures Valid() && (buffer == old(buffer) || fresh(buffer))
      ensures Content() == old(Content()) + data
      ensures Shape() == old(Shape()).Append(|data|)
    {
      EnsureWritableBytes(|data|);
      CopyIn(writerIndex, data);
      HasWritten(|data|);
    }

    /** std::copy of `data` to offset `at`. */
    method CopyIn(at: nat, data: seq<byte>)
      requires at + |data| <= buffer.Length
      modifies buffer
      ensures buffer[..at] == old(buffer[..at]) && buffer[at..at + |data|] == data
      ensures forall k :: 0 <= k < buffer.Length && !(at <= k < at + |data|) ==> buffer[k] == old(buffer[k])
    {
      for i := 0 to |data|
        invariant forall k :: 0 <= k < i ==> buffer[at + k] == data[k]
        invariant forall k :: 0 <= k < buffer.Length && !(at <= k < at + i) ==> buffer[k] == old(buffer[k])
      {
        buffer[at + i] := data[i];
      }
    }

    method Prepend(data: seq<byte>)
      requires Valid() && |data| <= readerIndex
      modifies this`readerIndex, buffer
      ensures Valid()
      ensures Content() == data + old(Content())
      ensures Shape() == old(Shape()).(reader := old(readerIndex) - |data|)
    {
      readerIndex := readerIndex - |data|;
      CopyIn(readerIndex, data);
      assert buffer[readerIndex + |data|..writerIndex] == old(Content());
      assert Content() == buffer[readerIndex..readerIndex + |data|] + buffer[readerIndex + |data|..writerIndex];
    }

    /** What readv does with the segment that is the writable tail. */
    method FillTail(data: seq<byte>)
      requires Valid() && |data| <= WritableBytes()
      modifies buffer
      ensures Content() == old(Content())
      ensures buffer[writerIndex..writerIndex + |data|] == data
    {
      CopyIn(writerIndex, data);
      assert Content() == buffer[..writerIndex][readerIndex..];
      assert old(Content()) == old(buffer[..writerIndex])[readerIndex..];
    }

    /** readv filled the tail and went on into extrabuf. */
    method Spill(head: seq<byte>, extrabuf: seq<byte>)
      requires Valid() && |head| == WritableBytes()
      modifies this, buffer
      ensures Valid() && (buffer == old(buffer) || fresh(buffer))
      ensures Content() == old(Content()) + head + extrabuf
      ensures Shape() == old(Shape()).(writer := old(buffer.Length)).Append(|extrabuf|)
    {
      FillTail(head);
      HasWritten(|head|);
      Append(extrabuf);
    }

    /** readv stayed within the tail. */
    method TakeTail(data: seq<byte>)
      requires Valid() && |data| <= WritableBytes()
      modifies this, buffer
      ensures Valid() && buffer == old(buffer)
      ensures Content() == old(Content()) + data
      ensures Shape() == old(Shape()).(writer := old(writerIndex) + |data|)
    {
      FillTail(data);
      HasWritten(|data|);
    }

    /**
     readFd: readv fills the writable tail, then a 64 KiB stack buffer if the tail is smaller than
     that. `stream` is what the descriptor has to give, `n` what readv returned and `errno` what it
     left behind.
     */
    method ReadFd(stream: seq<byte>, n: int, errno: int, savedErrno: int) returns (r: int, saved: int)
      requires Valid()
      requires n <= |stream| && n <= Shape().ReadLimit()
      modifies this, buffer
      ensures Valid() && (buffer == old(buffer) || fresh(buffer)) && r == n
      ensures saved == if n < 0 then errno else savedErrno
      ensures n < 0 ==> Content() == old(Content()) && Shape() == old(Shape())
      ensures n >= 0 ==> Content() == old(Content()) + stream[..n] && Shape() == old(Shape()).ReadFd(n)
    {
      var writable := WritableBytes();
      var iovcnt := if writable < EXTRA then 2 else 1;
      saved := savedErrno;
      if n < 0 {
        saved := errno;
      } else if n <= writable {
        TakeTail(stream[..n]);
      } else {
        // Only possible when the second segment was offered.
        assert iovcnt == 2 && n - writable <= EXTRA;
        SplitAt(stream[..n], writable);
        Spill(stream[..n][..writable], stream[..n][writable..]);
      }
      r := n;
    }

    // ---- typed access -----------------------------------------------------

    method AppendInt(host: Order, width: nat, x: int)
      requires Valid() && Width(width) && Fits(width, x)
      modifies this, buffer
      ensures Valid() && (buffer == old(buffer) || fresh(buffer))
      ensures Content() == old(Content()) + BigEndian(width, Unsigned(width, x))
      ensures FromBig(Content()[|old(Content())|..]) == if x >= 0 then x else x + Pow256(width)
      ensures Shape() == old(Shape()).Append(width)
    {
      EncodedValue(host, width, x);
      var be := HostToNetwork(host, width, Unsigned(width, x));
      NetworkOrder(host, width, Unsigned(width, x));
      Append(Store(host, width, be));
    }

    method PeekInt(host: Order, width: nat) returns (x: int)
      requires Valid() && Width(width) && width <= ReadableBytes()
      ensures Fits(width, x) && Content()[..width] == BigEndian(width, Unsigned(width, x))
      ensures var u, p := FromBig(Content()[..width]), Pow256(width); x == if 2 * u < p then u else u - p
    {
      DecodedValue(host, Content()[..width]);
      var be := Load(host, buffer[readerIndex..readerIndex + width]);
      x := Signed(width, NetworkToHost(host, width, be));
      assert buffer[readerIndex..readerIndex + width] == Content()[..width];
      assert Content()[..width][..width] == Content()[..width];
      DecodeThenEncode(host, Content()[..width]);
      CodecRoundTrip(host, width, x, []);
    }

    method ReadInt(host: Order, width: nat) returns (x: int)
      requires Valid() && Width(width) && width <= ReadableBytes()
      modifies this
      ensures Valid() && buffer == old(buffer)
      ensures Fits(width, x) && BigEndian(width, Unsigned(width, x)) + Content() == old(Content())
      ensures var u, p := FromBig(old(Content())[..width]), Pow256(width); x == if 2 * u < p then u else u - p
      ensures Shape() == old(Shape()).Retrieve(width)
    {
      x := PeekInt(host, width);
      Retrieve(width);
    }

    method PrependInt(host: Order, width: nat, x: int)
      requires Valid() && Width(width) && Fits(width, x) && width <= readerIndex
      modifies this`readerIndex, buffer
      ensures Valid()
      ensures Content() == BigEndian(width, Unsigned(width, x)) + old(Content())
      ensures FromBig(Content()[..width]) == if x >= 0 then x else x + Pow256(width)
      ensures Shape() == old(Shape()).(reader := old(readerIndex) - width)
    {
      EncodedValue(host, width, x);
      var be := HostToNetwork(host, width, Unsigned(width, x));
      NetworkOrder(host, width, Unsigned(width, x));
      Prepend(Store(host, width, be));
    }

    // ---- searching --------------------------------------------------------

    /** findCRLF: the offset from peek() of the first CRLF at or after `start`, or -1. */
    method FindCRLF(start: nat := 0) returns (i: int)
      requires Valid() && start <= ReadableBytes()
      ensures i >= 0 ==> IsFirst(Content(), start, i)
      ensures i >= 0 ==> i + 1 < |Content()| && Content()[i] == 13 && Content()[i + 1] == 10
      ensures i < 0 ==> forall k :: start <= k ==> !CRLFAt(Content(), k)
      ensures start == 0 ==> i == IndexOf(Content())
    {
      var n := ReadableBytes();
      i := start;
      while i + 1 < n
        invariant start <= i <= n
        invariant forall k :: start <= k < i ==> !CRLFAt(Content(), k)
      {
        if buffer[readerIndex + i] == 13 && buffer[readerIndex + i + 1] == 10 {
          assert CRLFAt(Content(), i);
          if start == 0 && IndexOf(Content()) >= 0 {
            FirstIsUnique(Content(), i, IndexOf(Content()));
          }
          return;
        }
        i := i + 1;
      }
      i := -1;
    }

    /** findEOL: the offset from peek() of the first line feed at or after `start`, or -1. */
    method FindEOL(start: nat := 0) returns (i: int)
      requires Valid() && start <= ReadableBytes()
      ensures i >= 0 ==> start <= i < |Content()| && Content()[i] == 10 && 10 !in Content()[start..i]
      ensures i < 0 ==> 10 !in Content()[start..]
    {
      var n := ReadableBytes();
      i := start;
      while i < n
        invariant start <= i <= n
        invariant 10 !in Content()[start..i]
      {
        if buffer[readerIndex + i] == 10 {
          return;
        }
        assert Content()[start..i + 1] == Content()[start..i] + [Content()[i]];
        i := i + 1;
      }
      assert Content()[start..n] == Content()[start..];
      i := -1;
    }
  }

  lemma SplitAt(s: seq<byte>, k: nat)
    requires k <= |s|
    ensures s[..k] + s[k..] == s
    ensures forall c: seq<byte> :: c + s[..k] + s[k..] == c + s
  {
    forall c: seq<byte> ensures c + s[..k] + s[k..] == c + s {
      assert c + s[..k] + s[k..] == c + (s[..k] + s[k..]);
    }
  }

  /** A value prepended is read back, and the content is as before. */
  method PrependThenRead(b: Buffer, host: Order, width: nat, x: int) returns (y: int)
    requires b.Valid() && Width(width) && Fits(width, x) && width <= b.readerIndex
    modifies b, b.buffer
    ensures b.Valid() && y == x && b.Content() == old(b.Content())
  {
    ghost var before := b.Content();
    b.PrependInt(host, width, x);
    y := b.ReadInt(host, width);
    var n := width;
    assert BigEndian(n, Unsigned(n, y)) == (BigEndian(n, Unsigned(n, y)) + b.Content())[..n];
    assert BigEndian(n, Unsigned(n, x)) == (BigEndian(n, Unsigned(n, x)) + before)[..n];
    BigRoundTrip(n, Unsigned(n, x));
    BigRoundTrip(n, Unsigned(n, y));
    assert b.Content() == (BigEndian(n, Unsigned(n, y)) + b.Content())[n..];
    assert before == (BigEndian(n, Unsigned(n, x)) + before)[n..];
  }
}
