/**
 Programs that use a Buffer the way its methods are meant to be combined: reading lines as bytes come
 in, and writing typed values to be read back.
 */
module BufferClients {
  import opened Bytes
  import opened Codec
  import opened Framing
  import opened BufferClass

  // ---- lines --------------------------------------------------------------

  /** The line that ends at offset `i`, and past its line end. */
  method TakeLine(b: Buffer, i: nat) returns (line: seq<byte>)
    requires b.Valid() && i + 2 <= b.ReadableBytes()
    modifies b
    ensures b.Valid() && b.buffer == old(b.buffer)
    ensures line == old(b.Content())[..i] && b.Content() == old(b.Content())[i + 2..]
  {
    ghost var s := b.Content();
    line := b.RetrieveAsString(i);
    assert line == s[..i] && b.Content() == s[i..];
    b.Retrieve(2);
    assert s[i..][2..] == s[i + 2..];
  }

  /** Take every complete line: find the first CRLF, retrieve up to it, retrieve past it. */
  method TakeLines(b: Buffer) returns (lines: seq<seq<byte>>)
    requires b.Valid()
    modifies b
    ensures b.Valid() && b.buffer == old(b.buffer)
    ensures Split(lines, b.Content()) == Lines(old(b.Content()))
  {
    hide IsFirst, IndexOf, Lines, CRLFAt;
    lines := [];
    var i := b.FindCRLF();
    while i >= 0
      invariant b.Valid() && b.buffer == old(b.buffer) && i == IndexOf(b.Content())
      invariant Lines(old(b.Content())) == Ahead(lines, Lines(b.Content()))
      decreases |b.Content()|
    {
      TakeStep(lines, b.Content());
      var line := TakeLine(b, i);
      lines := lines + [line];
      i := b.FindCRLF();
    }
    NoMoreLines(b.Content());
  }

  /** Lines already taken, put back in front. */
  function Ahead(lines: seq<seq<byte>>, more: Split): Split {
    Split(lines + more.lines, more.rest)
  }

  lemma TakeStep(lines: seq<seq<byte>>, s: seq<byte>)
    requires IndexOf(s) >= 0
    ensures var i := IndexOf(s);
            i + 2 <= |s| && Ahead(lines, Lines(s)) == Ahead(lines + [s[..i]], Lines(s[i + 2..]))
  {
    hide IsFirst, CRLFAt, IndexOf, Lines;
    var i := IndexOf(s);
    IndexOfBounds(s);
    LinesStep(s, i, s[i + 2..]);
    var more := Lines(s[i + 2..]).lines;
    assert lines + ([s[..i]] + more) == lines + [s[..i]] + more;
  }

  lemma NoMoreLines(s: seq<byte>)
    requires IndexOf(s) < 0
    ensures Lines(s) == Split([], s)
  {
  }

  lemma {:induction false} ConcatSnoc(chunks: seq<seq<byte>>, chunk: seq<byte>)
    ensures Concat(chunks + [chunk]) == Concat(chunks) + chunk
  {
    if chunks == [] {
      assert Concat([chunk]) == chunk + Concat([]) == chunk;
      assert [] + [chunk] == [chunk];
    } else {
      assert (chunks + [chunk])[1..] == chunks[1..] + [chunk];
      ConcatSnoc(chunks[1..], chunk);
      assert chunks[0] + (Concat(chunks[1..]) + chunk) == chunks[0] + Concat(chunks[1..]) + chunk;
    }
  }

  /** However the stream is cut into chunks, the lines are those of the whole. */
  method ReadLines(b: Buffer, chunks: seq<seq<byte>>) returns (lines: seq<seq<byte>>)
    requires b.Valid()
    modifies b, b.buffer
    ensures b.Valid()
    ensures Split(lines, b.Content()) == Lines(old(b.Content()) + Concat(chunks))
  {
    hide Lines, Concat;
    ghost var before := b.Content();
    lines := TakeLines(b);
    EmptyConcat(before);
    assert chunks[..0] == [];
    for k := 0 to |chunks|
      invariant b.Valid() && (b.buffer == old(b.buffer) || fresh(b.buffer))
      invariant Split(lines, b.Content()) == Lines(before + Concat(chunks[..k]))
    {
      ghost var sofar := before + Concat(chunks[..k]);
      FeedTwo(sofar, chunks[k]);
      ConcatSnoc(chunks[..k], chunks[k]);
      assert chunks[..k + 1] == chunks[..k] + [chunks[k]];
      assert before + (Concat(chunks[..k]) + chunks[k]) == sofar + chunks[k];
      b.Append(chunks[k]);
      var more := TakeLines(b);
      lines := lines + more;
    }
    assert chunks[..|chunks|] == chunks;
  }

  lemma EmptyConcat(before: seq<byte>)
    ensures before + Concat([]) == before
  {
  }

  // ---- typed values -------------------------------------------------------

  lemma {:induction false} EncodeAllSnoc(host: Order, items: seq<Item>, item: Item)
    requires Typed(items) && Typed([item])
    ensures Typed(items + [item]) && Width(item.width) && Fits(item.width, item.value)
    ensures EncodeAll(host, items + [item]) == EncodeAll(host, items) + Encode(host, item.width, item.value)
  {
    assert [item][0] == item;
    if items == [] {
      assert [] + [item] == [item] && [item][1..] == [];
      assert EncodeAll(host, [item]) == Encode(host, item.width, item.value) + EncodeAll(host, []);
    } else {
      assert (items + [item])[1..] == items[1..] + [item];
      EncodeAllSnoc(host, items[1..], item);
      var a, b, c := Encode(host, items[0].width, items[0].value), EncodeAll(host, items[1..]),
        Encode(host, item.width, item.value);
      assert a + (b + c) == a + b + c;
    }
  }

  method AppendItems(b: Buffer, host: Order, items: seq<Item>)
    requires b.Valid() && Typed(items)
    modifies b, b.buffer
    ensures b.Valid() && (b.buffer == old(b.buffer) || fresh(b.buffer))
    ensures b.Content() == old(b.Content()) + EncodeAll(host, items)
  {
    hide EncodeAll, BigEndian, FromBig, Pow256, Unsigned;
    ghost var before := b.Content();
    NothingEncoded(host, before);
    assert items[..0] == [];
    for k := 0 to |items|
      invariant b.Valid() && (b.buffer == old(b.buffer) || fresh(b.buffer))
      invariant b.Content() == before + EncodeAll(host, items[..k])
    {
      var item := items[k];
      assert items[..k + 1] == items[..k] + [item];
      AppendStep(host, before, items[..k], item);
      b.AppendInt(host, item.width, item.value);
    }
    assert items[..|items|] == items;
  }

  lemma AppendStep(host: Order, before: seq<byte>, items: seq<Item>, item: Item)
    requires Typed(items) && Typed([item])
    ensures Typed(items + [item]) && Width(item.width) && Fits(item.width, item.value)
    ensures before + EncodeAll(host, items) + BigEndian(item.width, Unsigned(item.width, item.value))
         == before + EncodeAll(host, items + [item])
  {
    hide EncodeAll, Encode, BigEndian;
    EncodeAllSnoc(host, items, item);
    CodecRoundTrip(host, item.width, item.value, []);
    var e, x := EncodeAll(host, items), Encode(host, item.width, item.value);
    assert before + e + x == before + (e + x);
  }

  lemma NothingEncoded(host: Order, before: seq<byte>)
    ensures before + EncodeAll(host, []) == before
  {
  }

  function Sum(widths: seq<nat>): nat {
    if widths == [] then 0 else widths[0] + Sum(widths[1..])
  }

  method ReadItems(b: Buffer, host: Order, widths: seq<nat>) returns (values: seq<int>)
    requires b.Valid() && Sum(widths) <= b.ReadableBytes()
    requires forall k :: 0 <= k < |widths| ==> Width(widths[k])
    modifies b
    ensures b.Valid() && b.buffer == old(b.buffer)
    ensures DecodeAll(host, widths, old(b.Content())) == Read(values, b.Content())
    decreases |widths|
  {
    hide Encode, Decode, FromBig, Pow256, BigEndian, Unsigned;
    if widths == [] {
      return [];
    }
    ghost var before := b.Content();
    var x := b.ReadInt(host, widths[0]);
    CodecRoundTrip(host, widths[0], x, []);
    ReadOne(host, widths[0], x, widths[1..], b.Content());
    assert |before| == widths[0] + |b.Content()|;
    assert [widths[0]] + widths[1..] == widths;
    var more := ReadItems(b, host, widths[1..]);
    values := [x] + more;
  }

  lemma {:induction false} EncodedSize(host: Order, items: seq<Item>)
    requires Typed(items)
    ensures |EncodeAll(host, items)| == Sum(Widths(items))
  {
    if items != [] {
      assert Widths(items)[1..] == Widths(items[1..]);
      EncodedSize(host, items[1..]);
    }
  }

  /** Typed values written behind any content come back as they were, once that content is retrieved. */
  method AppendThenRead(b: Buffer, host: Order, items: seq<Item>) returns (values: seq<int>)
    requires b.Valid() && Typed(items)
    modifies b, b.buffer
    ensures b.Valid() && values == Values(items) && b.Content() == []
  {
    hide EncodeAll, DecodeAll;
    var before := b.ReadableBytes();
    AppendItems(b, host, items);
    b.Retrieve(before);
    EncodedSize(host, items);
    assert b.Content() == EncodeAll(host, items) == EncodeAll(host, items) + [];
    TypedRoundTrip(host, items, []);
    values := ReadItems(b, host, Widths(items));
  }
}
