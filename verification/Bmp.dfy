/**
 The pixel loops of the BMP tool, with a 4-byte DWORD on a little-endian host.
 */
module Bmp {
  import opened Bytes
  import opened Codec

  const FILE_HEAD_SIZE := 14
  const INFO_HEAD_SIZE := 40
  const COLOR_TABLE_SIZE := 1024
  const PIXELS_AT := 1078

  function Word(x: nat): seq<byte> {
    LittleEndian(2, x)
  }

  function Dword(x: nat): seq<byte> {
    LittleEndian(4, x)
  }

  /** The packed BITMAPFILEHEADER that WriteFileHeader fills in. */
  function FileHeader(width: nat, height: nat): (s: seq<byte>)
    ensures |s| == FILE_HEAD_SIZE
  {
    Word(0x4D42) + Dword(PIXELS_AT + width * height) + Word(0) + Word(0) + Dword(PIXELS_AT)
  }

  /** The packed BITMAPINFOHEADER that WriteInfoHeader fills in. */
  function InfoHeader(width: nat, height: nat): (s: seq<byte>)
    ensures |s| == INFO_HEAD_SIZE
  {
    Dword(INFO_HEAD_SIZE) + Dword(width) + Dword(height) + Word(1) + Word(8)
    + Dword(0) + Dword(0) + Dword(0) + Dword(0) + Dword(0) + Dword(0)
  }

  /** The first n entries of the grey palette: blue, green, red, reserved. */
  function Palette(n: nat): (s: seq<byte>)
    requires n <= 256
    ensures |s| == 4 * n
  {
    if n == 0 then [] else Palette(n - 1) + [n - 1, n - 1, n - 1, 0]
  }

  function Prologue(width: nat, height: nat): (s: seq<byte>)
    ensures |s| == PIXELS_AT
  {
    FileHeader(width, height) + InfoHeader(width, height) + Palette(256)
  }

  /** The file header's fields, read back as a little-endian host reads them; a DWORD keeps 32 bits. */
  lemma FileHeaderFields(width: nat, height: nat)
    ensures var f := FileHeader(width, height);
            && f[0..2] == [0x42, 0x4D]
            && FromLittle(f[2..6]) == (1078 + width * height) % 0x1_0000_0000
            && f[6..10] == [0, 0, 0, 0]
            && FromLittle(f[10..14]) == 1078
  {
    var size := PIXELS_AT + width * height;
    var f := FileHeader(width, height);
    Ranges(0);
    assert f[0..2] == Word(0x4D42) && f[2..6] == Dword(size);
    assert f[6..10] == Word(0) + Word(0) && f[10..14] == Dword(PIXELS_AT);
    LittleTruncates(4, size);
    LittleTruncates(4, PIXELS_AT);
  }

  /** The info header's fields likewise; six of them are zero. */
  lemma InfoHeaderFields(width: nat, height: nat)
    ensures var f := InfoHeader(width, height);
            && FromLittle(f[0..4]) == 40
            && FromLittle(f[4..8]) == width % 0x1_0000_0000 && FromLittle(f[8..12]) == height % 0x1_0000_0000
            && FromLittle(f[12..14]) == 1 && FromLittle(f[14..16]) == 8
            && forall k :: 16 <= k < 40 ==> f[k] == 0
  {
    var f := InfoHeader(width, height);
    Ranges(0);
    assert f[0..4] == Dword(40) && f[4..8] == Dword(width) && f[8..12] == Dword(height);
    assert f[12..14] == Word(1) && f[14..16] == Word(8);
    LittleTruncates(4, 40);
    LittleTruncates(4, width);
    LittleTruncates(4, height);
    LittleTruncates(2, 1);
    LittleTruncates(2, 8);
    assert Dword(0) == [0, 0, 0, 0];
  }

  /** Entry i of the palette is grey level i. */
  lemma {:induction false} PaletteAt(n: nat, i: nat)
    requires i < n <= 256
    ensures Palette(n)[4 * i..4 * i + 4] == [i, i, i, 0]
  {
    if i < n - 1 {
      PaletteAt(n - 1, i);
      assert Palette(n)[4 * i..4 * i + 4] == Palette(n - 1)[4 * i..4 * i + 4];
    }
  }

  /** Where everything in front of the pixels is: sizes and dimensions at their offsets, then 256 grey levels. */
  lemma PrologueFields(w: nat, h: nat, i: nat)
    requires i < 256
    ensures var f := Prologue(w, h);
            && f[0..2] == [0x42, 0x4D]
            && FromLittle(f[2..6]) == (1078 + w * h) % 0x1_0000_0000 && FromLittle(f[10..14]) == 1078
            && FromLittle(f[14..18]) == 40
            && FromLittle(f[18..22]) == w % 0x1_0000_0000 && FromLittle(f[22..26]) == h % 0x1_0000_0000
            && FromLittle(f[26..28]) == 1 && FromLittle(f[28..30]) == 8
            && f[6..10] == [0, 0, 0, 0] && (forall k :: 30 <= k < 54 ==> f[k] == 0)
            && f[54 + 4 * i..58 + 4 * i] == [i, i, i, 0]
  {
    hide FileHeader, InfoHeader, Palette, FromLittle;
    FileHeaderFields(w, h);
    InfoHeaderFields(w, h);
    PaletteAt(256, i);
    var a, b, c, f := FileHeader(w, h), InfoHeader(w, h), Palette(256), Prologue(w, h);
    assert f[0..2] == a[0..2] && f[2..6] == a[2..6] && f[6..10] == a[6..10] && f[10..14] == a[10..14];
    assert f[14..18] == b[0..4] && f[18..22] == b[4..8] && f[22..26] == b[8..12];
    assert f[26..28] == b[12..14] && f[28..30] == b[14..16] && forall k :: 30 <= k < 54 ==> f[k] == b[k - 14];
    assert f[54 + 4 * i..58 + 4 * i] == c[4 * i..4 * i + 4];
  }

  lemma MulMono(a: nat, b: nat, w: nat)
    requires a <= b
    ensures 0 <= a * w <= b * w
  {
  }

  lemma RowFits(i: nat, w: nat, h: nat)
    requires i < h
    ensures 0 <= i * w && (i + 1) * w == i * w + w && (i + 1) * w <= h * w
  {
  }

  /** Rows i .. h-1 of an image of `w` samples a row, last row first. */
  function FlipFrom(p: seq<byte>, w: nat, i: nat, h: nat): (s: seq<byte>)
    requires i <= h && h * w <= |p|
    ensures |s| == (h - i) * w
    decreases h - i
  {
    if i == h then []
    else
      RowFits(i, w, h);
      assert (h - i) * w == (h - (i + 1)) * w + w;
      FlipFrom(p, w, i + 1, h) + p[i * w..(i + 1) * w]
  }

  /** The image upside down. */
  function Flip(p: seq<byte>, w: nat, h: nat): (s: seq<byte>)
    requires h * w <= |p|
    ensures |s| == h * w
  {
    FlipFrom(p, w, 0, h)
  }

  /** The whole file. */
  function File(pixels: seq<byte>, w: nat, h: nat): seq<byte>
    requires h * w <= |pixels|
  {
    Prologue(w, h) + Flip(pixels, w, h)
  }

  lemma {:induction false} FlipFromAt(p: seq<byte>, w: nat, i: nat, h: nat, r: nat, j: nat)
    requires i <= h && h * w <= |p| && r < h - i && j < w
    ensures 0 <= r * w + j < (h - i) * w && 0 <= (h - 1 - r) * w + j < |p|
    ensures FlipFrom(p, w, i, h)[r * w + j] == p[(h - 1 - r) * w + j]
    decreases h - i
  {
    RowFits(i, w, h);
    RowFits(r, w, h - i);
    RowFits(h - 1 - r, w, h);
    assert (h - i) * w == (h - (i + 1)) * w + w;
    if r < h - (i + 1) {
      FlipFromAt(p, w, i + 1, h, r, j);
    } else {
      assert r == h - 1 - i && r * w == (h - (i + 1)) * w;
      assert FlipFrom(p, w, i, h)[r * w + j] == p[i * w..(i + 1) * w][j];
    }
  }

  /** Row r of the file is row h-1-r of the image. */
  lemma FlipAt(p: seq<byte>, w: nat, h: nat, r: nat, j: nat)
    requires h * w <= |p| && r < h && j < w
    ensures 0 <= r * w + j < h * w && 0 <= (h - 1 - r) * w + j < h * w
    ensures Flip(p, w, h)[r * w + j] == p[(h - 1 - r) * w + j]
  {
    FlipFromAt(p, w, 0, h, r, j);
    RowFits(r, w, h);
    RowFits(h - 1 - r, w, h);
  }

  lemma RowOf(k: nat, w: nat, h: nat) returns (r: nat, j: nat)
    requires k < h * w
    ensures w > 0 && r < h && j < w && k == r * w + j
  {
    r, j := k / w, k % w;
    assert k == r * w + j;
    if r >= h {
      MulMono(h, r, w);
    }
  }

  /** Flipping twice restores the image. */
  lemma FlipInvolution(p: seq<byte>, w: nat, h: nat)
    requires |p| == h * w
    ensures Flip(Flip(p, w, h), w, h) == p
  {
    var q := Flip(p, w, h);
    forall k | 0 <= k < |p| ensures Flip(q, w, h)[k] == p[k] {
      var r, j := RowOf(k, w, h);
      FlipAt(q, w, h, r, j);
      FlipAt(p, w, h, h - 1 - r, j);
    }
  }

  // ---- writing ------------------------------------------------------------

  method CopySeq(s: seq<byte>, dst: array<byte>, at: nat)
    requires at + |s| <= dst.Length
    modifies dst
    ensures dst[..at] == old(dst[..at]) && dst[at..at + |s|] == s && dst[at + |s|..] == old(dst[at + |s|..])
  {
    for k := 0 to |s|
      invariant forall x :: 0 <= x < k ==> dst[at + x] == s[x]
      invariant forall x :: 0 <= x < dst.Length && !(at <= x < at + k) ==> dst[x] == old(dst[x])
    {
      dst[at + k] := s[k];
    }
  }

  /** The inner loop: one row of samples. */
  method CopyRow(src: array<byte>, line: nat, w: nat, dst: array<byte>, at: nat)
    requires src != dst && line + w <= src.Length && at + w <= dst.Length
    modifies dst
    ensures dst[..at + w] == old(dst[..at]) + src[line..line + w]
    ensures dst[at + w..] == old(dst[at + w..])
  {
    for j := 0 to w
      invariant dst[..at + j] == old(dst[..at]) + src[line..line + j]
      invariant forall x :: at + j <= x < dst.Length ==> dst[x] == old(dst[x])
    {
      dst[at + j] := src[line + j];
    }
  }

  /** The file with rows i .. h-1 written. */
  ghost function Written(p: seq<byte>, w: nat, i: nat, h: nat): (s: seq<byte>)
    requires i <= h && h * w <= |p|
    ensures |s| == PIXELS_AT + (h - i) * w
  {
    Prologue(w, h) + FlipFrom(p, w, i, h)
  }

  lemma WrittenStep(p: seq<byte>, w: nat, i: nat, h: nat)
    requires i < h && h * w <= |p|
    ensures 0 <= i * w && (i + 1) * w == i * w + w && (i + 1) * w <= h * w
    ensures PIXELS_AT + (h - i) * w == PIXELS_AT + (h - (i + 1)) * w + w <= PIXELS_AT + h * w
    ensures Written(p, w, i, h) == Written(p, w, i + 1, h) + p[i * w..i * w + w]
  {
    hide Prologue;
    RowFits(i, w, h);
    RowFits(h - i - 1, w, h);
    assert h - (i + 1) == h - i - 1;
  }

  lemma WrittenEnds(p: seq<byte>, w: nat, h: nat)
    requires h * w <= |p|
    ensures Written(p, w, h, h) == Prologue(w, h) && Written(p, w, 0, h) == File(p, w, h)
  {
  }

  /** Headers, palette and the bottom-up row loop shared by RawToBmp and encode_bmp. */
  method WriteBmp(src: array<byte>, dst: array<byte>, width: nat, height: nat)
    requires src != dst && height * width <= src.Length && PIXELS_AT + height * width <= dst.Length
    modifies dst
    ensures dst[..PIXELS_AT + height * width] == File(src[..], width, height)
    ensures forall x :: PIXELS_AT + height * width <= x < dst.Length ==> dst[x] == old(dst[x])
  {
    hide Prologue, Written, File;
    ghost var p, size := src[..], PIXELS_AT + height * width;
    WrittenEnds(p, width, height);
    CopySeq(Prologue(width, height), dst, 0);
    var at := PIXELS_AT;
    var i := height;
    assert forall x :: size <= x < dst.Length ==> dst[x] == dst[PIXELS_AT..][x - PIXELS_AT];
    while i > 0
      invariant 0 <= i <= height
      invariant at == |Written(p, width, i, height)| <= size
      invariant dst[..at] == Written(p, width, i, height)
      invariant forall x :: size <= x < dst.Length ==> dst[x] == old(dst[x])
    {
      i := i - 1;
      WrittenStep(p, width, i, height);
      WriteRow(src, i, dst, at, width, size);
      at := at + width;
    }
  }

  method WriteRow(src: array<byte>, i: nat, dst: array<byte>, at: nat, w: nat, ghost size: nat)
    requires src != dst && 0 <= i * w && i * w + w <= src.Length && at + w <= size <= dst.Length
    modifies dst
    ensures dst[..at + w] == old(dst[..at]) + src[..][i * w..i * w + w]
    ensures forall x :: size <= x < dst.Length ==> dst[x] == old(dst[x])
  {
    var currLineAddr := i * w;
    CopyRow(src, currLineAddr, w, dst, at);
    assert src[currLineAddr..currLineAddr + w] == src[..][currLineAddr..currLineAddr + w];
    assert forall x :: size <= x < dst.Length ==> dst[x] == dst[at + w..][x - at - w];
  }

  /** `Faulted` is an access through a null pointer. */
  datatype Outcome = Rejected | Faulted | Made(size: nat)

  /**
   The guard turns away only a pair of null pointers. A null output faults at once; a null input
   faults at its first pixel, headers and palette already written, unless there is no pixel.
   */
  method RawToBmp(pIn: array?<byte>, pOut: array?<byte>, width: nat, height: nat) returns (r: Outcome)
    requires pIn != null ==> pIn != pOut && height * width <= pIn.Length
    requires pOut != null ==> PIXELS_AT + height * width <= pOut.Length
    modifies if pOut == null then {} else {pOut}
    ensures pIn == null && pOut == null ==> r == Rejected
    ensures pIn != null && pOut == null ==> r == Faulted
    ensures pOut != null && (pIn != null || height * width == 0) ==>
              && r == Made(PIXELS_AT + height * width)
              && pOut[..r.size] == File(if pIn == null then [] else old(pIn[..]), width, height)
    ensures pOut != null && pIn == null && height * width != 0 ==>
              r == Faulted && pOut[..PIXELS_AT] == Prologue(width, height)
    ensures pOut != null ==> forall x :: PIXELS_AT + height * width <= x < pOut.Length ==> pOut[x] == old(pOut[x])
  {
    hide Prologue, File;
    if pIn == null && pOut == null {
      return Rejected;
    }
    if pOut == null {
      return Faulted;
    }
    if pIn != null {
      WriteBmp(pIn, pOut, width, height);
      return Made(PIXELS_AT + height * width);
    }
    if height * width == 0 {
      var none := new byte[0];
      WriteBmp(none, pOut, width, height);
      assert none[..] == [];
      return Made(PIXELS_AT);
    }
    CopySeq(Prologue(width, height), pOut, 0);
    assert forall x :: PIXELS_AT <= x < pOut.Length ==> pOut[x] == pOut[PIXELS_AT..][x - PIXELS_AT];
    r := Faulted;
  }

  method EncodeBmp(buff: array<byte>, width: nat, height: nat) returns (bmp: array<byte>, size: nat)
    requires height * width <= buff.Length
    ensures fresh(bmp) && size == PIXELS_AT + height * width
    ensures bmp[..] == File(buff[..], width, height)
  {
    size := PIXELS_AT + height * width;
    bmp := new byte[size](_ => 0);
    WriteBmp(buff, bmp, width, height);
    assert bmp[..] == bmp[..size];
  }

  // ---- unpacking one-bit images -------------------------------------------

  function GetLineBytes(width: nat, bitcount: nat): nat {
    if bitcount < 8 then (width + 7) / 8 else (width * bitcount + 31) / 32 * 4
  }

  function Pow2(k: nat): (p: nat)
    ensures p > 0
  {
    if k == 0 then 1 else 2 * Pow2(k - 1)
  }

  /** `(pixel >> k) & 1`, as a black or white sample. */
  function Sample(pixel: byte, k: nat): byte {
    if pixel / Pow2(k) % 2 == 1 then 0xff else 0
  }

  lemma PowersOfTwo()
    ensures Pow2(0) == 1 && Pow2(1) == 2 && Pow2(2) == 4 && Pow2(3) == 8
    ensures Pow2(4) == 16 && Pow2(5) == 32 && Pow2(6) == 64 && Pow2(7) == 128
  {
    assert Pow2(3) == 2 * Pow2(2) && Pow2(4) == 2 * Pow2(3) && Pow2(5) == 2 * Pow2(4) && Pow2(6) == 2 * Pow2(5);
  }

  /** The bit a sample stands for. */
  function Bit(sample: byte): nat {
    if sample == 0xff then 1 else 0
  }

  /** Samples packed into a number again, the first one highest. */
  function Packed(s: seq<byte>): nat {
    if s == [] then 0 else 2 * Packed(s[..|s| - 1]) + Bit(s[|s| - 1])
  }

  lemma PackedStep(pixel: byte, shift: nat, i: nat)
    requires 0 < i <= shift
    ensures Packed(ByteSamples(pixel, shift, i))
         == 2 * Packed(ByteSamples(pixel, shift, i - 1)) + Bit(Sample(pixel, shift - i))
  {
    assert ByteSamples(pixel, shift, i)[..i - 1] == ByteSamples(pixel, shift, i - 1);
  }

  /** The bits from `half` up, one further down. */
  lemma NextBit(x: nat, half: nat, p: nat)
    requires half > 0 && p > 0
    ensures x / half % (2 * p) == 2 * (x / (2 * half) % p) + x / half % 2
  {
    DivideTwice(x, half, 2);
    assert half * 2 == 2 * half;
    DivideTwice(x / half, 2, p);
  }

  /** The first i samples of a byte are the i bits below its bit `shift`. */
  lemma {:induction false} PackedPrefix(pixel: byte, shift: nat, i: nat)
    requires i <= shift
    ensures Packed(ByteSamples(pixel, shift, i)) == pixel / Pow2(shift - i) % Pow2(i)
  {
    if i > 0 {
      hide Packed, ByteSamples;
      PackedPrefix(pixel, shift, i - 1);
      PackedStep(pixel, shift, i);
      assert Pow2(shift - i + 1) == 2 * Pow2(shift - i) && shift - (i - 1) == shift - i + 1;
      NextBit(pixel, Pow2(shift - i), Pow2(i - 1));
    }
  }

  /** Unpacking a byte loses none of the bits it looks at: packing its samples again gives them back. */
  lemma PackedAgain(pixel: byte, shift: nat)
    ensures Packed(ByteSamples(pixel, shift, shift)) == pixel % Pow2(shift)
    ensures shift == 8 ==> Packed(ByteSamples(pixel, shift, shift)) == pixel
  {
    PackedPrefix(pixel, shift, shift);
    assert Pow2(0) == 1;
    PowersOfTwo();
    assert Pow2(8) == 2 * Pow2(7);
  }

  /** What a sample says about its byte: it is black or white, and the eight bits make up the byte. */
  lemma SamplesMakeByte(pixel: byte, k: nat)
    ensures Sample(pixel, k) == 0 || Sample(pixel, k) == 0xff
    ensures pixel == 128 * Bit(Sample(pixel, 7)) + 64 * Bit(Sample(pixel, 6)) + 32 * Bit(Sample(pixel, 5))
                   + 16 * Bit(Sample(pixel, 4)) + 8 * Bit(Sample(pixel, 3)) + 4 * Bit(Sample(pixel, 2))
                   + 2 * Bit(Sample(pixel, 1)) + Bit(Sample(pixel, 0))
  {
    hide Sample, Bit, ByteSamples;
    BlackOrWhite(pixel, k);
    PackedAgain(pixel, 8);
    PackedStep(pixel, 8, 1);
    PackedStep(pixel, 8, 2);
    PackedStep(pixel, 8, 3);
    PackedStep(pixel, 8, 4);
    PackedStep(pixel, 8, 5);
    PackedStep(pixel, 8, 6);
    PackedStep(pixel, 8, 7);
    PackedStep(pixel, 8, 8);
    assert Packed(ByteSamples(pixel, 8, 0)) == 0;
  }

  lemma BlackOrWhite(pixel: byte, k: nat)
    ensures Sample(pixel, k) == 0 || Sample(pixel, k) == 0xff
  {
  }

  /** The fewest bytes that hold a row of bits, and how many of its bits each of them has. */
  lemma RowBytes(width: nat, b: nat)
    requires b < GetLineBytes(width, 1)
    ensures var n := GetLineBytes(width, 1);
            && 8 * n - 8 < width <= 8 * n
            && ShiftBits(width, b) == (if 8 * b + 8 <= width then 8 else width - 8 * b)
  {
  }

  /** How many samples byte `b` of a row holds. */
  function ShiftBits(width: nat, b: nat): nat
    requires b < GetLineBytes(width, 1)
  {
    var n := GetLineBytes(width, 1);
    if n * 8 != width && b == n - 1 then width - (n - 1) * 8 else 8
  }

  /** The first i samples of byte `b`: the highest of its ShiftBits low bits first. */
  function ByteSamples(pixel: byte, shift: nat, i: nat): (s: seq<byte>)
    requires i <= shift
    ensures |s| == i
  {
    seq(i, k requires 0 <= k < i => Sample(pixel, shift - 1 - k))
  }

  /** The samples of the first b bytes of a row. */
  function RowSamples(row: seq<byte>, width: nat, b: nat): (s: seq<byte>)
    requires |row| == GetLineBytes(width, 1) && b <= |row|
    ensures |s| == if b * 8 <= width then b * 8 else width
  {
    if b == 0 then []
    else RowSamples(row, width, b - 1) + ByteSamples(row[b - 1], ShiftBits(width, b - 1), ShiftBits(width, b - 1))
  }

  /** Row h of the picture, which the file stores from the bottom up. */
  function PackedRow(img: seq<byte>, width: nat, height: nat, h: nat): (row: seq<byte>)
    requires h < height && height * GetLineBytes(width, 1) <= |img|
    ensures |row| == GetLineBytes(width, 1)
  {
    var n := GetLineBytes(width, 1);
    RowFits(height - 1 - h, n, height);
    img[(height - 1 - h) * n..(height - h) * n]
  }

  function Unpacked(img: seq<byte>, width: nat, height: nat, h: nat): (s: seq<byte>)
    requires h <= height && height * GetLineBytes(width, 1) <= |img|
    ensures |s| == h * width
  {
    if h == 0 then []
    else
      assert h * width == (h - 1) * width + width;
      Unpacked(img, width, height, h - 1)
      + RowSamples(PackedRow(img, width, height, h - 1), width, GetLineBytes(width, 1))
  }

  /** Sample x of a row comes from byte x/8, and from the bit its position there fixes. */
  lemma {:induction false} RowSamplesAt(row: seq<byte>, width: nat, b: nat, x: nat)
    requires |row| == GetLineBytes(width, 1) && b <= |row| && x < |RowSamples(row, width, b)|
    ensures x / 8 < |row| && x % 8 < ShiftBits(width, x / 8) == (if x / 8 < width / 8 then 8 else width % 8)
    ensures RowSamples(row, width, b)[x] == Sample(row[x / 8], ShiftBits(width, x / 8) - 1 - x % 8)
  {
    if x < |RowSamples(row, width, b - 1)| {
      RowSamplesAt(row, width, b - 1, x);
    } else {
      assert x / 8 == b - 1;
    }
  }

  lemma {:induction false} UnpackedRow(img: seq<byte>, width: nat, height: nat, n: nat, h: nat, x: nat)
    requires h < n <= height && x < width && height * GetLineBytes(width, 1) <= |img|
    ensures 0 <= h * width + x < n * width
    ensures Unpacked(img, width, height, n)[h * width + x]
              == RowSamples(PackedRow(img, width, height, h), width, GetLineBytes(width, 1))[x]
  {
    RowFits(h, width, n);
    assert n * width == (n - 1) * width + width;
    if h < n - 1 {
      UnpackedRow(img, width, height, n - 1, h, x);
    }
  }

  /** Every unpacked sample is a sample of the byte it was packed in. */
  lemma UnpackedFrom(img: seq<byte>, width: nat, height: nat, h: nat, x: nat)
    requires h < height && x < width && height * GetLineBytes(width, 1) <= |img|
    ensures 0 <= h * width + x < height * width && x / 8 < GetLineBytes(width, 1)
    ensures 0 <= (height - 1 - h) * GetLineBytes(width, 1) + x / 8 < |img|
    ensures x % 8 < ShiftBits(width, x / 8)
    ensures Unpacked(img, width, height, height)[h * width + x]
              == Sample(img[(height - 1 - h) * GetLineBytes(width, 1) + x / 8], ShiftBits(width, x / 8) - 1 - x % 8)
  {
    var n := GetLineBytes(width, 1);
    RowFits(height - 1 - h, n, height);
    UnpackedRow(img, width, height, height, h, x);
    RowSamplesAt(PackedRow(img, width, height, h), width, n, x);
  }

  /**
   Where every unpacked sample comes from, for every width: rows from the last one up, eight samples a
   byte, the highest bit first; the last byte of a ragged row has its samples in its low bits.
   */
  lemma UnpackedAt(img: seq<byte>, width: nat, height: nat, h: nat, x: nat)
    requires h < height && x < width && height * ((width + 7) / 8) <= |img|
    ensures 0 <= h * width + x < height * width && height * GetLineBytes(width, 1) <= |img|
    ensures var at := (height - 1 - h) * ((width + 7) / 8) + x / 8;
            var bit := if x / 8 < width / 8 then 7 - x % 8 else width % 8 - 1 - x % 8;
            && 0 <= at < |img| && 0 <= bit
            && Unpacked(img, width, height, height)[h * width + x] == if img[at] / Pow2(bit) % 2 == 1 then 0xff else 0
  {
    hide Unpacked;
    UnpackedFrom(img, width, height, h, x);
  }

  /** One more row: where it is in the file, and what it adds. */
  lemma UnpackedStep(img: seq<byte>, width: nat, height: nat, h: nat)
    requires h < height && height * GetLineBytes(width, 1) <= |img|
    ensures var n := GetLineBytes(width, 1);
            && 0 <= n * (height - 1 - h) <= n * (height - 1 - h) + n <= |img|
            && h * width + width == (h + 1) * width <= height * width
            && PackedRow(img, width, height, h) == img[n * (height - 1 - h)..n * (height - 1 - h) + n]
            && Unpacked(img, width, height, h + 1)
                 == Unpacked(img, width, height, h) + RowSamples(PackedRow(img, width, height, h), width, n)
  {
    hide RowSamples, GetLineBytes;
    RowFits(h, width, height);
    RowFits(height - 1 - h, GetLineBytes(width, 1), height);
  }

  /** The one-bit branch of ReadPixelData. */
  method Unpack(imgdata: array<byte>, width: nat, height: nat) returns (raw: array<byte>)
    requires height * GetLineBytes(width, 1) <= imgdata.Length
    ensures fresh(raw) && raw[..] == Unpacked(imgdata[..], width, height, height)
  {
    hide Unpacked, PackedRow, RowSamples, GetLineBytes;
    ghost var img := imgdata[..];
    var lineBytes := GetLineBytes(width, 1);
    raw := new byte[height * width](_ => 0);
    var count := 0;
    UnpackedNone(img, width, height);
    for h := 0 to height
      invariant imgdata[..] == img && count == h * width <= raw.Length
      invariant raw[..count] == Unpacked(img, width, height, h)
    {
      UnpackedStep(img, width, height, h);
      var at := lineBytes * (height - 1 - h);
      assert imgdata[at..at + lineBytes] == img[at..at + lineBytes];
      count := UnpackRow(imgdata, at, width, raw, count);
    }
    assert raw[..] == raw[..count];
  }

  lemma UnpackedNone(img: seq<byte>, width: nat, height: nat)
    requires height * GetLineBytes(width, 1) <= |img|
    ensures Unpacked(img, width, height, 0) == []
  {
  }

  /** The bit loop for one packed byte. */
  method UnpackByte(pixel: byte, shiftbits: nat, raw: array<byte>, start: nat) returns (count: nat)
    requires start + shiftbits <= raw.Length
    modifies raw
    ensures count == start + shiftbits
    ensures raw[..count] == old(raw[..start]) + ByteSamples(pixel, shiftbits, shiftbits)
    ensures Packed(raw[start..count]) == pixel % Pow2(shiftbits)
  {
    PackedAgain(pixel, shiftbits);
    count := start;
    for i := 0 to shiftbits
      invariant count == start + i
      invariant raw[..count] == old(raw[..start]) + ByteSamples(pixel, shiftbits, i)
    {
      raw[count] := Sample(pixel, shiftbits - 1 - i);
      assert ByteSamples(pixel, shiftbits, i + 1) == ByteSamples(pixel, shiftbits, i) + [Sample(pixel, shiftbits - 1 - i)];
      assert raw[..count + 1] == raw[..count] + [raw[count]];
      count := count + 1;
    }
  }

  /** The byte loop for the row whose packed bytes start at `at`. */
  method UnpackRow(imgdata: array<byte>, at: nat, width: nat, raw: array<byte>, start: nat) returns (count: nat)
    requires imgdata != raw && at + GetLineBytes(width, 1) <= imgdata.Length && start + width <= raw.Length
    modifies raw
    ensures count == start + width
    ensures raw[..count] == old(raw[..start])
              + RowSamples(imgdata[at..at + GetLineBytes(width, 1)], width, GetLineBytes(width, 1))
  {
    hide ByteSamples, Packed, Pow2;
    var lineBytes := GetLineBytes(width, 1);
    ghost var row := imgdata[at..at + lineBytes];
    count := start;
    for b := 0 to lineBytes
      invariant count == start + |RowSamples(row, width, b)| <= start + width
      invariant raw[..count] == old(raw[..start]) + RowSamples(row, width, b)
    {
      var pixel := imgdata[at + b];
      assert pixel == row[b];
      var shiftbits := 8;
      if lineBytes * 8 != width && b == lineBytes - 1 {
        shiftbits := width - (lineBytes - 1) * 8;
      }
      count := UnpackByte(pixel, shiftbits, raw, count);
    }
  }
}
