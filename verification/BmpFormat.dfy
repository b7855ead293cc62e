/**
 The BMP tool against the BMP format: which sizes the one-bit unpacker reads as the format means them,
 and which sizes the eight-bit writers write so that the format reads them back.
 */
module BmpFormat {
  import opened Bytes
  import opened Bmp

  /** The format pads every row to a multiple of four bytes. */
  function Stride(w: nat): nat {
    (w + 31) / 32 * 4
  }

  /** The format's sample: leftmost first, from the highest bit of each byte down, rows bottom-up. */
  function FormatSample(img: seq<byte>, w: nat, h: nat, y: nat, x: nat): byte
    requires |img| == h * Stride(w) && y < h && x < w
  {
    RowFits(h - 1 - y, Stride(w), h);
    Sample(img[(h - 1 - y) * Stride(w) + x / 8], 7 - x % 8)
  }

  lemma Fits(w: nat, h: nat)
    ensures GetLineBytes(w, 1) <= Stride(w)
    ensures h * GetLineBytes(w, 1) <= h * Stride(w)
  {
    MulMono(GetLineBytes(w, 1), Stride(w), h);
  }

  /** What the unpacker puts at row `y`, column `x`. */
  function ReadSample(img: seq<byte>, w: nat, h: nat, y: nat, x: nat): byte
    requires |img| == h * Stride(w) && y < h && x < w
  {
    Fits(w, h);
    RowFits(y, w, h);
    Unpacked(img, w, h, h)[y * w + x]
  }

  /** The unpacked picture is the picture in the file. */
  ghost predicate ReadRight(img: seq<byte>, w: nat, h: nat)
    requires |img| == h * Stride(w)
  {
    forall y, x :: 0 <= y < h && 0 <= x < w ==> ReadSample(img, w, h, y, x) == FormatSample(img, w, h, y, x)
  }

  lemma ReadSampleAt(img: seq<byte>, w: nat, h: nat, y: nat, x: nat)
    requires |img| == h * Stride(w) && y < h && x < w
    ensures x / 8 < GetLineBytes(w, 1) && x % 8 < ShiftBits(w, x / 8)
    ensures 0 <= (h - 1 - y) * GetLineBytes(w, 1) + x / 8 < |img|
    ensures ReadSample(img, w, h, y, x)
              == Sample(img[(h - 1 - y) * GetLineBytes(w, 1) + x / 8], ShiftBits(w, x / 8) - 1 - x % 8)
  {
    Fits(w, h);
    UnpackedFrom(img, w, h, y, x);
  }

  lemma FormatSampleAt(img: seq<byte>, w: nat, h: nat, y: nat, x: nat)
    requires |img| == h * Stride(w) && y < h && x < w
    ensures 0 <= (h - 1 - y) * Stride(w) + x / 8 < |img|
    ensures FormatSample(img, w, h, y, x) == Sample(img[(h - 1 - y) * Stride(w) + x / 8], 7 - x % 8)
  {
    RowFits(h - 1 - y, Stride(w), h);
  }

  /** The sizes the unpacker reads right: rows need no padding, or there is one row of whole bytes. */
  predicate Readable(w: nat, h: nat) {
    h == 0 || w % 32 == 0 || (h == 1 && w % 8 == 0)
  }

  lemma WholeBytes(w: nat, x: nat)
    requires w % 8 == 0 && x < w
    ensures x / 8 < GetLineBytes(w, 1) && ShiftBits(w, x / 8) == 8
    ensures w % 32 == 0 <==> GetLineBytes(w, 1) == Stride(w)
  {
  }

  lemma LastRow(n: nat)
    ensures 0 * n == 0 && 1 * n == n
  {
  }

  lemma SameRow(w: nat, h: nat, y: nat)
    requires Readable(w, h) && y < h && w > 0
    ensures (h - 1 - y) * GetLineBytes(w, 1) == (h - 1 - y) * Stride(w)
  {
    WholeBytes(w, 0);
    if h == 1 {
      LastRow(Stride(w));
      LastRow(GetLineBytes(w, 1));
    }
  }

  lemma ReadableIsRead(img: seq<byte>, w: nat, h: nat)
    requires |img| == h * Stride(w) && Readable(w, h)
    ensures ReadRight(img, w, h)
  {
    forall y, x | 0 <= y < h && 0 <= x < w ensures ReadSample(img, w, h, y, x) == FormatSample(img, w, h, y, x) {
      SampleIsRead(img, w, h, y, x);
    }
  }

  lemma SampleIsRead(img: seq<byte>, w: nat, h: nat, y: nat, x: nat)
    requires |img| == h * Stride(w) && Readable(w, h) && y < h && x < w
    ensures ReadSample(img, w, h, y, x) == FormatSample(img, w, h, y, x)
  {
    hide Stride, GetLineBytes, ShiftBits, Sample, ReadSample, FormatSample;
    ReadSampleAt(img, w, h, y, x);
    FormatSampleAt(img, w, h, y, x);
    WholeBytes(w, x);
    SameRow(w, h, y);
  }

  /** All bytes zero but one. */
  function Spot(n: nat, k: nat, v: byte): (img: seq<byte>)
    ensures |img| == n
  {
    seq(n, j => if j == k then v else 0)
  }

  lemma SmallQuotient(v: nat, p: nat)
    requires v < p
    ensures v / p == 0
  {
  }

  lemma Powers(k: nat)
    ensures Pow2(0) == 1 && Pow2(7) == 128
    ensures k > 0 ==> Pow2(k) > 1
  {
    assert Pow2(2) == 4;
    assert Pow2(4) == 16;
    assert Pow2(6) == 64;
  }

  lemma Bits(k: nat)
    ensures Sample(0, k) == 0 && Sample(1, 0) == 0xff && Sample(0x80, 7) == 0xff
    ensures k > 0 ==> Sample(1, k) == 0
  {
    hide Pow2;
    Powers(k);
    SmallQuotient(0, Pow2(k));
    if k > 0 {
      SmallQuotient(1, Pow2(k));
    }
  }

  /** Where the last sample of a ragged row is taken from. */
  lemma LastSample(w: nat)
    requires w % 8 != 0
    ensures (w - 1) / 8 < GetLineBytes(w, 1) && (w - 1) / 8 < Stride(w)
    ensures ShiftBits(w, (w - 1) / 8) - 1 - (w - 1) % 8 == 0 && 7 - (w - 1) % 8 > 0
  {
  }

  /** Rows that end inside a byte: the last sample is read from the byte's lowest bit. */
  lemma RaggedIsMisread(w: nat, h: nat)
    requires h > 0 && w % 8 != 0
    ensures !ReadRight(Spot(h * Stride(w), (w - 1) / 8, 1), w, h)
  {
    hide Stride, GetLineBytes, ShiftBits, Sample, ReadSample, FormatSample;
    var x := w - 1;
    var img := Spot(h * Stride(w), x / 8, 1);
    ReadSampleAt(img, w, h, h - 1, x);
    FormatSampleAt(img, w, h, h - 1, x);
    LastRow(Stride(w));
    LastRow(GetLineBytes(w, 1));
    LastSample(w);
    Bits(7 - x % 8);
    assert ReadSample(img, w, h, h - 1, x) != FormatSample(img, w, h, h - 1, x);
  }

  /** Rows of whole bytes that the format pads: the second row of the file is read too early. */
  lemma PaddedIsMisread(w: nat, h: nat)
    requires h > 1 && w % 8 == 0 && w % 32 != 0
    ensures !ReadRight(Spot(h * Stride(w), Stride(w), 0x80), w, h)
  {
    hide Stride, GetLineBytes, ShiftBits, Sample, ReadSample, FormatSample;
    var img := Spot(h * Stride(w), Stride(w), 0x80);
    ReadSampleAt(img, w, h, h - 2, 0);
    FormatSampleAt(img, w, h, h - 2, 0);
    LastRow(Stride(w));
    LastRow(GetLineBytes(w, 1));
    WholeBytes(w, 0);
    Bits(7);
    assert ReadSample(img, w, h, h - 2, 0) != FormatSample(img, w, h, h - 2, 0);
  }

  /** A picture eight samples wide and two high whose first sample is lost. */
  lemma EightByTwoIsMisread()
    ensures !ReadRight([0x80, 0, 0, 0, 0x80, 0, 0, 0], 8, 2)
  {
    var img: seq<byte> := [0x80, 0, 0, 0, 0x80, 0, 0, 0];
    ReadSampleAt(img, 8, 2, 0, 0);
    FormatSampleAt(img, 8, 2, 0, 0);
    Bits(7);
    assert ReadSample(img, 8, 2, 0, 0) != FormatSample(img, 8, 2, 0, 0);
  }

  /** Exactly which sizes are read right for every picture. */
  lemma ReadsRightIff(w: nat, h: nat)
    ensures (forall img: seq<byte> :: |img| == h * Stride(w) ==> ReadRight(img, w, h)) <==> Readable(w, h)
  {
    if Readable(w, h) {
      forall img: seq<byte> | |img| == h * Stride(w) ensures ReadRight(img, w, h) {
        ReadableIsRead(img, w, h);
      }
    } else if w % 8 != 0 {
      RaggedIsMisread(w, h);
    } else {
      PaddedIsMisread(w, h);
    }
  }

  // ---- what the writers write ---------------------------------------------

  datatype Pixel = Missing | Value(b: byte)

  /** The format's sample of an eight-bit file, whose rows are padded like any others; files may be too short. */
  function FormatPixel(file: seq<byte>, w: nat, h: nat, y: nat, x: nat): Pixel
    requires y < h && x < w
  {
    RowFits(h - 1 - y, GetLineBytes(w, 8), h);
    var k := PIXELS_AT + (h - 1 - y) * GetLineBytes(w, 8) + x;
    if k < |file| then Value(file[k]) else Missing
  }

  function PixelAt(pixels: seq<byte>, w: nat, h: nat, y: nat, x: nat): byte
    requires |pixels| == h * w && y < h && x < w
  {
    RowFits(y, w, h);
    pixels[y * w + x]
  }

  /** The picture in the file is the picture that was to be written. */
  ghost predicate WrittenRight(pixels: seq<byte>, w: nat, h: nat)
    requires |pixels| == h * w
  {
    forall y, x :: 0 <= y < h && 0 <= x < w ==>
      FormatPixel(File(pixels, w, h), w, h, y, x) == Value(PixelAt(pixels, w, h, y, x))
  }

  /** The sizes written right: rows that need no padding, or at most one row. */
  predicate Writable(w: nat, h: nat) {
    w % 4 == 0 || h <= 1
  }

  lemma FileAt(pixels: seq<byte>, w: nat, h: nat, k: nat)
    requires |pixels| == h * w
    ensures |File(pixels, w, h)| == PIXELS_AT + h * w
    ensures k < h * w ==> File(pixels, w, h)[PIXELS_AT + k] == Flip(pixels, w, h)[k]
  {
    hide Prologue, Flip;
  }

  lemma EightBitStride(w: nat)
    ensures w <= GetLineBytes(w, 8) < w + 4 && GetLineBytes(w, 8) % 4 == 0
    ensures w % 4 == 0 <==> GetLineBytes(w, 8) == w
  {
  }

  lemma SameOffset(w: nat, h: nat, y: nat)
    requires Writable(w, h) && y < h
    ensures (h - 1 - y) * GetLineBytes(w, 8) == (h - 1 - y) * w
  {
    EightBitStride(w);
    if h == 1 {
      LastRow(w);
      LastRow(GetLineBytes(w, 8));
    }
  }

  lemma WritableIsWritten(pixels: seq<byte>, w: nat, h: nat, y: nat, x: nat)
    requires |pixels| == h * w && Writable(w, h) && y < h && x < w
    ensures FormatPixel(File(pixels, w, h), w, h, y, x) == Value(PixelAt(pixels, w, h, y, x))
  {
    hide File, Flip, GetLineBytes;
    var r := h - 1 - y;
    SameOffset(w, h, y);
    RowFits(r, w, h);
    FlipAt(pixels, w, h, r, x);
    FileAt(pixels, w, h, r * w + x);
    assert h - 1 - r == y;
  }

  /** Sample 0 of the last row but one goes to the second row of the file, and nowhere else. */
  lemma NotFrom(w: nat, h: nat, r: nat, j: nat)
    requires h > 1 && r < h && j < w && r != 1
    ensures (h - 1 - r) * w + j != (h - 2) * w
  {
    if r == 0 {
      assert (h - 1) * w == (h - 2) * w + w;
    } else {
      MulMono(h - 1 - r, h - 3, w);
      assert (h - 2) * w == (h - 3) * w + w;
    }
  }

  /** Two or more rows that the format pads: the second row of the file is looked for too late. */
  lemma UnpaddedIsMiswritten(w: nat, h: nat)
    requires h > 1 && w % 4 != 0
    ensures 0 <= (h - 2) * w && !WrittenRight(Spot(h * w, (h - 2) * w, 1), w, h)
  {
    hide File, Flip, GetLineBytes;
    EightBitStride(w);
    RowFits(h - 2, w, h);
    var pixels := Spot(h * w, (h - 2) * w, 1);
    var k := GetLineBytes(w, 8);
    LastRow(k);
    FileAt(pixels, w, h, k);
    assert PixelAt(pixels, w, h, h - 2, 0) == 1;
    if k < h * w {
      var r, j := RowOf(k, w, h);
      FlipAt(pixels, w, h, r, j);
      if r == 1 {
        LastRow(w);
      } else {
        NotFrom(w, h, r, j);
      }
      assert Flip(pixels, w, h)[k] == 0;
    }
    assert FormatPixel(File(pixels, w, h), w, h, h - 2, 0) != Value(1);
  }

  /** Exactly which sizes RawToBmp and encode_bmp write right for every picture. */
  lemma WritesRightIff(w: nat, h: nat)
    ensures (forall pixels: seq<byte> :: |pixels| == h * w ==> WrittenRight(pixels, w, h)) <==> Writable(w, h)
  {
    if Writable(w, h) {
      forall pixels: seq<byte>, y: nat, x: nat | |pixels| == h * w && y < h && x < w
        ensures FormatPixel(File(pixels, w, h), w, h, y, x) == Value(PixelAt(pixels, w, h, y, x))
      {
        WritableIsWritten(pixels, w, h, y, x);
      }
    } else {
      UnpaddedIsMiswritten(w, h);
    }
  }
}
