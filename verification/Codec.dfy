/**
 Integers in network byte order (Appendix B of RFC 791). The `hostToNetwork` and `networkToHost`
 inlines convert values; what reaches the buffer is the value's bytes in the host's memory order.
 Both host orders are covered.
 */
module Codec {
  import opened Bytes

  datatype Order = Little | Big

  function Pow256(n: nat): (p: nat)
    ensures p >= 1
  {
    if n == 0 then 1 else 256 * Pow256(n - 1)
  }

  /** The bytes of an n-byte unsigned value, most significant first. */
  function BigEndian(n: nat, x: nat): (s: seq<byte>)
    ensures |s| == n
  {
    if n == 0 then [] else BigEndian(n - 1, x / 256) + [x % 256]
  }

  /** The bytes of an n-byte unsigned value, least significant first. */
  function LittleEndian(n: nat, x: nat): (s: seq<byte>)
    ensures |s| == n
  {
    if n == 0 then [] else [x % 256] + LittleEndian(n - 1, x / 256)
  }

  /** memcpy from an n-byte variable. */
  function Store(host: Order, n: nat, x: nat): (s: seq<byte>)
    ensures |s| == n
  {
    if host == Little then LittleEndian(n, x) else BigEndian(n, x)
  }

  function FromBig(s: seq<byte>): nat {
    if s == [] then 0 else FromBig(s[..|s| - 1]) * 256 + s[|s| - 1]
  }

  function FromLittle(s: seq<byte>): nat {
    if s == [] then 0 else s[0] + 256 * FromLittle(s[1..])
  }

  /** memcpy into an n-byte variable. */
  function Load(host: Order, s: seq<byte>): nat {
    if host == Little then FromLittle(s) else FromBig(s)
  }

  /** bswap: the low byte becomes the high one. */
  function ByteSwap(n: nat, x: nat): nat {
    if n == 0 then 0 else (x % 256) * Pow256(n - 1) + ByteSwap(n - 1, x / 256)
  }

  /** htobe16/32/64. */
  function HostToNetwork(host: Order, n: nat, x: nat): nat {
    if host == Little then ByteSwap(n, x) else x
  }

  /** be16/32/64toh. */
  function NetworkToHost(host: Order, n: nat, x: nat): nat {
    if host == Little then ByteSwap(n, x) else x
  }

  predicate Width(n: nat) {
    n == 1 || n == 2 || n == 4 || n == 8
  }

  /** The range of intN_t. */
  predicate Fits(n: nat, v: int) {
    0 <= 2 * v + Pow256(n) && 2 * v < Pow256(n)
  }

  /** Conversion of an intN_t to uintN_t and back. */
  function Unsigned(n: nat, v: int): (u: nat)
    requires Fits(n, v)
    ensures u < Pow256(n)
  {
    if v >= 0 then v else v + Pow256(n)
  }

  function Signed(n: nat, u: nat): int {
    if 2 * u < Pow256(n) then u else u - Pow256(n)
  }

  /** What appendIntN and prependIntN put in the buffer. */
  function Encode(host: Order, n: nat, v: int): (s: seq<byte>)
    requires Fits(n, v)
    ensures |s| == n
  {
    Store(host, n, HostToNetwork(host, n, Unsigned(n, v)))
  }

  /** What peekIntN makes of the first n bytes. */
  function Decode(host: Order, n: nat, s: seq<byte>): int
    requires n <= |s|
  {
    Signed(n, NetworkToHost(host, n, Load(host, s[..n])))
  }

  // ---- arithmetic ---------------------------------------------------------

  lemma Scale(d: nat, p: nat)
    requires d <= 255
    ensures d * p <= 255 * p
  {
  }

  lemma Regroup(d: nat, p: nat)
    ensures d * (256 * p) == 256 * (d * p)
  {
  }

  lemma HighPart(z: nat, y: nat)
    ensures (256 * z + y) % 256 == y % 256 && (256 * z + y) / 256 == z + y / 256
  {
  }

  lemma MultipleApart(d: int, m: nat)
    ensures d > 0 ==> d * m >= m
    ensures d < 0 ==> d * m + m <= 0
  {
  }

  /** Quotient and remainder are unique. */
  lemma DivisionIs(x: nat, m: nat, q: nat, r: nat)
    requires x == q * m + r && r < m
    ensures x / m == q && x % m == r
  {
    var d: int := x / m - q;
    assert x == (x / m) * m + x % m;
    assert d * m == r - x % m;
    MultipleApart(d, m);
  }

  lemma Multiply(k: nat, q: nat, m: nat, r: nat)
    ensures k * (q * m + r) == q * (k * m) + k * r
  {
    assert k * (q * m) == q * (k * m);
  }

  /** Dividing by `k` first and then by `m`, and how the remainders combine. */
  lemma DivideTwice(x: nat, k: nat, m: nat)
    requires k > 0 && m > 0
    ensures k * m > 0 && x / (k * m) == x / k / m && x % (k * m) == k * (x / k % m) + x % k
  {
    Combine(x, k, m, x / k, x % k, x / k / m, x / k % m);
  }

  lemma Combine(x: nat, k: nat, m: nat, y: nat, z: nat, q: nat, r: nat)
    requires x == k * y + z && z < k && y == q * m + r && r < m
    ensures k * m > 0 && x / (k * m) == q && x % (k * m) == k * r + z
  {
    Multiply(k, q, m, r);
    Scaled(k, r, m);
    DivisionIs(x, k * m, q, k * r + z);
  }

  lemma Scaled(k: nat, r: nat, m: nat)
    requires r < m
    ensures 0 <= k * r && k * r + k <= k * m
  {
    assert k * m == k * r + k * (m - r);
    MultipleApart(m - r, k);
  }

  /** What stripping the low digit leaves of a value with `d` on top. */
  lemma HighDigit(n: nat, y: nat, d: nat)
    requires n > 0 && y < Pow256(n)
    ensures var x := d * Pow256(n) + y;
            0 <= x && x % 256 == y % 256 && x / 256 == d * Pow256(n - 1) + y / 256 && y / 256 < Pow256(n - 1)
  {
    var p := Pow256(n - 1);
    Regroup(d, p);
    HighPart(d * p, y);
  }

  lemma {:induction false} SwapBound(n: nat, x: nat)
    ensures ByteSwap(n, x) < Pow256(n)
  {
    if n > 0 {
      SwapBound(n - 1, x / 256);
      Scale(x % 256, Pow256(n - 1));
    }
  }

  lemma LittleUnfold(n: nat, x: nat)
    requires n > 0
    ensures LittleEndian(n, x) == [x % 256] + LittleEndian(n - 1, x / 256)
  {
  }

  /** Adding a high byte adds a last byte, least significant first. */
  lemma {:induction false} LittleHigh(n: nat, y: nat, d: byte, x: nat)
    requires y < Pow256(n) && x == d * Pow256(n) + y
    ensures LittleEndian(n + 1, x) == LittleEndian(n, y) + [d]
  {
    if n == 0 {
      assert x == d && LittleEndian(1, d) == [d % 256] + LittleEndian(0, d / 256);
    } else {
      hide Pow256, LittleEndian;
      HighDigit(n, y, d);
      LittleHigh(n - 1, y / 256, d, x / 256);
      LittleUnfold(n + 1, x);
      LittleUnfold(n, y);
      assert LittleEndian(n + 1, x) == [x % 256] + (LittleEndian(n - 1, y / 256) + [d]);
    }
  }

  /** The bytes of a swapped value in little-endian memory are the value's big-endian bytes. */
  lemma {:induction false} SwapReverses(n: nat, x: nat)
    ensures LittleEndian(n, ByteSwap(n, x)) == BigEndian(n, x)
  {
    if n > 0 {
      SwapBound(n - 1, x / 256);
      LittleHigh(n - 1, ByteSwap(n - 1, x / 256), x % 256, ByteSwap(n, x));
      SwapReverses(n - 1, x / 256);
    }
  }

  lemma {:induction false} LittleRoundTrip(n: nat, x: nat)
    requires x < Pow256(n)
    ensures FromLittle(LittleEndian(n, x)) == x
  {
    if n > 0 {
      assert LittleEndian(n, x)[1..] == LittleEndian(n - 1, x / 256);
      LittleRoundTrip(n - 1, x / 256);
    }
  }

  /** Storing n bytes of a number that may be too large keeps its remainder. */
  lemma {:induction false} LittleTruncates(n: nat, x: nat)
    ensures FromLittle(LittleEndian(n, x)) == x % Pow256(n)
  {
    if n > 0 {
      assert LittleEndian(n, x)[1..] == LittleEndian(n - 1, x / 256);
      LittleTruncates(n - 1, x / 256);
      DivideTwice(x, 256, Pow256(n - 1));
    }
  }

  lemma {:induction false} BigRoundTrip(n: nat, x: nat)
    requires x < Pow256(n)
    ensures FromBig(BigEndian(n, x)) == x
  {
    if n > 0 {
      var s := BigEndian(n, x);
      assert s[..|s| - 1] == BigEndian(n - 1, x / 256);
      BigRoundTrip(n - 1, x / 256);
    }
  }

  lemma {:induction false} BigOfBytes(s: seq<byte>)
    ensures BigEndian(|s|, FromBig(s)) == s && FromBig(s) < Pow256(|s|)
  {
    if s != [] {
      BigOfBytes(s[..|s| - 1]);
      HighPart(FromBig(s[..|s| - 1]), s[|s| - 1]);
      assert s == s[..|s| - 1] + [s[|s| - 1]];
    }
  }

  lemma {:induction false} LittleOfBytes(s: seq<byte>)
    ensures LittleEndian(|s|, FromLittle(s)) == s && FromLittle(s) < Pow256(|s|)
  {
    if s != [] {
      LittleOfBytes(s[1..]);
      HighPart(FromLittle(s[1..]), s[0]);
      assert s == [s[0]] + s[1..];
    }
  }

  // ---- the codec ----------------------------------------------------------

  /** On either kind of host, what goes into the buffer is big-endian. */
  lemma NetworkOrder(host: Order, n: nat, x: nat)
    ensures Store(host, n, HostToNetwork(host, n, x)) == BigEndian(n, x)
  {
    SwapReverses(n, x);
  }

  /** Swapping twice is the identity on n-byte values. */
  lemma SwapInvolution(n: nat, x: nat)
    requires x < Pow256(n)
    ensures ByteSwap(n, ByteSwap(n, x)) == x
  {
    var y := ByteSwap(n, x);
    var z := ByteSwap(n, y);
    SwapBound(n, x);
    SwapBound(n, y);
    SwapReverses(n, x);
    SwapReverses(n, y);
    SwapOfLittle(n, x);
    LittleRoundTrip(n, z);
    LittleRoundTrip(n, x);
  }

  /** The other direction of SwapReverses: big-endian bytes of a swapped value are its little-endian ones. */
  lemma {:induction false} SwapOfLittle(n: nat, x: nat)
    ensures BigEndian(n, ByteSwap(n, x)) == LittleEndian(n, x)
  {
    if n > 0 {
      SwapBound(n - 1, x / 256);
      BigHigh(n - 1, ByteSwap(n - 1, x / 256), x % 256, ByteSwap(n, x));
      SwapOfLittle(n - 1, x / 256);
    }
  }

  lemma {:induction false} BigHigh(n: nat, y: nat, d: byte, x: nat)
    requires y < Pow256(n) && x == d * Pow256(n) + y
    ensures BigEndian(n + 1, x) == [d] + BigEndian(n, y)
  {
    if n == 0 {
      assert x == d && BigEndian(1, d) == BigEndian(0, d / 256) + [d % 256];
    } else {
      hide Pow256;
      HighDigit(n, y, d);
      BigHigh(n - 1, y / 256, d, x / 256);
      assert BigEndian(n + 1, x) == [d] + BigEndian(n - 1, y / 256) + [y % 256];
    }
  }

  lemma SignedRoundTrip(n: nat, v: int)
    requires Fits(n, v)
    ensures Signed(n, Unsigned(n, v)) == v
  {
  }

  /** Reading back what was written returns the value, whatever follows it. */
  lemma CodecRoundTrip(host: Order, n: nat, v: int, rest: seq<byte>)
    requires Fits(n, v)
    ensures Decode(host, n, Encode(host, n, v) + rest) == v
    ensures Encode(host, n, v) == BigEndian(n, Unsigned(n, v))
  {
    var u := Unsigned(n, v);
    SignedRoundTrip(n, v);
    NetworkOrder(host, n, u);
    assert (Encode(host, n, v) + rest)[..n] == Encode(host, n, v);
    if host == Little {
      SwapBound(n, u);
      LittleRoundTrip(n, ByteSwap(n, u));
      SwapInvolution(n, u);
    } else {
      BigRoundTrip(n, u);
    }
  }

  /** And every n-byte string is the encoding of the value it decodes to. */
  lemma DecodeThenEncode(host: Order, s: seq<byte>)
    ensures Fits(|s|, Decode(host, |s|, s)) && Encode(host, |s|, Decode(host, |s|, s)) == s
  {
    var n := |s|;
    assert s[..n] == s;
    var raw := Load(host, s);
    var u := NetworkToHost(host, n, raw);
    BigOfBytes(s);
    LittleOfBytes(s);
    SwapBound(n, raw);
    if host == Little {
      SwapInvolution(n, raw);
    }
  }

  // ---- what the bytes mean ------------------------------------------------

  /** intN_t and uintN_t for the four widths. */
  lemma Ranges(v: int)
    ensures Pow256(1) == 0x100 && Pow256(2) == 0x1_0000
    ensures Pow256(4) == 0x1_0000_0000 && Pow256(8) == 0x1_0000_0000_0000_0000
    ensures Fits(1, v) <==> -0x80 <= v < 0x80
    ensures Fits(2, v) <==> -0x8000 <= v < 0x8000
    ensures Fits(4, v) <==> -0x8000_0000 <= v < 0x8000_0000
    ensures Fits(8, v) <==> -0x8000_0000_0000_0000 <= v < 0x8000_0000_0000_0000
  {
    assert Pow256(2) == 256 * Pow256(1);
    assert Pow256(4) == 256 * Pow256(3) && Pow256(3) == 256 * Pow256(2);
    assert Pow256(6) == 256 * Pow256(5) && Pow256(5) == 256 * Pow256(4);
    assert Pow256(8) == 256 * Pow256(7) && Pow256(7) == 256 * Pow256(6);
  }

  /** In a big-endian number the first byte counts most. */
  lemma {:induction false} FirstCountsMost(s: seq<byte>)
    requires s != []
    ensures FromBig(s) == s[0] * Pow256(|s| - 1) + FromBig(s[1..])
  {
    if |s| > 1 {
      var front := s[..|s| - 1];
      FirstCountsMost(front);
      assert s[1..][..|s| - 2] == front[1..];
      Regroup(s[0], Pow256(|s| - 2));
    }
  }

  /** In a little-endian number the last byte does. */
  lemma {:induction false} LastCountsMost(s: seq<byte>)
    requires s != []
    ensures FromLittle(s) == FromLittle(s[..|s| - 1]) + s[|s| - 1] * Pow256(|s| - 1)
  {
    if |s| > 1 {
      var back := s[1..];
      LastCountsMost(back);
      assert s[..|s| - 1][1..] == back[..|back| - 1];
      Regroup(s[|s| - 1], Pow256(|s| - 2));
    }
  }

  /** Four bytes of a stream as a 32-bit number. */
  lemma FourBytes(a: byte, b: byte, c: byte, d: byte)
    ensures FromBig([a, b, c, d]) == 0x100_0000 * a + 0x1_0000 * b + 0x100 * c + d == FromLittle([d, c, b, a])
  {
    assert [a, b, c, d][..3] == [a, b, c] && [a, b, c][..2] == [a, b] && [a, b][..1] == [a];
    assert [d, c, b, a][1..] == [c, b, a] && [c, b, a][1..] == [b, a] && [b, a][1..] == [a];
    assert FromBig([a]) == a && FromBig([a, b]) == 0x100 * a + b && FromBig([a, b, c]) == 0x1_0000 * a + 0x100 * b + c;
    assert FromLittle([a]) == a && FromLittle([b, a]) == 0x100 * a + b && FromLittle([c, b, a]) == FromBig([a, b, c]);
  }

  /** Two's complement: the unsigned value is congruent to the signed one, and negative ones lie in the upper half. */
  lemma TwosComplement(n: nat, v: int)
    requires Fits(n, v)
    ensures var u, p := Unsigned(n, v), Pow256(n);
            && 0 <= u < p && (u - v) % p == 0
            && u == (if v >= 0 then v else v + p)
            && (2 * u >= p <==> v < 0)
            && Signed(n, u) == v
  {
    hide Pow256;
    MultipleOf(Pow256(n));
  }

  lemma MultipleOf(p: nat)
    requires p > 0
    ensures 0 % p == 0 && p % p == 0
  {
  }

  /** The bytes stored for a value, read as a plain big-endian number. */
  lemma EncodedValue(host: Order, n: nat, v: int)
    requires Fits(n, v)
    ensures FromBig(Encode(host, n, v)) == if v >= 0 then v else v + Pow256(n)
  {
    TwosComplement(n, v);
    NetworkOrder(host, n, Unsigned(n, v));
    BigRoundTrip(n, Unsigned(n, v));
  }

  /** The value read from bytes: their plain big-endian number, less 256^n if the top bit is set. */
  lemma DecodedValue(host: Order, s: seq<byte>)
    ensures var u, p := FromBig(s), Pow256(|s|); u < p && Decode(host, |s|, s) == if 2 * u < p then u else u - p
  {
    var v := Decode(host, |s|, s);
    BigOfBytes(s);
    DecodeThenEncode(host, s);
    EncodedValue(host, |s|, v);
    TwosComplement(|s|, v);
  }

  // ---- sequences of typed values ------------------------------------------

  datatype Item = Item(width: nat, value: int)

  predicate Typed(items: seq<Item>) {
    forall k :: 0 <= k < |items| ==> Width(items[k].width) && Fits(items[k].width, items[k].value)
  }

  function EncodeAll(host: Order, items: seq<Item>): seq<byte>
    requires Typed(items)
  {
    if items == [] then [] else Encode(host, items[0].width, items[0].value) + EncodeAll(host, items[1..])
  }

  /** Reading the widths in order, with what is left over; None when the bytes run out. */
  datatype Reading = Short | Read(values: seq<int>, rest: seq<byte>)

  function DecodeAll(host: Order, widths: seq<nat>, s: seq<byte>): Reading {
    if widths == [] then Read([], s)
    else if |s| < widths[0] then Short
    else
      match DecodeAll(host, widths[1..], s[widths[0]..])
      case Short => Short
      case Read(values, rest) => Read([Decode(host, widths[0], s)] + values, rest)
  }

  function Widths(items: seq<Item>): seq<nat> {
    seq(|items|, k requires 0 <= k < |items| => items[k].width)
  }

  function Values(items: seq<Item>): seq<int> {
    seq(|items|, k requires 0 <= k < |items| => items[k].value)
  }

  /** One item read off the front. */
  lemma ReadOne(host: Order, n: nat, v: int, more: seq<nat>, tail: seq<byte>)
    requires Fits(n, v)
    ensures DecodeAll(host, [n] + more, Encode(host, n, v) + tail) ==
              match DecodeAll(host, more, tail)
              case Short => Short
              case Read(values, rest) => Read([v] + values, rest)
  {
    var s := Encode(host, n, v) + tail;
    assert s[n..] == tail;
    assert ([n] + more)[1..] == more;
    CodecRoundTrip(host, n, v, tail);
  }

  /** Any sequence of typed appends is read back by the matching reads, leaving what came after. */
  lemma {:induction false} TypedRoundTrip(host: Order, items: seq<Item>, rest: seq<byte>)
    requires Typed(items)
    ensures DecodeAll(host, Widths(items), EncodeAll(host, items) + rest) == Read(Values(items), rest)
  {
    if items == [] {
      assert EncodeAll(host, items) + rest == rest;
    } else {
      var first, more := items[0], items[1..];
      var tail := EncodeAll(host, more) + rest;
      assert EncodeAll(host, items) + rest == Encode(host, first.width, first.value) + tail;
      assert Widths(items) == [first.width] + Widths(more) && Values(items) == [first.value] + Values(more);
      TypedRoundTrip(host, more, rest);
      ReadOne(host, first.width, first.value, Widths(more), tail);
    }
  }
}
