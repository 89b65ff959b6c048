/** convert_8bit_to_32bit: every palette index of the image is looked up
    in the 6-bit palette, each channel is widened to 8 bits by
    `(v << 2) | (v >> 4)`, and the three channels are packed with an opaque
    alpha as 0xAARRGGBB. The shifts act on non-negative `int` values, so
    they are multiplication and division by powers of two; `|` is bitwise
    OR on non-negative integers. */
module Convert {
  import opened Common

  /** A `Uint32`. */
  type uint32 = x: int | 0 <= x < 0x1_0000_0000

  function Pow2(k: nat): (p: nat)
    ensures p >= 1
  {
    if k == 0 then 1 else 2 * Pow2(k - 1)
  }

  /** Bitwise OR of two non-negative integers, bit by bit from the
      lowest. */
  function BitOr(a: nat, b: nat): (r: nat)
    decreases a + b
  {
    if a == 0 && b == 0 then 0
    else 2 * BitOr(a / 2, b / 2) + (if a % 2 == 1 || b % 2 == 1 then 1 else 0)
  }

  /** OR-ing a number below 2^k into a multiple of 2^k adds it. */
  lemma {:induction false} BitOrDisjoint(a: nat, k: nat, c: nat)
    requires c < Pow2(k)
    ensures BitOr(a * Pow2(k), c) == a * Pow2(k) + c
    decreases k
  {
    if k == 0 {
      assert c == 0;
      BitOrZero(a);
    } else {
      var h := Pow2(k - 1);
      assert a * Pow2(k) == 2 * (a * h);
      if a * Pow2(k) == 0 && c == 0 {
      } else {
        assert (a * Pow2(k)) / 2 == a * h && (a * Pow2(k)) % 2 == 0;
        assert c / 2 < h;
        BitOrDisjoint(a, k - 1, c / 2);
      }
    }
  }

  /** 0 is the identity of OR. */
  lemma {:induction false} BitOrZero(a: nat)
    ensures BitOr(a, 0) == a
    decreases a
  {
    if a > 0 {
      BitOrZero(a / 2);
    }
  }

  /** One channel: `(v << 2) | (v >> 4)` stored into a `Uint8`. */
  function Scale(v: byte): byte
  {
    BitOr(v * 4, v / 16) % 256
  }

  /** For the 6-bit values a palette holds, the widening is 4v + v/16:
      the top two bits are copied into the two new low bits. */
  lemma ScaleSixBit(v: byte)
    requires v <= 63
    ensures Scale(v) == 4 * v + v / 16
    ensures Scale(v) <= 255
  {
    assert Pow2(2) == 4;
    BitOrDisjoint(v, 2, v / 16);
  }

  /** Black stays black and the brightest 6-bit value becomes full
      intensity. */
  lemma ScaleEnds()
    ensures Scale(0) == 0 && Scale(63) == 255
  {
    ScaleSixBit(0);
    ScaleSixBit(63);
  }

  /** The widening preserves the order of 6-bit values. */
  lemma ScaleMonotone(v: byte, w: byte)
    requires v <= w <= 63
    ensures Scale(v) <= Scale(w)
  {
    ScaleSixBit(v);
    ScaleSixBit(w);
  }

  /** Distinct 6-bit values stay distinct. */
  lemma ScaleInjective(v: byte, w: byte)
    requires v <= 63 && w <= 63 && Scale(v) == Scale(w)
    ensures v == w
  {
    ScaleSixBit(v);
    ScaleSixBit(w);
  }

  /** `(0xFFU << 24) | (r << 16) | (g << 8) | b` (see ArgbIsOr): each
      channel has a byte of the word to itself. */
  function Argb(r: byte, g: byte, b: byte): uint32
  {
    0xFF00_0000 + r * 0x1_0000 + g * 0x100 + b
  }

  /** The OR of the shifted channels is their weighted sum, so Argb is the
      word the source packs. */
  lemma ArgbIsOr(r: byte, g: byte, b: byte)
    ensures Argb(r, g, b) == BitOr(BitOr(BitOr(0xFF00_0000, r * 0x1_0000), g * 0x100), b)
  {
    assert Pow2(8) == 0x100;
    assert Pow2(16) == 0x1_0000;
    assert Pow2(24) == 0x100_0000;
    BitOrDisjoint(0xFF, 24, r * Pow2(16));
    assert 0xFF * Pow2(24) + r * Pow2(16) == (0xFF00 + r) * Pow2(16);
    BitOrDisjoint(0xFF00 + r, 16, g * Pow2(8));
    assert (0xFF00 + r) * Pow2(16) + g * Pow2(8) == (0xFF_0000 + r * 0x100 + g) * Pow2(8);
    BitOrDisjoint(0xFF_0000 + r * 0x100 + g, 8, b);
  }

  /** The packed word has alpha 0xFF, and the three channels can be read
      back from it. */
  lemma ArgbChannels(r: byte, g: byte, b: byte)
    ensures Argb(r, g, b) / 0x100_0000 == 0xFF
    ensures Argb(r, g, b) / 0x1_0000 % 0x100 == r
    ensures Argb(r, g, b) / 0x100 % 0x100 == g
    ensures Argb(r, g, b) % 0x100 == b
  {
    SumChannels(r, g, b);
  }

  lemma SumChannels(r: byte, g: byte, b: byte)
    ensures var w := 0xFF00_0000 + r * 0x1_0000 + g * 0x100 + b;
      && w / 0x100_0000 == 0xFF
      && w / 0x1_0000 % 0x100 == r
      && w / 0x100 % 0x100 == g
      && w % 0x100 == b
  {
    var w := 0xFF00_0000 + r * 0x1_0000 + g * 0x100 + b;
    assert w / 0x1_0000 == 0xFF00 + r;
    assert w / 0x100 == 0xFF_0000 + r * 0x100 + g;
  }

  /** The word convert_8bit_to_32bit writes for palette index idx. */
  function PixelWord(palette: seq<byte>, idx: byte): uint32
    requires |palette| >= PAL_BYTES
  {
    Argb(Scale(palette[Ix(idx, 0)]), Scale(palette[Ix(idx, 1)]), Scale(palette[Ix(idx, 2)]))
  }

  /** For a 6-bit palette, each byte of the word is the widened channel
      of the looked-up entry. */
  lemma PixelWordChannels(palette: seq<byte>, idx: byte)
    requires |palette| >= PAL_BYTES
    requires forall i :: 0 <= i < |palette| ==> palette[i] <= 63
    ensures PixelWord(palette, idx) / 0x100_0000 == 0xFF
    ensures PixelWord(palette, idx) / 0x1_0000 % 0x100 == 4 * palette[Ix(idx, 0)] + palette[Ix(idx, 0)] / 16
    ensures PixelWord(palette, idx) / 0x100 % 0x100 == 4 * palette[Ix(idx, 1)] + palette[Ix(idx, 1)] / 16
    ensures PixelWord(palette, idx) % 0x100 == 4 * palette[Ix(idx, 2)] + palette[Ix(idx, 2)] / 16
  {
    var r, g, b := palette[Ix(idx, 0)], palette[Ix(idx, 1)], palette[Ix(idx, 2)];
    ScaleSixBit(r);
    ScaleSixBit(g);
    ScaleSixBit(b);
    ArgbChannels(Scale(r), Scale(g), Scale(b));
  }

  /** The body of the inner loop: the word for palette index idx. */
  method ConvertPixel(palette: array<byte>, idx: byte) returns (w: uint32)
    requires palette.Length >= PAL_BYTES
    ensures w == PixelWord(palette[..], idx)
  {
    var i: int := idx;
    var r := Scale(palette[i * 3 + 0]);
    var g := Scale(palette[i * 3 + 1]);
    var b := Scale(palette[i * 3 + 2]);
    w := Argb(r, g, b);
  }

  /** The inner loop: the row of `width` pixels starting at index
      `row`. */
  method ConvertRow(src: array<byte>, dst: array<uint32>, width: int, row: nat, palette: array<byte>)
    requires width > 0 && row + width <= src.Length && row + width <= dst.Length
    requires palette.Length >= PAL_BYTES
    modifies dst
    ensures forall i :: 0 <= i < row ==> dst[i] == old(dst[i])
    ensures forall i :: row <= i < row + width ==> dst[i] == PixelWord(palette[..], src[i])
    ensures forall i :: row + width <= i < dst.Length ==> dst[i] == old(dst[i])
  {
    ghost var pal := palette[..];
    var x := 0;
    while x < width
      invariant 0 <= x <= width
      invariant forall i :: 0 <= i < dst.Length ==>
        dst[i] == if row <= i < row + x then PixelWord(pal, src[i]) else old(dst[i])
    {
      var w := ConvertPixel(palette, src[row + x]);
      dst[row + x] := w;
      x := x + 1;
    }
  }

  /** convert_8bit_to_32bit: the first width * height words of dst are
      the palette colours of the matching indices of src; the rest of dst
      is untouched. */
  method Convert8To32(src: array<byte>, dst: array<uint32>, width: int, height: int, palette: array<byte>)
    requires width > 0 && height > 0 ==> width * height <= src.Length && width * height <= dst.Length
    requires palette.Length >= PAL_BYTES
    modifies dst
    ensures width > 0 && height > 0 ==>
      && (forall i :: 0 <= i < width * height ==> dst[i] == PixelWord(palette[..], src[i]))
      && (forall i :: width * height <= i < dst.Length ==> dst[i] == old(dst[i]))
    ensures width <= 0 || height <= 0 ==> dst[..] == old(dst[..])
  {
    if width <= 0 || height <= 0 {
      return;
    }
    ghost var pal := palette[..];
    var y, row := 0, 0;
    while y < height
      invariant 0 <= y <= height && row == width * y
      invariant row <= dst.Length
      invariant forall i :: 0 <= i < row ==> dst[i] == PixelWord(pal, src[i])
      invariant forall i :: row <= i < dst.Length ==> dst[i] == old(dst[i])
    {
      RowBound(width, y, height);
      ConvertRow(src, dst, width, row, palette);
      y, row := y + 1, row + width;
    }
  }

  /** Row y + 1 starts width pixels after row y and, for y < height, no
      later than width * height. */
  lemma RowBound(width: nat, y: nat, height: nat)
    requires y < height
    ensures width * (y + 1) == width * y + width <= width * height
  {
    var k: nat := height - (y + 1);
    assert width * height == width * (y + 1) + width * k;
    assert width * k >= 0;
  }
}
