/** The palette store: a palette is 256 entries of (R, G, B), laid out as
    768 bytes with channel c of entry e at byte 3 * e + c. Each
    initialiser overwrites all 768 bytes with a closed-form palette; the
    sparkle pass brightens every fourth entry starting at entry 1; the
    dispatcher chooses the passes for a palette type. */
module PalInit {
  import opened Common

  /** Value of channel c of entry e in the RGBW palette: four bands of 64
      entries (red, green, blue, white), each ramping up by 2 over its
      first 32 entries and back down over the next 32. */
  function RgbwValue(e: int, c: int): byte
    requires 0 <= e < 256 && 0 <= c < 3
  {
    RgbwAt(e % 64, e / 64, c)
  }

  /** RgbwValue for entry q of band `band`. */
  function RgbwAt(q: int, band: int, c: int): byte
    requires 0 <= q < 64
  {
    var ramp := if q < 32 then q * 2 else (63 - q) * 2;
    if band == 3 || band == c then ramp else 0
  }

  /** The grey ramp: up from 0 to 63 over entries 0..127, down again over
      entries 128..255. */
  function WValue(e: int): byte
    requires 0 <= e < 256
  {
    if e < 128 then e / 2 else (255 - e) / 2
  }

  /** The half grey ramp: up over entries 0..63, down over 64..127, black
      from 128 on. */
  function WHalfValue(e: int): byte
    requires 0 <= e < 256
  {
    if e < 64 then e else if e < 128 then 63 - (e - 64) else 0
  }

  /** The pastel ramp: a floor of 31 plus a slow ramp up and down. */
  function PastelValue(e: int): byte
    requires 0 <= e < 256
  {
    if e < 128 then 31 + e / 4 else 31 + (127 - (e - 128)) / 4
  }

  function RgbwPalette(): (p: seq<byte>)
    ensures |p| == PAL_BYTES
  {
    seq(PAL_BYTES, i requires 0 <= i < PAL_BYTES => RgbwValue(i / 3, i % 3))
  }

  function WPalette(): (p: seq<byte>)
    ensures |p| == PAL_BYTES
  {
    seq(PAL_BYTES, i requires 0 <= i < PAL_BYTES => WValue(i / 3))
  }

  function WHalfPalette(): (p: seq<byte>)
    ensures |p| == PAL_BYTES
  {
    seq(PAL_BYTES, i requires 0 <= i < PAL_BYTES => WHalfValue(i / 3))
  }

  function PastelPalette(): (p: seq<byte>)
    ensures |p| == PAL_BYTES
  {
    seq(PAL_BYTES, i requires 0 <= i < PAL_BYTES => PastelValue(i / 3))
  }

  /** One byte after the sparkle pass: `(UCHAR)MIN(63, v + amount)`. */
  function SparkleByte(v: byte, amount: int): byte
  {
    (if v + amount < 63 then v + amount else 63) % 256
  }

  /** The palette after the sparkle pass: entries 1, 5, 9, ..., 253 have
      each channel brightened, every other byte is kept. */
  function Sparkled(p: seq<byte>, amount: int): (r: seq<byte>)
    requires |p| == PAL_BYTES
    ensures |r| == PAL_BYTES
  {
    seq(PAL_BYTES, i requires 0 <= i < PAL_BYTES =>
      if (i / 3) % 4 == 1 then SparkleByte(p[i], amount) else p[i])
  }

  /** Byte offset of channel c of entry q of the 64-entry band `band`. */
  function Slot(q: int, band: int, c: int): int
  {
    (q + 64 * band) * 3 + c
  }

  /** One iteration of either loop of init_rgbw_palArray: entry q of the
      red, green and blue bands gets `v` in its own channel and 0 in the
      other two; entry q of the white band gets `v` in all three. The
      twelve stores are made channel by channel, as in the source. */
  method WriteRgbwColumn(pal: array<byte>, palRegNum: int, v: byte)
    requires pal.Length == PAL_BYTES && 0 <= palRegNum < 64
    modifies pal
    ensures forall band, c :: 0 <= band < 4 && 0 <= c < 3 ==>
      pal[Slot(palRegNum, band, c)] == if band == 3 || band == c then v else 0
    ensures forall q, band, c :: 0 <= q < 64 && q != palRegNum && 0 <= band < 4 && 0 <= c < 3 ==>
      pal[Slot(q, band, c)] == old(pal[Slot(q, band, c)])
  {
    WriteRgbwChannel(pal, palRegNum, 0, v);
    WriteRgbwChannel(pal, palRegNum, 1, v);
    WriteRgbwChannel(pal, palRegNum, 2, v);
  }

  /** The four stores of channel c: `v` in band c and in the white band,
      0 in the other two. */
  method WriteRgbwChannel(pal: array<byte>, palRegNum: int, c: int, v: byte)
    requires pal.Length == PAL_BYTES && 0 <= palRegNum < 64 && 0 <= c < 3
    modifies pal
    ensures forall band :: 0 <= band < 4 ==>
      pal[Slot(palRegNum, band, c)] == if band == 3 || band == c then v else 0
    ensures forall q, band, d :: 0 <= q < 64 && 0 <= band < 4 && 0 <= d < 3 && (q != palRegNum || d != c) ==>
      pal[Slot(q, band, d)] == old(pal[Slot(q, band, d)])
  {
    pal[Slot(palRegNum, 0, c)] := if c == 0 then v else 0;
    pal[Slot(palRegNum, 1, c)] := if c == 1 then v else 0;
    pal[Slot(palRegNum, 2, c)] := if c == 2 then v else 0;
    pal[Slot(palRegNum, 3, c)] := v;
    forall q, band, d | 0 <= q < 64 && 0 <= band < 4 && 0 <= d < 3 && (q != palRegNum || d != c)
      ensures pal[Slot(q, band, d)] == old(pal[Slot(q, band, d)])
    {
      SlotsDiffer(q, band, d, palRegNum, c);
    }
  }

  /** Distinct entries or channels never share a byte. */
  lemma SlotsDiffer(q: int, band: int, d: int, p: int, c: int)
    requires 0 <= q < 64 && 0 <= band < 4 && 0 <= d < 3 && 0 <= p < 64 && 0 <= c < 3
    requires q != p || d != c
    ensures forall b :: 0 <= b < 4 ==> Slot(q, band, d) != Slot(p, b, c)
  {
  }

  method InitRgbw(pal: array<byte>)
    requires pal.Length == PAL_BYTES
    modifies pal
    ensures pal[..] == RgbwPalette()
  {
    var palRegNum := 0;
    while palRegNum < 32
      invariant 0 <= palRegNum <= 32
      invariant forall q, band, c :: 0 <= q < palRegNum && 0 <= band < 4 && 0 <= c < 3 ==> pal[Slot(q, band, c)] == RgbwAt(q, band, c)
    {
      WriteRgbwColumn(pal, palRegNum, palRegNum * 2);
      palRegNum := palRegNum + 1;
    }
    while palRegNum < 64
      invariant 32 <= palRegNum <= 64
      invariant forall q, band, c :: 0 <= q < palRegNum && 0 <= band < 4 && 0 <= c < 3 ==> pal[Slot(q, band, c)] == RgbwAt(q, band, c)
    {
      WriteRgbwColumn(pal, palRegNum, (63 - palRegNum) * 2);
      palRegNum := palRegNum + 1;
    }
    forall i | 0 <= i < PAL_BYTES
      ensures pal[i] == RgbwPalette()[i]
    {
      assert i == Slot((i / 3) % 64, (i / 3) / 64, i % 3);
    }
  }

  /** The three stores that give entry e the grey value v. */
  method WriteGrey(pal: array<byte>, e: int, v: byte)
    requires pal.Length == PAL_BYTES && 0 <= e < 256
    modifies pal
    ensures forall c :: 0 <= c < 3 ==> pal[Ix(e, c)] == v
    ensures forall f, c :: 0 <= f < 256 && f != e && 0 <= c < 3 ==> pal[Ix(f, c)] == old(pal[Ix(f, c)])
  {
    pal[Ix(e, 0)] := v;
    pal[Ix(e, 1)] := v;
    pal[Ix(e, 2)] := v;
  }

  method InitW(pal: array<byte>)
    requires pal.Length == PAL_BYTES
    modifies pal
    ensures pal[..] == WPalette()
  {
    var palRegNum := 0;
    while palRegNum < 128
      invariant 0 <= palRegNum <= 128
      invariant forall e, c :: 0 <= e < palRegNum && 0 <= c < 3 ==> pal[Ix(e, c)] == WValue(e)
    {
      WriteGrey(pal, palRegNum, palRegNum / 2);
      palRegNum := palRegNum + 1;
    }
    while palRegNum < 256
      invariant 128 <= palRegNum <= 256
      invariant forall e, c :: 0 <= e < palRegNum && 0 <= c < 3 ==> pal[Ix(e, c)] == WValue(e)
    {
      WriteGrey(pal, palRegNum, (255 - palRegNum) / 2);
      palRegNum := palRegNum + 1;
    }
    forall i | 0 <= i < PAL_BYTES
      ensures pal[i] == WPalette()[i]
    {
      assert i == Ix(i / 3, i % 3);
    }
  }

  method InitWHalf(pal: array<byte>)
    requires pal.Length == PAL_BYTES
    modifies pal
    ensures pal[..] == WHalfPalette()
  {
    var palRegNum := 0;
    while palRegNum < 64
      invariant 0 <= palRegNum <= 64
      invariant forall e, c :: 0 <= e < palRegNum && 0 <= c < 3 ==> pal[Ix(e, c)] == WHalfValue(e)
      invariant forall e, c :: 64 <= e < 64 + palRegNum && 0 <= c < 3 ==> pal[Ix(e, c)] == WHalfValue(e)
    {
      WriteGrey(pal, palRegNum, palRegNum);

      WriteGrey(pal, palRegNum + 64, 63 - palRegNum);
      palRegNum := palRegNum + 1;
    }
    palRegNum := 128;
    while palRegNum < 256
      invariant 128 <= palRegNum <= 256
      invariant forall e, c :: 0 <= e < palRegNum && 0 <= c < 3 ==> pal[Ix(e, c)] == WHalfValue(e)
    {
      WriteGrey(pal, palRegNum, 0);
      palRegNum := palRegNum + 1;
    }
    forall i | 0 <= i < PAL_BYTES
      ensures pal[i] == WHalfPalette()[i]
    {
      assert i == Ix(i / 3, i % 3);
    }
  }

  method InitPastel(pal: array<byte>)
    requires pal.Length == PAL_BYTES
    modifies pal
    ensures pal[..] == PastelPalette()
  {
    var palRegNum := 0;
    while palRegNum < 128
      invariant 0 <= palRegNum <= 128
      invariant forall e, c :: 0 <= e < palRegNum && 0 <= c < 3 ==> pal[Ix(e, c)] == PastelValue(e)
      invariant forall e, c :: 128 <= e < 128 + palRegNum && 0 <= c < 3 ==> pal[Ix(e, c)] == PastelValue(e)
    {
      WriteGrey(pal, palRegNum, 31 + palRegNum / 4);

      WriteGrey(pal, palRegNum + 128, 31 + (127 - palRegNum) / 4);
      palRegNum := palRegNum + 1;
    }
    forall i | 0 <= i < PAL_BYTES
      ensures pal[i] == PastelPalette()[i]
    {
      assert i == Ix(i / 3, i % 3);
    }
  }

  /** add_sparkles_to_palette: a read-modify-write pass over entries
      1, 5, 9, ..., 253. */
  method AddSparkles(pal: array<byte>, amount: int)
    requires pal.Length == PAL_BYTES
    modifies pal
    ensures pal[..] == Sparkled(old(pal[..]), amount)
  {
    ghost var orig := pal[..];
    var palRegNum := 1;
    while palRegNum < 256
      invariant 1 <= palRegNum <= 257 && palRegNum % 4 == 1
      invariant forall e, c :: 0 <= e < 256 && 0 <= c < 3 ==>
        pal[Ix(e, c)] == if e % 4 == 1 && e < palRegNum then SparkleByte(orig[Ix(e, c)], amount) else orig[Ix(e, c)]
    {
      pal[Ix(palRegNum, 0)] := SparkleByte(pal[Ix(palRegNum, 0)], amount);
      pal[Ix(palRegNum, 1)] := SparkleByte(pal[Ix(palRegNum, 1)], amount);
      pal[Ix(palRegNum, 2)] := SparkleByte(pal[Ix(palRegNum, 2)], amount);
      palRegNum := palRegNum + 4;
    }
    forall i | 0 <= i < PAL_BYTES
      ensures pal[i] == Sparkled(orig, amount)[i]
    {
      assert i == Ix(i / 3, i % 3);
    }
  }

  /** The sparkle amount every lightning palette type uses. */
  const SPARKLE_AMOUNT: int := 9

  /** The palette types initPalArray distinguishes. OtherPal is every
      number that matches none of the eight cases. */
  datatype PaletteType =
    | RgbwPal | WPal | WHalfPal | PastelPal
    | RgbwLightningPal | WHalfLightningPal | PastelLightningPal | WLightningPal
    | OtherPal

  /** The integer palette-type numbers. They are defined in a header that
      is not part of this model, so they are a parameter. */
  datatype PaletteCodes = PaletteCodes(
    rgbw: int, w: int, wHalf: int, pastel: int,
    rgbwLightning: int, wHalfLightning: int, pastelLightning: int, wLightning: int)

  /** Which case of the switch a palette-type number selects. */
  function TypeOf(codes: PaletteCodes, palType: int): (t: PaletteType)
    ensures t == OtherPal <==>
      palType !in {codes.rgbw, codes.w, codes.wHalf, codes.pastel,
                   codes.rgbwLightning, codes.wHalfLightning, codes.pastelLightning, codes.wLightning}
  {
    if palType == codes.rgbw then RgbwPal
    else if palType == codes.w then WPal
    else if palType == codes.wHalf then WHalfPal
    else if palType == codes.pastel then PastelPal
    else if palType == codes.rgbwLightning then RgbwLightningPal
    else if palType == codes.wHalfLightning then WHalfLightningPal
    else if palType == codes.pastelLightning then PastelLightningPal
    else if palType == codes.wLightning then WLightningPal
    else OtherPal
  }

  /** One call the dispatcher makes on the palette array. */
  datatype Pass = RgbwPass | WPass | WHalfPass | PastelPass | SparklePass(amount: int)

  /** The calls each case of initPalArray makes, in order. */
  function Passes(t: PaletteType): seq<Pass>
  {
    match t
    case RgbwPal => [RgbwPass]
    case WPal => [WPass]
    case WHalfPal => [WHalfPass]
    case PastelPal => [PastelPass]
    case RgbwLightningPal => [RgbwPass, SparklePass(SPARKLE_AMOUNT), WPass, SparklePass(SPARKLE_AMOUNT)]
    case WHalfLightningPal => [WHalfPass, SparklePass(SPARKLE_AMOUNT)]
    case PastelLightningPal => [PastelPass, SparklePass(SPARKLE_AMOUNT)]
    case WLightningPal => [WPass, SparklePass(SPARKLE_AMOUNT)]
    case OtherPal => [WPass]
  }

  /** The palette after one pass. */
  function Apply(p: seq<byte>, pass: Pass): (r: seq<byte>)
    requires |p| == PAL_BYTES
    ensures |r| == PAL_BYTES
  {
    match pass
    case RgbwPass => RgbwPalette()
    case WPass => WPalette()
    case WHalfPass => WHalfPalette()
    case PastelPass => PastelPalette()
    case SparklePass(a) => Sparkled(p, a)
  }

  /** The palette after a sequence of passes. */
  function ApplyAll(p: seq<byte>, passes: seq<Pass>): (r: seq<byte>)
    requires |p| == PAL_BYTES
    ensures |r| == PAL_BYTES
    decreases |passes|
  {
    if passes == [] then p else ApplyAll(Apply(p, passes[0]), passes[1..])
  }

  /** The palette initPalArray leaves for type t; its first pass is always
      a full initialiser, so the prior contents do not matter (see
      InitPalArrayIndependent). */
  function TypePalette(t: PaletteType): (r: seq<byte>)
    ensures |r| == PAL_BYTES
  {
    ApplyAll(seq(PAL_BYTES, i => 0), Passes(t))
  }

  method InitPalArray(pal: array<byte>, codes: PaletteCodes, palType: int)
    requires pal.Length == PAL_BYTES
    modifies pal
    ensures pal[..] == ApplyAll(old(pal[..]), Passes(TypeOf(codes, palType)))
  {
    PassesResult(pal[..], TypeOf(codes, palType));
    if palType == codes.rgbw {
      InitRgbw(pal);
    } else if palType == codes.w {
      InitW(pal);
    } else if palType == codes.wHalf {
      InitWHalf(pal);
    } else if palType == codes.pastel {
      InitPastel(pal);
    } else if palType == codes.rgbwLightning {
      InitRgbw(pal);
      AddSparkles(pal, SPARKLE_AMOUNT);
      InitW(pal);
      AddSparkles(pal, SPARKLE_AMOUNT);
    } else if palType == codes.wHalfLightning {
      InitWHalf(pal);
      AddSparkles(pal, SPARKLE_AMOUNT);
    } else if palType == codes.pastelLightning {
      InitPastel(pal);
      AddSparkles(pal, SPARKLE_AMOUNT);
    } else if palType == codes.wLightning {
      InitW(pal);
      AddSparkles(pal, SPARKLE_AMOUNT);
    } else {
      InitW(pal);
    }
  }

  /** What each case of initPalArray leaves, whatever the array held: the
      last full initialiser of the case, sparkled when the case ends with
      a sparkle pass. */
  lemma PassesResult(p: seq<byte>, t: PaletteType)
    requires |p| == PAL_BYTES
    ensures t == RgbwPal ==> ApplyAll(p, Passes(t)) == RgbwPalette()
    ensures t == WPal || t == OtherPal ==> ApplyAll(p, Passes(t)) == WPalette()
    ensures t == WHalfPal ==> ApplyAll(p, Passes(t)) == WHalfPalette()
    ensures t == PastelPal ==> ApplyAll(p, Passes(t)) == PastelPalette()
    ensures t == RgbwLightningPal || t == WLightningPal ==>
      ApplyAll(p, Passes(t)) == Sparkled(WPalette(), SPARKLE_AMOUNT)
    ensures t == WHalfLightningPal ==> ApplyAll(p, Passes(t)) == Sparkled(WHalfPalette(), SPARKLE_AMOUNT)
    ensures t == PastelLightningPal ==> ApplyAll(p, Passes(t)) == Sparkled(PastelPalette(), SPARKLE_AMOUNT)
  {
    match t
    case RgbwLightningPal =>
      ApplyAllFour(p, RgbwPass, SparklePass(SPARKLE_AMOUNT), WPass, SparklePass(SPARKLE_AMOUNT));
    case WHalfLightningPal => ApplyAllTwo(p, WHalfPass, SparklePass(SPARKLE_AMOUNT));
    case PastelLightningPal => ApplyAllTwo(p, PastelPass, SparklePass(SPARKLE_AMOUNT));
    case WLightningPal => ApplyAllTwo(p, WPass, SparklePass(SPARKLE_AMOUNT));
    case RgbwPal => ApplyAllOne(p, RgbwPass);
    case WPal => ApplyAllOne(p, WPass);
    case WHalfPal => ApplyAllOne(p, WHalfPass);
    case PastelPal => ApplyAllOne(p, PastelPass);
    case OtherPal => ApplyAllOne(p, WPass);
  }

  lemma ApplyAllOne(p: seq<byte>, a: Pass)
    requires |p| == PAL_BYTES
    ensures ApplyAll(p, [a]) == Apply(p, a)
  {
    assert [a][1..] == [];
  }

  lemma ApplyAllTwo(p: seq<byte>, a: Pass, b: Pass)
    requires |p| == PAL_BYTES
    ensures ApplyAll(p, [a, b]) == Apply(Apply(p, a), b)
  {
    assert [a, b][1..] == [b];
    ApplyAllOne(Apply(p, a), b);
  }

  lemma ApplyAllFour(p: seq<byte>, a: Pass, b: Pass, c: Pass, d: Pass)
    requires |p| == PAL_BYTES
    ensures ApplyAll(p, [a, b, c, d]) == Apply(Apply(Apply(Apply(p, a), b), c), d)
  {
    assert [a, b, c, d][1..] == [b, c, d];
    assert [b, c, d][1..] == [c, d];
    ApplyAllTwo(Apply(Apply(p, a), b), c, d);
  }

  // ---- Properties of the palettes ----

  /** Every initialiser writes all 768 bytes, so what initPalArray leaves
      does not depend on what the array held before. */
  lemma InitPalArrayIndependent(p: seq<byte>, q: seq<byte>, t: PaletteType)
    requires |p| == PAL_BYTES && |q| == PAL_BYTES
    ensures ApplyAll(p, Passes(t)) == ApplyAll(q, Passes(t)) == TypePalette(t)
  {
    var z: seq<byte> := seq(PAL_BYTES, i => 0);
    var ps := Passes(t);
    assert Apply(p, ps[0]) == Apply(q, ps[0]) == Apply(z, ps[0]);
  }

  /** In the RGBW-lightning case the W initialiser overwrites the first
      two passes, so the result is the W-lightning palette byte for byte. */
  lemma RgbwLightningIsWLightning(p: seq<byte>)
    requires |p| == PAL_BYTES
    ensures ApplyAll(p, Passes(RgbwLightningPal)) == ApplyAll(p, Passes(WLightningPal))
  {
    var s := Sparkled(RgbwPalette(), SPARKLE_AMOUNT);
    assert ApplyAll(p, Passes(RgbwLightningPal)) == ApplyAll(s, [WPass, SparklePass(SPARKLE_AMOUNT)]);
    assert ApplyAll(p, Passes(WLightningPal)) == ApplyAll(p, [WPass, SparklePass(SPARKLE_AMOUNT)]);
  }

  /** W palette: grey (R = G = B), entry e is e/2 up to 127 and
      (255 - e)/2 from 128, every value in [0, 63], and the ramp is
      symmetric: entry e equals entry 255 - e. */
  lemma WPaletteShape()
    ensures forall e, c :: 0 <= e < 256 && 0 <= c < 3 ==>
      var v := WPalette()[Ix(e, c)];
      && v == WPalette()[Ix(e, 0)]
      && v == (if e < 128 then e / 2 else (255 - e) / 2)
      && 0 <= v <= 63
      && v == WPalette()[Ix(255 - e, c)]
  {
    forall e, c | 0 <= e < 256 && 0 <= c < 3
      ensures WPalette()[Ix(e, c)] == WValue(e)
    {
      assert Ix(e, c) / 3 == e;
    }
  }

  /** W-half palette: entries 0..63 are e, 64..127 fall as 63 - (e - 64),
      128..255 are black, and R = G = B throughout. */
  lemma WHalfPaletteShape()
    ensures forall e, c :: 0 <= e < 256 && 0 <= c < 3 ==>
      var v := WHalfPalette()[Ix(e, c)];
      && v == WHalfPalette()[Ix(e, 0)]
      && (e < 64 ==> v == e)
      && (64 <= e < 128 ==> v == 63 - (e - 64))
      && (128 <= e ==> v == 0)
  {
    forall e, c | 0 <= e < 256 && 0 <= c < 3
      ensures WHalfPalette()[Ix(e, c)] == WHalfValue(e)
    {
      assert Ix(e, c) / 3 == e;
    }
  }

  /** Pastel palette: grey, every value in [31, 62]. */
  lemma PastelPaletteShape()
    ensures forall e, c :: 0 <= e < 256 && 0 <= c < 3 ==>
      var v := PastelPalette()[Ix(e, c)];
      && v == PastelPalette()[Ix(e, 0)]
      && 31 <= v <= 62
  {
    forall e, c | 0 <= e < 256 && 0 <= c < 3
      ensures PastelPalette()[Ix(e, c)] == PastelValue(e)
    {
      assert Ix(e, c) / 3 == e;
    }
  }

  /** RGBW palette: every value in [0, 62]; entries 0..63 are pure red,
      64..127 pure green, 128..191 pure blue, and 192..255 grey. */
  lemma RgbwPaletteShape()
    ensures forall i :: 0 <= i < PAL_BYTES ==> 0 <= RgbwPalette()[i] <= 62
    ensures forall e, c :: 0 <= e < 192 && 0 <= c < 3 && c != e / 64 ==> RgbwPalette()[Ix(e, c)] == 0
    ensures forall e, c :: 192 <= e < 256 && 0 <= c < 3 ==> RgbwPalette()[Ix(e, c)] == RgbwPalette()[Ix(e, 0)]
  {
    var p := RgbwPalette();
    forall i | 0 <= i < PAL_BYTES
      ensures 0 <= p[i] <= 62
    {
      assert p[i] == RgbwAt((i / 3) % 64, (i / 3) / 64, i % 3);
    }
    forall e, c | 0 <= e < 256 && 0 <= c < 3
      ensures p[Ix(e, c)] == RgbwAt(e % 64, e / 64, c)
    {
      assert Ix(e, c) / 3 == e && Ix(e, c) % 3 == c;
    }
  }

  /** The sparkle pass changes only entries 1, 5, 9, ..., 253; each of
      their channels becomes min(63, v + amount), which for a
      non-negative amount and v <= 63 never darkens it. */
  lemma SparkledShape(p: seq<byte>, amount: int)
    requires |p| == PAL_BYTES
    ensures forall e, c :: 0 <= e < 256 && 0 <= c < 3 && e % 4 != 1 ==>
      Sparkled(p, amount)[Ix(e, c)] == p[Ix(e, c)]
    ensures forall e, c :: 0 <= e < 256 && 0 <= c < 3 && e % 4 == 1 && 0 <= amount ==>
      Sparkled(p, amount)[Ix(e, c)] == (if p[Ix(e, c)] + amount < 63 then p[Ix(e, c)] + amount else 63)
    ensures 0 <= amount ==> forall i :: 0 <= i < PAL_BYTES && p[i] <= 63 ==>
      p[i] <= Sparkled(p, amount)[i] <= 63
  {
    forall e, c | 0 <= e < 256 && 0 <= c < 3
      ensures Sparkled(p, amount)[Ix(e, c)] ==
        if e % 4 == 1 then SparkleByte(p[Ix(e, c)], amount) else p[Ix(e, c)]
    {
      assert Ix(e, c) / 3 == e;
    }
  }

  /** Every palette type yields bytes in [0, 63], the range of a 6-bit DAC
      register. */
  lemma {:induction false} TypePaletteInRange(t: PaletteType)
    ensures forall i :: 0 <= i < PAL_BYTES ==> TypePalette(t)[i] <= 63
  {
    RgbwPaletteShape();
    PastelPaletteShape();
    assert forall i :: 0 <= i < PAL_BYTES ==> WPalette()[i] <= 63;
    assert forall i :: 0 <= i < PAL_BYTES ==> WHalfPalette()[i] <= 63;
    var z: seq<byte> := seq(PAL_BYTES, i => 0);
    SparkledShape(WPalette(), SPARKLE_AMOUNT);
    SparkledShape(WHalfPalette(), SPARKLE_AMOUNT);
    SparkledShape(PastelPalette(), SPARKLE_AMOUNT);
    if t == RgbwLightningPal {
      RgbwLightningIsWLightning(z);
    }
  }
}
