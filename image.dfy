/** Image generation and its helpers. An image is xmax * ymax palette
    indices in raster order, each computed by one of 41 formulas from the
    pixel's offset to the centre, the distance and angle tables, a few
    random offsets drawn once per image and, for the "rain" formulas, the
    already-written pixels to the left and above. */
module Image {
  import opened Common
  import opened PalInit

  /** ANGLE_UNIT: the angle table's full turn. */
  const ANGLE_UNIT: int := 256

  /** NUM_IMAGE_FUNCTIONS. */
  const NUM_IMAGE_FUNCTIONS: int := 40

  /** MAX_COLOR_VALUE, the colormax the callers pass. */
  const MAX_COLOR_VALUE: int := 255

  /** lut_dist, lut_angle, lut_sin and lut_cos: tables defined outside
      this model, so arbitrary functions here. */
  datatype Lut = Lut(dist: (int, int) -> int, angle: (int, int) -> int, sin: int -> int, cos: int -> int)

  /** The random centre offsets x1..x4, y1..y4 drawn at the start of
      generate_image. */
  datatype Offsets = Offsets(x1: int, x2: int, x3: int, x4: int, y1: int, y2: int, y3: int, y4: int)

  /** Everything fixed for one call of generate_image. */
  datatype Frame = Frame(lut: Lut, func: int, xcenter: int, ycenter: int,
                         xmax: int, ymax: int, colormax: int, off: Offsets)

  /** A formula's value before normalisation and how many random draws it
      consumed. */
  datatype Raw = Raw(color: int, draws: nat)

  /** The number of draws generate_image makes before the first pixel:
      eight offsets and four angles a1..a4 that are never used. */
  const PREAMBLE_DRAWS: nat := 12

  /** The offsets drawn from the stream at position pos, each
      RANDOM(40) - 20 in the order x1..x4, y1..y4. */
  function OffsetsAt(stream: nat -> nat, pos: nat): (o: Offsets)
    ensures -20 <= o.x1 < 20 && -20 <= o.x2 < 20 && -20 <= o.x3 < 20 && -20 <= o.x4 < 20
    ensures -20 <= o.y1 < 20 && -20 <= o.y2 < 20 && -20 <= o.y3 < 20 && -20 <= o.y4 < 20
  {
    Offsets(Draw(stream, pos, 40) - 20, Draw(stream, pos + 1, 40) - 20,
            Draw(stream, pos + 2, 40) - 20, Draw(stream, pos + 3, 40) - 20,
            Draw(stream, pos + 4, 40) - 20, Draw(stream, pos + 5, 40) - 20,
            Draw(stream, pos + 6, 40) - 20, Draw(stream, pos + 7, 40) - 20)
  }

  /** The feedback formulas, the only ones that read earlier pixels. */
  predicate IsFeedback(f: int)
  {
    f == 28 || f == 29 || f == 33 || f == 34
  }

  /** The switch of generate_image for the pixel (x, y). `left` and `up`
      are the stored pixels at (x - 1, y) and (x, y - 1); the random draws
      come from `stream` starting at `pos`. Division and remainder are C's
      (truncating); `^` is two's-complement XOR on `long`. */
  function Formula(fr: Frame, x: int, y: int, left: int, up: int, stream: nat -> nat, pos: nat): (r: Raw)
    requires fr.colormax >= 2
    ensures r.draws <= 3
  {
    var L := fr.lut;
    var o := fr.off;
    var dx := x - fr.xcenter;
    var dy := y - fr.ycenter;
    var dist := L.dist(dx, dy);
    var angle := L.angle(dx, dy);
    // x * ANGLE_UNIT / xmax and y * ANGLE_UNIT / ymax
    var xa := CDiv(x * ANGLE_UNIT, fr.xmax);
    var ya := CDiv(y * ANGLE_UNIT, fr.ymax);
    // k * x * ANGLE_UNIT / xmax and k * y * ANGLE_UNIT / ymax
    var xk := (k: int) => CDiv(k * x * ANGLE_UNIT, fr.xmax);
    var yk := (k: int) => CDiv(k * y * ANGLE_UNIT, fr.ymax);
    var edge := y == 0 || x == 0;
    // the values of dx, dy, dist and angle after the recomputation in 35..40
    var dy2 := (y - fr.ycenter) * 2;
    var dist2 := L.dist(dx, dy2);
    var angle2 := L.angle(dx, dy2);
    match fr.func
    case 0 => Raw(angle + CDiv(L.sin(dist * 10), 64) + CDiv(L.cos(xa * 2), 32) + CDiv(L.cos(ya * 2), 32), 0)
    case 1 => Raw(angle + CDiv(L.sin(dist * 10), 16) + CDiv(L.cos(xa * 2), 8) + CDiv(L.cos(ya * 2), 8), 0)
    case 2 => Raw(CDiv(L.sin(L.dist(dx + o.x1, dy + o.y1) * 4), 32) + CDiv(L.sin(L.dist(dx + o.x2, dy + o.y2) * 8), 32)
                + CDiv(L.sin(L.dist(dx + o.x3, dy + o.y3) * 16), 32) + CDiv(L.sin(L.dist(dx + o.x4, dy + o.y4) * 32), 32), 0)
    case 3 => Raw(angle + CDiv(L.sin(L.dist(dx + 20, dy) * 10), 32) + angle + CDiv(L.sin(L.dist(dx - 20, dy) * 10), 32), 0)
    case 4 => Raw(CDiv(L.sin(dist), 16), 0)
    case 5 => Raw(CDiv(L.cos(xa), 8) + CDiv(L.cos(ya), 8) + angle + CDiv(L.sin(dist), 32), 0)
    case 6 => Raw(CDiv(L.sin(L.dist(dx, dy - 20) * 4), 32) + CDiv(L.sin(L.dist(dx + 20, dy + 20) * 4), 32)
                + CDiv(L.sin(L.dist(dx - 20, dy + 20) * 4), 32), 0)
    case 7 => Raw(angle + CDiv(L.sin(L.dist(dx, dy - 20) * 8), 32) + CDiv(L.sin(L.dist(dx + 20, dy + 20) * 8), 32)
                + CDiv(L.sin(L.dist(dx - 20, dy + 20) * 8), 32), 0)
    case 8 => Raw(CDiv(L.sin(L.dist(dx, dy - 20) * 12), 32) + CDiv(L.sin(L.dist(dx + 20, dy + 20) * 12), 32)
                + CDiv(L.sin(L.dist(dx - 20, dy + 20) * 12), 32), 0)
    case 9 => Raw(dist + CDiv(L.sin(5 * angle), 64), 0)
    case 10 => Raw(CDiv(L.cos(xa * 2), 4) + CDiv(L.cos(ya * 2), 4), 0)
    case 11 => Raw(CDiv(L.cos(xa), 8) + CDiv(L.cos(ya), 8), 0)
    case 12 => Raw(dist, 0)
    case 13 => Raw(angle, 0)
    case 14 => Raw(angle + CDiv(L.sin(dist * 8), 32), 0)
    case 15 => Raw(CDiv(L.sin(dist * 4), 32), 0)
    case 16 => Raw(dist + CDiv(L.sin(dist * 4), 32), 0)
    case 17 => Raw(CDiv(L.sin(L.cos(xk(2))), 20 + dist) + CDiv(L.sin(L.cos(yk(2))), 20 + dist), 0)
    case 18 => Raw(CDiv(L.cos(xk(7)), 20 + dist) + CDiv(L.cos(yk(7)), 20 + dist), 0)
    case 19 => Raw(CDiv(L.cos(xk(17)), 20 + dist) + CDiv(L.cos(yk(17)), 20 + dist), 0)
    case 20 => Raw(CDiv(L.cos(xk(17)), 32) + CDiv(L.cos(yk(17)), 32) + dist + angle, 0)
    case 21 => Raw(CDiv(L.cos(xk(7)), 32) + CDiv(L.cos(yk(7)), 32) + dist, 0)
    case 22 => Raw(CDiv(L.cos(xk(7)), 32) + CDiv(L.cos(yk(7)), 32) + CDiv(L.cos(xk(11)), 32) + CDiv(L.cos(yk(11)), 32), 0)
    case 23 => Raw(CDiv(L.sin(angle * 7), 32), 0)
    case 24 => Raw(CDiv(L.sin(L.dist(dx + o.x1, dy + o.y1) * 2), 12) + CDiv(L.sin(L.dist(dx + o.x2, dy + o.y2) * 4), 12)
                 + CDiv(L.sin(L.dist(dx + o.x3, dy + o.y3) * 6), 12) + CDiv(L.sin(L.dist(dx + o.x4, dy + o.y4) * 8), 12), 0)
    case 25 => Raw(angle + CDiv(L.sin(L.dist(dx + o.x1, dy + o.y1) * 2), 16) + angle + CDiv(L.sin(L.dist(dx + o.x2, dy + o.y2) * 4), 16)
                 + CDiv(L.sin(L.dist(dx + o.x3, dy + o.y3) * 6), 8) + CDiv(L.sin(L.dist(dx + o.x4, dy + o.y4) * 8), 8), 0)
    case 26 => Raw(angle + CDiv(L.sin(L.dist(dx + o.x1, dy + o.y1) * 2), 12) + angle + CDiv(L.sin(L.dist(dx + o.x2, dy + o.y2) * 4), 12)
                 + angle + CDiv(L.sin(L.dist(dx + o.x3, dy + o.y3) * 6), 12) + angle + CDiv(L.sin(L.dist(dx + o.x4, dy + o.y4) * 8), 12), 0)
    case 27 => Raw(CDiv(L.sin(L.dist(dx + o.x1, dy + o.y1) * 2), 32) + CDiv(L.sin(L.dist(dx + o.x2, dy + o.y2) * 4), 32)
                 + CDiv(L.sin(L.dist(dx + o.x3, dy + o.y3) * 6), 32) + CDiv(L.sin(L.dist(dx + o.x4, dy + o.y4) * 8), 32), 0)
    case 28 =>
      if edge then Raw(Draw(stream, pos, 16), 1)
      else Raw(CDiv(left + up, 2) + Draw(stream, pos, 16) - 8, 1)
    case 29 =>
      if edge then Raw(Draw(stream, pos, 1024), 1)
      else Raw(CDiv(dist, 6) + CDiv(left + up, 2) + Draw(stream, pos, 16) - 8, 1)
    case 30 => Raw(Xor(Xor(CDiv(L.sin(L.dist(dx, dy - 20) * 4), 32), CDiv(L.sin(L.dist(dx + 20, dy + 20) * 4), 32)),
                       CDiv(L.sin(L.dist(dx - 20, dy + 20) * 4), 32)), 0)
    case 31 => Raw(Xor(CRem(angle, ANGLE_UNIT / 4), dist), 0)
    case 32 => Raw(Xor(dy, dx), 0)
    case 33 =>
      var k: nat := if edge then 1 else 0;
      var c0 := if edge then Draw(stream, pos, 16) else CDiv(left + up, 2);
      var c1 := c0 + Draw(stream, pos + k, 2) - 1;
      if c1 < 64 then Raw(c1 + Draw(stream, pos + k + 1, 16) - 8, k + 2) else Raw(c1, k + 1)
    case 34 =>
      var k: nat := if edge then 1 else 0;
      var c0 := if edge then Draw(stream, pos, 16) else CDiv(left + up, 2);
      if c0 < 100 then Raw(c0 + Draw(stream, pos + k, 16) - 8, k + 1) else Raw(c0, k)
    case 35 =>
      var c := angle + CDiv(L.sin(dist * 8), 32);
      Raw(CDiv(c + angle2 + CDiv(L.sin(dist2 * 8), 32), 2), 0)
    case 36 =>
      var c := angle + CDiv(L.sin(dist * 10), 16) + CDiv(L.cos(xa * 2), 8) + CDiv(L.cos(ya * 2), 8);
      Raw(CDiv(c + angle2 + CDiv(L.sin(dist2 * 8), 32), 2), 0)
    case 37 =>
      var c := angle + CDiv(L.sin(dist * 10), 16) + CDiv(L.cos(xa * 2), 8) + CDiv(L.cos(ya * 2), 8);
      Raw(CDiv(c + angle2 + CDiv(L.sin(dist2 * 10), 16) + CDiv(L.cos(xa * 2), 8) + CDiv(L.cos(ya * 2), 8), 2), 0)
    case 38 =>
      if CRem(dy, 2) != 0 then
        var dyd := dy * 2;
        Raw(L.angle(dx, dyd) + CDiv(L.sin(L.dist(dx, dyd) * 8), 32), 0)
      else Raw(angle + CDiv(L.sin(dist * 8), 32), 0)
    case 39 =>
      var c := Xor(CRem(angle, ANGLE_UNIT / 4), dist);
      Raw(CDiv(c + Xor(CRem(angle2, ANGLE_UNIT / 4), dist2), 2), 0)
    case 40 =>
      var c := Xor(dy, dx);
      Raw(CDiv(c + Xor(dy2, dx), 2), 0)
    case _ => Raw(Draw(stream, pos, fr.colormax - 1) + 1, 1)
  }

  /** The final normalisation: C's `color % (colormax - 1)`, shifted up
      by colormax - 1 when negative, plus one. */
  function Normalize(color: int, colormax: int): (v: int)
    requires colormax >= 2
    ensures 1 <= v <= colormax - 1
  {
    var r := CRem(color, colormax - 1);
    (if r < 0 then r + (colormax - 1) else r) + 1
  }

  lemma MulBound(a: int, k: int)
    requires a > 0
    ensures k >= 1 ==> a * k >= a
    ensures k <= -1 ==> a * k <= -a
  {
    if k >= 1 {
      assert a * k == a * (k - 1) + a;
    } else if k <= -1 {
      assert a * k == a * (k + 1) - a;
    }
  }

  /** The remainder of a division is unique. */
  lemma ModUnique(c: int, m: int, q: int, r: int)
    requires m > 0 && c == m * q + r && 0 <= r < m
    ensures r == c % m
  {
    var d := c / m;
    assert c == m * d + c % m;
    assert m * (q - d) == m * q - m * d;
    MulBound(m, q - d);
  }

  /** Normalisation is the mathematical residue of the colour modulo
      colormax - 1, plus one; so it lies in [1, colormax - 1] and never
      yields index 0. */
  lemma NormalizeIsResidue(color: int, colormax: int)
    requires colormax >= 2
    ensures Normalize(color, colormax) == color % (colormax - 1) + 1
    ensures 1 <= Normalize(color, colormax) <= colormax - 1
  {
    var m := colormax - 1;
    CDivRem(color, m);
    var q, r := CDiv(color, m), CRem(color, m);
    if r < 0 {
      assert m * (q - 1) == m * q - m;
      ModUnique(color, m, q - 1, r + m);
    } else {
      ModUnique(color, m, q, r);
    }
  }

  /** The byte stored for a raw colour: the normalised value cast to
      uint8_t. */
  function Stored(color: int, colormax: int): byte
    requires colormax >= 2
  {
    Normalize(color, colormax) % 256
  }

  /** For colormax <= 256 the cast changes nothing, so every stored byte
      lies in [1, colormax - 1]: [1, 254] for MAX_COLOR_VALUE. */
  lemma StoredInRange(color: int, colormax: int)
    requires 2 <= colormax <= 256
    ensures 1 <= Stored(color, colormax) <= colormax - 1
    ensures Stored(color, colormax) == Normalize(color, colormax)
  {
    NormalizeIsResidue(color, colormax);
  }

  /** Pixels written so far and the position of the next random draw. */
  datatype Raster = Raster(pix: seq<byte>, pos: nat)

  lemma MulStep(a: int, b: int)
    requires a >= 0 && b >= 1
    ensures a * b >= a && a * b == a * (b - 1) + a
  {
  }

  lemma MulMono(a: int, b: int, c: int)
    requires a >= 0 && 0 <= b <= c
    ensures a * b <= a * c
  {
    assert a * c == a * b + a * (c - b);
  }

  /** A pixel formula with everything that is fixed for one image bound:
      given the pixel (x, y), its left and upper neighbours and the
      position of the next random draw, the raw colour and the number of
      draws consumed. */
  type PixelFormula = (int, int, int, int, nat) -> Raw

  /** The switch of generate_image as a PixelFormula. */
  function FormulaOf(fr: Frame, stream: nat -> nat): PixelFormula
    requires fr.colormax >= 2
  {
    (x: int, y: int, left: int, up: int, pos: nat) => Formula(fr, x, y, left, up, stream, pos)
  }

  /** The pixels written for rows 0..y-1 and the first x pixels of row y,
      in raster order, starting with the draw at pos0. */
  function Rows(fr: Frame, F: PixelFormula, y: nat, x: nat, pos0: nat): (r: Raster)
    requires fr.xmax > 0 && fr.colormax >= 2 && x <= fr.xmax
    ensures |r.pix| == fr.xmax * y + x
    decreases y, x
  {
    if x == 0 then
      if y == 0 then Raster([], pos0)
      else
        MulStep(fr.xmax, y);
        Rows(fr, F, y - 1, fr.xmax, pos0)
    else
      var prev := Rows(fr, F, y, x - 1, pos0);
      NextPixel(fr, F, prev, x - 1, y)
  }

  /** The pixel at (x, y) appended to the pixels before it. Its
      neighbours are read only by the feedback formulas and only away from
      row 0 and column 0, as in the source. */
  function NextPixel(fr: Frame, F: PixelFormula, prev: Raster, x: nat, y: nat): (r: Raster)
    requires fr.xmax > 0 && fr.colormax >= 2 && x < fr.xmax
    requires |prev.pix| == fr.xmax * y + x
    ensures |r.pix| == |prev.pix| + 1 && r.pix[..|prev.pix|] == prev.pix
    ensures fr.colormax <= 256 ==> 1 <= r.pix[|prev.pix|] <= fr.colormax - 1
  {
    var n := |prev.pix|;
    var feed := IsFeedback(fr.func) && x > 0 && y > 0;
    assert feed ==> n >= fr.xmax by {
      if feed { MulStep(fr.xmax, y); }
    }
    var left := if feed then prev.pix[n - 1] else 0;
    var up := if feed then prev.pix[n - fr.xmax] else 0;
    var raw := F(x, y, left, up, prev.pos);
    Raster(prev.pix + [Stored(raw.color, fr.colormax)], prev.pos + raw.draws)
  }

  /** The whole image: ymax complete rows. */
  function ImageOf(fr: Frame, stream: nat -> nat, pos0: nat): (r: Raster)
    requires fr.xmax > 0 && fr.ymax >= 0 && fr.colormax >= 2
    ensures |r.pix| == fr.xmax * fr.ymax
  {
    Rows(fr, FormulaOf(fr, stream), fr.ymax, 0, pos0)
  }

  /** The frame a call of generate_image works with, once its offsets are
      drawn from position pos. */
  function FrameOf(lut: Lut, imageFuncNum: int, xcenter: int, ycenter: int, xmax: int, ymax: int,
                   colormax: int, stream: nat -> nat, pos: nat): Frame
  {
    Frame(lut, imageFuncNum, xcenter, ycenter, xmax, ymax, colormax, OffsetsAt(stream, pos))
  }

  /** Only the feedback formulas, and only away from row 0 and column 0,
      depend on the neighbouring pixels. */
  lemma FormulaIgnoresNeighbours(fr: Frame, x: int, y: int, l1: int, u1: int, l2: int, u2: int,
                                 stream: nat -> nat, pos: nat)
    requires fr.colormax >= 2
    requires !IsFeedback(fr.func) || x == 0 || y == 0
    ensures Formula(fr, x, y, l1, u1, stream, pos) == Formula(fr, x, y, l2, u2, stream, pos)
  {
  }

  /** An index outside the switch yields RANDOM(colormax - 1) + 1 from one
      draw; the other indices 0..27, 30..32 and 35..40 draw nothing. */
  lemma FormulaDraws(fr: Frame, x: int, y: int, left: int, up: int, stream: nat -> nat, pos: nat)
    requires fr.colormax >= 2
    ensures !(0 <= fr.func <= 40) ==>
      Formula(fr, x, y, left, up, stream, pos) == Raw(Draw(stream, pos, fr.colormax - 1) + 1, 1)
    ensures 0 <= fr.func <= 40 && !IsFeedback(fr.func) ==> Formula(fr, x, y, left, up, stream, pos).draws == 0
    ensures IsFeedback(fr.func) ==> Formula(fr, x, y, left, up, stream, pos).draws >= 1 || fr.func == 34
  {
  }

  /** Every stored pixel is in [1, colormax - 1], so palette index 0 is
      never used (for colormax <= 256; the callers pass 255). */
  lemma {:induction false} RowsInRange(fr: Frame, F: PixelFormula, y: nat, x: nat, pos0: nat)
    requires fr.xmax > 0 && 2 <= fr.colormax <= 256 && x <= fr.xmax
    ensures forall i :: 0 <= i < |Rows(fr, F, y, x, pos0).pix| ==>
      1 <= Rows(fr, F, y, x, pos0).pix[i] <= fr.colormax - 1
    decreases y, x
  {
    if x == 0 {
      if y > 0 {
        RowsInRange(fr, F, y - 1, fr.xmax, pos0);
      }
    } else {
      RowsInRange(fr, F, y, x - 1, pos0);
      var prev := Rows(fr, F, y, x - 1, pos0);
      var r := NextPixel(fr, F, prev, x - 1, y);
      assert r.pix == prev.pix + [r.pix[|prev.pix|]];
    }
  }

  lemma ImageInRange(fr: Frame, stream: nat -> nat, pos0: nat)
    requires fr.xmax > 0 && fr.ymax >= 0 && 2 <= fr.colormax <= 256
    ensures forall i :: 0 <= i < |ImageOf(fr, stream, pos0).pix| ==> 1 <= ImageOf(fr, stream, pos0).pix[i] <= fr.colormax - 1
  {
    RowsInRange(fr, FormulaOf(fr, stream), fr.ymax, 0, pos0);
  }

  /** Writing pixels only moves the random source forward. */
  lemma {:induction false} RowsMoveForward(fr: Frame, F: PixelFormula, y: nat, x: nat, pos0: nat)
    requires fr.xmax > 0 && fr.colormax >= 2 && x <= fr.xmax
    ensures Rows(fr, F, y, x, pos0).pos >= pos0
    decreases y, x
  {
    if x == 0 {
      if y > 0 {
        RowsMoveForward(fr, F, y - 1, fr.xmax, pos0);
      }
    } else {
      RowsMoveForward(fr, F, y, x - 1, pos0);
    }
  }

  /** The preamble of generate_image: x1..x4 and y1..y4, then the four
      unused angles. */
  method DrawOffsets(rng: Rng) returns (o: Offsets)
    modifies rng
    ensures o == OffsetsAt(rng.stream, old(rng.pos))
    ensures rng.pos == old(rng.pos) + PREAMBLE_DRAWS
  {
    ghost var p := rng.pos;
    var x1 := rng.Next(40);
    var x2 := rng.Next(40);
    var x3 := rng.Next(40);
    var x4 := rng.Next(40);
    var y1 := rng.Next(40);
    var y2 := rng.Next(40);
    var y3 := rng.Next(40);
    var y4 := rng.Next(40);
    o := Offsets(x1 - 20, x2 - 20, x3 - 20, x4 - 20, y1 - 20, y2 - 20, y3 - 20, y4 - 20);
    var a1 := rng.Next(ANGLE_UNIT);
    var a2 := rng.Next(ANGLE_UNIT);
    var a3 := rng.Next(ANGLE_UNIT);
    var a4 := rng.Next(ANGLE_UNIT);
  }

  /** One pass of the inner loop of generate_image: the pixel (x, y) is
      computed, reading its left and upper neighbours from the buffer when
      the formula needs them, and stored at xmax * y + x, after the pixels
      `prev` already written. */
  method WritePixel(fr: Frame, F: PixelFormula, buf: array<byte>, rng: Rng, x: nat, y: nat, ghost prev: Raster)
    requires fr.xmax > 0 && fr.colormax >= 2 && x < fr.xmax
    requires |prev.pix| == fr.xmax * y + x < buf.Length
    requires buf[..|prev.pix|] == prev.pix && rng.pos == prev.pos
    modifies buf, rng
    ensures var next := NextPixel(fr, F, prev, x, y);
      && buf[..|next.pix|] == next.pix
      && (forall i :: |next.pix| <= i < buf.Length ==> buf[i] == old(buf[i]))
      && rng.pos == next.pos
  {
    var n := fr.xmax * y + x;
    var left, up := 0, 0;
    if IsFeedback(fr.func) && x > 0 && y > 0 {
      MulStep(fr.xmax, y);
      left := buf[n - 1];
      up := buf[n - fr.xmax];
      assert left == prev.pix[n - 1] && up == prev.pix[n - fr.xmax];
    }
    var raw := F(x, y, left, up, rng.pos);
    rng.Advance(raw.draws);
    buf[n] := Stored(raw.color, fr.colormax);
    assert buf[..n + 1] == buf[..n] + [buf[n]];
  }

  /** The inner loop of generate_image: row y, pixel by pixel. (With
      xmax <= 0 the loop body never runs, so callers skip the call.) */
  method WriteRow(fr: Frame, F: PixelFormula, buf: array<byte>, rng: Rng, y: nat, ghost p0: nat)
    requires fr.xmax > 0 && fr.colormax >= 2
    requires fr.xmax * (y + 1) <= buf.Length
    requires buf[..fr.xmax * y] == Rows(fr, F, y, 0, p0).pix
    requires rng.pos == Rows(fr, F, y, 0, p0).pos
    modifies buf, rng
    ensures buf[..fr.xmax * (y + 1)] == Rows(fr, F, y + 1, 0, p0).pix
    ensures forall i :: fr.xmax * (y + 1) <= i < buf.Length ==> buf[i] == old(buf[i])
    ensures rng.pos == Rows(fr, F, y + 1, 0, p0).pos
  {
    ghost var b0 := buf[..];
    var row := fr.xmax * y;
    MulStep(fr.xmax, y + 1);
    ghost var cur := Rows(fr, F, y, 0, p0);
    var x := 0;
    while x < fr.xmax
      invariant 0 <= x <= fr.xmax
      invariant cur == Rows(fr, F, y, x, p0)
      invariant buf[..row + x] == cur.pix
      invariant forall i :: row + x <= i < buf.Length ==> buf[i] == b0[i]
      invariant rng.pos == cur.pos
    {
      WritePixel(fr, F, buf, rng, x, y, cur);
      cur := NextPixel(fr, F, cur, x, y);
      x := x + 1;
    }
    assert cur == Rows(fr, F, y + 1, 0, p0);
  }

  /** The two nested loops of generate_image, for a non-empty image. */
  method WriteImage(fr: Frame, F: PixelFormula, buf: array<byte>, rng: Rng)
    requires fr.xmax > 0 && fr.ymax > 0 && fr.colormax >= 2
    requires fr.xmax * fr.ymax <= buf.Length
    modifies buf, rng
    ensures var img := Rows(fr, F, fr.ymax, 0, old(rng.pos));
      && buf[..fr.xmax * fr.ymax] == img.pix
      && (forall i :: fr.xmax * fr.ymax <= i < buf.Length ==> buf[i] == old(buf[i]))
      && rng.pos == img.pos
  {
    ghost var b0 := buf[..];
    ghost var p0 := rng.pos;
    var y := 0;
    while y < fr.ymax
      invariant 0 <= y <= fr.ymax
      invariant fr.xmax * y <= buf.Length
      invariant buf[..fr.xmax * y] == Rows(fr, F, y, 0, p0).pix
      invariant forall i :: fr.xmax * y <= i < buf.Length ==> buf[i] == b0[i]
      invariant rng.pos == Rows(fr, F, y, 0, p0).pos
    {
      MulMono(fr.xmax, y + 1, fr.ymax);
      WriteRow(fr, F, buf, rng, y, p0);
      y := y + 1;
    }
  }

  /** generate_image. The buffer holds the image in raster order at
      index xmax * y + x; bytes past xmax * ymax are untouched. The result
      is always 0, so a caller's failure branch is never taken. */
  method GenerateImage(imageFuncNum: int, buf: array<byte>, xcenter: int, ycenter: int,
                       xmax: int, ymax: int, colormax: int, lut: Lut, rng: Rng) returns (status: int)
    requires colormax >= 2
    requires xmax > 0 && ymax > 0 ==> buf.Length >= xmax * ymax
    modifies buf, rng
    ensures status == 0
    ensures var fr := FrameOf(lut, imageFuncNum, xcenter, ycenter, xmax, ymax, colormax, rng.stream, old(rng.pos));
      if xmax > 0 && ymax > 0 then
        var img := ImageOf(fr, rng.stream, old(rng.pos) + PREAMBLE_DRAWS);
        && buf[..xmax * ymax] == img.pix
        && (forall i :: xmax * ymax <= i < buf.Length ==> buf[i] == old(buf[i]))
        && rng.pos == img.pos
      else
        buf[..] == old(buf[..]) && rng.pos == old(rng.pos) + PREAMBLE_DRAWS
  {
    var off := DrawOffsets(rng);
    var fr := Frame(lut, imageFuncNum, xcenter, ycenter, xmax, ymax, colormax, off);
    if xmax > 0 && ymax > 0 {
      WriteImage(fr, FormulaOf(fr, rng.stream), buf, rng);
    }
    status := 0;
  }
}
