/** The palette animator. Entry 0 of a palette is the background colour
    and never moves or fades: every routine here works on bytes 3..767.
    A roll rotates each channel of entries 1..255 one step, forward or
    backward according to that channel's direction flag; a fade moves
    each byte one step toward black (0), white (63) or a target palette
    and reports whether every byte was already there. */
module RolNFade {
  import opened Common
  import opened PalInit

  /** Channel offsets inside an entry. The palette stores R, G, B in that
      order (the initialisers put the red band at offset 0, and the
      8-bit-to-32-bit conversion reads red at offset 0). */
  const RED: int := 0
  const GREEN: int := 1
  const BLUE: int := 2

  /** The first byte a roll or a fade touches: entry 0 is left alone. */
  const FIRST_BYTE: int := 3

  /** Result of a fade step. */
  datatype FadeStatus = Done | NotDone

  // ---- Rotation ----

  /** Where byte i of a forward-rotated palette comes from: channel c of
      entry k (1 <= k < 255) takes entry k + 1, entry 255 takes entry 1. */
  function FwdSrc(i: int, c: int): int
  {
    if i % 3 == c && Ix(1, c) <= i < Ix(255, c) then i + 3
    else if i == Ix(255, c) then Ix(1, c)
    else i
  }

  /** Where byte i of a backward-rotated palette comes from: channel c of
      entry k (2 <= k <= 255) takes entry k - 1, entry 1 takes entry 255. */
  function BwdSrc(i: int, c: int): int
  {
    if i % 3 == c && Ix(2, c) <= i < PAL_BYTES then i - 3
    else if i == Ix(1, c) then Ix(255, c)
    else i
  }

  lemma SrcInRange(i: int, c: int)
    requires 0 <= c < 3 && 0 <= i < PAL_BYTES
    ensures 0 <= FwdSrc(i, c) < PAL_BYTES && 0 <= BwdSrc(i, c) < PAL_BYTES
    ensures i < FIRST_BYTE ==> FwdSrc(i, c) == i && BwdSrc(i, c) == i
    ensures FIRST_BYTE <= i ==> FIRST_BYTE <= FwdSrc(i, c) && FIRST_BYTE <= BwdSrc(i, c)
  {
  }

  /** FwdSrc and BwdSrc in terms of entries and channels. */
  lemma SrcEntries(e: int, d: int, c: int)
    requires 0 <= e < 256 && 0 <= d < 3 && 0 <= c < 3
    ensures FwdSrc(Ix(e, d), c) ==
      if d == c && 1 <= e < 255 then Ix(e, d) + 3 else if d == c && e == 255 then Ix(1, d) else Ix(e, d)
    ensures BwdSrc(Ix(e, d), c) ==
      if d == c && 2 <= e then Ix(e, d) - 3 else if d == c && e == 1 then Ix(255, d) else Ix(e, d)
  {
    assert Ix(e, d) % 3 == d;
  }

  function RotatedForward(p: seq<byte>, c: int): (r: seq<byte>)
    requires |p| == PAL_BYTES && 0 <= c < 3
    ensures |r| == PAL_BYTES
  {
    seq(PAL_BYTES, i requires 0 <= i < PAL_BYTES => p[FwdSrc(i, c)])
  }

  function RotatedBackward(p: seq<byte>, c: int): (r: seq<byte>)
    requires |p| == PAL_BYTES && 0 <= c < 3
    ensures |r| == PAL_BYTES
  {
    seq(PAL_BYTES, i requires 0 <= i < PAL_BYTES => p[BwdSrc(i, c)])
  }

  /** rotateforward. The C loop runs to x = 255 and copies byte
      768 + color, past the end of the array, into entry 255 before
      overwriting it with the saved entry 1; this loop stops at 254, which
      leaves the same array without the out-of-bounds read. */
  method RotateForward(pal: array<byte>, color: int)
    requires pal.Length == PAL_BYTES && 0 <= color < 3
    modifies pal
    ensures pal[..] == RotatedForward(old(pal[..]), color)
  {
    ghost var p0 := pal[..];
    var temp := pal[Ix(1, color)];
    var x := 1;
    while x < 255
      invariant 1 <= x <= 255
      invariant forall e, d {:trigger Ix(e, d)} :: 0 <= e < 256 && 0 <= d < 3 ==>
        pal[Ix(e, d)] == if d == color && 1 <= e < x then p0[Ix(e, d) + 3] else p0[Ix(e, d)]
    {
      pal[Ix(x, color)] := pal[Ix(x + 1, color)];
      x := x + 1;
    }
    pal[Ix(255, color)] := temp;
    ForwardByEntries(pal[..], p0, color);
  }

  /** rotatebackward: a downward loop with the saved entry 255. */
  method RotateBackward(pal: array<byte>, color: int)
    requires pal.Length == PAL_BYTES && 0 <= color < 3
    modifies pal
    ensures pal[..] == RotatedBackward(old(pal[..]), color)
  {
    ghost var p0 := pal[..];
    var temp := pal[Ix(255, color)];
    var x := 254;
    while x >= 1
      invariant 0 <= x <= 254
      invariant forall e, d {:trigger Ix(e, d)} :: 0 <= e < 256 && 0 <= d < 3 ==>
        pal[Ix(e, d)] == if d == color && x + 2 <= e then p0[Ix(e, d) - 3] else p0[Ix(e, d)]
    {
      pal[Ix(x + 1, color)] := pal[Ix(x, color)];
      x := x - 1;
    }
    pal[Ix(1, color)] := temp;
    BackwardByEntries(pal[..], p0, color);
  }

  /** A palette that holds, entry by entry, what the forward rotation
      moves there is the forward rotation. */
  lemma ForwardByEntries(q: seq<byte>, p: seq<byte>, c: int)
    requires |q| == PAL_BYTES && |p| == PAL_BYTES && 0 <= c < 3
    requires forall e, d {:trigger Ix(e, d)} :: 0 <= e < 256 && 0 <= d < 3 ==>
      q[Ix(e, d)] == if d == c && 1 <= e < 255 then p[Ix(e, d) + 3]
                     else if d == c && e == 255 then p[Ix(1, d)] else p[Ix(e, d)]
    ensures q == RotatedForward(p, c)
  {
    forall i | 0 <= i < PAL_BYTES
      ensures q[i] == RotatedForward(p, c)[i]
    {
      assert i == Ix(i / 3, i % 3);
      SrcEntries(i / 3, i % 3, c);
    }
  }

  /** The same for the backward rotation. */
  lemma BackwardByEntries(q: seq<byte>, p: seq<byte>, c: int)
    requires |q| == PAL_BYTES && |p| == PAL_BYTES && 0 <= c < 3
    requires forall e, d {:trigger Ix(e, d)} :: 0 <= e < 256 && 0 <= d < 3 ==>
      q[Ix(e, d)] == if d == c && 2 <= e then p[Ix(e, d) - 3]
                     else if d == c && e == 1 then p[Ix(255, d)] else p[Ix(e, d)]
    ensures q == RotatedBackward(p, c)
  {
    forall i | 0 <= i < PAL_BYTES
      ensures q[i] == RotatedBackward(p, c)[i]
    {
      assert i == Ix(i / 3, i % 3);
      SrcEntries(i / 3, i % 3, c);
    }
  }

  /** Entry 0 and the other two channels are left alone; channel c of
      entry 1 moves to entry 255 and every other entry k + 1 moves to
      entry k (the byte three places further on). */
  lemma RotatedForwardMoves(p: seq<byte>, c: int)
    requires |p| == PAL_BYTES && 0 <= c < 3
    ensures forall e, d :: 0 <= e < 256 && 0 <= d < 3 && (d != c || e == 0) ==>
      RotatedForward(p, c)[Ix(e, d)] == p[Ix(e, d)]
    ensures RotatedForward(p, c)[Ix(255, c)] == p[Ix(1, c)]
    ensures forall k :: 1 <= k < 255 ==> RotatedForward(p, c)[Ix(k, c)] == p[Ix(k, c) + 3]
  {
    forall e, d | 0 <= e < 256 && 0 <= d < 3
      ensures RotatedForward(p, c)[Ix(e, d)] ==
        p[if d == c && 1 <= e < 255 then Ix(e, d) + 3 else if d == c && e == 255 then Ix(1, d) else Ix(e, d)]
    {
      SrcEntries(e, d, c);
    }
  }

  /** Entry 0 and the other two channels are left alone; channel c of
      entry 255 moves to entry 1 and every other entry k - 1 (the byte
      three places back) moves to entry k. */
  lemma RotatedBackwardMoves(p: seq<byte>, c: int)
    requires |p| == PAL_BYTES && 0 <= c < 3
    ensures forall e, d :: 0 <= e < 256 && 0 <= d < 3 && (d != c || e == 0) ==>
      RotatedBackward(p, c)[Ix(e, d)] == p[Ix(e, d)]
    ensures RotatedBackward(p, c)[Ix(1, c)] == p[Ix(255, c)]
    ensures forall k :: 2 <= k < 256 ==> RotatedBackward(p, c)[Ix(k, c)] == p[Ix(k, c) - 3]
  {
    forall e, d | 0 <= e < 256 && 0 <= d < 3
      ensures RotatedBackward(p, c)[Ix(e, d)] ==
        p[if d == c && 2 <= e then Ix(e, d) - 3 else if d == c && e == 1 then Ix(255, d) else Ix(e, d)]
    {
      SrcEntries(e, d, c);
    }
  }

  /** Backward rotation is the exact inverse of forward rotation, on
      either side. */
  lemma RotationsInverse(p: seq<byte>, c: int)
    requires |p| == PAL_BYTES && 0 <= c < 3
    ensures RotatedBackward(RotatedForward(p, c), c) == p
    ensures RotatedForward(RotatedBackward(p, c), c) == p
  {
    forall i | 0 <= i < PAL_BYTES
      ensures FwdSrc(BwdSrc(i, c), c) == i && BwdSrc(FwdSrc(i, c), c) == i
    {
      SrcInverse(i, c);
    }
  }

  /** FwdSrc and BwdSrc undo each other. */
  lemma SrcInverse(i: int, c: int)
    requires 0 <= c < 3 && 0 <= i < PAL_BYTES
    ensures FwdSrc(BwdSrc(i, c), c) == i && BwdSrc(FwdSrc(i, c), c) == i
  {
    var e, d := i / 3, i % 3;
    assert i == Ix(e, d);
    SrcEntries(e, d, c);
    if d == c && 2 <= e {
      SrcEntries(e - 1, d, c);
    } else if d == c && e == 1 {
      SrcEntries(255, d, c);
    }
    if d == c && 1 <= e < 255 {
      SrcEntries(e + 1, d, c);
    } else if d == c && e == 255 {
      SrcEntries(1, d, c);
    }
  }

  /** n forward rotations of channel c. */
  function ForwardN(p: seq<byte>, c: int, n: nat): (r: seq<byte>)
    requires |p| == PAL_BYTES && 0 <= c < 3
    ensures |r| == PAL_BYTES
  {
    if n == 0 then p else RotatedForward(ForwardN(p, c, n - 1), c)
  }

  /** The entry whose channel reaches entry e (1 <= e <= 255) after n
      forward rotations: entries 1..255 form a cycle of length 255. */
  function Cycled(e: int, n: nat): int
  {
    1 + (e - 1 + n) % 255
  }

  /** One more rotation: entry e takes what entry e + 1 (or entry 1, for
      e = 255) held after one rotation fewer. */
  lemma CycledStep(e: int, n: nat)
    requires 1 <= e < 256 && n > 0
    ensures Cycled(if e < 255 then e + 1 else 1, n - 1) == Cycled(e, n)
  {
    if e == 255 {
      assert n - 1 + 255 == e - 1 + n;
    }
  }

  /** After n forward rotations, channel c of entry e (1 <= e <= 255)
      holds what entry Cycled(e, n) held, and every other byte is
      unchanged. */
  lemma {:induction false} ForwardNEntries(p: seq<byte>, c: int, n: nat)
    requires |p| == PAL_BYTES && 0 <= c < 3
    ensures forall e :: 1 <= e < 256 ==> ForwardN(p, c, n)[Ix(e, c)] == p[Ix(Cycled(e, n), c)]
    ensures forall e, d :: 0 <= e < 256 && 0 <= d < 3 && (d != c || e == 0) ==>
      ForwardN(p, c, n)[Ix(e, d)] == p[Ix(e, d)]
  {
    if n > 0 {
      var q := ForwardN(p, c, n - 1);
      var r := ForwardN(p, c, n);
      assert r == RotatedForward(q, c);
      ForwardNEntries(p, c, n - 1);
      forall e | 1 <= e < 256
        ensures r[Ix(e, c)] == p[Ix(Cycled(e, n), c)]
      {
        var s := if e < 255 then e + 1 else 1;
        SrcEntries(e, c, c);
        assert FwdSrc(Ix(e, c), c) == Ix(s, c);
        assert r[Ix(e, c)] == q[Ix(s, c)];
        CycledStep(e, n);
      }
      forall e, d | 0 <= e < 256 && 0 <= d < 3 && (d != c || e == 0)
        ensures r[Ix(e, d)] == p[Ix(e, d)]
      {
        SrcEntries(e, d, c);
        assert r[Ix(e, d)] == q[Ix(e, d)];
      }
    }
  }

  /** 255 forward rotations of one channel restore the palette byte for
      byte (entries 1..255 form a cycle of length 255). */
  lemma ForwardCycle(p: seq<byte>, c: int)
    requires |p| == PAL_BYTES && 0 <= c < 3
    ensures ForwardN(p, c, 255) == p
  {
    ForwardNEntries(p, c, 255);
    forall e, d | 0 <= e < 256 && 0 <= d < 3
      ensures ForwardN(p, c, 255)[Ix(e, d)] == p[Ix(e, d)]
    {
      if d == c && e >= 1 {
        CycledFull(e);
      }
    }
    forall i | 0 <= i < PAL_BYTES
      ensures ForwardN(p, c, 255)[i] == p[i]
    {
      assert i == Ix(i / 3, i % 3);
    }
  }

  /** A full turn of the cycle leaves every entry where it was. */
  lemma CycledFull(e: int)
    requires 1 <= e < 256
    ensures Cycled(e, 255) == e
  {
    assert e - 1 + 255 == 255 + (e - 1);
  }

  // ---- Roll directions ----

  /** The three roll-direction flags; false rolls that channel forward. */
  datatype Dirs = Dirs(red: bool, green: bool, blue: bool)

  /** maybeInvertSubPalRollDirection for a given draw: 0, 1 and 2 flip
      red, green and blue; any other draw changes nothing. */
  function Inverted(d: Dirs, draw: int): (r: Dirs)
    ensures r.red != d.red <==> draw == 0
    ensures r.green != d.green <==> draw == 1
    ensures r.blue != d.blue <==> draw == 2
  {
    if draw == 0 then d.(red := !d.red)
    else if draw == 1 then d.(green := !d.green)
    else if draw == 2 then d.(blue := !d.blue)
    else d
  }

  /** Exactly one flag changes when the draw is 0, 1 or 2, and none
      otherwise; the same draw again undoes it. */
  lemma InvertedFlipCount(d: Dirs, draw: int)
    ensures var r := Inverted(d, draw);
      (if r.red != d.red then 1 else 0) + (if r.green != d.green then 1 else 0)
        + (if r.blue != d.blue then 1 else 0) == (if draw in {0, 1, 2} then 1 else 0)
    ensures Inverted(Inverted(d, draw), draw) == d
  {
  }

  /** One channel rotated in the direction its flag selects. */
  function Rot(p: seq<byte>, c: int, backward: bool): (r: seq<byte>)
    requires |p| == PAL_BYTES && 0 <= c < 3
    ensures |r| == PAL_BYTES
  {
    if backward then RotatedBackward(p, c) else RotatedForward(p, c)
  }

  /** roll_rgb_palArray: red, then green, then blue. */
  function Rolled(p: seq<byte>, d: Dirs): (r: seq<byte>)
    requires |p| == PAL_BYTES
    ensures |r| == PAL_BYTES
  {
    Rot(Rot(Rot(p, RED, d.red), GREEN, d.green), BLUE, d.blue)
  }

  /** Rolling back with every flag inverted undoes a roll. */
  lemma RolledInverse(p: seq<byte>, d: Dirs)
    requires |p| == PAL_BYTES
    ensures Rot(Rot(Rot(Rolled(p, d), BLUE, !d.blue), GREEN, !d.green), RED, !d.red) == p
  {
    var a := Rot(p, RED, d.red);
    var b := Rot(a, GREEN, d.green);
    RotationsInverse(b, BLUE);
    RotationsInverse(a, GREEN);
    RotationsInverse(p, RED);
  }

  // ---- Relations kept by a roll ----

  /** R holds between p[i] and t[i] for every byte a roll or fade touches. */
  predicate Holds(R: (int, int) -> bool, p: seq<byte>, t: seq<byte>)
    requires |p| == PAL_BYTES && |t| == PAL_BYTES
  {
    forall i :: FIRST_BYTE <= i < PAL_BYTES ==> R(p[i], t[i])
  }

  lemma RotKeeps(R: (int, int) -> bool, p: seq<byte>, t: seq<byte>, c: int, backward: bool)
    requires |p| == PAL_BYTES && |t| == PAL_BYTES && 0 <= c < 3
    requires Holds(R, p, t)
    ensures Holds(R, Rot(p, c, backward), Rot(t, c, backward))
  {
    forall i | FIRST_BYTE <= i < PAL_BYTES
      ensures R(Rot(p, c, backward)[i], Rot(t, c, backward)[i])
    {
      SrcInRange(i, c);
    }
  }

  /** Rolling two palettes with the same directions keeps any byte-wise
      relation between them. */
  lemma RolledKeeps(R: (int, int) -> bool, p: seq<byte>, t: seq<byte>, d: Dirs)
    requires |p| == PAL_BYTES && |t| == PAL_BYTES
    requires Holds(R, p, t)
    ensures Holds(R, Rolled(p, d), Rolled(t, d))
  {
    RotKeeps(R, p, t, RED, d.red);
    RotKeeps(R, Rot(p, RED, d.red), Rot(t, RED, d.red), GREEN, d.green);
    RotKeeps(R, Rot(Rot(p, RED, d.red), GREEN, d.green), Rot(Rot(t, RED, d.red), GREEN, d.green), BLUE, d.blue);
  }

  /** A roll never moves bytes 0..2 (the background entry). */
  lemma RolledKeepsEntry0(p: seq<byte>, d: Dirs)
    requires |p| == PAL_BYTES
    ensures Rolled(p, d)[..FIRST_BYTE] == p[..FIRST_BYTE]
  {
    var a := Rot(p, RED, d.red);
    var b := Rot(a, GREEN, d.green);
    forall i | 0 <= i < FIRST_BYTE
      ensures Rolled(p, d)[i] == p[i]
    {
      SrcInRange(i, RED);
      SrcInRange(i, GREEN);
      SrcInRange(i, BLUE);
    }
  }

  /** Rolling two palettes alike keeps them equal on bytes 3..767. */
  lemma RolledKeepsEquality(p: seq<byte>, t: seq<byte>, d: Dirs)
    requires |p| == PAL_BYTES && |t| == PAL_BYTES
    requires p[FIRST_BYTE..] == t[FIRST_BYTE..]
    ensures Rolled(p, d)[FIRST_BYTE..] == Rolled(t, d)[FIRST_BYTE..]
  {
    var Eq := (a: int, b: int) => a == b;
    assert Holds(Eq, p, t) by {
      forall i | FIRST_BYTE <= i < PAL_BYTES ensures p[i] == t[i] {
        assert p[i] == p[FIRST_BYTE..][i - FIRST_BYTE];
      }
    }
    RolledKeeps(Eq, p, t, d);
  }

  // ---- Fades ----

  function FadedToWhite(p: seq<byte>): (r: seq<byte>)
    requires |p| == PAL_BYTES
    ensures |r| == PAL_BYTES
  {
    seq(PAL_BYTES, i requires 0 <= i < PAL_BYTES =>
      if FIRST_BYTE <= i && p[i] < 63 then p[i] + 1 else p[i])
  }

  function FadedToBlack(p: seq<byte>): (r: seq<byte>)
    requires |p| == PAL_BYTES
    ensures |r| == PAL_BYTES
  {
    seq(PAL_BYTES, i requires 0 <= i < PAL_BYTES =>
      if FIRST_BYTE <= i && p[i] > 0 then p[i] - 1 else p[i])
  }

  function FadedToward(p: seq<byte>, t: seq<byte>): (r: seq<byte>)
    requires |p| == PAL_BYTES && |t| == PAL_BYTES
    ensures |r| == PAL_BYTES
  {
    seq(PAL_BYTES, i requires 0 <= i < PAL_BYTES =>
      if FIRST_BYTE <= i && p[i] < t[i] then p[i] + 1
      else if FIRST_BYTE <= i && p[i] > t[i] then p[i] - 1
      else p[i])
  }

  predicate AllWhite(p: seq<byte>)
    requires |p| == PAL_BYTES
  {
    forall i :: FIRST_BYTE <= i < PAL_BYTES ==> p[i] >= 63
  }

  predicate AllBlack(p: seq<byte>)
    requires |p| == PAL_BYTES
  {
    forall i :: FIRST_BYTE <= i < PAL_BYTES ==> p[i] == 0
  }

  predicate AllEqual(p: seq<byte>, t: seq<byte>)
    requires |p| == PAL_BYTES && |t| == PAL_BYTES
  {
    forall i :: FIRST_BYTE <= i < PAL_BYTES ==> p[i] == t[i]
  }

  /** The per-byte tests the fade loops count. */
  function IsWhite(p: seq<byte>): int -> bool
  {
    i => 0 <= i < |p| && p[i] >= 63
  }

  function IsBlack(p: seq<byte>): int -> bool
  {
    i => 0 <= i < |p| && p[i] == 0
  }

  function IsEqual(p: seq<byte>, t: seq<byte>): int -> bool
  {
    i => 0 <= i < |p| && 0 <= i < |t| && p[i] == t[i]
  }

  lemma CountWhite(p: seq<byte>)
    requires |p| == PAL_BYTES
    ensures Count(IsWhite(p), FIRST_BYTE, PAL_BYTES) >= 765 <==> AllWhite(p)
  {
    CountAll(IsWhite(p), FIRST_BYTE, PAL_BYTES);
    assert forall i :: FIRST_BYTE <= i < PAL_BYTES ==> (IsWhite(p)(i) <==> p[i] >= 63);
  }

  lemma CountBlack(p: seq<byte>)
    requires |p| == PAL_BYTES
    ensures Count(IsBlack(p), FIRST_BYTE, PAL_BYTES) >= 765 <==> AllBlack(p)
  {
    CountAll(IsBlack(p), FIRST_BYTE, PAL_BYTES);
    assert forall i :: FIRST_BYTE <= i < PAL_BYTES ==> (IsBlack(p)(i) <==> p[i] == 0);
  }

  lemma CountEqual(p: seq<byte>, t: seq<byte>)
    requires |p| == PAL_BYTES && |t| == PAL_BYTES
    ensures Count(IsEqual(p, t), FIRST_BYTE, PAL_BYTES) >= 765 <==> AllEqual(p, t)
  {
    CountAll(IsEqual(p, t), FIRST_BYTE, PAL_BYTES);
    assert forall i :: FIRST_BYTE <= i < PAL_BYTES ==> (IsEqual(p, t)(i) <==> p[i] == t[i]);
  }

  /** fadePalArrayToWhite. DONE exactly when every byte from 3 on was
      already at least 63 on entry. */
  method FadeToWhite(pal: array<byte>) returns (st: FadeStatus)
    requires pal.Length == PAL_BYTES
    modifies pal
    ensures pal[..] == FadedToWhite(old(pal[..]))
    ensures st == Done <==> AllWhite(old(pal[..]))
  {
    ghost var p0 := pal[..];
    ghost var w := FadedToWhite(p0);
    var numWhite := 0;
    var palByteNum := FIRST_BYTE;
    while palByteNum < PAL_BYTES
      invariant FIRST_BYTE <= palByteNum <= PAL_BYTES
      invariant forall i :: 0 <= i < palByteNum ==> pal[i] == w[i]
      invariant forall i :: palByteNum <= i < PAL_BYTES ==> pal[i] == p0[i]
      invariant numWhite == Count(IsWhite(p0), FIRST_BYTE, palByteNum)
    {
      if pal[palByteNum] < 63 {
        pal[palByteNum] := pal[palByteNum] + 1;
      } else {
        numWhite := numWhite + 1;
      }
      palByteNum := palByteNum + 1;
    }
    CountWhite(p0);
    st := if numWhite >= 765 then Done else NotDone;
  }

  /** fadePalArrayToBlack. DONE exactly when every byte from 3 on was
      already 0 on entry. */
  method FadeToBlack(pal: array<byte>) returns (st: FadeStatus)
    requires pal.Length == PAL_BYTES
    modifies pal
    ensures pal[..] == FadedToBlack(old(pal[..]))
    ensures st == Done <==> AllBlack(old(pal[..]))
  {
    ghost var p0 := pal[..];
    ghost var w := FadedToBlack(p0);
    var numBlack := 0;
    var palByteNum := FIRST_BYTE;
    while palByteNum < PAL_BYTES
      invariant FIRST_BYTE <= palByteNum <= PAL_BYTES
      invariant forall i :: 0 <= i < palByteNum ==> pal[i] == w[i]
      invariant forall i :: palByteNum <= i < PAL_BYTES ==> pal[i] == p0[i]
      invariant numBlack == Count(IsBlack(p0), FIRST_BYTE, palByteNum)
    {
      if pal[palByteNum] > 0 {
        pal[palByteNum] := pal[palByteNum] - 1;
      } else {
        numBlack := numBlack + 1;
      }
      palByteNum := palByteNum + 1;
    }
    CountBlack(p0);
    st := if numBlack >= 765 then Done else NotDone;
  }

  /** fadePalArrayToTarget. The target is only read; when both arguments
      are the same array every byte is equal, nothing is written and the
      result is DONE. */
  method FadeToTarget(pal: array<byte>, target: array<byte>) returns (st: FadeStatus)
    requires pal.Length == PAL_BYTES && target.Length == PAL_BYTES
    modifies pal
    ensures target[..] == old(target[..])
    ensures pal[..] == FadedToward(old(pal[..]), old(target[..]))
    ensures st == Done <==> AllEqual(old(pal[..]), old(target[..]))
  {
    ghost var p0 := pal[..];
    ghost var t0 := target[..];
    ghost var w := FadedToward(p0, t0);
    var numEqual := 0;
    var palByteNum := FIRST_BYTE;
    while palByteNum < PAL_BYTES
      invariant FIRST_BYTE <= palByteNum <= PAL_BYTES
      invariant target[..] == t0
      invariant forall i :: 0 <= i < palByteNum ==> pal[i] == w[i]
      invariant forall i :: palByteNum <= i < PAL_BYTES ==> pal[i] == p0[i]
      invariant numEqual == Count(IsEqual(p0, t0), FIRST_BYTE, palByteNum)
    {
      if pal[palByteNum] < target[palByteNum] {
        pal[palByteNum] := pal[palByteNum] + 1;
      } else if pal[palByteNum] > target[palByteNum] {
        pal[palByteNum] := pal[palByteNum] - 1;
      } else {
        numEqual := numEqual + 1;
      }
      palByteNum := palByteNum + 1;
    }
    CountEqual(p0, t0);
    st := if numEqual >= 765 then Done else NotDone;
  }

  /** A palette faded toward itself does not change (the main == target
      case reports DONE on the first call). */
  lemma FadedTowardSelf(p: seq<byte>)
    requires |p| == PAL_BYTES
    ensures FadedToward(p, p) == p && AllEqual(p, p)
  {
  }

  // ---- Convergence ----

  function AtLeastRel(m: int): (int, int) -> bool { (a, b) => a >= m }
  function AtMostRel(m: int): (int, int) -> bool { (a, b) => a <= m }
  function NearRel(m: int): (int, int) -> bool { (a, b) => a - m <= b <= a + m }

  /** One fade toward white raises a floor below 63 by one. */
  lemma WhiteStep(p: seq<byte>, m: int)
    requires |p| == PAL_BYTES && m < 63
    requires Holds(AtLeastRel(m), p, p)
    ensures Holds(AtLeastRel(m + 1), FadedToWhite(p), FadedToWhite(p))
  {
    forall i | FIRST_BYTE <= i < PAL_BYTES ensures FadedToWhite(p)[i] >= m + 1 {
      assert p[i] >= m;
    }
  }

  /** One fade toward black lowers a positive ceiling by one. */
  lemma BlackStep(p: seq<byte>, m: int)
    requires |p| == PAL_BYTES && m > 0
    requires Holds(AtMostRel(m), p, p)
    ensures Holds(AtMostRel(m - 1), FadedToBlack(p), FadedToBlack(p))
  {
    forall i | FIRST_BYTE <= i < PAL_BYTES ensures FadedToBlack(p)[i] <= m - 1 {
      assert p[i] <= m;
    }
  }

  /** One fade toward t brings every byte one step closer, and leaves t. */
  lemma TowardStep(p: seq<byte>, t: seq<byte>, m: int)
    requires |p| == PAL_BYTES && |t| == PAL_BYTES && m > 0
    requires Holds(NearRel(m), p, t)
    ensures Holds(NearRel(m - 1), FadedToward(p, t), t)
  {
    forall i | FIRST_BYTE <= i < PAL_BYTES ensures NearRel(m - 1)(FadedToward(p, t)[i], t[i]) {
      assert NearRel(m)(p[i], t[i]);
    }
  }

  /** Ticks of rolNFadeWhtMainPalArrayNLoadDAC while the fade is not yet
      complete: fade, then roll with that tick's directions. */
  function WhiteRun(p: seq<byte>, ds: seq<Dirs>): (r: seq<byte>)
    requires |p| == PAL_BYTES
    ensures |r| == PAL_BYTES
    decreases |ds|
  {
    if ds == [] then p else WhiteRun(Rolled(FadedToWhite(p), ds[0]), ds[1..])
  }

  function BlackRun(p: seq<byte>, ds: seq<Dirs>): (r: seq<byte>)
    requires |p| == PAL_BYTES
    ensures |r| == PAL_BYTES
    decreases |ds|
  {
    if ds == [] then p else BlackRun(Rolled(FadedToBlack(p), ds[0]), ds[1..])
  }

  lemma {:induction false} WhiteRunFloor(p: seq<byte>, ds: seq<Dirs>, m: int)
    requires |p| == PAL_BYTES && m + |ds| <= 63
    requires Holds(AtLeastRel(m), p, p)
    ensures Holds(AtLeastRel(m + |ds|), WhiteRun(p, ds), WhiteRun(p, ds))
    decreases |ds|
  {
    if ds != [] {
      WhiteStep(p, m);
      RolledKeeps(AtLeastRel(m + 1), FadedToWhite(p), FadedToWhite(p), ds[0]);
      WhiteRunFloor(Rolled(FadedToWhite(p), ds[0]), ds[1..], m + 1);
    }
  }

  lemma {:induction false} BlackRunCeiling(p: seq<byte>, ds: seq<Dirs>, m: int)
    requires |p| == PAL_BYTES && |ds| <= m
    requires Holds(AtMostRel(m), p, p)
    ensures Holds(AtMostRel(m - |ds|), BlackRun(p, ds), BlackRun(p, ds))
    decreases |ds|
  {
    if ds != [] {
      BlackStep(p, m);
      RolledKeeps(AtMostRel(m - 1), FadedToBlack(p), FadedToBlack(p), ds[0]);
      BlackRunCeiling(Rolled(FadedToBlack(p), ds[0]), ds[1..], m - 1);
    }
  }

  /** From any palette, whatever the roll directions, 63 fade-and-roll
      ticks leave every byte at 63 or more, so the 64th fade reports DONE. */
  lemma WhiteConverges(p: seq<byte>, ds: seq<Dirs>)
    requires |p| == PAL_BYTES && |ds| == 63
    ensures AllWhite(WhiteRun(p, ds))
  {
    WhiteRunFloor(p, ds, 0);
    var r := WhiteRun(p, ds);
    assert forall i :: FIRST_BYTE <= i < PAL_BYTES ==> AtLeastRel(63)(r[i], r[i]);
  }

  /** From a palette of 6-bit values, 63 fade-and-roll ticks reach black,
      so the 64th fade reports DONE. */
  lemma BlackConverges(p: seq<byte>, ds: seq<Dirs>)
    requires |p| == PAL_BYTES && |ds| == 63
    requires forall i :: FIRST_BYTE <= i < PAL_BYTES ==> p[i] <= 63
    ensures AllBlack(BlackRun(p, ds))
  {
    assert Holds(AtMostRel(63), p, p);
    BlackRunCeiling(p, ds, 63);
    var r := BlackRun(p, ds);
    assert forall i :: FIRST_BYTE <= i < PAL_BYTES ==> AtMostRel(0)(r[i], r[i]);
  }

  /** Ticks of rolNFadeMainPalAryToTargNLodDAC while the fade is not yet
      complete: fade main toward target, then roll both alike. */
  function TargetRun(p: seq<byte>, t: seq<byte>, ds: seq<Dirs>): (r: (seq<byte>, seq<byte>))
    requires |p| == PAL_BYTES && |t| == PAL_BYTES
    ensures |r.0| == PAL_BYTES && |r.1| == PAL_BYTES
    decreases |ds|
  {
    if ds == [] then (p, t)
    else TargetRun(Rolled(FadedToward(p, t), ds[0]), Rolled(t, ds[0]), ds[1..])
  }

  lemma {:induction false} TargetRunNear(p: seq<byte>, t: seq<byte>, ds: seq<Dirs>, m: int)
    requires |p| == PAL_BYTES && |t| == PAL_BYTES && |ds| <= m
    requires Holds(NearRel(m), p, t)
    ensures Holds(NearRel(m - |ds|), TargetRun(p, t, ds).0, TargetRun(p, t, ds).1)
    decreases |ds|
  {
    if ds != [] {
      TowardStep(p, t, m);
      RolledKeeps(NearRel(m - 1), FadedToward(p, t), t, ds[0]);
      TargetRunNear(Rolled(FadedToward(p, t), ds[0]), Rolled(t, ds[0]), ds[1..], m - 1);
    }
  }

  /** Between 6-bit palettes, 63 fade-and-roll ticks make main equal to the
      (rolled) target, so the 64th fade reports DONE. */
  lemma TargetConverges(p: seq<byte>, t: seq<byte>, ds: seq<Dirs>)
    requires |p| == PAL_BYTES && |t| == PAL_BYTES && |ds| == 63
    requires forall i :: FIRST_BYTE <= i < PAL_BYTES ==> p[i] <= 63 && t[i] <= 63
    ensures AllEqual(TargetRun(p, t, ds).0, TargetRun(p, t, ds).1)
  {
    assert Holds(NearRel(63), p, t);
    TargetRunNear(p, t, ds, 63);
    var r := TargetRun(p, t, ds);
    assert forall i :: FIRST_BYTE <= i < PAL_BYTES ==> NearRel(0)(r.0[i], r.1[i]);
  }

  // ---- The animator's global state ----

  /** The roll-direction flags of rolnfade.c and FadeCompleteFlag, with
      DIRECTN_CHANGE_PERIOD_IN_TICKS as a parameter (its value is defined
      in a header that is not part of this model). */
  class Animator {
    var redDir: bool
    var grnDir: bool
    var bluDir: bool
    var fadeComplete: bool
    const period: int

    constructor (period: int)
      requires period > 0
      ensures this.period == period
      ensures !redDir && !grnDir && !bluDir && !fadeComplete
    {
      this.period := period;
      redDir, grnDir, bluDir := false, false, false;
      fadeComplete := false;
    }

    function Directions(): Dirs
      reads this
    {
      Dirs(redDir, grnDir, bluDir)
    }

    /** maybeInvertSubPalRollDirection: one draw of RANDOM(period). */
    method MaybeInvert(rng: Rng)
      requires period > 0
      modifies this, rng
      ensures rng.pos == old(rng.pos) + 1
      ensures Directions() == Inverted(old(Directions()), Draw(rng.stream, old(rng.pos), period))
      ensures fadeComplete == old(fadeComplete)
    {
      var draw := rng.Next(period);
      if draw == 0 {
        redDir := !redDir;
      } else if draw == 1 {
        grnDir := !grnDir;
      } else if draw == 2 {
        bluDir := !bluDir;
      }
    }

    /** roll_rgb_palArray. */
    method Roll(pal: array<byte>)
      requires pal.Length == PAL_BYTES
      modifies pal
      ensures pal[..] == Rolled(old(pal[..]), Directions())
    {
      if !redDir { RotateForward(pal, RED); } else { RotateBackward(pal, RED); }
      if !grnDir { RotateForward(pal, GREEN); } else { RotateBackward(pal, GREEN); }
      if !bluDir { RotateForward(pal, BLUE); } else { RotateBackward(pal, BLUE); }
    }

    /** rollMainPalArrayAndLoadDACRegs (the DAC load is a no-op here). */
    method RollMainAndLoad(main: array<byte>, rng: Rng)
      requires main.Length == PAL_BYTES && period > 0
      modifies this, rng, main
      ensures rng.pos == old(rng.pos) + 1
      ensures Directions() == Inverted(old(Directions()), Draw(rng.stream, old(rng.pos), period))
      ensures fadeComplete == old(fadeComplete)
      ensures main[..] == Rolled(old(main[..]), Directions())
    {
      MaybeInvert(rng);
      Roll(main);
    }

    /** rolNFadeWhtMainPalArrayNLoadDAC: nothing when the fade is already
      complete; otherwise one fade step, the flag set exactly when that
      step reported DONE, and one roll. */
    method RolNFadeWht(main: array<byte>, rng: Rng)
      requires main.Length == PAL_BYTES && period > 0
      modifies this, rng, main
      ensures old(fadeComplete) ==>
        && Directions() == old(Directions()) && fadeComplete
        && main[..] == old(main[..]) && rng.pos == old(rng.pos)
      ensures !old(fadeComplete) ==>
        && rng.pos == old(rng.pos) + 1
        && Directions() == Inverted(old(Directions()), Draw(rng.stream, old(rng.pos), period))
        && (fadeComplete <==> AllWhite(old(main[..])))
        && main[..] == Rolled(FadedToWhite(old(main[..])), Directions())
    {
      if !fadeComplete {
        var st := FadeToWhite(main);
        if st == Done {
          fadeComplete := true;
        }
        RollMainAndLoad(main, rng);
      }
    }

    /** rolNFadeBlkMainPalArrayNLoadDAC. */
    method RolNFadeBlk(main: array<byte>, rng: Rng)
      requires main.Length == PAL_BYTES && period > 0
      modifies this, rng, main
      ensures old(fadeComplete) ==>
        && Directions() == old(Directions()) && fadeComplete
        && main[..] == old(main[..]) && rng.pos == old(rng.pos)
      ensures !old(fadeComplete) ==>
        && rng.pos == old(rng.pos) + 1
        && Directions() == Inverted(old(Directions()), Draw(rng.stream, old(rng.pos), period))
        && (fadeComplete <==> AllBlack(old(main[..])))
        && main[..] == Rolled(FadedToBlack(old(main[..])), Directions())
    {
      if !fadeComplete {
        var st := FadeToBlack(main);
        if st == Done {
          fadeComplete := true;
        }
        RollMainAndLoad(main, rng);
      }
    }

    /** rolNFadeMainPalAryToTargNLodDAC: while the fade is incomplete, one
      fade step and both palettes rolled alike; afterwards only main is
      rolled. */
    method RolNFadeToTarg(main: array<byte>, target: array<byte>, rng: Rng)
      requires main.Length == PAL_BYTES && target.Length == PAL_BYTES && period > 0
      requires main != target
      modifies this, rng, main, target
      ensures rng.pos == old(rng.pos) + 1
      ensures Directions() == Inverted(old(Directions()), Draw(rng.stream, old(rng.pos), period))
      ensures old(fadeComplete) ==>
        && fadeComplete
        && main[..] == Rolled(old(main[..]), Directions())
        && target[..] == old(target[..])
      ensures !old(fadeComplete) ==>
        && (fadeComplete <==> AllEqual(old(main[..]), old(target[..])))
        && main[..] == Rolled(FadedToward(old(main[..]), old(target[..])), Directions())
        && target[..] == Rolled(old(target[..]), Directions())
    {
      if !fadeComplete {
        var st := FadeToTarget(main, target);
        if st == Done {
          fadeComplete := true;
        }
        MaybeInvert(rng);
        Roll(main);
        Roll(target);
      } else {
        RollMainAndLoad(main, rng);
      }
    }

    /** rolNFadMainPalAry2RndTargNLdDAC: one fade step toward the target;
      when it reports DONE the target is re-initialised to a random palette
      type RANDOM(numTypes) (NUM_PALETTE_TYPES, and the numbering of the
      types, come from a header and are parameters). Then both are rolled
      alike. The fade flag is not used. */
    method RolNFadToRndTarg(main: array<byte>, target: array<byte>, rng: Rng,
                            codes: PaletteCodes, numTypes: int)
      requires main.Length == PAL_BYTES && target.Length == PAL_BYTES && period > 0
      requires main != target && numTypes > 0
      modifies this, rng, main, target
      ensures fadeComplete == old(fadeComplete)
      ensures var done := AllEqual(old(main[..]), old(target[..]));
        var p0 := old(rng.pos);
        var drawn := if done then 1 else 0;
        var t1 := if done then TypePalette(TypeOf(codes, Draw(rng.stream, p0, numTypes))) else old(target[..]);
        && rng.pos == p0 + drawn + 1
        && Directions() == Inverted(old(Directions()), Draw(rng.stream, p0 + drawn, period))
        && main[..] == Rolled(FadedToward(old(main[..]), old(target[..])), Directions())
        && target[..] == Rolled(t1, Directions())
    {
      ghost var t0 := target[..];
      var st := FadeToTarget(main, target);
      if st == Done {
        var k := rng.Next(numTypes);
        InitPalArray(target, codes, k);
        InitPalArrayIndependent(t0, t0, TypeOf(codes, k));
      }
      MaybeInvert(rng);
      Roll(main);
      Roll(target);
    }
  }
}
