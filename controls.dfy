/** The command codes of processinput and the native front end's globals
    they act on, and the rotation-delay rules of both front ends. The
    native checkinput no longer reads a keyboard and always answers 0. */
module Controls {
  import opened Common
  import opened PalInit

  /** ROTATION_DELAY_DEFAULT. */
  const ROTATION_DELAY_DEFAULT: int := 30000

  /** The step by which codes 6 and 7 change ROTATION_DELAY. */
  const DELAY_STEP: int := 5000

  /** Code 6 of the native processinput: subtract, then clamp a negative
      result to 0. */
  function NativeDelayDown(d: int): (r: int)
    ensures r >= 0
    ensures d >= DELAY_STEP ==> r == d - DELAY_STEP
    ensures d <= DELAY_STEP ==> r == 0
  {
    var e := d - DELAY_STEP;
    if e < 0 then 0 else e
  }

  /** Code 6 of the web processinput: subtract only when the delay exceeds
      the step, else 0. */
  function WebDelayDown(d: int): (r: int)
    ensures r >= 0
    ensures d >= DELAY_STEP ==> r == d - DELAY_STEP
    ensures d <= DELAY_STEP ==> r == 0
  {
    if d > DELAY_STEP then d - DELAY_STEP else 0
  }

  /** The two front ends lower the delay identically, for every delay. */
  lemma DelayDownAgree(d: int)
    ensures NativeDelayDown(d) == WebDelayDown(d)
  {
  }

  /** Code 7: ROTATION_DELAY + 5000 (the `int` sum is taken unbounded). */
  function DelayUp(d: int): (r: int)
    ensures r > d
  {
    d + DELAY_STEP
  }

  /** Raising and then lowering restores any non-negative delay. */
  lemma DelayUpDown(d: int)
    requires d >= 0
    ensures NativeDelayDown(DelayUp(d)) == d && WebDelayDown(DelayUp(d)) == d
  {
  }

  /** checkinput: all keyboard handling was removed, so there is never a
      command. */
  function CheckInput(): int
  {
    0
  }

  /** What a processinput call did besides changing the globals: code 3
      ends the program. */
  datatype Outcome = Continue | Exit

  /** The globals of the native front end that processinput changes. */
  datatype NativeGlobals = NativeGlobals(isRunning: bool, skipImage: bool, newPaletteRequested: bool,
                                         paletteLocked: bool, rotationDelay: int)

  class NativeInput {
    var isRunning: bool
    var skipImage: bool
    var newPaletteRequested: bool
    var paletteLocked: bool
    var rotationDelay: int

    /** The initial values of the globals. */
    constructor ()
      ensures Globals() == NativeGlobals(true, false, false, false, ROTATION_DELAY_DEFAULT)
    {
      isRunning := true;
      skipImage := false;
      newPaletteRequested := false;
      paletteLocked := false;
      rotationDelay := ROTATION_DELAY_DEFAULT;
    }

    function Globals(): NativeGlobals
      reads this
    {
      NativeGlobals(isRunning, skipImage, newPaletteRequested, paletteLocked, rotationDelay)
    }

    /** The switch of processinput on one command code. */
    method ProcessCode(code: int) returns (outcome: Outcome)
      modifies this
      ensures outcome == Exit <==> code == 3
      ensures var g := old(Globals());
        Globals() == (
          if code == 1 then g.(isRunning := !g.isRunning)
          else if code == 2 then g.(skipImage := true)
          else if code == 4 then g.(newPaletteRequested := true)
          else if code == 5 then g.(paletteLocked := !g.paletteLocked)
          else if code == 6 then g.(rotationDelay := NativeDelayDown(g.rotationDelay))
          else if code == 7 then g.(rotationDelay := DelayUp(g.rotationDelay))
          else g)
      ensures old(rotationDelay) >= 0 ==> rotationDelay >= 0
    {
      outcome := Continue;
      if code == 1 {
        if isRunning {
          isRunning := false;
        } else {
          isRunning := true;
        }
      } else if code == 2 {
        skipImage := true;
      } else if code == 3 {
        outcome := Exit;
      } else if code == 4 {
        newPaletteRequested := true;
      } else if code == 5 {
        if paletteLocked {
          paletteLocked := false;
        } else {
          paletteLocked := true;
        }
      } else if code == 6 {
        rotationDelay := rotationDelay - DELAY_STEP;
        if rotationDelay < 0 {
          rotationDelay := 0;
        }
      } else if code == 7 {
        rotationDelay := rotationDelay + DELAY_STEP;
      }
    }

    /** processinput: since checkinput always answers 0, no global changes
        and the program goes on. */
    method ProcessInput() returns (outcome: Outcome)
      modifies this
      ensures outcome == Continue
      ensures Globals() == old(Globals())
    {
      outcome := ProcessCode(CheckInput());
    }
  }

  /** The native newpal as written: one draw of RANDOM(NUM_PALETTE_TYPES + 1)
      and a palette built in an array local to newpal, which is then
      dropped. The palette the main loop animates is main's own local
      array, which newpal cannot reach, so only the random source advances.
      NUM_PALETTE_TYPES and the type numbering are parameters. */
  method NativeNewPal(main: array<byte>, rng: Rng, codes: PaletteCodes, numPaletteTypes: int)
    requires main.Length == PAL_BYTES && numPaletteTypes >= 0
    modifies rng
    ensures rng.pos == old(rng.pos) + 1
    ensures main[..] == old(main[..])
  {
    var paletteTypeNum := rng.Next(numPaletteTypes + 1);
    var mainPalArray := new byte[PAL_BYTES];
    InitPalArray(mainPalArray, codes, paletteTypeNum);
  }

  /** The native newpal as its caller (a new-palette request in the main
      loop) intends it: the drawn palette type is installed in the palette
      the main loop animates, as the web newpal does with its global
      MainPalArray. */
  method NativeNewPalIntended(main: array<byte>, rng: Rng, codes: PaletteCodes, numPaletteTypes: int)
    requires main.Length == PAL_BYTES && numPaletteTypes >= 0
    modifies main, rng
    ensures rng.pos == old(rng.pos) + 1
    ensures main[..] == TypePalette(TypeOf(codes, Draw(rng.stream, old(rng.pos), numPaletteTypes + 1)))
  {
    ghost var m0 := main[..];
    var paletteTypeNum := rng.Next(numPaletteTypes + 1);
    InitPalArray(main, codes, paletteTypeNum);
    InitPalArrayIndependent(m0, m0, TypeOf(codes, paletteTypeNum));
  }

  /** No palette type is all black: entry 2 always has some red. So on a
      black main palette (the end of a fade to black) the as-written
      newpal, which leaves main as it was, and the intended one differ
      whatever is drawn. */
  lemma NewPaletteIsNotBlack(t: PaletteType)
    ensures TypePalette(t)[Ix(2, 0)] > 0
    ensures TypePalette(t) != seq(PAL_BYTES, i => 0)
  {
    var z: seq<byte> := seq(PAL_BYTES, i => 0);
    PassesResult(z, t);
    assert z[Ix(2, 0)] == 0;
  }
}
