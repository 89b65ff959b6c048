/** The web front end: main_loop_iteration, the six-state machine that
    shows the logo, fades it out, and then cycles through images (new
    image, fade in, rotate, fade out), one call per browser frame; the
    key handling of handle_sdl_events; and the web newpal/processinput.
    The clocks (SDL_GetTicks in milliseconds, time(NULL) in seconds) are
    parameters of each tick, the SDL events a sequence, rendering a no-op. */
module WebSession {
  import opened Common
  import opened PalInit
  import opened RolNFade
  import opened Image
  import opened Shuffle
  import opened Controls

  const NUM_MODERN_EFFECTS: int := 6

  /** CLASSIC_FRAME_DELAY_MS: classic mode advances at most once per 30 ms. */
  const CLASSIC_FRAME_DELAY_MS: int := 30

  const UINT32_MODULUS: int := 0x1_0000_0000

  /** The initial values of logo_time and image_time, in seconds. */
  const LOGO_TIME: int := 4
  const IMAGE_TIME: int := 20

  // ---- The globals, in the three groups the front end declares ----

  /** AppState. */
  datatype Phase = LogoDisplay | LogoFade | NewImage | FadeIn | Rotate | FadeOut

  /** The keyboard-driven state: paused, locked, modern_mode,
      current_modern_effect and last_classic_frame_time. */
  datatype ModernInput = ModernInput(paused: bool, locked: bool, modernMode: bool, effect: int, lastFrame: int)

  /** GO, SKIP, NP, LOCK and ROTATION_DELAY, which processinput acts on. */
  datatype Commands = Commands(go: bool, skip: bool, np: bool, lock: bool, rotationDelay: int)

  /** current_state, imageFuncListIndex, paletteTypeNum, ltime, mtime,
      fade_dir and logo_initialized. */
  datatype Machine = Machine(phase: Phase, index: int, paletteTypeNum: int, ltime: int, mtime: int,
                             fadeDir: bool, logoInitialized: bool)

  /** All of them. */
  datatype WebGlobals = WebGlobals(modern: ModernInput, cmd: Commands, machine: Machine)

  // ---- The states and their transitions ----

  /** The state each state hands over to. */
  function NextPhase(p: Phase): Phase
  {
    match p
    case LogoDisplay => LogoFade
    case LogoFade => NewImage
    case NewImage => FadeIn
    case FadeIn => Rotate
    case Rotate => FadeOut
    case FadeOut => NewImage
  }

  /** Once the logo is gone it never comes back, and the four image states
      form a cycle. */
  lemma PhaseCycle(p: Phase)
    ensures NextPhase(p) != LogoDisplay
    ensures NextPhase(p) == LogoFade <==> p == LogoDisplay
    ensures p != LogoDisplay && p != LogoFade ==> NextPhase(NextPhase(NextPhase(NextPhase(p)))) == p
  {
  }

  /** The state after one processed tick: each state's leaving test. The
      logo's deadline is set on the logo state's first tick, before the
      test reads it. */
  function PhaseAfter(m: Machine, c: Commands, fadeComplete: bool, logoTime: int, nowSec: int): Phase
  {
    match m.phase
    case LogoDisplay =>
      var mtime := if m.logoInitialized then m.mtime else nowSec + logoTime;
      if logoTime == 0 || c.skip || nowSec > mtime then LogoFade else LogoDisplay
    case LogoFade => if c.skip || fadeComplete then NewImage else LogoFade
    case NewImage => FadeIn
    case FadeIn => if c.skip || fadeComplete then Rotate else FadeIn
    case Rotate => if c.skip || (!c.lock && nowSec > m.mtime) then FadeOut else Rotate
    case FadeOut => if fadeComplete then NewImage else FadeOut
  }

  /** A tick either stays or moves one step along the cycle. */
  lemma PhaseAfterFollowsCycle(m: Machine, c: Commands, fadeComplete: bool, logoTime: int, nowSec: int)
    ensures var q := PhaseAfter(m, c, fadeComplete, logoTime, nowSec);
      q == m.phase || q == NextPhase(m.phase)
  {
  }

  /** NEW_IMAGE never waits. */
  lemma NewImageAlwaysMoves(m: Machine, c: Commands, fadeComplete: bool, logoTime: int, nowSec: int)
    requires m.phase == NewImage
    ensures PhaseAfter(m, c, fadeComplete, logoTime, nowSec) == FadeIn
  {
  }

  /** With logo_time 0 the logo leaves on the first processed tick. */
  lemma ZeroLogoTimeLeaves(m: Machine, c: Commands, fadeComplete: bool, nowSec: int)
    requires m.phase == LogoDisplay
    ensures PhaseAfter(m, c, fadeComplete, 0, nowSec) == LogoFade
  {
  }

  /** A locked rotation without SKIP stays, whatever the clock says. */
  lemma LockedRotationStays(m: Machine, c: Commands, fadeComplete: bool, logoTime: int, nowSec: int)
    requires m.phase == Rotate && c.lock && !c.skip
    ensures PhaseAfter(m, c, fadeComplete, logoTime, nowSec) == Rotate
  {
  }

  /** FADE_OUT ignores SKIP: it leaves exactly when the fade is complete. */
  lemma FadeOutWaitsForFade(m: Machine, c: Commands, fadeComplete: bool, logoTime: int, nowSec: int)
    requires m.phase == FadeOut
    ensures PhaseAfter(m, c, fadeComplete, logoTime, nowSec) != FadeOut <==> fadeComplete
    ensures PhaseAfter(m, c, fadeComplete, logoTime, nowSec)
         == PhaseAfter(m, c.(skip := !c.skip), fadeComplete, logoTime, nowSec)
  {
  }

  // ---- Frame throttle ----

  /** `now - last_classic_frame_time` on Uint32: the elapsed milliseconds
      modulo 2^32, so a wrapped counter still measures the gap. */
  function TicksSince(now: int, last: int): (d: int)
    requires 0 <= now < UINT32_MODULUS && 0 <= last < UINT32_MODULUS
    ensures 0 <= d < UINT32_MODULUS
    ensures now >= last ==> d == now - last
    ensures now < last ==> d == now + UINT32_MODULUS - last
  {
    (now - last) % UINT32_MODULUS
  }

  /** The classic-mode tick is skipped when less than 30 ms have passed. */
  predicate Throttled(now: int, last: int)
    requires 0 <= now < UINT32_MODULUS && 0 <= last < UINT32_MODULUS
  {
    TicksSince(now, last) < CLASSIC_FRAME_DELAY_MS
  }

  /** Right after a wrap of the millisecond counter a tick is skipped
      only if it is within 30 ms of the last one across the wrap. */
  lemma ThrottleAcrossWrap(now: int, last: int)
    requires 0 <= now < last < UINT32_MODULUS
    ensures Throttled(now, last) <==> now + UINT32_MODULUS - last < CLASSIC_FRAME_DELAY_MS
  {
  }

  /** Whether a tick at nowMs does nothing: paused, or in classic mode
      within 30 ms of the last processed tick. */
  predicate Idle(m: ModernInput, nowMs: int)
    requires 0 <= nowMs < UINT32_MODULUS && 0 <= m.lastFrame < UINT32_MODULUS
  {
    m.paused || (!m.modernMode && Throttled(nowMs, m.lastFrame))
  }

  // ---- Image and effect selection ----

  /** `if (++imageFuncListIndex >= NUM_IMAGE_FUNCTIONS) imageFuncListIndex = 0`. */
  function NextIndex(i: int): (r: int)
    ensures -1 <= i < NUM_IMAGE_FUNCTIONS ==> 0 <= r < NUM_IMAGE_FUNCTIONS
    ensures 0 <= i + 1 < NUM_IMAGE_FUNCTIONS ==> r == i + 1
  {
    if i + 1 >= NUM_IMAGE_FUNCTIONS then 0 else i + 1
  }

  /** `if (--imageFuncListIndex < 0) imageFuncListIndex = NUM_IMAGE_FUNCTIONS - 1`. */
  function PrevIndex(i: int): (r: int)
    ensures i < NUM_IMAGE_FUNCTIONS + 1 ==> 0 <= r < NUM_IMAGE_FUNCTIONS
    ensures 0 <= i - 1 ==> r == i - 1
  {
    if i - 1 < 0 then NUM_IMAGE_FUNCTIONS - 1 else i - 1
  }

  /** LEFT undoes RIGHT and RIGHT undoes LEFT on every list position. */
  lemma IndexStepsInverse(i: int)
    requires 0 <= i < NUM_IMAGE_FUNCTIONS
    ensures PrevIndex(NextIndex(i)) == i && NextIndex(PrevIndex(i)) == i
  {
  }

  /** LEFT in modern mode: `(e - 1 + NUM_MODERN_EFFECTS) % NUM_MODERN_EFFECTS`. */
  function EffectLeft(e: int): (r: int)
    ensures 0 <= e < NUM_MODERN_EFFECTS ==> r == (if e == 0 then NUM_MODERN_EFFECTS - 1 else e - 1)
  {
    CRem(e - 1 + NUM_MODERN_EFFECTS, NUM_MODERN_EFFECTS)
  }

  /** RIGHT in modern mode: `(e + 1) % NUM_MODERN_EFFECTS`. */
  function EffectRight(e: int): (r: int)
    ensures 0 <= e < NUM_MODERN_EFFECTS ==> r == (if e == NUM_MODERN_EFFECTS - 1 then 0 else e + 1)
  {
    CRem(e + 1, NUM_MODERN_EFFECTS)
  }

  /** On the six effects LEFT and RIGHT step around a cycle and undo each
      other. */
  lemma EffectStepsCycle(e: int)
    requires 0 <= e < NUM_MODERN_EFFECTS
    ensures 0 <= EffectLeft(e) < NUM_MODERN_EFFECTS && 0 <= EffectRight(e) < NUM_MODERN_EFFECTS
    ensures EffectLeft(EffectRight(e)) == e && EffectRight(EffectLeft(e)) == e
  {
  }

  /** The image function generate_image is asked for:
      `userOptionImageFuncNum < 0 ? imageFuncList[i] : userOptionImageFuncNum`. */
  function Chosen(userOption: int, funcs: seq<int>, i: int): (f: int)
    requires 0 <= i < |funcs|
    ensures userOption >= 0 ==> f == userOption
    ensures userOption < 0 ==> f == funcs[i]
  {
    if userOption < 0 then funcs[i] else userOption
  }

  /** Once the list is shuffled, every position names one of the forty
      image functions, and each of them sits at exactly one position. */
  lemma ChosenFromShuffledList(funcs: seq<int>, i: int, j: int)
    requires |funcs| >= NUM_IMAGE_FUNCTIONS && IsPermutation(funcs, NUM_IMAGE_FUNCTIONS)
    requires 0 <= i < NUM_IMAGE_FUNCTIONS && 0 <= j < NUM_IMAGE_FUNCTIONS
    ensures 0 <= Chosen(-1, funcs, i) < NUM_IMAGE_FUNCTIONS
    ensures Chosen(-1, funcs, i) == Chosen(-1, funcs, j) <==> i == j
  {
    if i < j {
      assert funcs[i] != funcs[j];
    } else if j < i {
      assert funcs[j] != funcs[i];
    }
  }

  // ---- Events ----

  datatype Key = KeyQ | KeyEscape | KeySpace | KeyP | KeyL | KeyF | KeyM | KeyLeft | KeyRight | OtherKey

  /** One SDL event as handle_sdl_events sees it. */
  datatype Event = QuitEvent | KeyDown(key: Key) | OtherEvent

  predicate Quits(ev: Event)
  {
    ev == QuitEvent || ev == KeyDown(KeyQ) || ev == KeyDown(KeyEscape)
  }

  /** Whether the event makes the classic front end regenerate the image. */
  predicate Regenerates(m: ModernInput, ev: Event)
  {
    !m.modernMode && (ev == KeyDown(KeyLeft) || ev == KeyDown(KeyRight))
  }

  /** What one event does to the globals. The fullscreen key only talks to
      the window. */
  function AfterEvent(g: WebGlobals, ev: Event): WebGlobals
  {
    var m, c, mc := g.modern, g.cmd, g.machine;
    match ev
    case QuitEvent => g
    case OtherEvent => g
    case KeyDown(k) =>
      match k
      case KeySpace => g.(modern := m.(paused := !m.paused))
      case KeyP => g.(modern := m.(paused := !m.paused))
      case KeyL => g.(modern := m.(locked := !m.locked), cmd := c.(lock := !m.locked))
      case KeyM => g.(modern := m.(modernMode := !m.modernMode), cmd := c.(skip := true))
      case KeyLeft =>
        if m.modernMode then g.(modern := m.(effect := EffectLeft(m.effect)), cmd := c.(skip := false))
        else g.(machine := mc.(index := PrevIndex(mc.index)), cmd := c.(skip := false))
      case KeyRight =>
        if m.modernMode then g.(modern := m.(effect := EffectRight(m.effect)), cmd := c.(skip := false))
        else g.(machine := mc.(index := NextIndex(mc.index)), cmd := c.(skip := false))
      case _ => g
  }

  /** What handle_sdl_events does to the globals: the events in order, up
      to the first one that asks to quit. */
  function AfterEvents(g: WebGlobals, evs: seq<Event>): WebGlobals
    decreases |evs|
  {
    if evs == [] || Quits(evs[0]) then g else AfterEvents(AfterEvent(g, evs[0]), evs[1..])
  }

  /** The ranges the handlers keep: the list index in [-1, 39] (-1 only
      between LOGO_FADE and the first NEW_IMAGE) and the effect in [0, 5]. */
  predicate InRange(g: WebGlobals)
  {
    -1 <= g.machine.index < NUM_IMAGE_FUNCTIONS && 0 <= g.modern.effect < NUM_MODERN_EFFECTS
  }

  /** Every key keeps the ranges; LEFT and RIGHT leave a real list
      position behind. */
  lemma AfterEventInRange(g: WebGlobals, ev: Event)
    requires InRange(g)
    ensures InRange(AfterEvent(g, ev))
    ensures Regenerates(g.modern, ev) ==> 0 <= AfterEvent(g, ev).machine.index < NUM_IMAGE_FUNCTIONS
  {
    match ev
    case QuitEvent =>
    case OtherEvent =>
    case KeyDown(k) =>
      match k
      case KeyLeft =>
      case KeyRight =>
      case _ =>
  }

  /** A run of events keeps the ranges too. */
  lemma {:induction false} AfterEventsInRange(g: WebGlobals, evs: seq<Event>)
    requires InRange(g)
    ensures InRange(AfterEvents(g, evs))
    decreases |evs|
  {
    if evs != [] && !Quits(evs[0]) {
      AfterEventInRange(g, evs[0]);
      AfterEventsInRange(AfterEvent(g, evs[0]), evs[1..]);
    }
  }

  /** Events queued after a quit request are never handled. */
  lemma {:induction false} AfterEventsStopAtQuit(g: WebGlobals, before: seq<Event>, q: Event, after: seq<Event>)
    requires Quits(q)
    ensures AfterEvents(g, before + [q] + after) == AfterEvents(g, before)
    decreases |before|
  {
    if before == [] {
      assert (before + [q] + after)[0] == q;
    } else {
      assert (before + [q] + after)[0] == before[0];
      if !Quits(before[0]) {
        assert (before + [q] + after)[1..] == before[1..] + [q] + after;
        AfterEventsStopAtQuit(AfterEvent(g, before[0]), before[1..], q, after);
      }
    }
  }

  /** RIGHT followed by LEFT restores the globals, except that SKIP ends
      up clear, in either mode. */
  lemma LeftUndoesRight(g: WebGlobals)
    requires InRange(g) && 0 <= g.machine.index
    ensures AfterEvent(AfterEvent(g, KeyDown(KeyRight)), KeyDown(KeyLeft)) == g.(cmd := g.cmd.(skip := false))
    ensures AfterEvent(AfterEvent(g, KeyDown(KeyLeft)), KeyDown(KeyRight)) == g.(cmd := g.cmd.(skip := false))
  {
    EffectStepsCycle(g.modern.effect);
    IndexStepsInverse(g.machine.index);
  }

  /** Pressing the pause key twice changes nothing. */
  lemma PauseTwice(g: WebGlobals)
    ensures AfterEvent(AfterEvent(g, KeyDown(KeySpace)), KeyDown(KeyP)) == g
  {
  }

  // ---- The front end's state ----

  /** One tick that rolls: one direction draw, then the roll. */
  predicate RollTick(d0: Dirs, d1: Dirs, stream: nat -> nat, pos0: nat, pos1: nat, period: int,
                     p0: seq<byte>, p1: seq<byte>)
    requires period > 0 && |p0| == PAL_BYTES
  {
    && pos1 == pos0 + 1
    && d1 == Inverted(d0, Draw(stream, pos0, period))
    && p1 == Rolled(p0, d1)
  }

  /** The part of the front end's state a state step reads or writes. */
  datatype Snap = Snap(machine: Machine, cmd: Commands, fadeComplete: bool, dirs: Dirs,
                       main: seq<byte>, target: seq<byte>, buf: seq<byte>, list: seq<int>, pos: nat)

  class Session {
    // The buffers: MainPalArray, TargetPalArray, buf_graf, imageFuncList.
    const main: array<byte>
    const target: array<byte>
    const buf: array<byte>
    const list: array<int>
    /** The roll directions and FadeCompleteFlag. */
    const anim: Animator
    const rng: Rng
    // Fixed for the whole run.
    const lut: Lut
    const codes: PaletteCodes
    const numPaletteTypes: int
    const xmax: int
    const ymax: int
    const logoTime: int
    const imageTime: int
    const userOption: int
    /** NOAHS_FACE as writeBitmapImageToArray lays it out at XMax by YMax. */
    const logo: seq<byte>
    /** The draws a makeShuffledList call may use. */
    const shuffleBudget: nat

    var modern: ModernInput
    var cmd: Commands
    var machine: Machine

    function Globals(): WebGlobals
      reads this
    {
      WebGlobals(modern, cmd, machine)
    }

    /** The buffers are separate and of the sizes graphicsinit allocates;
      the globals are in range. */
    predicate Valid()
      reads this
    {
      && main.Length == PAL_BYTES && target.Length == PAL_BYTES
      && main != target && buf != main && buf != target
      && list.Length == NUM_IMAGE_FUNCTIONS
      && xmax > 0 && ymax > 0 && buf.Length == xmax * ymax && |logo| == buf.Length
      && anim.period > 0 && numPaletteTypes >= 0
      && -1 <= machine.index < NUM_IMAGE_FUNCTIONS
      && 0 <= modern.effect < NUM_MODERN_EFFECTS
      && 0 <= modern.lastFrame < UINT32_MODULUS
    }

    /** The initial values of the globals. */
    constructor (main: array<byte>, target: array<byte>, buf: array<byte>, list: array<int>,
                 anim: Animator, rng: Rng, lut: Lut, codes: PaletteCodes, numPaletteTypes: int,
                 xmax: int, ymax: int, userOption: int, logo: seq<byte>, shuffleBudget: nat)
      requires main.Length == PAL_BYTES && target.Length == PAL_BYTES
      requires main != target && buf != main && buf != target
      requires list.Length == NUM_IMAGE_FUNCTIONS
      requires xmax > 0 && ymax > 0 && buf.Length == xmax * ymax && |logo| == buf.Length
      requires anim.period > 0 && numPaletteTypes >= 0
      requires forall i :: 0 <= i < list.Length ==> list[i] == 0
      requires !anim.fadeComplete && anim.Directions() == Dirs(false, false, false)
      ensures Valid()
      ensures modern == ModernInput(false, false, false, 0, 0)
      ensures cmd == Commands(true, false, false, false, ROTATION_DELAY_DEFAULT)
      ensures machine == Machine(LogoDisplay, 0, 0, 0, 0, true, false)
      ensures this.main == main && this.target == target && this.buf == buf && this.list == list
      ensures this.anim == anim && this.rng == rng && this.lut == lut && this.codes == codes
      ensures this.numPaletteTypes == numPaletteTypes && this.xmax == xmax && this.ymax == ymax
      ensures this.userOption == userOption && this.logo == logo && this.shuffleBudget == shuffleBudget
      ensures logoTime == LOGO_TIME && imageTime == IMAGE_TIME
    {
      this.main, this.target, this.buf, this.list := main, target, buf, list;
      this.anim, this.rng, this.lut, this.codes := anim, rng, lut, codes;
      this.numPaletteTypes, this.xmax, this.ymax := numPaletteTypes, xmax, ymax;
      this.userOption, this.logo, this.shuffleBudget := userOption, logo, shuffleBudget;
      logoTime, imageTime := LOGO_TIME, IMAGE_TIME;
      modern := ModernInput(false, false, false, 0, 0);
      cmd := Commands(true, false, false, false, ROTATION_DELAY_DEFAULT);
      machine := Machine(LogoDisplay, 0, 0, 0, 0, true, false);
    }

    /** The palette the logo starts from (RGBW_LIGHTNING_PAL). */
    function LogoPalette(): seq<byte>
    {
      TypePalette(TypeOf(codes, codes.rgbwLightning))
    }

    /** The raster generate_image(f, buf_graf, XMax/2, YMax/2, XMax, YMax, 255)
      writes when the random source is at pos. */
    function ImageAt(f: int, pos: nat): (img: Raster)
      requires xmax > 0 && ymax > 0
      ensures |img.pix| == xmax * ymax
    {
      var fr := FrameOf(lut, f, xmax / 2, ymax / 2, xmax, ymax, MAX_COLOR_VALUE, rng.stream, pos);
      ImageOf(fr, rng.stream, pos + PREAMBLE_DRAWS)
    }

    /** generate_image makes its preamble draws and then only moves on. */
    lemma ImageAtMovesForward(f: int, pos: nat)
      requires xmax > 0 && ymax > 0
      ensures ImageAt(f, pos).pos >= pos + PREAMBLE_DRAWS
    {
      var fr := FrameOf(lut, f, xmax / 2, ymax / 2, xmax, ymax, MAX_COLOR_VALUE, rng.stream, pos);
      RowsMoveForward(fr, FormulaOf(fr, rng.stream), fr.ymax, 0, pos + PREAMBLE_DRAWS);
    }

    /** The web processinput's switch on one command code. */
    method ProcessCode(code: int) returns (outcome: Outcome)
      modifies this
      ensures outcome == Exit <==> code == 3
      ensures modern == old(modern) && machine == old(machine)
      ensures var c := old(cmd);
        cmd == (
          if code == 1 then c.(go := !c.go)
          else if code == 2 then c.(skip := true)
          else if code == 4 then c.(np := true)
          else if code == 5 then c.(lock := !c.lock)
          else if code == 6 then c.(rotationDelay := WebDelayDown(c.rotationDelay))
          else if code == 7 then c.(rotationDelay := DelayUp(c.rotationDelay))
          else c)
    {
      outcome := Continue;
      if code == 1 {
        cmd := cmd.(go := !cmd.go);
      } else if code == 2 {
        cmd := cmd.(skip := true);
      } else if code == 3 {
        outcome := Exit;
      } else if code == 4 {
        cmd := cmd.(np := true);
      } else if code == 5 {
        cmd := cmd.(lock := !cmd.lock);
      } else if code == 6 {
        var d := cmd.rotationDelay;
        cmd := cmd.(rotationDelay := if d > DELAY_STEP then d - DELAY_STEP else 0);
      } else if code == 7 {
        cmd := cmd.(rotationDelay := cmd.rotationDelay + DELAY_STEP);
      }
    }

    /** processinput: checkinput always answers 0, so nothing changes. */
    method ProcessInput()
      modifies this
      ensures modern == old(modern) && cmd == old(cmd) && machine == old(machine)
    {
      var outcome := ProcessCode(CheckInput());
    }

    /** The web newpal: MainPalArray becomes the palette of type
      RANDOM(NUM_PALETTE_TYPES + 1). */
    method NewPal()
      requires Valid()
      modifies main, rng
      ensures rng.pos == old(rng.pos) + 1
      ensures main[..] == TypePalette(TypeOf(codes, Draw(rng.stream, old(rng.pos), numPaletteTypes + 1)))
    {
      ghost var m0 := main[..];
      var pt := rng.Next(numPaletteTypes + 1);
      InitPalArray(main, codes, pt);
      InitPalArrayIndependent(m0, m0, TypeOf(codes, pt));
    }

    /** The generate_image call the handlers and NEW_IMAGE make for list
      position i. */
    method Generate(i: int)
      requires Valid() && 0 <= i < NUM_IMAGE_FUNCTIONS
      modifies buf, rng
      ensures var img := ImageAt(Chosen(userOption, list[..], i), old(rng.pos));
        buf[..] == img.pix && rng.pos == img.pos
    {
      var status := GenerateImage(Chosen(userOption, list[..], i), buf, xmax / 2, ymax / 2,
                                  xmax, ymax, MAX_COLOR_VALUE, lut, rng);
    }

    /** LEFT (forward false) or RIGHT (forward true). In modern mode the
      effect steps around the six effects; in classic mode the list
      position steps with wrap-around and its image is generated at once.
      Either way SKIP is cleared. */
    method StepKey(forward: bool)
      requires Valid()
      modifies this, buf, rng
      ensures Valid()
      ensures cmd == old(cmd).(skip := false)
      ensures old(modern.modernMode) ==>
        && modern == old(modern).(effect := if forward then EffectRight(old(modern.effect)) else EffectLeft(old(modern.effect)))
        && machine == old(machine) && buf[..] == old(buf[..]) && rng.pos == old(rng.pos)
      ensures !old(modern.modernMode) ==>
        && modern == old(modern)
        && machine == old(machine).(index := if forward then NextIndex(old(machine.index)) else PrevIndex(old(machine.index)))
        && 0 <= machine.index < NUM_IMAGE_FUNCTIONS
        && var img := ImageAt(Chosen(userOption, list[..], machine.index), old(rng.pos));
           buf[..] == img.pix && rng.pos == img.pos
    {
      if modern.modernMode {
        var e := if forward then CRem(modern.effect + 1, NUM_MODERN_EFFECTS)
                 else CRem(modern.effect - 1 + NUM_MODERN_EFFECTS, NUM_MODERN_EFFECTS);
        modern := modern.(effect := e);
      } else {
        var i;
        if forward {
          i := machine.index + 1;
          if i >= NUM_IMAGE_FUNCTIONS {
            i := 0;
          }
        } else {
          i := machine.index - 1;
          if i < 0 {
            i := NUM_IMAGE_FUNCTIONS - 1;
          }
        }
        machine := machine.(index := i);
        Generate(i);
      }
      cmd := cmd.(skip := false);
    }


    /** One event of handle_sdl_events. A quit request is reported as
      Exit; LEFT and RIGHT in classic mode regenerate the image for the new
      list position at once. */
    method HandleEvent(ev: Event) returns (outcome: Outcome)
      requires Valid()
      modifies this, buf, rng
      ensures Valid()
      ensures outcome == Exit <==> Quits(ev)
      ensures Globals() == AfterEvent(old(Globals()), ev)
      ensures Regenerates(old(modern), ev) ==>
        0 <= machine.index < NUM_IMAGE_FUNCTIONS &&
        var img := ImageAt(Chosen(userOption, list[..], machine.index), old(rng.pos));
        buf[..] == img.pix && rng.pos == img.pos
      ensures !Regenerates(old(modern), ev) ==> buf[..] == old(buf[..]) && rng.pos == old(rng.pos)
    {
      outcome := Continue;
      match ev
      case QuitEvent =>
        outcome := Exit;
      case OtherEvent =>
      case KeyDown(k) =>
        match k
        case KeyQ =>
          outcome := Exit;
        case KeyEscape =>
          outcome := Exit;
        case KeySpace =>
          modern := modern.(paused := !modern.paused);
        case KeyP =>
          modern := modern.(paused := !modern.paused);
        case KeyL =>
          modern := modern.(locked := !modern.locked);
          cmd := cmd.(lock := modern.locked);
        case KeyF =>
        case KeyM =>
          modern := modern.(modernMode := !modern.modernMode);
          cmd := cmd.(skip := true);
        case KeyLeft =>
          StepKey(false);
        case KeyRight =>
          StepKey(true);
        case OtherKey =>
    }

    /** What the classic LEFT and RIGHT keys of a run of events leave in the
      pixel buffer and the random source: each one regenerates the image
      for the list position it moves to. The run stops at the first event
      that asks to quit. */
    ghost function ShownAfterEvents(g: WebGlobals, evs: seq<Event>, funcs: seq<int>, pix: seq<byte>, pos: nat): (r: Raster)
      requires InRange(g) && |funcs| == NUM_IMAGE_FUNCTIONS && xmax > 0 && ymax > 0
      decreases |evs|
    {
      if evs == [] || Quits(evs[0]) then Raster(pix, pos)
      else
        var g1 := AfterEvent(g, evs[0]);
        AfterEventInRange(g, evs[0]);
        if Regenerates(g.modern, evs[0]) then
          var img := ImageAt(Chosen(userOption, funcs, g1.machine.index), pos);
          ShownAfterEvents(g1, evs[1..], funcs, img.pix, img.pos)
        else
          ShownAfterEvents(g1, evs[1..], funcs, pix, pos)
    }

    /** Whether some event of the run, before the first quit request,
      is a classic LEFT or RIGHT. */
    ghost predicate AnyRegenerates(g: WebGlobals, evs: seq<Event>)
      decreases |evs|
    {
      evs != [] && !Quits(evs[0])
      && (Regenerates(g.modern, evs[0]) || AnyRegenerates(AfterEvent(g, evs[0]), evs[1..]))
    }

    /** Without a classic LEFT or RIGHT the buffer and the random source are
      left as they were; with one, the source has moved forward. */
    lemma {:induction false} ShownAfterEventsKept(g: WebGlobals, evs: seq<Event>, funcs: seq<int>, pix: seq<byte>, pos: nat)
      requires InRange(g) && |funcs| == NUM_IMAGE_FUNCTIONS && xmax > 0 && ymax > 0
      ensures !AnyRegenerates(g, evs) ==> ShownAfterEvents(g, evs, funcs, pix, pos) == Raster(pix, pos)
      ensures ShownAfterEvents(g, evs, funcs, pix, pos).pos >= pos
      ensures AnyRegenerates(g, evs) ==> ShownAfterEvents(g, evs, funcs, pix, pos).pos > pos
      decreases |evs|
    {
      if evs != [] && !Quits(evs[0]) {
        var g1 := AfterEvent(g, evs[0]);
        AfterEventInRange(g, evs[0]);
        if Regenerates(g.modern, evs[0]) {
          var img := ImageAt(Chosen(userOption, funcs, g1.machine.index), pos);
          ImageAtMovesForward(Chosen(userOption, funcs, g1.machine.index), pos);
          ShownAfterEventsKept(g1, evs[1..], funcs, img.pix, img.pos);
        } else {
          ShownAfterEventsKept(g1, evs[1..], funcs, pix, pos);
        }
      }
    }

    /** handle_sdl_events: the pending events in order, until one asks to
      quit. */
    method HandleEvents(events: seq<Event>) returns (outcome: Outcome)
      requires Valid()
      modifies this, buf, rng
      ensures Valid()
      ensures outcome == Exit <==> exists i :: 0 <= i < |events| && Quits(events[i])
      ensures Globals() == AfterEvents(old(Globals()), events)
      ensures Raster(buf[..], rng.pos) == ShownAfterEvents(old(Globals()), events, list[..], old(buf[..]), old(rng.pos))
      ensures list[..] == old(list[..])
      ensures !AnyRegenerates(old(Globals()), events) ==> buf[..] == old(buf[..]) && rng.pos == old(rng.pos)
    {
      outcome := Continue;
      ghost var g0, b0, p0 := Globals(), buf[..], rng.pos;
      ghost var funcs := list[..];
      var i := 0;
      while i < |events|
        invariant 0 <= i <= |events|
        invariant Valid()
        invariant forall j :: 0 <= j < i ==> !Quits(events[j])
        invariant outcome == Continue
        invariant AfterEvents(g0, events) == AfterEvents(Globals(), events[i..])
        invariant list[..] == funcs
        invariant ShownAfterEvents(g0, events, funcs, b0, p0)
               == ShownAfterEvents(Globals(), events[i..], funcs, buf[..], rng.pos)
      {
        assert events[i..][1..] == events[i + 1..];
        outcome := HandleEvent(events[i]);
        if outcome == Exit {
          assert Quits(events[i]);
          break;
        }
        i := i + 1;
      }
      ShownAfterEventsKept(g0, events, funcs, b0, p0);
    }

    // ---- The state steps ----

    /** The part of the front end's state the stepping reads or writes:
      the state machine, the flags, FadeCompleteFlag, the roll directions,
      the two palettes, the pixel buffer, the list and the position of the
      random source. */
    ghost function Now(): Snap
      reads this, main, target, buf, list, anim, rng
    {
      Snap(machine, cmd, anim.fadeComplete, anim.Directions(), main[..], target[..], buf[..], list[..], rng.pos)
    }

    /** The sizes Valid promises, as seen in a snapshot. */
    ghost predicate Fits(s: Snap)
    {
      && |s.main| == PAL_BYTES && |s.target| == PAL_BYTES && |s.list| == NUM_IMAGE_FUNCTIONS
      && -1 <= s.machine.index < NUM_IMAGE_FUNCTIONS
      && anim.period > 0 && xmax > 0 && ymax > 0 && numPaletteTypes >= 0
    }

    /** STATE_LOGO_DISPLAY, from s to t. On the first tick both palettes
      become the logo palette, the logo is drawn into the buffer and the
      logo's deadline is set; the state leaves when logo_time is 0, SKIP
      is set or the deadline has passed, and otherwise rolls the main
      palette while GO is set. */
    ghost predicate LogoDisplayStep(s: Snap, nowSec: int, t: Snap)
      requires Fits(s)
    {
      var first := !s.machine.logoInitialized;
      var m1 := if first then s.machine.(ltime := nowSec, mtime := nowSec + logoTime, logoInitialized := true)
                else s.machine;
      var leave := PhaseAfter(s.machine, s.cmd, s.fadeComplete, logoTime, nowSec) == LogoFade;
      var main1 := if first then LogoPalette() else s.main;
      && t.machine == (if leave then m1.(phase := LogoFade) else m1)
      && t.cmd == (if leave then s.cmd.(skip := false) else s.cmd)
      && t.target == (if first then LogoPalette() else s.target)
      && t.buf == (if first then logo else s.buf)
      && t.list == s.list && t.fadeComplete == s.fadeComplete
      && if !leave && s.cmd.go
         then RollTick(s.dirs, t.dirs, rng.stream, s.pos, t.pos, anim.period, main1, t.main)
         else t.main == main1 && t.dirs == s.dirs && t.pos == s.pos
    }

    method LogoDisplayTick(nowSec: int)
      requires Valid() && machine.phase == LogoDisplay
      modifies this, main, target, buf, anim, rng
      ensures Valid()
      ensures modern == old(modern)
      ensures LogoDisplayStep(old(Now()), nowSec, Now())
    {
      if !machine.logoInitialized {
        ShowLogo(nowSec);
      }
      if logoTime == 0 || cmd.skip || nowSec > machine.mtime {
        machine := machine.(phase := LogoFade);
        cmd := cmd.(skip := false);
        return;
      }
      RollStep();
    }

    /** The logo state's first tick: both palettes become the logo
      palette, the logo goes into the buffer and its deadline is set. */
    method ShowLogo(nowSec: int)
      requires Valid()
      modifies this, main, target, buf
      ensures Valid()
      ensures modern == old(modern) && cmd == old(cmd)
      ensures machine == old(machine).(ltime := nowSec, mtime := nowSec + logoTime, logoInitialized := true)
      ensures main[..] == LogoPalette() && target[..] == LogoPalette() && buf[..] == logo
    {
      ghost var m0, t0 := main[..], target[..];
      InitPalArray(main, codes, codes.rgbwLightning);
      InitPalArray(target, codes, codes.rgbwLightning);
      InitPalArrayIndependent(m0, t0, TypeOf(codes, codes.rgbwLightning));
      WriteLogo();
      machine := machine.(ltime := nowSec);
      machine := machine.(mtime := machine.ltime + logoTime, logoInitialized := true);
    }

    /** writeBitmapImageToArray(buf_graf, NOAHS_FACE, XMax, YMax): the
      logo's raster, a parameter of the model, goes into the buffer. */
    method WriteLogo()
      requires Valid()
      modifies buf
      ensures buf[..] == logo
    {
      var k := 0;
      while k < buf.Length
        invariant 0 <= k <= buf.Length
        invariant forall j :: 0 <= j < k ==> buf[j] == logo[j]
      {
        buf[k] := logo[k];
        k := k + 1;
      }
    }

    /** STATE_LOGO_FADE, from s to t. With SKIP or a completed fade: the
      list is shuffled, the index set to -1 and NEW_IMAGE entered with the
      flag clear; otherwise one step of the fade to black while GO is set.
      `ok` is false when the shuffle ran out of draws, which it does only
      after using all of them. */
    ghost predicate LogoFadeStep(s: Snap, ok: bool, t: Snap)
      requires Fits(s) && Fits(t)
    {
      && t.target == s.target && t.buf == s.buf
      && if s.cmd.skip || s.fadeComplete then
           && t.machine == s.machine.(phase := NewImage, index := -1)
           && t.cmd == s.cmd.(skip := false)
           && !t.fadeComplete && t.dirs == s.dirs && t.main == s.main
           && (ok ==> IsPermutation(t.list, NUM_IMAGE_FUNCTIONS))
           && s.pos <= t.pos <= s.pos + shuffleBudget
           && (!ok ==> t.pos == s.pos + shuffleBudget)
         else
           && ok && t.machine == s.machine && t.cmd == s.cmd && t.list == s.list
           && if s.cmd.go then
                && RollTick(s.dirs, t.dirs, rng.stream, s.pos, t.pos, anim.period, FadedToBlack(s.main), t.main)
                && (t.fadeComplete <==> AllBlack(s.main))
              else
                && t.main == s.main && t.pos == s.pos && t.dirs == s.dirs && !t.fadeComplete
    }

    method LogoFadeTick() returns (ok: bool)
      requires Valid() && machine.phase == LogoFade
      modifies this, main, list, anim, rng
      ensures Valid()
      ensures modern == old(modern)
      ensures LogoFadeStep(old(Now()), ok, Now())
    {
      ok := true;
      if cmd.skip || anim.fadeComplete {
        anim.fadeComplete := false;
        cmd := cmd.(skip := false);
        ok := MakeShuffledList(list, NUM_IMAGE_FUNCTIONS, rng, shuffleBudget);
        machine := machine.(index := -1, phase := NewImage);
        return;
      }
      ProcessInput();
      if cmd.go {
        anim.RolNFadeBlk(main, rng);
      }
    }

    /** STATE_NEW_IMAGE, from s to t: the list position advances (the list
      is reshuffled when it wraps), the chosen image is generated, a new
      target palette drawn and installed, the flag cleared and FADE_IN
      entered. `shuffled` is the position of the random source after the
      reshuffle, if any. */
    ghost predicate NewImageStep(s: Snap, ok: bool, shuffled: nat, t: Snap)
      requires Fits(s) && Fits(t)
    {
      var wraps := s.machine.index + 1 >= NUM_IMAGE_FUNCTIONS;
      var i := NextIndex(s.machine.index);
      && (wraps ==>
            && (ok ==> IsPermutation(t.list, NUM_IMAGE_FUNCTIONS))
            && s.pos <= shuffled <= s.pos + shuffleBudget
            && (!ok ==> shuffled == s.pos + shuffleBudget))
      && (!wraps ==> ok && t.list == s.list && shuffled == s.pos)
      && var img := ImageAt(Chosen(userOption, t.list, i), shuffled);
         var pt := Draw(rng.stream, img.pos, numPaletteTypes + 1);
         && t.machine == s.machine.(phase := FadeIn, index := i, paletteTypeNum := pt)
         && t.cmd == s.cmd && t.main == s.main
         && t.buf == img.pix && t.pos == img.pos + 1
         && t.target == TypePalette(TypeOf(codes, pt))
         && !t.fadeComplete && t.dirs == s.dirs
    }

    method NewImageTick() returns (ok: bool, ghost shuffled: nat)
      requires Valid() && machine.phase == NewImage
      modifies this, buf, target, list, anim, rng
      ensures Valid()
      ensures modern == old(modern)
      ensures NewImageStep(old(Now()), ok, shuffled, Now())
    {
      var i;
      ok, i := NextListIndex();
      machine := machine.(index := i);
      shuffled := rng.pos;
      Generate(i);
      var pt := NewTarget();
      machine := machine.(paletteTypeNum := pt);
      anim.fadeComplete := false;
      machine := machine.(phase := FadeIn);
    }

    /** NEW_IMAGE's step of the list position; it reshuffles the list when
      the position wraps to 0. */
    method NextListIndex() returns (ok: bool, i: int)
      requires Valid()
      modifies list, rng
      ensures i == NextIndex(machine.index)
      ensures machine.index + 1 >= NUM_IMAGE_FUNCTIONS ==>
        && (ok ==> IsPermutation(list[..], NUM_IMAGE_FUNCTIONS))
        && old(rng.pos) <= rng.pos <= old(rng.pos) + shuffleBudget
        && (!ok ==> rng.pos == old(rng.pos) + shuffleBudget)
      ensures machine.index + 1 < NUM_IMAGE_FUNCTIONS ==>
        ok && list[..] == old(list[..]) && rng.pos == old(rng.pos)
    {
      ok := true;
      i := machine.index + 1;
      if i >= NUM_IMAGE_FUNCTIONS {
        i := 0;
        ok := MakeShuffledList(list, NUM_IMAGE_FUNCTIONS, rng, shuffleBudget);
      }
    }

    /** The palette type NEW_IMAGE draws, RANDOM(NUM_PALETTE_TYPES + 1),
      and TargetPalArray initialised to it. */
    method NewTarget() returns (pt: int)
      requires Valid()
      modifies target, rng
      ensures pt == Draw(rng.stream, old(rng.pos), numPaletteTypes + 1)
      ensures rng.pos == old(rng.pos) + 1
      ensures target[..] == TypePalette(TypeOf(codes, pt))
    {
      ghost var t0 := target[..];
      pt := rng.Next(numPaletteTypes + 1);
      InitPalArray(target, codes, pt);
      InitPalArrayIndependent(t0, t0, TypeOf(codes, pt));
    }

    /** STATE_FADE_IN, from s to t. With SKIP or a completed fade: the flag
      is cleared, the image's deadline set and ROTATE entered; otherwise
      one step of the fade toward the target while GO is set. */
    ghost predicate FadeInStep(s: Snap, nowSec: int, t: Snap)
      requires Fits(s)
    {
      && t.buf == s.buf && t.list == s.list
      && if s.cmd.skip || s.fadeComplete then
           && t.machine == s.machine.(phase := Rotate, ltime := nowSec, mtime := nowSec + imageTime)
           && t.cmd == s.cmd.(skip := false)
           && !t.fadeComplete && t.dirs == s.dirs
           && t.main == s.main && t.target == s.target && t.pos == s.pos
         else
           && t.machine == s.machine && t.cmd == s.cmd
           && if s.cmd.go then
                && RollTick(s.dirs, t.dirs, rng.stream, s.pos, t.pos, anim.period, FadedToward(s.main, s.target), t.main)
                && t.target == Rolled(s.target, t.dirs)
                && (t.fadeComplete <==> AllEqual(s.main, s.target))
              else
                && t.main == s.main && t.target == s.target && t.pos == s.pos
                && t.dirs == s.dirs && !t.fadeComplete
    }

    method FadeInTick(nowSec: int)
      requires Valid() && machine.phase == FadeIn
      modifies this, main, target, anim, rng
      ensures Valid()
      ensures modern == old(modern)
      ensures FadeInStep(old(Now()), nowSec, Now())
    {
      if cmd.skip || anim.fadeComplete {
        anim.fadeComplete := false;
        cmd := cmd.(skip := false);
        machine := machine.(ltime := nowSec);
        machine := machine.(mtime := machine.ltime + imageTime, phase := Rotate);
        return;
      }
      ProcessInput();
      if cmd.go {
        anim.RolNFadeToTarg(main, target, rng);
      }
    }

    /** STATE_ROTATE, from s to t. With SKIP, or when unlocked and past the
      deadline: FADE_OUT is entered with the flag clear; otherwise the main
      palette rolls while GO is set, and a pending NP installs a new
      palette and is cleared. */
    ghost predicate RotateStep(s: Snap, nowSec: int, t: Snap)
      requires Fits(s)
    {
      && t.target == s.target && t.buf == s.buf && t.list == s.list
      && if s.cmd.skip || (!s.cmd.lock && nowSec > s.machine.mtime) then
           && t.machine == s.machine.(phase := FadeOut)
           && t.cmd == s.cmd.(skip := false)
           && !t.fadeComplete && t.dirs == s.dirs
           && t.main == s.main && t.pos == s.pos
         else
           && t.machine == s.machine && t.cmd == s.cmd.(np := false)
           && t.fadeComplete == s.fadeComplete
           && var go := s.cmd.go;
              var p1 := s.pos + (if go then 1 else 0);
              && t.dirs == (if go then Inverted(s.dirs, Draw(rng.stream, s.pos, anim.period)) else s.dirs)
              && t.main == (if s.cmd.np then TypePalette(TypeOf(codes, Draw(rng.stream, p1, numPaletteTypes + 1)))
                            else if go then Rolled(s.main, t.dirs) else s.main)
              && t.pos == p1 + (if s.cmd.np then 1 else 0)
    }

    method RotateTick(nowSec: int)
      requires Valid() && machine.phase == Rotate
      modifies this, main, anim, rng
      ensures Valid()
      ensures modern == old(modern)
      ensures RotateStep(old(Now()), nowSec, Now())
    {
      if cmd.skip || (!cmd.lock && nowSec > machine.mtime) {
        cmd := cmd.(skip := false);
        anim.fadeComplete := false;
        machine := machine.(phase := FadeOut);
        return;
      }
      RotateRun();
    }

    /** A STATE_ROTATE tick that stays in the state: the input is polled,
      one roll is made while GO is set, and a pending NP draws a new
      palette over the rolled one and is cleared. */
    method RotateRun()
      requires Valid()
      modifies this, main, anim, rng
      ensures Valid()
      ensures modern == old(modern) && machine == old(machine) && cmd == old(cmd).(np := false)
      ensures anim.fadeComplete == old(anim.fadeComplete)
      ensures var go := cmd.go;
        var p1 := old(rng.pos) + (if go then 1 else 0);
        && anim.Directions() == (if go then Inverted(old(anim.Directions()), Draw(rng.stream, old(rng.pos), anim.period))
                                else old(anim.Directions()))
        && main[..] == (if old(cmd.np) then TypePalette(TypeOf(codes, Draw(rng.stream, p1, numPaletteTypes + 1)))
                        else if go then Rolled(old(main[..]), anim.Directions()) else old(main[..]))
        && rng.pos == p1 + (if old(cmd.np) then 1 else 0)
    {
      RollStep();
      NewPalStep();
    }

    /** The input poll and, while GO is set, one roll of the sub-palettes. */
    method RollStep()
      requires Valid()
      modifies this, main, anim, rng
      ensures Valid()
      ensures modern == old(modern) && machine == old(machine) && cmd == old(cmd)
      ensures anim.fadeComplete == old(anim.fadeComplete)
      ensures cmd.go ==>
        && anim.Directions() == Inverted(old(anim.Directions()), Draw(rng.stream, old(rng.pos), anim.period))
        && main[..] == Rolled(old(main[..]), anim.Directions()) && rng.pos == old(rng.pos) + 1
      ensures !cmd.go ==>
        anim.Directions() == old(anim.Directions()) && main[..] == old(main[..]) && rng.pos == old(rng.pos)
    {
      ProcessInput();
      if cmd.go {
        anim.RollMainAndLoad(main, rng);
      }
    }

    /** A pending NP: a new palette over MainPalArray, and NP cleared. */
    method NewPalStep()
      requires Valid()
      modifies this, main, rng
      ensures Valid()
      ensures modern == old(modern) && machine == old(machine) && cmd == old(cmd).(np := false)
      ensures old(cmd.np) ==>
        && main[..] == TypePalette(TypeOf(codes, Draw(rng.stream, old(rng.pos), numPaletteTypes + 1)))
        && rng.pos == old(rng.pos) + 1
      ensures !old(cmd.np) ==> main[..] == old(main[..]) && rng.pos == old(rng.pos)
    {
      if cmd.np {
        NewPal();
        cmd := cmd.(np := false);
      }
    }

    /** STATE_FADE_OUT, from s to t. With a completed fade: NEW_IMAGE is
      entered with the flag clear; otherwise, while GO is set, one step of
      the fade to black (fade_dir set) or to white. SKIP is not
      consulted. */
    ghost predicate FadeOutStep(s: Snap, t: Snap)
      requires Fits(s)
    {
      && t.cmd == s.cmd && t.target == s.target && t.buf == s.buf && t.list == s.list
      && if s.fadeComplete then
           && t.machine == s.machine.(phase := NewImage)
           && !t.fadeComplete && t.dirs == s.dirs
           && t.main == s.main && t.pos == s.pos
         else
           && t.machine == s.machine
           && if s.cmd.go then
                var black := s.machine.fadeDir;
                var faded := if black then FadedToBlack(s.main) else FadedToWhite(s.main);
                && RollTick(s.dirs, t.dirs, rng.stream, s.pos, t.pos, anim.period, faded, t.main)
                && (t.fadeComplete <==> if black then AllBlack(s.main) else AllWhite(s.main))
              else
                && t.main == s.main && t.pos == s.pos && t.dirs == s.dirs && !t.fadeComplete
    }

    method FadeOutTick()
      requires Valid() && machine.phase == FadeOut
      modifies this, main, anim, rng
      ensures Valid()
      ensures modern == old(modern)
      ensures FadeOutStep(old(Now()), Now())
    {
      if anim.fadeComplete {
        anim.fadeComplete := false;
        machine := machine.(phase := NewImage);
        return;
      }
      ProcessInput();
      if cmd.go {
        if machine.fadeDir {
          anim.RolNFadeBlk(main, rng);
        } else {
          anim.RolNFadeWht(main, rng);
        }
      }
    }

    /** The step of the state s is in. `ok` and `shuffled` are as for
      LOGO_FADE and NEW_IMAGE; the other states always report `ok`. */
    ghost predicate StepOf(s: Snap, nowSec: int, ok: bool, shuffled: nat, t: Snap)
      requires Fits(s) && Fits(t)
    {
      match s.machine.phase
      case LogoDisplay => ok && LogoDisplayStep(s, nowSec, t)
      case LogoFade => LogoFadeStep(s, ok, t)
      case NewImage => NewImageStep(s, ok, shuffled, t)
      case FadeIn => ok && FadeInStep(s, nowSec, t)
      case Rotate => ok && RotateStep(s, nowSec, t)
      case FadeOut => ok && FadeOutStep(s, t)
    }

    /** What a state step does to the state machine, whichever state it
      runs: the next state is PhaseAfter's; leaving a state clears the
      flag (except into LOGO_FADE) and SKIP (except from NEW_IMAGE and
      FADE_OUT, which do not consult it); NEW_IMAGE advances the list
      position; staying keeps the position and SKIP. */
    ghost predicate StepTaken(m0: Machine, c0: Commands, fc0: bool, nowSec: int, m1: Machine, c1: Commands, fc1: bool)
    {
      && m1.phase == PhaseAfter(m0, c0, fc0, logoTime, nowSec)
      && (m1.phase != m0.phase && m1.phase != LogoFade ==> !fc1)
      && (m1.phase != m0.phase && m0.phase != NewImage && m0.phase != FadeOut ==> !c1.skip)
      && (m0.phase == NewImage ==> m1.index == NextIndex(m0.index) && 0 <= m1.index < NUM_IMAGE_FUNCTIONS)
      && (m0.phase == LogoFade && m1.phase == NewImage ==> m1.index == -1)
      && (m1.phase == m0.phase ==> m1.index == m0.index && c1.skip == c0.skip)
    }

    /** Every state's step follows PhaseAfter and the flag and SKIP rules. */
    lemma StepOfTakesTransition(s: Snap, nowSec: int, ok: bool, shuffled: nat, t: Snap)
      requires Fits(s) && Fits(t)
      requires StepOf(s, nowSec, ok, shuffled, t)
      ensures StepTaken(s.machine, s.cmd, s.fadeComplete, nowSec, t.machine, t.cmd, t.fadeComplete)
    {
    }

    /** The switch of main_loop_iteration on the current state. */
    method Step(nowSec: int) returns (ok: bool, ghost shuffled: nat)
      requires Valid()
      modifies this, main, target, buf, list, anim, rng
      ensures Valid()
      ensures modern == old(modern)
      ensures StepOf(old(Now()), nowSec, ok, shuffled, Now())
    {
      ok, shuffled := true, rng.pos;
      match machine.phase {
        case LogoDisplay => LogoDisplayTick(nowSec);
        case LogoFade => ok := LogoFadeTick();
        case NewImage => ok, shuffled := NewImageTick();
        case FadeIn => FadeInTick(nowSec);
        case Rotate => RotateTick(nowSec);
        case FadeOut => FadeOutTick();
      }
    }

    /** main_loop_iteration after the events: nothing while paused; in
      classic mode nothing within 30 ms of the last processed tick, whose
      time is recorded otherwise; then the current state's step. */
    method Tick(nowMs: int, nowSec: int) returns (ok: bool, ghost shuffled: nat)
      requires Valid() && 0 <= nowMs < UINT32_MODULUS
      modifies this, main, target, buf, list, anim, rng
      ensures Valid()
      ensures Idle(old(modern), nowMs) ==> ok && modern == old(modern) && Now() == old(Now())
      ensures !Idle(old(modern), nowMs) ==>
        && modern == (if old(modern.modernMode) then old(modern) else old(modern).(lastFrame := nowMs))
        && StepOf(old(Now()), nowSec, ok, shuffled, Now())
    {
      ok, shuffled := true, rng.pos;
      if modern.paused {
        return;
      }
      if !modern.modernMode {
        if Throttled(nowMs, modern.lastFrame) {
          return;
        }
        modern := modern.(lastFrame := nowMs);
      }
      assert Now() == old(Now());
      ok, shuffled := Step(nowSec);
    }

    /** main_loop_iteration: the events, then the tick. `ok` and `shuffled`
      are as for Tick; `mid` and `midModern` are the state between the
      two. */
    method MainLoopIteration(events: seq<Event>, nowMs: int, nowSec: int)
      returns (outcome: Outcome, ok: bool, ghost mid: Snap, ghost midModern: ModernInput, ghost shuffled: nat)
      requires Valid() && 0 <= nowMs < UINT32_MODULUS
      modifies this, main, target, buf, list, anim, rng
      ensures Valid()
      ensures outcome == Exit <==> exists i :: 0 <= i < |events| && Quits(events[i])
      ensures var g := AfterEvents(old(Globals()), events);
        var shown := ShownAfterEvents(old(Globals()), events, old(list[..]), old(buf[..]), old(rng.pos));
        && mid == old(Now()).(machine := g.machine, cmd := g.cmd, buf := shown.pix, pos := shown.pos)
        && midModern == g.modern
      ensures outcome == Exit ==> ok && Globals() == WebGlobals(midModern, mid.cmd, mid.machine) && Now() == mid
      ensures outcome == Continue ==>
        && Fits(mid) && Fits(Now()) && 0 <= midModern.lastFrame < UINT32_MODULUS
        && if Idle(midModern, nowMs) then ok && modern == midModern && Now() == mid
           else
             && modern == (if midModern.modernMode then midModern else midModern.(lastFrame := nowMs))
             && StepOf(mid, nowSec, ok, shuffled, Now())
    {
      ok, shuffled := true, rng.pos;
      outcome := HandleEvents(events);
      mid, midModern := Now(), modern;
      if outcome == Exit {
        return;
      }
      ok, shuffled := Tick(nowMs, nowSec);
    }
  }
}
