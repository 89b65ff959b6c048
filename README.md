# Acidwarp palette animation core in Dafny

Acidwarp draws a 256-colour image once per "image" and then animates it
only through its palette. The palette is stored as 768 bytes, R, G and B
for each of 256 entries, each channel in 0..63 (the VGA DAC range). The
palette is rotated a channel at a time and faded toward white, black or a
target palette. This project models:

- **Palette store** (`palinit.dfy`, module `PalInit`). This covers the
  four closed-form initialisers (RGBW bands, grey ramp, half grey ramp,
  pastel), the sparkle pass, and the `initPalArray` dispatcher over the
  palette types.
- **Palette animator** (`rolnfade.dfy`, module `RolNFade`). This covers
  the per-channel rotations, the random direction flip, the three fades
  and their DONE reports, and the `rolNFade…` wrappers that combine them.
  The wrappers are methods of an `Animator` class that holds the
  direction flags and FadeCompleteFlag.
- **Image generator** (`image.dfy`, module `Image`). This covers
  `generate_image`: twelve random offsets, the 41-case formula switch
  (some cases read the pixel to the left and above), the normalisation
  into 1..colormax-1, and the row-major store.
- **Shuffled image list** (`shuffle.dfy`, module `Shuffle`). This covers
  `makeShuffledList`: it clears the list and then puts each function
  number into a free slot drawn at random.
- **Display conversion** (`convert.dfy`, module `Convert`). This covers
  `convert_8bit_to_32bit`: each 6-bit channel is scaled to 8 bits and
  packed as opaque ARGB.
- **Commands** (`controls.dfy`, module `Controls`). This covers
  `checkinput`/`processinput` and the rotation-delay rules of both front
  ends, and the native `newpal`.
- **Web front end** (`session.dfy`, module `WebSession`). This covers
  `main_loop_iteration`, the six-state machine (logo display, logo fade,
  new image, fade in, rotate, fade out) run once per browser frame, with
  its 30 ms classic-mode throttle. It also covers the key handling of
  `handle_sdl_events`, including the LEFT/RIGHT wrap rules, and the web
  `newpal`/`processinput`. All of this state lives in a `Session` class.

Shared definitions live in `common.dfy` (module `Common`):

- the byte layout `Ix(e, c) = 3 * e + c`;
- the random source `Rng`, a fixed stream of numbers plus a position;
  `RANDOM(n)` is the next number modulo `n`;
- C's truncating `/` and `%` (`CDiv`, `CRem`);
- the 64-bit `^` of `long`;
- a counter over integer ranges (`Count`).

Data that the source changes in place stays in arrays: the palettes, the
pixel buffer and the image list. Each method is tied to a function on the
array's contents, and the lemmas make their claims about those functions.
Three facts drive the model:

- A forward rotation moves channel c of entries 2..255 down by one and
  wraps entry 1 round to entry 255. Entry 0 never moves. So 255 forward
  rotations restore the palette, and a backward rotation undoes a forward
  one.
- Each fade moves every byte from entry 1 on that is not yet at its goal
  one step. Entry 0 is never touched. DONE is reported exactly when no byte had to move.
- The web state machine can leave the logo only once, and its four image
  states form a cycle.

## Model

| member | source | states |
|---|---|---|
| Common.Draw | acidwarp/acidwarp.c:202 | RANDOM(n) yields a value in 0..n-1 |
| Common.Rng.Next | acidwarp/acidwarp.c:202 | each RANDOM call consumes one element of the stream and returns it modulo n |
| Common.CDivTruncates | acidwarp/acidwarp.c:231-506 | C division truncates toward zero: the magnitude is the quotient of the magnitudes and the sign follows the operands |
| Common.CRemBounds | acidwarp/acidwarp.c:231-506 | C remainder is smaller in magnitude than the divisor and takes the dividend's sign |
| Common.CDivRem | acidwarp/acidwarp.c:231-506 | C's `/` and `%` satisfy a == b*(a/b) + a%b |
| Common.LongOfBits | acidwarp/acidwarp.c:407-409 | a 64-bit two's-complement pattern denotes a value in the `long` range |
| Common.Xor | acidwarp/acidwarp.c:407-409 | the `^` of two `long`s is again a `long` |
| Common.CountAll | acidwarp/rolnfade.c:112-124 | the DONE counter reaches the full range exactly when every element satisfies the test |
| Controls.NativeDelayDown | acidwarp/acidwarp.c:890-894 | native code 6 lowers ROTATION_DELAY by 5000 and clamps at 0 |
| Controls.WebDelayDown | acidwarp.web/acidwarp.c:882 | web code 6 lowers ROTATION_DELAY by 5000, giving 0 at or below 5000 |
| Controls.DelayDownAgree | acidwarp.web/acidwarp.c:882 | the native and web rules for code 6 agree on every delay |
| Controls.DelayUp | acidwarp/acidwarp.c:895-897 | code 7 strictly raises ROTATION_DELAY |
| Controls.DelayUpDown | acidwarp.web/acidwarp.c:882-883 | code 7 then code 6 restores any non-negative delay, in both front ends |
| Controls.NativeInput.constructor | acidwarp/acidwarp.c:59-69 | the native globals start running, with no skip, no request, unlocked and a delay of 30000 |
| Controls.NativeInput.ProcessCode | acidwarp/acidwarp.c:865-899 | the processinput switch: codes 1 and 5 toggle, 2 and 4 set, 6 and 7 change the delay, 3 exits; the delay stays non-negative |
| Controls.NativeInput.ProcessInput | acidwarp/acidwarp.c:858-899 | checkinput always answers 0, so processinput changes nothing and never exits |
| Controls.NativeNewPal | acidwarp/acidwarp.c:846-856 | as written: one draw, and main's palette (its local array) is unchanged |
| Controls.NativeNewPalIntended | acidwarp/acidwarp.c:846-856 | as intended: one draw, and main's palette becomes that palette type |
| Controls.NewPaletteIsNotBlack | acidwarp/palinit.c:13-51 | no palette type is all black (entry 2 has some red), so the two newpal versions differ on a black palette |
| Convert.BitOrDisjoint | acidwarp/acidwarp.c:91 | OR with a value below 2^k after a shift by k is addition |
| Convert.ScaleSixBit | acidwarp/acidwarp.c:88-90 | `(v << 2) \| (v >> 4)` is 4v + v/16 and fits in 8 bits for a 6-bit channel |
| Convert.ScaleEnds | acidwarp/acidwarp.c:88-90 | black stays 0 and full 6-bit intensity becomes 255 |
| Convert.ScaleMonotone | acidwarp/acidwarp.c:88-90 | the scaling preserves the order of channel values |
| Convert.ScaleInjective | acidwarp/acidwarp.c:88-90 | distinct 6-bit values stay distinct |
| Convert.ArgbIsOr | acidwarp/acidwarp.c:91 | the packed word equals the source's OR of 0xFF000000, r<<16, g<<8 and b |
| Convert.ArgbChannels | acidwarp/acidwarp.c:91 | alpha, r, g and b can be read back from the packed word |
| Convert.PixelWordChannels | acidwarp/acidwarp.c:85-92 | a pixel's word is opaque and holds the scaled R, G and B of its palette entry |
| Convert.ConvertPixel | acidwarp/acidwarp.c:85-92 | one pixel is converted through the palette |
| Convert.ConvertRow | acidwarp/acidwarp.c:84-93 | one row of pixels is converted; the rest of the destination keeps its contents |
| Convert.Convert8To32 | acidwarp/acidwarp.c:81-96 | all width*height pixels are converted and nothing else is written; with no pixels nothing changes |
| Image.OffsetsAt | acidwarp/acidwarp.c:216-217 | the first eight of the twelve preamble draws give the offsets x1..y4, each in -20..19; the other four are unused angles |
| Image.Formula | acidwarp/acidwarp.c:231-506 | a pixel's formula makes at most three RANDOM draws |
| Image.Normalize | acidwarp/acidwarp.c:508-513 | normalisation puts any colour into 1..colormax-1 |
| Image.NormalizeIsResidue | acidwarp/acidwarp.c:508-513 | normalisation is the residue modulo colormax-1, plus one |
| Image.StoredInRange | acidwarp/acidwarp.c:516 | the stored byte is the normalised colour |
| Image.NextPixel | acidwarp/acidwarp.c:220-516 | a pixel is appended after the previous ones, in 1..colormax-1 |
| Image.ImageOf | acidwarp/acidwarp.c:220-223 | the image has exactly xmax*ymax pixels |
| Image.FormulaIgnoresNeighbours | acidwarp/acidwarp.c:388-442 | only formulas 28, 29, 33 and 34 read the pixels to the left and above, and on the first row or column even they ignore them |
| Image.FormulaDraws | acidwarp/acidwarp.c:388-504 | a number outside 0..40 gives a random colour RANDOM(colormax-1)+1 from one draw; formulas in 0..40 other than the feedback ones make no draw; feedback formulas other than 34 always draw |
| Image.RowsInRange | acidwarp/acidwarp.c:220-516 | every pixel written so far is in 1..colormax-1 |
| Image.ImageInRange | acidwarp/acidwarp.c:209-534 | every pixel of a generated image is in 1..colormax-1 |
| Image.RowsMoveForward | acidwarp/acidwarp.c:220-516 | writing pixels never moves the random source backward |
| Image.DrawOffsets | acidwarp/acidwarp.c:216-217 | the offsets are the next twelve draws |
| Image.WritePixel | acidwarp/acidwarp.c:224-516 | one store of the generated pixel at xmax*y + x |
| Image.WriteRow | acidwarp/acidwarp.c:222-517 | one row appended; later bytes untouched |
| Image.WriteImage | acidwarp/acidwarp.c:220-531 | the buffer holds the generated image; the bytes past it are untouched |
| Image.GenerateImage | acidwarp/acidwarp.c:209-534 | fills the buffer with the image for the function number and always returns 0, so the fallback pattern at acidwarp.c:737-743 is dead code |
| PalInit.WriteRgbwColumn | acidwarp/palinit.c:80-96 | one pass of the loop writes entry q of all four bands and nothing else |
| PalInit.WriteRgbwChannel | acidwarp/palinit.c:82-95 | one channel's stores write the four bands at that channel and nothing else |
| PalInit.InitRgbw | acidwarp/palinit.c:76-115 | init_rgbw leaves exactly the RGBW palette |
| PalInit.WriteGrey | acidwarp/palinit.c:129-131 | one entry becomes a grey of value v; the others are kept |
| PalInit.InitW | acidwarp/palinit.c:123-141 | init_w leaves exactly the grey ramp palette |
| PalInit.InitWHalf | acidwarp/palinit.c:148-169 | init_w_half leaves exactly the half grey ramp palette |
| PalInit.InitPastel | acidwarp/palinit.c:176-190 | init_pastel leaves exactly the pastel palette |
| PalInit.AddSparkles | acidwarp/palinit.c:59-69 | add_sparkles brightens each channel of entries 1, 5, 9, … by the amount, capped at 63 |
| PalInit.TypeOf | acidwarp/palinit.c:13-51 | a palette number selects the default case exactly when it is none of the eight named types |
| PalInit.InitPalArray | acidwarp/palinit.c:13-51 | initPalArray applies the calls of the selected case in order |
| PalInit.PassesResult | acidwarp/palinit.c:13-51 | the palette each type produces: initialiser, then sparkles for the lightning types; the default is the grey ramp |
| PalInit.InitPalArrayIndependent | acidwarp/palinit.c:13-51 | the result never depends on the array's earlier contents |
| PalInit.RgbwLightningIsWLightning | acidwarp/palinit.c:29-34 | RGBW_LIGHTNING produces the same palette as W_LIGHTNING, because its init_w call overwrites the RGBW bands |
| PalInit.WPaletteShape | acidwarp/palinit.c:123-141 | the grey ramp: all three channels of entry e equal e/2 on the way up and (255-e)/2 on the way down |
| PalInit.WHalfPaletteShape | acidwarp/palinit.c:148-169 | the half ramp: up over 0..63, down over 64..127, black from 128 |
| PalInit.PastelPaletteShape | acidwarp/palinit.c:176-190 | the pastel ramp: 31 plus a quarter-slope ramp |
| PalInit.RgbwPaletteShape | acidwarp/palinit.c:76-115 | RGBW bands: red, green and blue bands are pure, the white band is grey, and every value is at most 62 |
| PalInit.SparkledShape | acidwarp/palinit.c:59-69 | sparkles keep every entry that is not 1 mod 4, never darken, and keep 6-bit values 6-bit |
| PalInit.TypePaletteInRange | acidwarp/palinit.c:13-51 | every palette type stays within 0..63 |
| RolNFade.RotateForward | acidwarp/rolnfade.c:35-44 | rotateforward: in channel c each entry 1..254 takes the next entry's value, entry 255 takes entry 1's, and entry 0 and the other channels stay |
| RolNFade.RotateBackward | acidwarp/rolnfade.c:22-33 | rotatebackward: in channel c each entry 2..255 takes the previous entry's value, entry 1 takes entry 255's, and entry 0 and the other channels stay |
| RolNFade.RotatedForwardMoves | acidwarp/rolnfade.c:35-44 | the forward rotation, entry by entry: other channels and entry 0 unchanged, k takes k+1, 255 takes 1 |
| RolNFade.RotatedBackwardMoves | acidwarp/rolnfade.c:22-33 | the backward rotation, entry by entry: other channels and entry 0 unchanged, k takes k-1, 1 takes 255 |
| RolNFade.RotationsInverse | acidwarp/rolnfade.c:22-44 | a backward rotation undoes a forward one and vice versa |
| RolNFade.ForwardNEntries | acidwarp/rolnfade.c:35-44 | n forward rotations shift entries 1..255 cyclically by n and leave the rest |
| RolNFade.ForwardCycle | acidwarp/rolnfade.c:35-44 | 255 forward rotations restore the palette |
| RolNFade.Inverted | acidwarp/rolnfade.c:177-193 | the red direction flips exactly when the draw is 0, the green exactly when it is 1, the blue exactly when it is 2 |
| RolNFade.InvertedFlipCount | acidwarp/rolnfade.c:177-193 | exactly one direction flips when the draw is 0, 1 or 2 and none otherwise; the same draw again restores the directions |
| RolNFade.RolledInverse | acidwarp/rolnfade.c:155-171 | a roll is undone by rolling the channels back in reverse order with the directions reversed |
| RolNFade.RotKeeps | acidwarp/rolnfade.c:22-44 | a rotation applied to two palettes keeps any bytewise relation between them |
| RolNFade.RolledKeeps | acidwarp/rolnfade.c:155-171 | a roll applied to main and target alike keeps any bytewise relation between them |
| RolNFade.RolledKeepsEntry0 | acidwarp/rolnfade.c:155-171 | a roll never changes entry 0 |
| RolNFade.RolledKeepsEquality | acidwarp/rolnfade.c:155-171 | two palettes equal from entry 1 on stay equal after the same roll |
| RolNFade.CountWhite | acidwarp/rolnfade.c:112-124 | the WHITE counter reaches 765 exactly when entries 1..255 are all at 63 |
| RolNFade.CountBlack | acidwarp/rolnfade.c:126-138 | the BLACK counter reaches 765 exactly when entries 1..255 are all 0 |
| RolNFade.CountEqual | acidwarp/rolnfade.c:140-153 | the match counter reaches 765 exactly when main equals target from entry 1 on |
| RolNFade.FadeToWhite | acidwarp/rolnfade.c:112-124 | each byte below 63 rises by one; DONE exactly when all were already 63 |
| RolNFade.FadeToBlack | acidwarp/rolnfade.c:126-138 | each byte above 0 falls by one; DONE exactly when all were already 0 |
| RolNFade.FadeToTarget | acidwarp/rolnfade.c:140-153 | each byte moves one step toward the target; the target is unchanged; DONE exactly when they were already equal |
| RolNFade.FadedTowardSelf | acidwarp/rolnfade.c:140-153 | fading a palette toward itself changes nothing and is DONE |
| RolNFade.WhiteStep | acidwarp/rolnfade.c:112-124 | a fade to white raises the floor of entries 1..255 by one |
| RolNFade.BlackStep | acidwarp/rolnfade.c:126-138 | a fade to black lowers the ceiling of entries 1..255 by one |
| RolNFade.TowardStep | acidwarp/rolnfade.c:140-153 | a fade toward the target shrinks the largest byte distance by one |
| RolNFade.WhiteRunFloor | acidwarp/rolnfade.c:54-62 | n fade-and-roll ticks raise the floor by n |
| RolNFade.BlackRunCeiling | acidwarp/rolnfade.c:64-72 | n fade-and-roll ticks lower the ceiling by n |
| RolNFade.WhiteConverges | acidwarp/rolnfade.c:54-62 | 63 ticks of fade to white and roll reach all white, whatever the directions |
| RolNFade.BlackConverges | acidwarp/rolnfade.c:64-72 | 63 ticks of fade to black and roll reach all black from a 6-bit palette |
| RolNFade.TargetRunNear | acidwarp/rolnfade.c:74-87 | n ticks of fade and a roll of both palettes shrink the distance by n |
| RolNFade.TargetConverges | acidwarp/rolnfade.c:74-87 | 63 such ticks make main equal the target from entry 1 on, for 6-bit palettes |
| RolNFade.Animator.constructor | acidwarp/rolnfade.c:11 | all directions start forward and the fade flag starts clear |
| RolNFade.Animator.MaybeInvert | acidwarp/rolnfade.c:177-193 | one draw of RANDOM(period) and the direction flip it selects |
| RolNFade.Animator.Roll | acidwarp/rolnfade.c:155-171 | roll_rgb_palArray rotates red, green and blue, each in its own direction |
| RolNFade.Animator.RollMainAndLoad | acidwarp/rolnfade.c:47-51 | a direction draw, then the main palette rolled |
| RolNFade.Animator.RolNFadeWht | acidwarp/rolnfade.c:54-62 | once complete, nothing changes; otherwise one fade and one roll, and completion when the fade reports DONE |
| RolNFade.Animator.RolNFadeBlk | acidwarp/rolnfade.c:64-72 | the same for the fade to black |
| RolNFade.Animator.RolNFadeToTarg | acidwarp/rolnfade.c:74-87 | during the fade both palettes roll alike after the step; once complete only main rolls |
| RolNFade.Animator.RolNFadToRndTarg | acidwarp/rolnfade.c:95-104 | a fade step; on DONE the target is redrawn as a random type; then both palettes roll alike |
| Shuffle.DrawFreeSlot | acidwarp/acidwarp.c:200-203 | the retry loop ends on a free slot, which is the last draw, and every earlier draw hit a taken slot; it fails only after the whole budget of draws, all on taken slots |
| Shuffle.MakeShuffledList | acidwarp/acidwarp.c:192-207 | the first listSize slots become a permutation of 0..listSize-1, and the rest of the array is untouched; it fails only after using the whole budget of draws |
| Shuffle.ClearSlots | acidwarp/acidwarp.c:196-197 | the first listSize slots are marked free and nothing else is written |
| WebSession.PhaseCycle | acidwarp.web/acidwarp.c:1022-1127 | the logo is never re-entered, and the four image states cycle |
| WebSession.PhaseAfterFollowsCycle | acidwarp.web/acidwarp.c:1022-1127 | each tick stays or moves exactly one state along |
| WebSession.NewImageAlwaysMoves | acidwarp.web/acidwarp.c:1059-1080 | NEW_IMAGE always goes on to FADE_IN |
| WebSession.ZeroLogoTimeLeaves | acidwarp.web/acidwarp.c:1033 | with logo_time 0 the logo leaves at once |
| WebSession.LockedRotationStays | acidwarp.web/acidwarp.c:1098 | a locked ROTATE without SKIP never leaves, whatever the clock |
| WebSession.FadeOutWaitsForFade | acidwarp.web/acidwarp.c:1112 | FADE_OUT leaves exactly when the fade is complete and ignores SKIP |
| WebSession.TicksSince | acidwarp.web/acidwarp.c:1016 | the unsigned subtraction measures the gap even when the millisecond counter wraps |
| WebSession.ThrottleAcrossWrap | acidwarp.web/acidwarp.c:1016 | across a wrap, the frame is skipped exactly when the true gap is below 30 ms |
| WebSession.NextIndex | acidwarp.web/acidwarp.c:1061-1062 | the next list position: one more, back to 0 after 39 |
| WebSession.PrevIndex | acidwarp.web/acidwarp.c:652 | LEFT's position: one less, wrapping to 39 |
| WebSession.IndexStepsInverse | acidwarp.web/acidwarp.c:647-668 | LEFT and RIGHT undo each other on the image list |
| WebSession.EffectLeft | acidwarp.web/acidwarp.c:649 | LEFT on the modern effect steps down and wraps 0 to 5 |
| WebSession.EffectRight | acidwarp.web/acidwarp.c:660 | RIGHT on the modern effect steps up and wraps 5 to 0 |
| WebSession.EffectStepsCycle | acidwarp.web/acidwarp.c:647-668 | both effect steps stay in 0..5 and undo each other |
| WebSession.Chosen | acidwarp.web/acidwarp.c:1068-1070 | the user's function when one was given, else the list entry |
| WebSession.ChosenFromShuffledList | acidwarp.web/acidwarp.c:1061-1071 | from a shuffled list, each position gives a distinct valid function number |
| WebSession.AfterEventInRange | acidwarp.web/acidwarp.c:613-672 | every key keeps the list position in -1..39 and the effect in 0..5; LEFT and RIGHT leave a real position |
| WebSession.AfterEventsInRange | acidwarp.web/acidwarp.c:613-672 | a run of events keeps those ranges |
| WebSession.AfterEventsStopAtQuit | acidwarp.web/acidwarp.c:615-629 | events after a quit request have no effect |
| WebSession.LeftUndoesRight | acidwarp.web/acidwarp.c:647-668 | RIGHT then LEFT (and LEFT then RIGHT) restore the globals except that SKIP ends clear |
| WebSession.PauseTwice | acidwarp.web/acidwarp.c:630-631 | two pause presses cancel |
| WebSession.Session.constructor | acidwarp.web/acidwarp.c:460-501 | the initial globals: logo state, index 0, GO set, nothing requested, delay 30000, logo 4 s, image 20 s; the list starts zeroed, as a static array does; the animator starts with the fade flag clear and all directions forward |
| WebSession.Session.ImageAt | acidwarp.web/acidwarp.c:1067-1071 | the image generated at the screen centre with colormax 255 has xmax*ymax pixels |
| WebSession.Session.ImageAtMovesForward | acidwarp.web/acidwarp.c:1067-1071 | generating an image uses its twelve preamble draws and never moves the random source back |
| WebSession.Session.ProcessCode | acidwarp.web/acidwarp.c:875-885 | the web processinput switch, with code 3 as the only exit |
| WebSession.Session.ProcessInput | acidwarp.web/acidwarp.c:873-885 | checkinput answers 0, so nothing changes |
| WebSession.Session.NewPal | acidwarp.web/acidwarp.c:868-871 | one draw of RANDOM(NUM_PALETTE_TYPES + 1), and the main palette becomes that type |
| WebSession.Session.Generate | acidwarp.web/acidwarp.c:1067-1071 | the buffer holds the image of the chosen function |
| WebSession.Session.StepKey | acidwarp.web/acidwarp.c:647-668 | LEFT/RIGHT: in modern mode the effect steps; otherwise the list position steps and the image is regenerated; SKIP is cleared |
| WebSession.Session.HandleEvent | acidwarp.web/acidwarp.c:613-672 | one event's change to the globals, exit exactly on a quit request, and a regenerated image exactly on classic LEFT/RIGHT |
| WebSession.Session.ShownAfterEventsKept | acidwarp.web/acidwarp.c:613-672 | a run of events with no classic LEFT/RIGHT before the first quit leaves the buffer and the random source alone; one with such a key moves the source forward |
| WebSession.Session.HandleEvents | acidwarp.web/acidwarp.c:613-672 | the events in order up to the first quit, which ends the program; the globals, the buffer and the random source end as the events' functions say, and the list is untouched |
| WebSession.Session.LogoDisplayTick | acidwarp.web/acidwarp.c:1023-1042 | `LogoDisplayStep`: first-tick set-up of both palettes, the logo in the buffer and the deadline, then leave on timeout or SKIP, or else roll while GO; list and fade flag kept |
| WebSession.Session.ShowLogo | acidwarp.web/acidwarp.c:1024-1031 | both palettes become the logo palette, the buffer holds the logo, and the deadline is logo_time seconds on |
| WebSession.Session.WriteLogo | acidwarp.web/acidwarp.c:1027 | the buffer holds the logo's raster |
| WebSession.Session.LogoFadeTick | acidwarp.web/acidwarp.c:1044-1057 | `LogoFadeStep`: on SKIP or completion, shuffle and enter NEW_IMAGE with index -1; else fade to black and roll while GO; target and buffer kept |
| WebSession.Session.NewImageTick | acidwarp.web/acidwarp.c:1059-1080 | `NewImageStep`: next position (reshuffle on wrap), the chosen image, a random target palette, then FADE_IN; the main palette kept |
| WebSession.Session.NextListIndex | acidwarp.web/acidwarp.c:1061-1064 | the position steps, and the list is reshuffled when it wraps |
| WebSession.Session.NewTarget | acidwarp.web/acidwarp.c:1073-1075 | a random palette type is installed as the target |
| WebSession.Session.FadeInTick | acidwarp.web/acidwarp.c:1082-1095 | `FadeInStep`: on SKIP or completion, set the deadline and enter ROTATE; else fade toward the target with both palettes rolled; buffer and list kept |
| WebSession.Session.RotateTick | acidwarp.web/acidwarp.c:1097-1109 | `RotateStep`: leave on SKIP or an expired unlocked deadline; else roll while GO and honour NP; target, buffer and list kept |
| WebSession.Session.RotateRun | acidwarp.web/acidwarp.c:1105-1107 | roll while GO, then a new palette if NP, with NP cleared |
| WebSession.Session.RollStep | acidwarp.web/acidwarp.c:1105-1106 | processinput, then one roll while GO |
| WebSession.Session.NewPalStep | acidwarp.web/acidwarp.c:1107 | newpal exactly when NP, and NP cleared |
| WebSession.Session.FadeOutTick | acidwarp.web/acidwarp.c:1111-1126 | `FadeOutStep`: on completion enter NEW_IMAGE; else fade to black, or to white per fade_dir, and roll while GO; target, buffer and list kept |
| WebSession.Session.Tick | acidwarp.web/acidwarp.c:1008-1128 | paused or throttled frames change nothing; otherwise the frame time is recorded and the current state's step (`StepOf`) is taken |
| WebSession.Session.StepOfTakesTransition | acidwarp.web/acidwarp.c:1022-1127 | every state's step goes to PhaseAfter's state, clears the flag and SKIP on leaving (except where the source does not), and advances the position in NEW_IMAGE |
| WebSession.Session.Step | acidwarp.web/acidwarp.c:1022-1127 | the step of the current state, in full: state machine, flags, palettes, buffer, list, directions and random source |
| WebSession.Session.MainLoopIteration | acidwarp.web/acidwarp.c:1005-1128 | exits exactly when an event asks to quit; the events' changes come first, then, if no quit, the tick from the state they leave |

## Left out

- The native main loop is left out; only its newpal call is modelled. The native `handle_sdl_events` is left out with it: its quit, pause, skip (N), lock and fullscreen/help keys. The web `generate_image` and `makeShuffledList` are copies of the native ones, and the native model stands for both.
- Rendering is left out: SDL, OpenGL, `render_frame`, the modern RGB effects (`effects_rgb.c`, `renderer_gl.c`), window and fullscreen handling, `SDL_Delay`. The fullscreen key changes no modelled state.
- `writeBitmapImageToArray` and the NOAHS_FACE bitmap are not part of this model. The logo's raster at XMax by YMax is a parameter (`Session.logo`), and the logo state's first tick copies it into the pixel buffer.
- Debug printing (`DBG_PRINT`, `CALL_DEBUG_*`) is left out, because it has no effect on state.
- Clocks are parameters of each tick, one `SDL_GetTicks` value and one `time(NULL)` value per frame. A tick that reads `time(NULL)` twice sees the same second both times.
- `exit(0)` is reported as an `Exit` outcome. `SDL_Quit` and the cleanup before it are left out.
- `RANDOM` is a fixed stream of naturals taken modulo the bound, because the generator is outside the core. Any sequence of draws can be modelled this way.
- The `lut_sin`, `lut_cos`, `lut_angle` and `lut_dist` look-up tables behave as unknown functions of `Lut`, because their tables are not part of this model. Only the integer arithmetic around them is modelled.
- The channel numbers RED, GREEN and BLUE are fixed at 0, 1 and 2 from the storage order (the initialisers write red at offset 0, green at 1, blue at 2, and the 32-bit conversion reads red at offset 0), not taken from the header that defines them.
- The palette-type numbers, NUM_PALETTE_TYPES and the direction-flip period come from headers that are not part of this model, so they are parameters.
- Shuffle.MakeShuffledList: the source retries a random draw until it hits a free slot, which ends only with probability 1. The model allows at most `budget` draws in all. Running out reports `ok == false` after exactly `budget` draws; the contents of the first listSize slots are then not described.
- RolNFade.RotateForward: the source's last loop pass (x = 255) reads byte 768 + color, past the end of the palette, and stores it in entry 255, which is overwritten with the saved entry 1 right after. The model's loop stops one pass earlier, so it never reads out of bounds; the final contents are the same.
- A full rotation takes 255 steps, not 256: entry 0 never moves.
- `int` overflow is not modelled: ROTATION_DELAY, the clock sums and the formulas' `int` arithmetic are unbounded. The XOR formulas, which work on `long`, are modelled in 64-bit two's complement.
- A formula's divisor is a constant, the screen size, or `20 + lut_dist(...)`. Division by zero is modelled as giving 0, so the model stays total.
- The palette buffers are distinct arrays, written as a `requires main != target`, because the source passes two different globals.
- `fade_dir` is never changed by the core, so FADE_OUT always fades to black. The white branch is modelled anyway.

## Findings

| source | as written | input that shows it | evidently intended | confidence | as-written member | corrected member |
|---|---|---|---|---|---|---|
| acidwarp/acidwarp.c:846-856 | `newpal` fills a `MainPalArray` it declares locally and then discards, so the palette that `main` animates (its own array, acidwarp.c:623) never changes | a new-palette request (main loop, acidwarp.c:800-802) while main's palette is black: it stays black, although every palette type has a non-zero entry 2. The shipped program never makes that request: the flag is set only for code 4 (acidwarp.c:882) and `checkinput` always answers 0 (acidwarp.c:858-863), so `newpal` is unreachable there | the drawn palette type is installed in main's palette (local at acidwarp.c:623), as the web `newpal` does with its global one | high that the code does this; the path is unreachable in the shipped program; not executed | Controls.NativeNewPal | Controls.NativeNewPalIntended |
