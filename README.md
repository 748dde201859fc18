# Integer core of the RGB Shades audio effects

The RGB Shades are LED glasses: a 16 x 5 matrix split into two 7-column
lenses (columns 0..6 and 9..15) joined by a 2-column bridge. `effects.h`
holds the animation effects. Each effect is a step function that the main
loop calls over and over. It keeps its own `static` state, runs a one-time
setup guarded by the global `effectInit`, writes one frame into `leds[]`,
and may change the global `effectDelay`.

This project models the effects whose logic is integer state and integer
arithmetic:

- the text scroller `scrollText`;
- the directional fill `colorFill`;
- the beat-driven growth effect `mind`;
- the integer part of `mindAudio`;
- the colour cycle of `RGBpulse`;
- the stage counter of `hearts`;
- the perimeter runner of `shadesOutline`;
- the beat counter of `audioShadesOutline`;
- the clamps and mirrored writes of `drawAnalyzer`, `drawVU` and `audioStripesB`.

Every stateful effect is a class. Its fields are the C statics plus
`effectInit` and `effectDelay`. Its `Step` method takes the outside inputs
as parameters:

- the beat flag;
- the millisecond clock;
- band levels;
- the `random8` draw.

`Step` writes a `Canvas` object that wraps an `array` of 80 colours, stored row-major.
Where the C code updates state in place, the model does the same:

- the scroller's 16-slot column buffer is an `array` written through a wrapping pointer;
- the `for` loops that write pixels are `while` loops with invariants.

Each `Step` ties its new state to a pure transition function over a small
datatype snapshot (`MindNext`, `ExpansionNext`, `FillNext`, ...). The lemmas
state the promised properties of those functions:

- ranges and wrap points;
- edge triggering;
- the slew limit;
- the cadence;
- scroll continuity;
- footprints and mirror symmetry.

All byte and `unsigned long` arithmetic is written out as in the C code:

- a value stored into a byte is kept modulo 256 (`Wrap8`);
- C division truncates toward zero (`CDiv`);
- a clock difference is taken modulo 2^32 (`Elapsed`).

So the quirks of the code are kept and proved as they are:

- `beatBoost` underflows from 2 to 255 (`BoostUnderflow`);
- the `totalBrightness > 255` test never fires, because the byte sum has already wrapped (`TotalBrightness`);
- the unclamped `stageHoldTime` wraps for loud bass (`HoldTimeWrapsForLoudBass`);
- setup clears the column buffer but keeps `bitBufferPointer` and `paletteCycle`;
- the pointer wraps at a literal 15 while indexing uses `% 16`.

Library colour functions are parameters of the steps. `nscale8` becomes
`scale`, `ColorFromPalette` becomes `palette` or `rainbow`, and `CHSV`
becomes `hsv`. The glyph font of the scroller is a function from a
character to five column bytes.

Files and modules:

- `bytes.dfy` (`Bytes`): bytes, the 32-bit clock, C division, Arduino `map`, clamps.
- `canvas.dfy` (`Canvas`): the LED matrix.
- `lenses.dfy` (`Lenses`): lens geometry, footprints, and the square, ring and lens-fill loops shared by `mind` and `mindAudio`.
- `scroll_text.dfy` (`TextScroll`): `scrollText`.
- `color_fill.dfy` (`ColorFill`): `colorFill`.
- `mind.dfy` (`Mind`): `mind`.
- `mind_audio.dfy` (`MindAudio`): `mindAudio`.
- `cycles.dfy` (`Cycles`): `RGBpulse`, `hearts`, `shadesOutline`, `audioShadesOutline`.
- `analyzers.dfy` (`Analyzers`): `drawAnalyzer`, `drawVU`, `audioStripesB`.

The scroller carries a ghost counter `emitted` of the columns loaded since setup.
Its invariant `Synced` says two things:

- the column cursor, the character cursor and the loaded glyph sit at stream position `emitted`;
- the 16 columns on the display are stream columns `emitted - 16 .. emitted - 1`.

`StreamColumn` defines that stream: glyph columns 0..4 of each character, then two blank
columns, the message repeating at its terminator.

Five places where the model differs in form from the C code:

- In `mind`, the input is the sum `bands` of the three bass band levels.
  The float `bassLevel` is a third of it:
  - `bassLevel > 150` is `bands > 450`;
  - `map` receives the integer part `bands / 3`.
- In `mindAudio`, `smoothedIntensity` enters as its integer part. Every use of it is one of two kinds:
  - a comparison with an integer constant;
  - a conversion to `long` after adding an integer.

  Both give the same result for the integer part.
- The `senseValue / 1.5 - 15` of `drawVU` is computed exactly as the C division `(2 * senseValue - 45) / 3`.
- `mindAudio` calls `FastLED.clear()` near its top; the model clears just before the ring blocks.
  Nothing in between reads or writes the LEDs.
- In `colorFill`, the drawing half of a call is the helper `DrawLine`.

## Model

| member | source | states |
|---|---|---|
| Bytes.Wrap8 | effects.h:287 | storing an int into a byte keeps it modulo 256; values already in 0..255 are unchanged |
| Bytes.CDiv | effects.h:380 | C division by a positive divisor: the Euclidean quotient for a non-negative numerator, the negated quotient of the negation for a negative one |
| Bytes.CDivExact | effects.h:914 | C division of an exact multiple by either sign of divisor gives back the other factor |
| Bytes.ArduinoMapEnds | effects.h:914 | Arduino `map` sends the two ends of the input range to the two ends of the output range |
| Bytes.Elapsed | effects.h:906 | `currentMillis - lastStageChange` on `unsigned long`: the plain difference when the clock has not wrapped, plus 2^32 when it has |
| Bytes.Clamp | effects.h:377-378 | the paired clamp tests: the result lies in [lo, hi], equals v inside that range and the nearer bound outside it |
| Bytes.BitReadDigits | effects.h:298 | `bitRead` reads binary digits: bit 0 is the parity, bit i + 1 is bit i of the halved value, and a byte has no bit set from 8 on |
| Canvas.Idx | effects.h:386 | pixel (x, y) has the row-major cell y*16 + x, and distinct pixels get distinct cells |
| Canvas.Canvas.Set | effects.h:853 | `leds[XY(x, y)] = c` changes that pixel and no other |
| Canvas.Canvas.SetIndex | effects.h:682 | a write to raw LED index i changes that cell and no other |
| Canvas.Canvas.Fill | effects.h:450 | `fillAll(c)` makes every pixel c |
| Canvas.Canvas.Clear | effects.h:811 | `FastLED.clear()` makes every pixel black |
| Lenses.LensExtent | effects.h:892-900 | every lens pixel is within 3 columns and 2 rows of its lens centre |
| Lenses.Footprint | effects.h:848-903 | a growth footprint lies on the lenses and never on the bridge columns 7 and 8 |
| Lenses.RingsUnion | effects.h:1024-1094 | the rings 1..e together light exactly the growth-e footprint, in both directions |
| Lenses.DrawSquares | effects.h:858-871 | the nested dx/dy loops write exactly the lens-clipped square of radius r around both centres minus the skipped inner offsets, and leave every other pixel as it was |
| Lenses.FillLens | effects.h:892-901 | the column/row loops of one lens write exactly the lens pixels (optionally outside the central 3x3) and leave the rest unchanged |
| TextScroll.StreamPeriodic | effects.h:311-321 | after every character and its spacing have been emitted, the column stream repeats exactly |
| TextScroll.StreamColumnAt | effects.h:289-293 | on every lap n, character j of the message occupies stream columns 7 * (n * length + j) .. + 6: its five glyph columns, then two blank spacing columns |
| TextScroll.ScrollPixel | effects.h:298-307 | a clear bit shows the background and a set bit the foreground, or in rainbow style the palette colour at `paletteCycle + y * 16` in a byte; hence a blank (spacing) column and any row from 8 on show only the background, and outside rainbow style only the two given colours appear |
| TextScroll.WindowAfterLoad | effects.h:289-324 | writing the next column behind the pointer and advancing it shifts every shown column one place left and shows the new stream column at the right edge |
| TextScroll.TextScroller.constructor | effects.h:267-272 | the character and column cursors, the palette cycle and the pointer start at 0, all 16 buffer slots are 0, the glyph buffer is zero and the effect starts before its setup |
| TextScroll.TextScroller.Setup | effects.h:275-285 | setup puts the cursors on the first character, zeroes the buffer, sets the delay to 35 and keeps the pointer and the palette cycle; the window is then in step with the stream at position 0 |
| TextScroll.TextScroller.ClearBitBuffer | effects.h:283 | every buffer slot becomes 0 |
| TextScroll.TextScroller.LoadColumn | effects.h:289-293 | the slot behind the pointer receives the current stream column (a glyph column, or 0 during the spacing) and no other slot changes |
| TextScroll.TextScroller.Render | effects.h:295-309 | display pixel (x, y) is bit y of the slot x places after the pointer, in the foreground, rainbow or background colour |
| TextScroll.TextScroller.AdvanceCursor | effects.h:311-321 | the column cursor steps 0..6, and after the last spacing column the next character is loaded, wrapping to the first at the terminator; the cursors stay in step with the stream and stay in range |
| TextScroll.TextScroller.AdvancePointer | effects.h:323-324 | the pointer goes to (p + 1) mod 16 through the literal test `> 15` |
| TextScroll.TextScroller.Advance | effects.h:311-324 | after the cursor and pointer updates the window is in step with the stream one column further on |
| TextScroll.TextScroller.SyncedAfterLoad | effects.h:289-324 | once the new column is loaded and the pointer and cursors have moved on, the shown columns are the stream columns up to the one just loaded |
| TextScroll.TextScroller.Scroll | effects.h:289-324 | one load-draw-advance cycle keeps the invariant and draws the shown window |
| TextScroll.TextScroller.Step | effects.h:266-326 | a call keeps the invariant and advances the pointer and the palette cycle (+15 in a byte); columns 0..14 then show what columns 1..15 showed before (all blank right after setup); column 15 shows the newly loaded stream column; the frame is drawn from the shown columns |
| ColorFill.PassLength | effects.h:161 | a fill has 5 lines or 16, and it has 5 exactly when its direction fills rows |
| ColorFill.NextColour | effects.h:163-164 | for a palette slot in 0..15 and a draw of 3..5, the new slot is (slot + draw) mod 16 |
| ColorFill.NextDir | effects.h:165-166 | the direction steps 0, 1, 2, 3, 0 |
| ColorFill.FillNext | effects.h:158-168 | the state stays valid (slot below 16, direction at most 3, line below the pass length); a call in the middle of a fill moves to the next line; the last call of a fill resets the line and moves the colour and the direction on |
| ColorFill.FillDelay | effects.h:139-168 | the delay is 45, 20 or 300, and it is 300 exactly when the call completes a fill |
| ColorFill.PassPartitions | effects.h:139-156 | the lines of one fill cover every pixel and each pixel lies on exactly one line |
| ColorFill.FillRun | effects.h:158-168 | any run of calls from a valid state stays valid |
| ColorFill.PassCompletes | effects.h:158-168 | a fill started at line r takes exactly the remaining lines and then starts the next direction at line 0, with the colour moved on by the last draw |
| ColorFill.PassFrom | effects.h:161-164 | a completed fill adds its last draw to the colour modulo 16 |
| ColorFill.FourPassesReturn | effects.h:161-166 | four fills from direction 0 take 5, 16, 5 and 16 calls, visit directions 1, 2 and 3 and return to line 0 of direction 0, the colour moved on by the sum of the four closing draws |
| ColorFill.ColorFiller.constructor | effects.h:123-125 | the three statics start at 0 |
| ColorFill.ColorFiller.Step | effects.h:121-171 | the new statics are `FillNext` of the old ones (or of the setup state); the delay is `FillDelay`; exactly the current line is painted with the palette colour of the slot, the other pixels keep their colour |
| ColorFill.DrawLine | effects.h:139-156 | row `row` from the top or bottom, or column `row` from the left or right, is painted by direction, and the delay is 45 for rows and 20 for columns |
| ColorFill.FillRow | effects.h:141-145 | the row loop paints row y and nothing else |
| ColorFill.FillColumn | effects.h:151-155 | the column loop paints column x and nothing else |
| Mind.NextStage | effects.h:907-910 | the stage stays within 0..4, stages 0..3 advance by one, and 4 wraps to 0 |
| Mind.StageColour | effects.h:814-839 | stages 0 and above 4 are black and stage 4 is red scaled by 255; stages 1..3 are never black, always strongly red (red at least 220, green at most 20, blue at most 60), crimson or red, red at stage 2 exactly when the bass level is above 150 |
| Mind.StageProgression | effects.h:814-832 | stages 1..3 move from crimson to red: stage 2 shows stage 1's colour under quiet bass and stage 3's under loud bass, and red never falls while green and blue never rise |
| Mind.Brightness | effects.h:842-844 | the brightness is in [50, 255]; it is the mapped bass value stored in a byte whenever that byte is at least 50, and the floor 50 exactly when it is below; the `> 255` test on a byte never fires |
| Mind.BrightnessScale | effects.h:842-844 | for bass in 0..400 the brightness is 50 + bass * 205 / 400, so it rises from 50 to 255 and the floor never acts |
| Mind.BrightnessWrapsForLoudBass | effects.h:842-844 | beyond the mapped range the byte wraps: a bass of 600 gives 101, dimmer than the 255 of a bass of 400 |
| Mind.MindNext | effects.h:906-921 | the beat is remembered for edge detection, and the stage stays within 0..4 |
| Mind.MindAdvance | effects.h:906-915 | a rising beat edge after more than the hold time advances the stage, stamps the time and takes a new hold time from the bass |
| Mind.MindKeepOrReset | effects.h:917-921 | without an admitted beat the hold time is kept; after more than 2000 ms since the last change the stage returns to 0 and the time stamp restarts, otherwise stage and stamp stay |
| Mind.MindChangeCauses | effects.h:905-921 | the stage changes only through an admitted beat or through the timeout reset to 0 |
| Mind.MindNoDoubleAdvance | effects.h:802-805 | the rising-edge test (`Triggered`): a beat that stays on never advances the stage on a second call, whatever the clock |
| Mind.MindBeatDuringHoldDropped | effects.h:906 | a beat edge inside the hold time is dropped: the stage and stamp stay, and the still-on beat cannot advance on the next call |
| Mind.HoldTimeRange | effects.h:914 | the hold time `HoldTime`: for bass in 0..400 it lies in [50, 200] and does not grow with louder bass |
| Mind.HoldTimeWrapsForLoudBass | effects.h:914 | beyond the mapped range the unclamped byte wraps: a bass of 600 holds for 231 ms, longer than silence (200 ms) |
| Mind.DrawStage | effects.h:811-903 | after the clear and the drawing switch, the lit pixels are exactly the stage footprint and all others are black |
| Mind.MindEffect.constructor | effects.h:794-802 | stage 0, time stamp 0, hold 100 ms, no beat seen |
| Mind.MindEffect.Step | effects.h:785-922 | a call sets the delay to 25 at setup; its new state is `MindNext` of the old; the frame shows the footprint of the stage held on entry, in its stage colour scaled by the bass brightness, on black |
| MindAudio.NextBoost | effects.h:956-964 | a beat sets the boost to 80, then 3 is taken off in the byte: 77 on a beat, boost - 3 above 2, 0 stays 0, and 1 or 2 underflow to 254 or 255 |
| MindAudio.BoostCountdown | effects.h:962-964 | while it lasts, the boost falls by exactly 3 per call |
| MindAudio.BoostUnderflow | effects.h:958-964 | the boost set by a beat reaches 2 after 25 calls, underflows to 255 on the 26th and only reaches 0 after 85 more |
| MindAudio.BaseBrightness | effects.h:968-969 | the base brightness is at most 200: half the intensity over 0..401, and 200 over 402..511, where the clamp acts |
| MindAudio.BaseBrightnessWrapsForLoud | effects.h:968-969 | from 512 the mapped value wraps in the byte before the clamp: 511 gives 200, 512 gives 0 and 700 gives 94 |
| MindAudio.TotalBrightness | effects.h:972-973 | the byte sum of base and boost wraps above 255, so the clamp never acts |
| MindAudio.RingColour | effects.h:975-987 | off below an intensity of 30; always pure red plus at most an eighth of blue, never brighter than the total: half the total below 200, the full total from 200 on, with a blue of total / 8 only from 300 on |
| MindAudio.TargetExpansion | effects.h:990-991 | the target expansion is at most 4 |
| MindAudio.TargetExpansionScale | effects.h:990-991 | for a sum of intensity and boost in 0..31999: below 500 the target is that sum / 125, and from 500 up to 32000 it saturates at 4 |
| MindAudio.TargetExpansionWraps | effects.h:990-991 | at a sum of 32000 the mapped 256 wraps to 0 in the byte, so the target falls from 4 to 0 |
| MindAudio.Slew | effects.h:994-1006 | the achieved expansion moves by at most one ring, toward the target and never past it, and changes exactly when it differs from the target and more than 50 ms have passed |
| MindAudio.SlewConverges | effects.h:997-1002 | at a held target, spaced calls reach it after as many calls as rings separate them |
| MindAudio.ExpansionNext | effects.h:955-1006 | the target stays at most 4 and the achieved expansion within 0..4; the change time is stamped exactly when the expansion changes, which needs more than 50 ms since the last change |
| MindAudio.FadedColour | effects.h:1009-1022 | the ring colour is scaled by 205 exactly when the achieved expansion differs from the target, and is kept otherwise |
| MindAudio.DrawRings | effects.h:1024-1094 | the four ring blocks paint exactly the footprint of the achieved expansion and keep all other pixels |
| MindAudio.MindAudioEffect.constructor | effects.h:934-937 | every carried-over static starts at 0 |
| MindAudio.MindAudioEffect.UpdateBoost | effects.h:956-964 | the boost becomes `NextBoost` of the old boost |
| MindAudio.MindAudioEffect.UpdateExpansion | effects.h:994-1006 | the achieved expansion becomes `Slew` of the old one, with the change time stamped only on a change |
| MindAudio.MindAudioEffect.Step | effects.h:924-1095 | the new state is `ExpansionNext` of the old; the fade amount is 48 during a transition and 0 otherwise; the lit pixels are exactly the footprint of the achieved expansion in the faded ring colour, on black |
| Cycles.PulseNext | effects.h:460-461 | the cycle stays in 0..2, changes only on a beat, and steps 0, 1, 2, 0 |
| Cycles.PulseColour | effects.h:448-458 | cycles 0, 1 and 2 fill red, lime and blue, one colour each |
| Cycles.PulseRotates | effects.h:448-461 | three beats bring the cycle back, and each beat shows a colour other than the previous one |
| Cycles.RGBPulse.constructor | effects.h:444 | the cycle starts at 0 |
| Cycles.RGBPulse.Step | effects.h:434-463 | on a beat every pixel takes the red, lime or blue of the current cycle and the cycle advances; without a beat nothing changes |
| Cycles.DrawnStage | effects.h:1123-1124 | the stage drawn is the counter with 5 read as 0, always in 0..4 |
| Cycles.HeartsNext | effects.h:1123-1140 | the counter left after a call is in 1..5 |
| Cycles.HeartsCycle | effects.h:1123-1140 | the drawn stage steps by one modulo 5, so five calls bring it back |
| Cycles.SmallInMedium | effects.h:1098-1101 | every LED of the small heart is in the medium heart |
| Cycles.MediumInLarge | effects.h:1099-1105 | every LED of the medium heart is in the large heart |
| Cycles.LargeInHuge | effects.h:1102-1110 | every LED of the large heart is in the huge heart |
| Cycles.HeartsNested | effects.h:1098-1110 | each stage's heart lies inside the next stage's heart |
| Cycles.HeartTable | effects.h:1125-1136 | the heart tables are exactly as long as the loop bounds 6, 18, 26 and 40 of their stages, so every loop index is in range |
| Cycles.HeartColour | effects.h:1125-1136 | every stage colour is visible and strongly red (red channel at least 220); only the huge heart is pure red |
| Cycles.Hearts.constructor | effects.h:1112-1113 | the counter starts at 0 |
| Cycles.Hearts.Step | effects.h:1111-1141 | stages 0..3 paint their heart table in salmon, tomato, crimson or red over the previous frame (over black at setup); stage 4 clears the display; the counter moves to the next stage |
| Cycles.PaintIndices | effects.h:1126-1127 | the table loop paints exactly the listed LEDs |
| Cycles.OutlineNext | effects.h:684-685 | the perimeter index stays below the perimeter size, steps by one and wraps to 0 after the last position |
| Cycles.OutlineLaps | effects.h:684-685 | for a perimeter of at most 256 LEDs the index after n calls from 0 is n modulo the perimeter |
| Cycles.ShadesOutline.constructor | effects.h:670 | the index starts at 0 |
| Cycles.ShadesOutline.Step | effects.h:668-687 | the LED at the current perimeter position takes the hue colour over the frame (cleared at setup), and the index moves on |
| Cycles.BeatNext | effects.h:721-724 | the beat count stays in 0..31, changes only on a beat, and steps modulo 32 |
| Cycles.BeatsCount | effects.h:721-730 | from a count below 32, the count after a run of beats is the start count plus the number of beats, modulo 32; so the runner's direction turns every 16 beats |
| Cycles.OutlineBrightness | effects.h:705-706 | the band sum is capped at 255 and kept below that |
| Cycles.AudioShadesOutline.constructor | effects.h:703 | the beat count starts at 0 |
| Cycles.AddRunner | effects.h:710-712 | after the four additions, an LED off the runner keeps its colour and an LED the runner covers once has the colour added once |
| Cycles.AddAlong | effects.h:710-712 | the `k` loop leaves the display as `AddRunner` of the display it found |
| Cycles.AudioShadesOutline.Step | effects.h:689-735 | setup clears the display; the hue colour at the capped band-sum brightness is then added to the four runner LEDs of the previous frame (or of the cleared one); the beat count becomes `BeatNext` of the old one; the runner moves forward exactly when the new count is below 16 |
| Analyzers.Fold | effects.h:386-387 | each column is a left-half column or the mirror of one |
| Analyzers.FoldMirror | effects.h:386-387 | column x and column 15 - x fold to the same left-half column |
| Analyzers.AnalyzerBrightness | effects.h:376-378 | 5 times the sense value, clamped: 0 at or below 0, 255 from 51 on |
| Analyzers.AnalyzerIndex | effects.h:380-382 | the index is at most 240: 0 up to 31, 240 from 510 on, sense / 2 - 15 between |
| Analyzers.AnalyzerMonotone | effects.h:375-382 | a stronger band never gives a dimmer pixel or a lower palette index |
| Analyzers.AnalyzerColour | effects.h:372-384 | column 7 is `palette(0, 0)`; columns 0..6 take the palette at the clamped index and brightness, `palette(0, 0)` for a silent cell and `palette(240, 255)` from a sense value of 510 on |
| Analyzers.Analyzer.constructor | effects.h:348 | the effect starts before its setup |
| Analyzers.Analyzer.Step | effects.h:346-392 | every pixel takes the colour of its folded column and row (column 7 is `palette(0, 0)`), so column x and column 15 - x agree; the delay is 10 after setup |
| Analyzers.DrawAnalyzer | effects.h:360-389 | the nested loops write every pixel and its mirror pixel with the clamped colour |
| Analyzers.VUIndex | effects.h:418-420 | the index is at most 240: 0 up to 23, 240 from 383 on, and exactly (2 * sense - 45) / 3, which is `sense / 1.5 - 15` truncated, from 24 to 382 |
| Analyzers.VUMonotone | effects.h:413-420 | a stronger level never gives a dimmer column or a lower palette index; the brightness formula is the analyzer's, so `AnalyzerBrightness` serves both |
| Analyzers.VUColour | effects.h:413-422 | a column takes the palette at the VU index and the analyzer's clamped brightness: `palette(0, 0)` when silent, `palette(240, 255)` from a sense value of 383 on |
| Analyzers.VU.constructor | effects.h:399 | the effect starts before its setup |
| Analyzers.VU.Step | effects.h:397-431 | each column and its mirror take one colour on every row, the clamped colour of the folded column; the delay is 10 after setup |
| Analyzers.DrawVU | effects.h:412-428 | the column loop with its inner row loop writes every pixel and its mirror with the column colour |
| Analyzers.StripeLevel | effects.h:633-639 | the level of a pass is the band level halved on the centre pass, times 2.5 on the outer passes, unchanged otherwise, with truncation toward zero, when that is at most 239, and 239 above |
| Analyzers.StripeBrightness | effects.h:643-645 | with d the distance from the lens centre, the brightness lies in [0, 254]: 0 while the level is at most 20 * d, 2 * (level - 20 * d) from there up to 20 * d + 127, and 254 from there on |
| Analyzers.StripeFades | effects.h:643-654 | within a lens the stripe is brightest at the centre and never brighter further out |
| Analyzers.StripeColour | effects.h:641-662 | the bridge columns 7 and 8 are black; a lens column takes the palette at the level (stored in a byte) with the centre-weighted brightness, at brightness 0 once the distance from the lens centre costs more than the level |
| Analyzers.StripeMirror | effects.h:641-662 | column x and column 15 - x get the same colour, and the bridge is black |
| Analyzers.StripeTopBottom | effects.h:630 | passes 0 and 4 read the same band, so the top and bottom rows agree |
| Analyzers.Stripes.constructor | effects.h:611 | the effect starts before its setup |
| Analyzers.Stripes.Step | effects.h:609-664 | pass y paints display row 4 - y with the stripe colours of its level; the two lenses mirror each other and the top and bottom rows agree; the delay is 20 after setup |
| Analyzers.DrawStripes | effects.h:632-663 | the pass loop paints every row with the stripe of its pass |
| Analyzers.DrawStripeRow | effects.h:642-662 | the three column loops paint one row: the two lenses with the centre-weighted brightness, the bridge black |

## Left out

- Floating-point arithmetic is not modelled. These quantities are integer inputs:
  - `senseValue` of `drawAnalyzer` and `drawVU`, including the band selection and `/ 2` into `freqVal`, the `/ 1.5` scaling and the row offset;
  - `audioLevel` of `audioStripesB` after its `/ 1.8`;
  - the smoothed intensity of `mindAudio`, whose moving average is not modelled.
- Cycles.AudioShadesOutline.Step: does not model the float runner position `x`, its increment or its wrap. The step takes the four LED addresses `OutlineMap` gives for that position and its quarter-lap offsets as a parameter, and FastLED's saturating `+=` as the parameter `add`. It returns the brightness and direction the runner would next move with.
- FastLED and Arduino library functions are parameters or constants:
  - `nscale8`, `ColorFromPalette`, `CHSV` and the glyph font (`loadCharBuffer`) are parameters;
  - `XY` is the row-major index;
  - `OutlineMap` is a table of LED addresses given to the constructor, and its length stands for `OUTLINESIZE`, which `effects.h` does not define;
  - the heart tables are raw LED addresses.
  `beatDetect`, `currentMillis` and `random8(3, 6)` are parameters of the steps.
- Global effect settings (`currentPalette`, `fadeActive`, `audioActive`) and the palette and flash-string selection (`selectRandomAudioPalette`, `selectFlashString`) are not modelled. The `palette` parameter stands for whichever palette is current.
- MindAudio.TargetExpansionScale: the closed form is stated for sums of intensity and boost below 32000; from 32000 on the mapped value wraps in the byte, shown at its first point by `TargetExpansionWraps`.
- Bytes.ArduinoMap: the `long` arithmetic inside Arduino `map` is unbounded here, so a 32-bit overflow of `(x - inMin) * (outMax - outMin)` is not modelled.
- TextScroll.TextScroller.constructor: requires a message of 1 to 255 characters followed by its terminator. On an empty message the C code reads past the terminator. On a message longer than 255 characters the byte character cursor wraps.
- Cycles.Hearts.Step: the static loop variable `x` of `hearts` is not a field. Each call sets it before reading it.
- `audioShadesOutlineB` is not a separate class. It repeats the beat count and brightness logic of `audioShadesOutline` line for line and differs only in its palette.
