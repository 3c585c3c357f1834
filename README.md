# Rotating-polygon sequencer: a Dafny model

This project models the engine of a browser polyrhythm sequencer. Each instrument is a
rotating polygon, and a corner sounds its note when it crosses a fixed playhead. The model
covers what decides which pattern is live, when a corner fires, and what is exported:

- **`RotatingPolygon` (module `Sequencer`).** The pattern bank has four slots, A to D. The
  polygon's live geometry (sides, radius, colours, corners) is copied by value into and out of
  those slots. The pattern sequencer switches slots when a new rotation cycle starts. The model
  also covers:
  - the clamping setters for sides and radius;
  - the sequence-text, measures and reset handlers;
  - the note-assignment cursor of the on-screen keyboard.

  The class invariant `Valid()` holds after every state-changing method except `ApplyState`,
  which is only called from `LoadStateFrom` and mirrors the constructor's `applyState`. It
  says:
  - `corners` has `sides` elements and corner `k` has index `k`;
  - there are at least 3 sides and at least one measure;
  - the sequence is a non-empty word over A to D;
  - all four slots exist and are well formed;
  - the live geometry is exactly what loading the active slot gives. Every mutator in
    script.js saves into the active slot right after it changes the live state.
- **Slot values (module `Patterns`).** Live corners always carry a volume. A stored corner
  may lack one, because slots are JSON objects, so its volume is an `Option`. `Snapshot` and
  `Restore` are the two copies, and `Resized` states what `setSides` leaves.
- **Musical arithmetic (module `Music`).**
  - Rotation and note durations; one rotation lasts 4 beats per measure.
  - `Math.round` (`Round`) and `Math.ceil` (`Ceil`).
  - The radius-to-octave step function.
  - Euclid's gcd, `lcm` and `lcmArray`.
- **The trigger decision (modules `Detection`, `Animation`).** Each corner's angular distance
  to the playhead is an input, in degrees.
  - A polygon reports the first corner, in index order, closer than 12°.
  - A note fires only on the rising edge of `wasHittingLine` and only closer than 4°.
  - It is requested only inside the audible band 20–10000 Hz and above volume 0.001.
- **The MIDI export (module `MidiExport`).**
  - The arrangement lasts `lcm(measures) * 4` beats.
  - Each polygon's track repeats its rotation `ceil(totalBeats / rotationBeats)` times.
  - There is one note event per repetition and per corner that is not a rest.
  - Start ticks are `round(((index/sides)*dur + r*dur)*480)`.
  - The header patch writes 480 into the division field. That field is bytes 12–13 of the
    `MThd` chunk, big-endian, as section "Header Chunks" of the Standard MIDI File 1.0
    format defines it.
- **The default-radius allocator (module `Radii`).** A last-in-first-out free list sits in
  front of a counter that steps outward from radius 40, in steps of 35.

Modules:

| module | source |
|---|---|
| `Wrappers` | `Option` |
| `Music` | `getRotationDuration`, `getNoteDurationSeconds`, `getNoteDurationTicks`, `getNoteByRadius`, `lcm`, `lcmArray` |
| `Patterns` | corner and slot values, `applyState`'s volume default, `setSides`'s resize |
| `Input` | the sequence-text filter, `NOTES_MAP` |
| `Detection` | `checkForIntersection`'s corner choice, the edge gate, the audibility gates, `playClick`'s guard |
| `Sequencer` | `RotatingPolygon` and the reset button |
| `Animation` | the trigger block of `animate` |
| `MidiExport` | the event loop and header patch of `exportPolygonsToMIDI` |
| `Radii` | `getNextRadius`, `recycleRadius` |

The octave breakpoints of script.js are strict comparisons, so radius 30 doubles the note
(30 is not below 20 but is below 50) and radius 100 halves it (A4 becomes 220 Hz);
`OctaveBoundaries` states both.

## Model

| member | source | states |
|---|---|---|
| Music.Round | script.js:406 | Math.round gives the integer within half a unit of x, halves rounding up |
| Music.Ceil | script.js:1044 | Math.ceil gives the least integer not below x |
| Music.RoundShift | script.js:1060 | rounding commutes with adding a whole number of ticks |
| Music.NoteDurationSeconds | script.js:402 | `sides` note slots at `bpm` fill exactly one rotation of `4*measures` beats |
| Music.GetNoteByRadius | script.js:146-153 | a rest (0) stays a rest and only a rest maps to 0; any note moves by at most ÷8 to ×4 |
| Music.GetNoteByRadiusIsTable | script.js:146-153 | the chained conditionals equal a sorted breakpoint table read first-match: <20 ×4, <50 ×2, <100 ×1, <200 ÷2, <250 ÷4, else ÷8 |
| Music.GetNoteByRadiusMonotone | script.js:146-153 | a larger polygon never sounds higher than a smaller one |
| Music.OctaveBoundaries | script.js:146-153 | the breakpoints are strict: radius 20 and 30 double, 100 halves, 250 divides by 8 |
| Music.NoteDurationTicks | script.js:403-408 | the ticks per corner are never negative, and when 1920·measures ticks divide evenly among the sides each corner gets exactly its share |
| Music.NoteDurationTicksNear | script.js:403-408 | the ticks per corner are 1920·measures/sides rounded to the nearest tick: within half a tick of the exact share for every side count |
| Music.NoteDurationTicksExamples | script.js:403-408 | one measure gives 480 ticks per corner of a square, 320 of a hexagon, 640 of a triangle, 274 of a heptagon and 213 of a nonagon (both rounded) |
| Music.Gcd | script.js:156 | gcd terminates (the second argument decreases), divides both arguments, is divided by every common divisor (it is the greatest), and is positive unless both are 0 |
| Music.GcdKeepsDivisors | script.js:156 | Euclid's step y, x % y keeps every common divisor of x and y |
| Music.Bezout | script.js:156 | the gcd is an integer combination s·x + t·y of the arguments |
| Music.BezoutStep | script.js:156 | with x = q·y + r, coefficients that give gcd(y, r) from y and r give it from x and y |
| Music.Lcm | script.js:156 | a*b/gcd(a,b) is a positive common multiple of a and b that divides every common multiple (it is the least) |
| Music.LcmLeast | script.js:156 | every common multiple of a and b is a multiple of a*b/gcd(a,b) |
| Music.LcmFold | script.js:157 | the reduce with lcm stays positive |
| Music.LcmFoldMultiple | script.js:157 | the reduce is a multiple of its seed and of every element folded in |
| Music.LcmArrayMultiple | script.js:157 | lcmArray([]) is 1; otherwise the result is a positive multiple of every element |
| Music.LcmFoldLeast | script.js:157 | the reduce divides every common multiple of its seed and its elements |
| Music.LcmArrayLeast | script.js:157 | lcmArray divides every common multiple of the list: it is the least common multiple |
| Patterns.LoadCorner | script.js:365-368 | applyState's corner copy keeps index, note and length, keeps a present volume and defaults an absent one to 1.0 |
| Patterns.Snapshot | script.js:347-350 | the slot copy keeps sides, radius, colours and every corner's index, note and length, and records every volume |
| Patterns.Restore | script.js:361-368 | the loaded state keeps sides, radius and colours, and each corner is that stored corner loaded |
| Patterns.Resized | script.js:415-432 | the new corner list has n corners indexed 0..n-1; kept corners keep note, length and volume; the rest are defaults |
| Patterns.RestoreSnapshot | script.js:346-369 | saving the live state to a slot and loading it back gives equal sides, radius, colours and corners |
| Patterns.RestoreDefaultsVolume | script.js:360-369 | loading keeps sides, radius and notes, and sets volume 1.0 exactly where the slot lacks one |
| Patterns.SnapshotWellFormed | script.js:346-351 | a copy of well-formed geometry is a well-formed slot |
| Patterns.RestoreWellFormed | script.js:360-369 | loading a well-formed slot gives well-formed geometry |
| Patterns.ResizedGrows | script.js:415-425 | growing keeps the old corners as a prefix and appends default corners (261.63 Hz, length 0.2, volume 1.0) with the next indices |
| Patterns.ResizedShrinks | script.js:426-430 | shrinking keeps exactly the first n corners |
| Input.PatternLetterOf | script.js:812 | a character leaves a letter after upper-casing and the [ABCD] filter exactly when it is A–D, a–d or U+1E9A; A, a and U+1E9A leave A; B, b leave B; C, c leave C; D, d leave D |
| Input.CleanLigature | script.js:812-813 | "B" followed by U+1E9A is stored as the sequence B, A |
| Input.Filtered | script.js:812 | the filtered text is no longer than the input and holds only A–D |
| Input.CleanSequence | script.js:812-813 | the sequence the handler stores is never empty and holds only A–D |
| Input.FilteredChar | script.js:812 | one typed character leaves exactly the letter PatternLetterOf gives (a–d become A–D), or nothing |
| Input.FilteredAppend | script.js:812 | the filter works character by character: filtering a+b is filtering a, then b |
| Input.FilteredEmpty | script.js:812-813 | the fallback ['A'] is taken exactly when no typed character names a pattern |
| Input.FilteredLetters | script.js:812 | a text of pattern letters passes the filter unchanged |
| Input.CleanShownSequence | script.js:810-813 | cleaning the text the input box shows, sequence.join(''), gives back the sequence |
| Input.CleanIdempotent | script.js:812-813 | cleaning twice is cleaning once |
| Input.NoteFrequency | script.js:198-201 | exactly the thirteen keys of the table map to a frequency, each from middle C (261.63) to C5 (523.25); other keys map to nothing |
| Input.NoteFrequencyRising | script.js:198-201 | the frequencies rise strictly from key to key along the keyboard, c4 to c5 |
| Detection.FirstWithin | script.js:471-479 | the reported corner is the lowest index closer than the tolerance, and none is reported exactly when no corner is that close |
| Detection.FirstWithinFrom | script.js:471-479 | the same search started at an index before which no corner is close |
| Detection.AtMostOncePerPass | script.js:997-1011 | over consecutive frames that all report a hit, at most one note fires, and none if the gate was already closed |
| Detection.OncePerPass | script.js:997-1011 | a hit period entered with the gate open that comes within 4° fires exactly once |
| Detection.MissRearms | script.js:1010-1011 | one frame without a hit reopens the gate, whatever the earlier frames were |
| Detection.PlayClick | script.js:169-170 | playClick sounds exactly when volume exceeds 0.001, with the requested tone |
| Detection.NextWasHitting | script.js:1001-1011 | wasHittingLine becomes false on a frame without a hit, true on a hit within 4°, and stays as it was on a hit from 4° to 12°; a frame that fires had it false and leaves it true |
| Detection.Dispatch | script.js:1003-1007 | a note is requested exactly when the octave-adjusted frequency is in (20, 10000) and the product of master, polygon and corner volume exceeds 0.001; its length is max(0.01 s, its share of the slot) |
| Detection.RestIsSilent | script.js:1004-1007 | a rest never sounds |
| Sequencer.FloorScale | script.js:380 | floor(b/d) whole units of a positive d fit into b, and one more does not |
| Sequencer.CycleIndexBounds | script.js:379-380 | cycle c is the rotation the elapsed beats fall in: c·4·measures ≤ beats < (c+1)·4·measures |
| Sequencer.CycleIndexMonotone | script.js:379-380 | the cycle index is 0 before and at the start, never negative, and never decreases as time advances |
| Sequencer.RotatingPolygon.constructor | script.js:300-344 | all four slots hold the same copy of the seed state (sides default corners); slot A is live; sequence ['A']; gate open; no cycle seen |
| Sequencer.RotatingPolygon.SaveCurrentStateTo | script.js:346-351 | slot ch becomes a copy of the live state and no other slot changes |
| Sequencer.RotatingPolygon.SaveThenLoad | script.js:346-358 | save to a slot then load it: the live state is unchanged and that slot is active |
| Sequencer.RotatingPolygon.ApplyState | script.js:360-369 | the live state becomes the loaded copy of the slot value |
| Sequencer.RotatingPolygon.LoadStateFrom | script.js:353-358 | an existing slot becomes live and active; a letter with no slot changes nothing |
| Sequencer.RotatingPolygon.UpdateSequence | script.js:372-399 | unless the cycle index floor(bpm/60·max(0,t)/(4·measures)) exceeds lastCycleIndex nothing changes; otherwise lastCycleIndex becomes it, the live state is flushed into the old slot only, and slot sequence[c mod len] becomes live as it was stored |
| Sequencer.RotatingPolygon.SetSides | script.js:411-439 | sides becomes max(3, floor(n)); an unchanged count is a no-op; otherwise the corners are resized and re-indexed, the selection is clamped to sides-1, and only the active slot is rewritten |
| Sequencer.RotatingPolygon.ResizeCorners | script.js:415-432 | the push and truncate loops with the renumbering loop leave exactly Resized(corners, n) |
| Sequencer.RotatingPolygon.SetRadius | script.js:441-444 | the radius becomes max(5, r) and only the active slot is rewritten |
| Sequencer.RotatingPolygon.SetSequenceText | script.js:811-815 | the sequence becomes the cleaned text and the cycle is re-evaluated (lastCycleIndex -1) |
| Sequencer.RotatingPolygon.SetMeasures | script.js:836-839 | measures becomes max(1, value) and lastCycleIndex -1 |
| Sequencer.RotatingPolygon.ResetPlayback | script.js:1111 | gate open, lastCycleIndex -1, the first step's slot live and active; slots, sequence, measures, volume and selection unchanged |
| Sequencer.RotatingPolygon.AssignNextCornerNote | script.js:956-973 | a known key writes its frequency into corner assignIndex mod sides only, selects it, saves the active slot and advances the cursor mod sides; an unknown key changes nothing |
| Sequencer.RotatingPolygon.CheckForIntersection | script.js:467-481 | the loop returns the first corner closer than 12° with its distance, and null exactly when there is none |
| Sequencer.Reset | script.js:1109-1111 | time goes back to -0.1 s and every polygon is rewound, with slots, sequence, measures, volume and selection kept |
| Radii.CounterRadiusIncreasing | script.js:64-66 | fresh radii strictly increase from 40 in steps of 35 |
| Radii.RadiusAllocator.constructor | script.js:62-71 | the allocator starts with an empty free list and counter 0 |
| Radii.RadiusAllocator.GetNextRadius | script.js:62-67 | pops the most recently recycled radius; with none, returns 40 + 35k, never below 40 since the counter k is never negative, and advances k |
| Radii.RadiusAllocator.RecycleRadius | script.js:69-71 | pushes the radius onto the free list |
| Radii.RecycleThenAllocate | script.js:62-71 | a recycled radius is the next one handed out, and the allocator is back where it was |
| Animation.ReportedAngle | script.js:997-998 | a frame reports a distance exactly when some corner is within 12°; it is the distance of a corner within 12° before which no corner is within 12° (the first hitting corner, not the nearest) |
| Animation.TriggerFrame | script.js:997-1011 | wasHittingLine becomes false on a frame with no hit and true on a frame that fires; a sound is requested only when the frame fires, and then it is the first hitting corner's note |
| MidiExport.VoicesOf | script.js:1034 | the export's snapshot of valid polygons has one valid voice per polygon |
| MidiExport.Measures | script.js:1034 | the measures of all polygons, each positive |
| MidiExport.RepetitionsBounds | script.js:1043-1044 | the repetitions are the least number of whole rotations reaching the arrangement's end: (n-1)·dur < totalBeats ≤ n·dur |
| MidiExport.StartTickOffset | script.js:1052-1060 | a start tick is the rounded offset of the corner inside its rotation plus r whole rotations of ticks; corner 0 starts exactly on the boundary |
| MidiExport.DurationTicksOfSlot | script.js:1054-1059 | a length factor of 1 gives the whole slot in ticks; a non-negative factor never gives a negative duration |
| MidiExport.Sounding | script.js:1048 | the corners exported are not rests |
| MidiExport.SoundingMembers | script.js:1048 | the corners exported are exactly the corners that are not rests |
| MidiExport.EventsOfSnoc | script.js:1047-1063 | one more corner adds its event, unless it is a rest |
| MidiExport.EventsOfSounding | script.js:1047-1063 | one repetition holds one event per sounding corner, in corner order |
| MidiExport.TrackEventCount | script.js:1046-1063 | a track holds repetitions × (corners with note ≠ 0) events |
| MidiExport.TrackEventAt | script.js:1046-1063 | event r·n+j of a track is sounding corner j's note in repetition r |
| MidiExport.EventsOfSound | script.js:1048-1050 | every exported note of a repetition has a non-zero frequency, so freqToMidi never yields null |
| MidiExport.TrackEventsSound | script.js:1046-1050 | the same for every note of a track |
| MidiExport.RepetitionsCover | script.js:1034-1044 | every track's repetitions times its rotation length equal the arrangement length exactly |
| MidiExport.StartTickShift | script.js:1052-1060 | repetition r starts exactly r·4·measures·480 ticks after repetition 0: the timeline does not drift |
| MidiExport.BuildTrack | script.js:1043-1063 | the track loop writes ceil(totalBeats/dur) repetitions of events |
| MidiExport.CornerEvent | script.js:1052-1060 | the note built from deltaBeat, the tick formula and the length factor is EventOf of that corner and repetition |
| MidiExport.RepetitionEvents | script.js:1047-1062 | the corner loop writes one event per corner that is not a rest, with the start tick and duration formulas |
| MidiExport.ExportTracks | script.js:1034-1064 | one track per voice over the lcm-of-measures arrangement |
| MidiExport.ExportPolygons | script.js:1034-1064 | the same for the live polygons |
| MidiExport.WithDivision480 | script.js:1074-1075 | after the patch the length is unchanged, byte 12 is 0x01 and byte 13 is 0xE0 where present (so the division reads 480 big-endian), and every other byte is unchanged |
| MidiExport.WithDivision480Idempotent | script.js:1074-1075 | patching twice is patching once |
| MidiExport.PatchDivision | script.js:1074-1075 | the in-place patch of the buffer leaves it as WithDivision480 of the old contents |

## Left out

- Canvas drawing, the `x`/`y` centring in `updateSequence`, hover and hit-testing, and the
  `lineIntensity` visual in the trigger block: these are presentation only.
- Corner positions: angles, `getCornerPosition`, the `theta mod 2π` normalisation and the
  wrap-around distance to 270°. These need π, trigonometry and IEEE floating point. Each
  frame's per-corner distance to the playhead, in degrees, is an input sequence instead.
- Web Audio: `playClick` beyond its volume guard and the oscillator envelope. These are
  foreign calls into the browser. `Sound` is the request handed to the tone sink.
- `freqToMidi`: a floating-point logarithm (`Math.log2`). `NoteEvent` carries the
  octave-adjusted frequency that the pitch is computed from.
- `freqToNoteLabel`: the editor's label lookup, a nearest-note search over `NOTES` that
  accepts a match within 2 Hz. It only feeds the corner editor's display, so it lies outside
  the modelled core.
- The MidiWriter library: tracks, tempo events, `buildFile`, and the Blob/URL download. The
  library is not visible, and the download is I/O. The header patch works on an abstract
  byte array. A write past the end of a typed array is dropped, as `Uint8Array` does.
- The `requestAnimationFrame` loop and its timestamp deltas: time `t` and the tempo are
  parameters.
- The BPM and master-volume input handlers. Methods that need a tempo require `bpm > 0`,
  which the BPM handler's `max(1, …)` guarantees.
- The DOM editor: knobs for corner volume, length and colour, the pattern buttons and their
  enabling, and panel refreshes.
- `assignNextCornerNote`'s lookup of the selected polygon. The model is the method on the
  polygon it finds. The global cursor `assignIndex` is passed in and the next value
  returned.
- `NOTES_MAP` keys inherited from `Object.prototype` (`"constructor"` and others): the table
  is the thirteen own keys.
- Colour conversions and random colours: these are float-based and nondeterministic. Stroke
  and fill styles are opaque strings.
- Polygon ids, names and line widths. The constructor's option defaults (6 sides, radius
  80, 1 measure, volume 1.0) are replaced by explicit parameters.
- `SetSides` takes a real `n` and floors it. `NaN`, infinite input and JavaScript's `Number`
  parsing are not modelled, and neither are fractional or `NaN` values for the measures field
  (`SetMeasures` takes an integer).
- Input.PatternLetterOf: upper-casing is modelled only as far as the filter sees it, one
  character at a time. Under Unicode's full case mappings the characters whose upper-case
  form contains a pattern letter are A–D, a–d and U+1E9A (which becomes "A" plus U+02BE).
- All reals are exact rationals, so IEEE rounding in durations and start ticks is not
  captured. `Round` is `Math.round` for every input, halves rounding toward +∞.
- All integers are unbounded, while script.js computes the gcd/lcm products, the
  arrangement length and the tick counts in IEEE doubles, which stop being exact past 2^53;
  the model does not capture that loss of precision for very large measures or tick counts.
- Sequencer.RotatingPolygon: after `loadStateFrom` switches to a slot with fewer sides,
  `selectedCornerIndex` may lie at or beyond `sides`, because script.js clamps it only in
  `setSides`. The invariant therefore says only that the selection is non-negative.
