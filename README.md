# Anime scene generator: a verified model of its deterministic rules

The page (`app.js`) draws a procedurally animated character scene on a
canvas, plays a generated backing track, and can record both into a
downloadable WebM file. Around the browser plumbing sit a few small
deterministic rules, and those rules are what this project models and
proves:

- **The seeded generator.** `seededRandomFactory` is a 32-bit xorshift whose closure state `x` is advanced by every `rand()` (`xorshift.dfy`, on `bv32`, bit-exact).
- **The scene program.** `makeSceneProgram` contains `themePalette`, the 160-star and 6-cloud tables drawn from the generator, the hair pick and the three-line dialogue script with its fallbacks (`scene.dfy`). `lerp`, `clamp` and `easeInOut` are in `numeric.dfy`.
- **The blink counter.** `drawCharacter` advances it once per frame (`character.dfy`).
- **The typewriter.** It picks the dialogue line shown at a scene time and how much of it is revealed (`typewriter.dfy`).
- **The word wrap.** `drawWrappedText` is a greedy wrap with the text measure as a parameter (`wrap.dfy`).
- **The animation driver.** `startAnimation`, the frame callback `loop` and `stopAnimation` are modelled as a class with the page's module-level state (`driver.dfy`).
- **The music schedule.** The bass and lead note schedule of `recordVideo` is modelled as a list of note events with their envelope breakpoints (`music.dfy`).
- **The form inputs.** These are the recording-length clamp (`recording.dfy`), `sanitizeFileName` and the download name (`filename.dfy`), and `parseRes` (`resolution.dfy`).
- **String helpers.** `text.dfy` holds the JavaScript string operations these rely on: the `\s` / `trim` whitespace class, `trim` and `split`.

Where the code and its design description disagree, the model follows
the code:

- A zero seed is not guarded against. State 0 is a fixed point of the generator, and no other state ever reaches 0 (`Xorshift.Step`, `Xorshift.StateAfter`, `Xorshift.NthDraw`).
- The seed is drawn once, when the page loads (app.js:28), and nothing assigns it again. Every preview and every recording in one page session therefore rebuilds the same star, cloud and hair tables; only the palette, the outfit and the dialogue follow the form (`Driver.AnimationDriver.StartAnimation`, `Driver.SessionTablesFixed`).
- A draw lies in [0, 1], not [0, 1). The value 1 is reachable from some generator states (`Xorshift.DrawOfOneReachable`). If the hair pick's draw were exactly 1, `hairColors[5]` would be read, which is `undefined`; the model shows this happens exactly when draw 670 is `0xFFFFFFFF` (`Scene.HairColor`, `Scene.SceneOf`), and does not establish whether any page seed below 10^9 leads there.
- The schedule's last bar is not cut at the recording length. Every bar that starts before the end is emitted whole (`Music.Schedule`, `Music.LastBarNotTruncated`).
- The dialogue fallbacks apply only when the trimmed name or title is empty. The download name falls back to `anime-video` only when the raw title is empty. A title of spaces therefore gives `_.webm`.
- The file-name filter keeps only one whitespace character, the space. A tab or line break is deleted, not turned into an underscore (`FileName.OnlySpaceSurvivesFilter`, `FileName.TabIsDeleted`).

## Model

| member | source | states |
|---|---|---|
| `Xorshift.DrawValue` | app.js:49 | a draw `(x>>>0)/4294967295` lies in [0, 1], and it is 1 exactly when the state is `0xFFFFFFFF` |
| `Xorshift.Generator.constructor` | app.js:45-46 | the closure starts at `s >>> 0`, the seed modulo 2^32, with nothing drawn |
| `Xorshift.Generator.Next` | app.js:47-50 | `rand()` applies the three xorshift steps to the state and returns the next draw of the seed's stream; the stream so far grows by exactly that draw |
| `Xorshift.StateAfterAdd` | app.js:47-50 | drawing `j` values and then `k` more is the same as drawing `j + k` values: one stream per seed |
| `Xorshift.Step` | app.js:48 | one `x ^= x << 13; x ^= x >>> 17; x ^= x << 5` step gives 0 exactly when the state was 0: state 0 is a fixed point and no other state falls into it |
| `Xorshift.StateAfter` | app.js:47-48 | after any number of steps the state is 0 exactly when it started at 0 |
| `Xorshift.NthDraw` | app.js:45-49 | every draw of a seed state is 0 exactly when that state is 0, because nothing guards the zero seed |
| `Xorshift.DrawOfOneReachable` | app.js:48-49 | the state after state `0x5E6CFCE7` is `0xFFFFFFFF`, so a draw of exactly 1 occurs |
| `Numeric.Lerp` | app.js:53 | for `t` in [0, 1], `lerp(a, b, t)` lies between `a` and `b` |
| `Numeric.LerpEnds` | app.js:53 | `lerp` gives `a` at `t = 0` and `b` at `t = 1` |
| `Numeric.Clamp` | app.js:54 | `Math.max(lo, Math.min(hi, v))` lies in [lo, hi]: it is `v` inside the range, `lo` below it and `hi` above it |
| `Numeric.EaseInOut` | app.js:55 | `easeInOut` maps [0, 1] into [0, 1] |
| `Numeric.EaseFixedPoints` | app.js:55 | ease(0) = 0, ease(0.5) = 0.5 and ease(1) = 1 |
| `Numeric.EaseSymmetric` | app.js:55 | ease(1 - t) = 1 - ease(t): the second branch mirrors the first |
| `Numeric.EaseMonotone` | app.js:55 | on [0, 1] the curve never decreases |
| `Numeric.EaseBelowOne` | app.js:55 | below t = 1 the curve stays below 1 |
| `Scene.KindOf` | app.js:59-68 | the `switch(theme)` picks the default branch exactly when the theme is not `action`, `romance` or `scifi` |
| `Scene.ThemePalette` | app.js:57-69 | any theme other than `action`, `romance` and `scifi`, the empty one included, gets the default palette (`#060912` … `#7a88ff`); the mood plays no part (`Scene.PaletteByThemeOnly`) |
| `Scene.PaletteByThemeOnly` | app.js:57-69 | two calls of `themePalette` give the same palette if and only if their themes fall in the same branch, whatever the moods |
| `Scene.StarSize` | app.js:80 | a star's `s = lerp(0.5, 1.8, rand())` lies in [0.5, 1.8] |
| `Scene.CloudLayerOf` | app.js:85 | each cloud field lies in the range its `lerp` or `* 1000` gives it |
| `Scene.HairPick` | app.js:90 | `Math.floor(rand()*5)` lies in [0, 5], and it is 5 exactly when the draw is 1 |
| `Scene.HairColor` | app.js:89-90 | the hair is one of the five colours, or `undefined` exactly when the draw is 1 |
| `Scene.DrawStar` | app.js:80 | one star takes the generator's next four draws, in the order `x`, `y`, `z`, `s`, and draws nothing else |
| `Scene.DrawCloud` | app.js:85 | one cloud takes the generator's next five draws, in the order `y`, `speed`, `offset`, `alpha`, `scale`, and draws nothing else |
| `Scene.OrFallback` | app.js:94-95 | `value.trim() \|\| fallback` gives the fallback when the value is blank, and otherwise the trimmed value, which has something visible at both ends |
| `Scene.ThemeLine` | app.js:99-102 | each of the four theme lines has something visible at both ends, so the third dialogue line is never blank |
| `Scene.DialogueLines` | app.js:96-103 | the script always has exactly three lines |
| `Scene.DialogueShowsInputs` | app.js:94-102 | the name and title shown are never blank or padded; line 1 greets the name and line 2 carries the title |
| `Scene.SceneFromDraws` | app.js:71-103 | from 671 draws the program has 160 stars, 6 clouds, 3 lines, hair from draw 670 (`undefined` exactly when that draw is 1) and the outfit in the palette's accent |
| `Scene.SceneOf` | app.js:71-103 | the program of a seed has 160 stars and 6 clouds whatever the configuration, and the outfit is the accent |
| `Scene.SceneConsumesDrawsInOrder` | app.js:78-90 | the program holds exactly the first 671 draws of the seed's stream, in order: star i holds draws 4i..4i+3, cloud j holds 640+5j..644+5j, and the hair pick is draw 670 |
| `Scene.DrawStars` | app.js:78-81 | the star `map` takes 640 draws from a fresh generator and builds the star table of exactly those draws |
| `Scene.DrawClouds` | app.js:84-86 | the cloud `map` takes the next 30 draws and builds the cloud table of exactly those draws |
| `Scene.MakeSceneProgram` | app.js:71-103 | `makeSceneProgram` returns the program of `seed >>> 0`, so equal seeds and settings give identical tables |
| `Character.InitialBlinkValid` | app.js:105 | the counter starts at timer 0 and state 0, which satisfies the invariant |
| `Character.BlinkFrame` | app.js:198-201 | a frame that passes `180 + jitter` closes the eyes (height 2) and leaves timer 0 and state 0.8; any other frame counts the timer up by one; a state in [0, 1] stays in [0, 1] |
| `Character.BlinkFramePreserves` | app.js:198-201 | every frame keeps `blinkState` in [0, 1]; the eye height is 2 exactly when a blink starts or is under way, and 10 otherwise |
| `Character.TriggerWindow` | app.js:199 | with jitter in [0, 120), a blink cannot trigger at timer 180 or below and must trigger by 300 |
| `Character.NoBlinkWithin180` | app.js:198-199 | after a reset, the next frames up to timer 180 only count: blink triggers are at least 181 frames apart |
| `Character.BlinkCounter.Frame` | app.js:198-201 | one frame of the closure variables equals the pure step, and the method returns the eye height that step draws with |
| `Typewriter.JsRem` | app.js:245-246 | JavaScript `%` truncates: for a non-negative dividend it is the usual remainder, and for a negative one it lies in (-b, 0] |
| `Typewriter.LineIndex` | app.js:245 | `Math.floor((sceneTime/1000)/3.5) % total` is a valid line index for a non-negative scene time, and lies in (-total, 0] for a negative one |
| `Typewriter.Progress` | app.js:246 | `((sceneTime/1000) % 3.5) / 3.5` lies in (-1, 1), and is non-negative for a non-negative scene time |
| `Typewriter.Eased` | app.js:247 | the eased share of the clamped progress lies in [0, 1] |
| `Typewriter.VisibleChars` | app.js:247 | `visibleChars` lies between 0 and the line's length |
| `Typewriter.Reveal` | app.js:243-248 | for a non-negative scene time the text is defined, the line index is in [0, 3), and the text is a prefix of that line |
| `Typewriter.LineWindow` | app.js:243-246 | during the k-th 3500 ms window the line index is `k mod total` and the progress is the offset into the window over 3500 |
| `Typewriter.RevealGrowsWithinWindow` | app.js:245-248 | within one window the revealed text only grows: an earlier reveal is a prefix of a later one |
| `Typewriter.WindowStartRevealsNothing` | app.js:246-248 | each window opens on an empty bubble |
| `Typewriter.LastCharacterNeverShown` | app.js:246-247 | the progress never reaches 1, so the last character of a non-empty line is never on screen |
| `Typewriter.NegativeSceneTimeThrows` | app.js:245-247 | a scene time within 3500 ms before the start gives index -1, and `lines[idx].length` throws |
| `Wrap.WrapText` | app.js:253-269 | the rows drawn split the words of `text.split(' ')` into consecutive non-empty groups at y, y + lineHeight, …; each row fits `maxWidth` or holds a single word; each row but the last was ended because the next word overflowed it |
| `Wrap.DrawnRow` | app.js:258-266 | any single row of a wrap shows its words at `y + k * lineHeight`, fits or holds one word, and would have overflowed with the next row's first word |
| `Wrap.WrapSpellsText` | app.js:254-268 | the rows concatenate to `text + ' '`, so no word is lost, split or reordered; the first row starts with the first word, which never causes a break |
| `Driver.FrameMs` | app.js:305 | `1000 / fps` is positive and `frameMs * fps = 1000` |
| `Driver.FrameDueIff` | app.js:305-311 | with whole milliseconds, `dt >= 1000/fps - 1` holds if and only if `dt * fps >= 1000 - fps` |
| `Driver.FrameDueMovesForward` | app.js:310-311 | at any positive frame rate, an accepted frame never goes back in time |
| `Driver.DueFrameRenders` | app.js:306-314 | an accepted frame never reads a negative `sceneTime`, so its caption is defined and the loop goes on |
| `Driver.SessionTablesFixed` | app.js:71-90 | two starts under the one seed drawn at app.js:28 build the same star, cloud and hair tables whatever the form says |
| `Driver.AnimationDriver.constructor` | app.js:21-28 | the page starts stopped, with `sceneTime = 0`, `fps = 30`, no program and the seed it drew once, in [0, 10^9) |
| `Driver.AnimationDriver.StartAnimation` | app.js:294-320 | a no-op while animating; otherwise it starts animating with `startTime = last = now` and `sceneTime = 0`, builds the scene program of the page's one seed with a fresh blink counter and schedules the first callback; the seed itself is a constant of the page |
| `Driver.AnimationDriver.Begin` | app.js:296-319 | the state after `startAnimation`'s guard: running, the clock restarted at `now`, the given program installed, one callback pending |
| `Driver.AnimationDriver.Tick` | app.js:308-318 | when stopped, the callback renders and schedules nothing. When running it always reschedules; when the frame is also due it sets `sceneTime = now - startTime` (never negative), advances the blink counter, records the frame with its caption and sets `last = now`. When not due it changes nothing else |
| `Driver.AnimationDriver.Stop` | app.js:322-326 | `stopAnimation` stops and cancels the pending callback; nothing else changes |
| `Music.BarEvents` | app.js:388-393 | each bar schedules exactly 12 notes |
| `Music.Bars` | app.js:383-396 | n bars schedule exactly 12n notes |
| `Music.BarCount` | app.js:383 | no bars for a non-positive length |
| `Music.BassLine` | app.js:389 | the bass loop emits the bar's four bass notes in order |
| `Music.LeadLine` | app.js:392-393 | the lead loop emits the bar's eight arpeggio notes in order |
| `Music.BarIndexAt` | app.js:385 | at `t = k * beat * 4` the bar index `t / (beat * 4)` is exactly `k` |
| `Music.ScalePitch` | app.js:378 | every degree of the A-minor scale lies between 9 semitones below and 3 above A4 |
| `Music.BassNote` | app.js:389 | a bass note is a sawtooth an octave under the chord root, between 21 and 9 semitones below A4, starting inside its bar |
| `Music.LeadNote` | app.js:393 | a lead note is a triangle an octave above its arpeggio degree, between 3 and 15 semitones above A4, starting on a half beat inside its bar |
| `Music.Schedule` | app.js:382-396 | the `while (t < total)` loop emits whole bars 0, 1, … for every bar starting before `total`, and stops at the first bar starting at or after it |
| `Music.ScheduleBarCount` | app.js:382-396 | the loop's bar count is the least n with n·8/3 s ≥ total, and is at least 1 for a positive length |
| `Music.BarsAt` | app.js:383-396 | bar k occupies events 12k..12k+11 of the schedule |
| `Music.EnvelopeOf` | app.js:362-374 | a note's envelope starts no earlier than `startAt`, attacks for 10 ms before anything else, and stops 50 ms after its decay ends; a note at least 0.02 beats long decays after its attack |
| `Music.BarShape` | app.js:385-393 | bar k uses degree `[0,5,3,7][k mod 4]`. It has 4 sawtooth bass notes, one per beat, an octave down, at 0.95 beat and velocity 0.35. Then come 8 triangle lead notes, half a beat apart, cycling root, +3, +5 and +7 degrees (mod 8) an octave up, at 0.4 beat and velocity 0.25/0.35 alternating |
| `Music.EnvelopeOrdered` | app.js:362-374 | every scheduled note's envelope starts, ends its 10 ms attack, decays by its length and is released 50 ms later, in that order, with a peak of 0.25 or 0.35 |
| `Music.LastBarNotTruncated` | app.js:383-396 | at 15 s the loop emits 6 bars, and the sixth runs from 13.33 s to 16 s, past the end |
| `Recording.ClampNumber` | app.js:54 | `clamp` on any JavaScript number: NaN stays NaN, infinities go to the bounds, a finite value lands in [lo, hi] and is kept when already inside |
| `Recording.DurationOf` | app.js:329 | the recording length is always finite and in [5, 60]; 0 and NaN (an empty field) give 15; values in range are kept |
| `Recording.DurationExamples` | app.js:329 | 3 gives 5, 90 gives 60, 0 and NaN give 15, +∞ gives 60 and -∞ gives 5 |
| `Recording.RecordingBarCount` | app.js:329-396 | any recording schedules between 2 bars (5 s) and 23 bars (60 s) of music |
| `FileName.KeepAllowed` | app.js:445 | the first `replace` keeps only allowed characters and never lengthens the name |
| `FileName.KeepAllowedAppend` | app.js:445 | the filter works character by character, in order |
| `FileName.KeepAllowedIdentity` | app.js:445 | a name of allowed characters passes the filter unchanged |
| `FileName.CollapseNoWhitespace` | app.js:445 | no whitespace survives the second `replace` |
| `FileName.CollapseCharacters` | app.js:445 | the second `replace` writes only underscores and characters of its input |
| `FileName.CollapseWhitespace` | app.js:445 | `replace(/\s+/g, '_')` never lengthens the name; with `CollapseNoWhitespace`, `CollapseRun` and `CollapseIdentity` it replaces each whitespace run by one underscore and keeps everything else |
| `FileName.CollapseRun` | app.js:445 | a whitespace run followed by other text becomes exactly one underscore |
| `FileName.CollapseAppendPlain` | app.js:445 | appending whitespace-free text commutes with the collapse |
| `FileName.SanitizeFileName` | app.js:444-446 | the result is no longer than the name, holds no whitespace and only allowed characters |
| `FileName.SanitizeIdempotent` | app.js:444-446 | sanitising twice equals sanitising once |
| `FileName.OnlySpaceSurvivesFilter` | app.js:445 | the only whitespace the filter keeps is the space |
| `FileName.TabIsDeleted` | app.js:445 | `"a\tb"` becomes `"ab"`: a tab is deleted, not collapsed |
| `FileName.SpacesBecomeOneUnderscore` | app.js:445 | `"a  b"` becomes `"a_b"` |
| `FileName.DownloadName` | app.js:415 | the download name is at most 16 characters longer than the title (the default title and `.webm`) |
| `FileName.DownloadNameExtension` | app.js:415 | the download name is the sanitised title (or `anime-video` for an empty title) followed by `.webm` |
| `Resolution.ParseRes` | app.js:30-33 | `h` is defined exactly when the value contains an `x` |
| `Resolution.ParseFormatted` | app.js:30-33 | parsing `"WxH"` gives back both dimensions, given a `Number` that reads decimal digits |
| `Resolution.ParseWithoutSeparator` | app.js:30-33 | a value without `x` gives `Number(value)` and an undefined `h` |
| `Resolution.ParseIgnoresExtraPieces` | app.js:30-33 | pieces after the second are ignored |
| `Text.Split` | app.js:254 | `split(sep)` gives at least one piece, no piece contains the separator, and joining the pieces with it gives back the string |
| `Text.Trim` | app.js:94-95 | `trim()` leaves nothing or text with no whitespace at either end, and leaves nothing exactly when the value is all whitespace |
| `Text.TrimIdempotent` | app.js:94-95 | trimming twice equals trimming once |

## Left out

- Typewriter.Reveal: line lengths and slices count code points, not UTF-16 code units. A name or title with characters outside the Basic Multilingual Plane (an emoji, say) therefore reveals a different prefix on the page, which can also cut a surrogate pair in half.
- Canvas drawing is not modelled. This covers the background, clouds, character geometry, rounded rectangles, the bubble, gradients and compositing (app.js:107-241, 271-284): these are foreign 2D-context calls with floating-point trigonometry. The model keeps what they read: the raw star and cloud draws, the hair and outfit colours, the eye height and the caption.
- The Web Audio graph is not modelled: oscillators, gains, the convolver and its random impulse. Only the note event list and each note's envelope breakpoints are kept. Pitches are semitones from A4, not `2^(1/12)` frequencies.
- MediaRecorder, MediaStream, Blob and URL handling, the stop deadline timer, button wiring, the metadata text and the codec fallback are asynchronous browser I/O and are not modelled. DOM lookups, `resizeCanvas` and event listeners are not modelled either.
- `Math.random()` is a parameter. The seed `Math.floor(Math.random() * 1e9)` is the constructor's `pageSeed`, required to lie in [0, 10^9), and the blink jitter is the `jitter` argument. `performance.now()` and the frame timestamp are parameters too. `Number(...)` is left to the caller in `DurationOf` and is the `number` parameter of `ParseRes`. `measureText(...).width` is the `width` parameter of `WrapText`.
- Floating-point artefacts are left out; the model uses exact reals and integers. This covers the `lerp`-scaled table values, the blink decrement of 0.2, and the accumulation `t += beat*4` with the floor at app.js:385. In floats, that accumulation can add or shift a bar when the length is a multiple of 8/3 s.
- Music.Schedule: bars are counted exactly, so the float drift of `t` is not modelled. `|| 0` at app.js:385 is never needed in the model.
- Driver.AnimationDriver.Tick: timestamps and `sceneTime` are whole milliseconds, while the page gets fractional ones. The frame test uses them exactly.
- Typewriter.Reveal: `sceneTime` is whole milliseconds, not a fractional double.
- Driver.AnimationDriver.StartAnimation: the frame rate comes from a menu of positive values, so the model requires `fpsSetting > 0`. `Number` of a non-numeric menu value is not modelled.
- Driver.AnimationDriver.StartAnimation: the page's `animReq` handle is a flag (`scheduled`). Which callback a cancel hits, and the overlay text, are not modelled.
- The Devanagari dialogue text is garbled to `?` in the source and is kept as written, as opaque constants.
- `recordVideo`'s own sequencing is not modelled as one operation, because it interleaves the steps above with asynchronous I/O. Its deterministic steps are modelled: the duration clamp, starting the animation, the note schedule and the download name.
