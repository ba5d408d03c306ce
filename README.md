# String-art landing page: verified model of the animation and generator logic

This project models the deterministic logic of the page script `script.js`.
The script drives an animated "thread" hero scene. A click starts a 2-second
transition, after which the scene switches for good to an inverted generator
scene. The page also lets a user crop an uploaded photo, draw a string-art
reproduction of it batch by batch from an external line-selection engine, and
keep up to three results in a small gallery.

The model keeps the source's own shapes:

- **Scene** (`scene.dfy`) holds the class `SceneState`. Its fields are the script's module-level
  state: phase, transition start, rotation, breathing, pointer, last activity,
  idle opacity and the thread lists. Its methods are the `draw` frame,
  `startTransition`, `resize` and the input handlers. Every frame is appended
  to an abstract log. The log records how the frame began (cleared, kept or
  filled black) and what it drew.
- **Phases** (`phases.dfy`) is the phase machine `hero → transition →
  generator` as pure functions. It comes with lemmas over any sequence of
  clicks and frames. The scene's methods are specified against these
  functions.
- **SpawnSchedule** (`spawn_schedule.dfy`) gives the number of transition
  threads per frame over integer milliseconds. A lemma proves it equal to the
  source's formula over the real progress fraction.
- **IdleActivity** (`idle_activity.dfy`) is the smoothing step for idle opacity
  and rotation, over exact `real`s.
- **Threads** (`threads.dfy`) holds the two thread constructors. Their
  `Math.random()` results are parameters. It also has the loop that builds a
  thread list.
- **Radial** (`radial.dfy`) is the chord index pattern of the circular art.
- **Crop** (`crop.dfy`) has pure functions for the initial cover-and-centre
  transform and for the composite drawn at confirmation. A `Cropper` class
  holds the crop state and its drag, touch and wheel handlers.
- **Generation** (`generation.dfy`) is a class for the start/frame/stop/reset
  state machine of the incremental drawing loop. Each engine batch is a
  parameter with at most 10 segments.
- **Gallery** (`gallery.dfy`) holds the list functions behind save, delete,
  the legacy migration/cleanup and newest-first display.

Time is integer milliseconds. Arithmetic is exact (`int`, `real`); IEEE
rounding is not modelled. When the scene's `draw` runs, its
`requestAnimationFrame` re-scheduling becomes one `Draw` call per frame. The
generation loop's re-scheduling becomes one `Tick` call per frame, and
cancellation means no further `Tick` has any effect.

## Model

| member | source | states |
|---|---|---|
| `Threads.NewIdleThread` | script.js:37-55 | an idle thread built from `Math.random()` draws in [0,1) starts on the surface border, its centre anchor lies in the central half of both axes, its speed is in [0.0005, 0.0015) and its phase is less than one turn |
| `Threads.NewTransitionThread` | script.js:89-121 | from `Math.random()` draws in [0,1), a transition thread starts and ends 20 units outside two opposite edges; both control points lie within 100 units of the 30%/70% points of the straight line; progress starts at 0 and speed in [0.02, 0.05) |
| `Threads.BuildThreads` | script.js:152-167 | building a thread list yields exactly `n` threads, thread `i` made from draw `i` |
| `Threads.BuiltThreadsOnBorder` | script.js:152-167 | every thread of a built list is anchored on the border and aims at the central half |
| `IdleActivity.Ease` | script.js:225 | one smoothing step leaves 98% of the distance to the target, so it moves toward the target and never overshoots |
| `IdleActivity.IdleTarget` | script.js:223-224 | the target is the idle opacity 0.2 exactly when more than 3000 ms have passed since the last input, and 0 otherwise |
| `IdleActivity.IdleStep` | script.js:223-225 | one tick leaves 98% of the distance to the idle target; from an opacity in [0, 0.2] it stays in [0, 0.2]; it rises when more than 3000 ms passed since the last input and falls (or stays) otherwise |
| `IdleActivity.IterateClosedForm` | script.js:223-225 | after `n` ticks toward a fixed target exactly `0.98^n` of the initial distance remains |
| `IdleActivity.IterateMonotone` | script.js:223-225 | repeated ticks toward a fixed target converge monotonically, never passing the target |
| `SpawnSchedule.SpawnCountMatchesProgress` | script.js:237-257 | for every integer elapsed time, the integer-division formula equals the source's formula over `progress = min(elapsed/2000, 1)` with `Math.floor` |
| `SpawnSchedule.SpawnCount` | script.js:237-257 | the spawn rule over integer milliseconds; from the start of the transition on, each frame spawns between 3 and 68 threads |
| `SpawnSchedule.SpawnCountMonotone` | script.js:247-257 | a later frame never spawns fewer threads |
| `SpawnSchedule.BurstExactlyLate` | script.js:257 | a frame spawns more than 28 threads exactly when progress exceeds 0.85, and then at least 66 (the 40-thread burst on top of at least 26) |
| `SpawnSchedule.SpawnCountSaturates` | script.js:238 | from 2000 ms on, the count is fixed at 68 |
| `Phases.OnStart` | script.js:341-344 | a click in the hero phase enters the transition with the click time as start; in any other phase it changes nothing; the result is never the hero phase |
| `Phases.OnFrame` | script.js:264-265 | a frame moves to the generator phase exactly when in the transition with more than 2000 ms elapsed, or stays there; it returns to the hero phase never; the start time is untouched |
| `Phases.RunNeverGoesBack` | script.js:215-301 | over any sequence of clicks and frames the phase never moves backwards, and the hero phase is only ever seen from the hero phase |
| `Phases.GeneratorIsTerminal` | script.js:281-298 | once in the generator phase, no click or frame changes the phase or the start time |
| `Phases.TransitionEnteredAtMostOnce` | script.js:341-344 | however many clicks arrive, at most one enters the transition, and none once the hero phase has been left |
| `Phases.StartTimeFixed` | script.js:341-344 | after the transition has started, its start time never changes |
| `Scene.FrameStart` | script.js:218-283 | hero frames, and only they, clear; transition frames, and only they, keep the previous frame; generator frames, and only they, fill black |
| `Scene.RadialFrame` | script.js:218-298 | a hero or generator frame begins as its phase requires, draws the radial art first (white lines exactly in the generator phase, with the breathing value from before the step), and draws the idle threads after it exactly when the opacity exceeds 0.001 |
| `Scene.TransitionFrame` | script.js:234-279 | a transition frame keeps the previous frame, draws `SpawnCount(elapsed)` transition curves, and ends with the black fill exactly when more than 2000 ms have elapsed |
| `Scene.SceneState.constructor` | script.js:149-209 | page load starts in the hero phase with 25 idle threads, zero rotation, breathing and opacity, and the load time as last activity |
| `Scene.SceneState.Resize` | script.js:169-178 | resize stores the new size and rebuilds the 25 idle threads; it rebuilds the 30 generator threads only in the generator phase; setting the canvas size wipes the surface, so the log gains one cleared, empty frame; nothing else changes |
| `Scene.SceneState.PointerMove` | script.js:195-209 | a pointer move stores the centred, size-normalised pointer offset and restarts the idle timer |
| `Scene.SceneState.Activity` | script.js:204-209 | scroll, click and touch restart the idle timer |
| `Scene.SceneState.StartTransition` | script.js:341-352 | in the hero phase it enters the transition and records the time; in any other phase it changes nothing |
| `Scene.SceneState.Draw` | script.js:215-301 | a frame follows `OnFrame`, appends one frame to the log, and begins it cleared, kept or black by phase; in the transition it spawns `SpawnCount(elapsed)` threads, leaves rotation, breathing and opacity alone, and on exit fills black and builds 30 generator threads; otherwise it eases rotation and opacity, advances breathing, and draws the idle threads only when the opacity exceeds 0.001; the opacity stays in [0, 0.2] |
| `Radial.ChordsShape` | script.js:317-336 | the pattern has 360 chords; chord `n` runs from point `n % 120` to the point 30, 40 or 50 places on (by stroke `n / 120`); no chord is degenerate |
| `Radial.StrokesClose` | script.js:326-336 | each stroke closes into polygons: a point returns to itself after exactly 4, 3 or 12 hops for offsets 30, 40, 50, and not earlier |
| `Crop.PreviewSize` | script.js:450 | the preview side is the smaller of the viewport width less 40 and 400 |
| `Crop.InitialCrop` | script.js:455-464 | the initial scale makes the image cover the square preview, with one side fitting exactly; it is centred, with equal non-positive margins on both sides of each axis; `minScale` is 0.1 |
| `Crop.PlacePreview` | script.js:470-480 | under the preview's translate-then-scale, an image point `p` lands at `(x, y) + scale * p` |
| `Crop.Composite` | script.js:546-557 | the confirm handler's scale/translate/scale calls compose to one affine map, `p ↦ (500/size)(x + scale·p)` |
| `Crop.CompositeEnlargesPreview` | script.js:546-557 | the confirmed image is the preview image enlarged by `500/size` |
| `Crop.CompositeRoundTrip` | script.js:546-557 | while the scale is non-zero the composite is invertible: unmapping a mapped point gives it back |
| `Crop.InitialCropFillsOutput` | script.js:455-557 | confirming the initial crop without pan or zoom covers the whole 500×500 output |
| `Crop.IdentityPanKeepsCorner` | script.js:546-557 | with no pan and the width fitted, the image's top-left pixel lands on the output's top-left pixel and its width spans 500 |
| `Crop.Cropper.constructor` | script.js:424-425 | no image, crop state `{0, 0, 1, 1}`, no drag |
| `Crop.Cropper.Load` | script.js:432-468 | a decoded image is stored, the preview side is `min(innerWidth - 40, 400)`, the crop state is the initial cover-and-centre one, and no drag is in progress |
| `Crop.Cropper.Down` | script.js:486-490 | a press starts a drag and remembers the press point and the translation at that moment |
| `Crop.Cropper.Move` | script.js:492-499 | while dragging, the translation is the one at the press plus the pointer's offset from the press point; otherwise nothing changes |
| `Crop.Cropper.Release` | script.js:503 | mouse up ends the drag |
| `Crop.Cropper.TouchStart` | script.js:505-507 | only a one-finger touch starts a drag |
| `Crop.Cropper.TouchMove` | script.js:508-513 | only a one-finger touch pans, as a move does |
| `Crop.Cropper.Wheel` | script.js:517-521 | the scale drops by `deltaY · 0.001`, with no floor or ceiling |
| `Crop.Cropper.Cancel` | script.js:524-528 | cancel forgets the image |
| `Crop.Cropper.Confirm` | script.js:530-557 | without an image nothing is composited; with one, the result is the composite of the current crop state |
| `Crop.DragIsPathIndependent` | script.js:486-499 | after a press and two moves the translation depends only on the press point and the last pointer position |
| `Generation.GenerationLoop.constructor` | script.js:411-413 | no engine, no run, nothing drawn |
| `Generation.GenerationLoop.AttachEngine` | script.js:548-590 | confirming fills the art canvas white and draws the cropped image on it; when the engine script is present it creates an engine, fills the canvas white again, reports ready and enables start; either way no segment is on the canvas |
| `Generation.GenerationLoop.Tick` | script.js:636-662 | an inactive frame changes nothing; an active frame at or past the target ends the run, reports completion, enables start and save, and draws nothing; otherwise it appends the batch to the canvas, adds its size to the count and sets the progress to `drawn/target · 100`; the count never decreases and stays below `target + 10` |
| `Generation.GenerationLoop.Start` | script.js:605-665 | without an engine or during a run nothing changes; otherwise the canvas is cleared, a run with the chosen target and zero lines starts, and its first frame runs at once (a target of 0 or less completes at once and enables save; otherwise the first batch is drawn and progress set) |
| `Generation.GenerationLoop.Stop` | script.js:668-675 | stop ends the run and reports "Stopped", so later frames draw nothing; drawn lines stay on the canvas |
| `Generation.GenerationLoop.Reset` | script.js:677-699 | reset ends the run, drops the engine, enables start, disables save and zeroes the progress bar |
| `Generation.RunScenario` | script.js:605-665 | a run whose target is `k` full batches, fed full batches, takes exactly `k` drawing frames, the first inside the start handler (so the default 3000-line target takes 300); all `k · 10` segments land on the canvas in engine order; the next frame reports completion; a target of 0 completes inside the start handler |
| `Gallery.Save` | script.js:788-799 | a save is rejected exactly when 3 or more entries are stored; otherwise the old entries are kept in place and `{id, artData, sourceData}` is appended at the end |
| `Gallery.Delete` | script.js:703-706 | an entry is kept exactly when it was stored and its id differs from the deleted one |
| `Gallery.DeleteAppend` | script.js:705 | deleting commutes with concatenation, so kept entries keep their order |
| `Gallery.DeleteAbsent` | script.js:705 | deleting an id that is not stored changes nothing |
| `Gallery.DeleteMiddle` | script.js:705 | when only one entry carries an id, deleting that id removes exactly that entry and keeps the rest in order |
| `Gallery.DeleteKnownId` | script.js:703-706 | with distinct ids, deleting entry `k`'s id removes exactly entry `k` and keeps the rest in order |
| `Gallery.SaveThenDelete` | script.js:788-799 | saving under a fresh id and deleting that id restores the list |
| `Gallery.FirstSave` | script.js:798 | an empty gallery accepts a save; it then stores one entry whose id is the save time |
| `Gallery.MigrateAll` | script.js:715-719 | each entry is replaced, position by position, by its migrated form (legacy `data` copied into missing `artData`) |
| `Gallery.Migrate` | script.js:716-719 | an entry with legacy `data` and no `artData` gets its art data from `data`; any other entry is kept; the id and the other fields never change |
| `Gallery.KeepDisplayable` | script.js:720 | an entry survives the cleanup exactly when its art data is longer than 100 characters |
| `Gallery.KeepLast` | script.js:723-724 | the result is the last `min(3, n)` entries of the `n` given, a suffix |
| `Gallery.Normalise` | script.js:714-726 | after migration, cleanup and trimming, at most 3 entries remain, all with art data longer than 100 |
| `Gallery.NormaliseIsSuffix` | script.js:722-726 | the surviving entries are the last `min(3, k)` of the `k` cleaned entries, in stored order |
| `Gallery.MigrateAllIdempotent` | script.js:715-719 | migrating twice is the same as migrating once |
| `Gallery.NormaliseIdempotent` | script.js:714-726 | normalising a normalised list changes nothing |
| `Gallery.Reverse` | script.js:733 | display position `i` holds stored position `n - 1 - i` |
| `Gallery.Render` | script.js:710-733 | a render shows the normalised list newest first, at most 3 entries; storage is rewritten with the normalised list only when the cleaned list had more than 3 entries, and otherwise left as it was |
| `Gallery.KeepDisplayableIncreasing` | script.js:720 | the cleanup filter keeps a subsequence: ids that rise along the stored list still rise after it |
| `Gallery.NormaliseIncreasing` | script.js:714-726 | migration keeps ids and trimming keeps a suffix, so entries stored in increasing id order stay in that order after the cleanup |
| `Gallery.ShownNewestFirst` | script.js:714-733 | entries stored in increasing id (timestamp) order are shown with strictly decreasing ids |
| `Gallery.FullGalleryShowsNothing` | script.js:788-796 | three stored entries without art data render as an empty gallery, yet a save is rejected as full |
| `Gallery.SaveVisible` | script.js:788-799 | the intended save is rejected exactly when the gallery shows 3 entries; otherwise it appends the new entry |
| `Gallery.SaveVisibleShowsNewEntry` | script.js:788-801 | under the intended save a rejection means 3 entries are on screen, and an entry saved with displayable art is then shown first |

## Left out

- DOM work is not modelled: element lookup, CSS class and style toggles, `alert`/`confirm`, the navbar scroll handler, header and status-text DOM writes (status is kept as a value), the buy button and the intro animation with its session flag. It is UI plumbing with no logic.
- I/O is not modelled: `FileReader`/`Image` decoding, the missing-file guard of the upload handler, drag-and-drop, `toDataURL`, `localStorage`/`sessionStorage` and the JSON round-trip. The gallery functions work on the decoded list; `Render` returns what would be written back.
- `requestAnimationFrame`/`cancelAnimationFrame` are not modelled. Each frame is an explicit `Draw` or `Tick` call; after `Stop` or `Reset`, `Tick` draws nothing.
- Canvas drawing is recorded abstractly. Scene frames log what was drawn (radial art, idle curves with count and opacity, a count of transition curves, a black fill). The art canvas is the list of segments drawn since its last white fill.
- `IdleThread.update` and the radial geometry are not modelled: `Math.sin`/`Math.cos`, the breathing radius and the pointer distortion. The scene keeps the rotation, breathing and pointer state that feed them. `Radial` models the chord index pattern.
- Transition threads are not stored per frame. `Threads.NewTransitionThread` models one thread; the scene logs how many a frame spawns.
- `TransitionThread.update` is not modelled, because nothing calls it.
- `StringArtGenerator` is external and not modelled. Batches are parameters. `loadFromElement`, `initPins(200, 'square')` and the source-canvas cache are not modelled.
- Geometry is exact. Points are exact reals and time is integer ms, so IEEE rounding near boundaries (for example `floor(progress*40)` at exact multiples) is not captured.
- Negative elapsed time (the clock going backwards) follows the same formula. The bounds of `SpawnSchedule.SpawnCount` are stated for `elapsed >= 0`, and a negative count logs zero curves, as the `for` loop draws none.
- `Scene.SceneState.constructor`: a zero-width or zero-height window is excluded (`requires w > 0.0 && h > 0.0`). With such a window the mousemove handler (script.js:196-197) divides by a zero width or height, so the pointer offset becomes ±Infinity, or NaN when the pointer sits at 0. The same holds for `Scene.SceneState.Resize`.
- `Crop.Cropper.Load`: a viewport 40 px wide or narrower is excluded (`innerWidth > 40`), because the preview canvas side would be zero or negative. Images of zero width or height are excluded too.
- `Generation.GenerationLoop.Start` takes the line target as an integer. The `parseInt` of the selector's text and its NaN case are not modelled.
- The save button on the art canvas is assumed present (`if (btnSaveGallery)`).

Three behaviours of the code that a reader might expect to be otherwise; the model follows the code:

- `Crop.Cropper.Wheel` has no floor. `minScale` is written (0.1) but no handler reads it, so the scale can reach zero or go negative.
- `Generation.GenerationLoop.Reset` does not clear the art canvas. Drawn lines stay on it until the next start or confirm.
- `Gallery.Render` writes the migrated list back only when it trims beyond three entries. Legacy entries are otherwise re-migrated on every render.

## Findings

| source | as written | input that shows it | evidently intended | confidence | as-written member | corrected member |
|---|---|---|---|---|---|---|
| script.js:788-796 | save compares the raw stored count with 3, but the gallery shows only the migrated, cleaned and trimmed list | three stored legacy entries with empty art data: nothing is shown, and save reports "Gallery is full" with no entry on screen to delete | the cap counts the entries the gallery can show | medium; not executed | `Gallery.FullGalleryShowsNothing` | `Gallery.SaveVisible` |
