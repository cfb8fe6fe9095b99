# Slide-puzzle CAPTCHA controller

This project models the controller of the `PuzzleCaptcha` React component. The component
shows an image with a star-shaped hole cut into it. The user drags a range-input slider to
move a star-shaped piece over the hole. The component keeps six pieces of state:
`gapX`, `gapY`, `sliderValue`, `isSolved`, `isFailed` and `isLoading`. Five events change
them:

- a load starts;
- an image arrives, which places the gap and resets the slider;
- the slider moves;
- the slider is released, which decides solved or failed;
- a reset happens, from the refresh icon or from the retry timer a failure sets.

Modules:

- `Props`: the component's numeric props, the demo values (300x150 image, 50x50 piece,
  tolerance 3.5), and the range input's bounds and value sanitisation.
- `GapPlacement`: the gap ranges and the random draw `floor(Math.random() * span)`. The
  draw is modelled as an integer offset `k`. `DrawIsValid` and `DrawCovers` prove that
  `ValidDraw` is exactly the set of offsets such a draw can give.
- `Alignment`: where the hole, the piece frame and the cropped image region lie, and the
  release test `Passes`.
- `Controller`: one pure function per event on the `Puzzle` state, an event-sequence
  semantics (`Step`, `Run`) with the two invariants it keeps, and `class Captcha`.
  The class has the component's fields and one method per handler. Each method's
  `ensures` ties the new state to the matching function of the old state.
- `Scenarios`: the demo puzzle with its gap at x = 200, released at 199 and at 150.

Several behaviours of the code are easy to miss. The model follows the code in each:

- When the x range is empty (`imageWidth - pieceWidth - 10 < floor(imageWidth / 2)`), the
  gap is not clamped to the low bound. `Math.floor(Math.random() * span)` with `span <= 0`
  gives an offset in `span .. 0`. So the gap lies in
  `(imageWidth - pieceWidth - 10, floor(imageWidth / 2)]`, possibly in the left half
  (`DegenerateGapX`, `NarrowImageLeavesRightHalf`).
- The flags are not always mutually exclusive. New props that change the image size or
  the tolerance rerun `loadImage` without clearing `isFailed` or `isSolved`
  (`ReconfiguringAFailureKeepsItFailed`).
- The release handler is attached to both `onMouseUp` and `onTouchEnd`. React drops mouse
  handlers on a disabled control but does not filter touch handlers, and nothing in the
  code says whether a browser delivers `touchend` to a disabled range input. The model
  takes the conservative choice and lets a touchend reach `handleSliderRelease` in any
  state. A touch on a failed puzzle schedules a second retry
  (`DemoHarness`). A touch while a reset reloads can raise `isFailed` beside `isLoading`
  (`TouchWhileLoadingBreaksConsistency`). Every event, touches included, keeps the slider
  in range and a solved puzzle within tolerance (`MountedStatesSound`). Without touch
  releases, at most one flag is raised as well (`MountedStatesConsistent`).
- Nothing orders overlapping loads: an earlier image that arrives late still replaces the
  gap. In the model, `Load` events may arrive in any state.
- The piece canvas has a 2-pixel border, and its bitmap is drawn inside it. The drawn star
  therefore sits 2 pixels right of and 2 pixels below where `sliderValue` and `gapY` place
  the piece. The release test compares the piece frame with the crop position. A star
  drawn exactly centred on the hole is at `sliderValue = gapX - 2`, and it passes only
  when the tolerance exceeds 2 (`DrawnStarNeverOnHole`, `CentredStarPassesIff`).

A disabled range input reports no value changes. The range input's value sanitisation is
modelled as `SliderValueOf`: it clamps to `[0, max]`, and treats a maximum below 0 as 0.

## Model

| member | source | states |
|---|---|---|
| Props.SliderMax | src/components/PuzzleCaptcha.tsx:319 | the range input's maximum; its meaning, that the piece frame's right edge reaches the image's right edge exactly there, is stated by PieceWithinImage |
| Props.SliderValueOf | src/components/PuzzleCaptcha.tsx:316-321 | the stored slider value always lies in [0, max(0, imageWidth - pieceWidth)]; an in-range position is kept as it is; positions beyond either end go to that end |
| GapPlacement.Draw | src/components/PuzzleCaptcha.tsx:68 | the offset is the floor of Math.random() * span |
| GapPlacement.ValidDraw | src/components/PuzzleCaptcha.tsx:68 | the offsets the draw can give: 0..span-1 for a positive span, span..0 otherwise; that these are exactly the possible draws is stated by DrawIsValid and DrawCovers |
| GapPlacement.DrawIsValid | src/components/PuzzleCaptcha.tsx:68 | floor(r * span) for r in [0, 1) lies in 0..span-1 when span is positive, and in span..0 otherwise |
| GapPlacement.DrawCovers | src/components/PuzzleCaptcha.tsx:68 | every such offset is produced by some r in [0, 1), so the offset model allows exactly the draws the source can make |
| GapPlacement.Pick | src/components/PuzzleCaptcha.tsx:68 | min + offset lies in [min, max] when the range is non-empty, and in (max, min] when it is empty |
| GapPlacement.XRange | src/components/PuzzleCaptcha.tsx:66-67 | the low bound is floor(imageWidth / 2); the high bound leaves a 10-pixel margin right of the piece |
| GapPlacement.YRange | src/components/PuzzleCaptcha.tsx:71-72 | the y range is non-empty iff the image is at least the piece plus two 10-pixel margins tall; GapYWithinMargins and DemoRanges state where it puts the gap |
| GapPlacement.GapX | src/components/PuzzleCaptcha.tsx:66-68 | the chosen x lies in its range when that is non-empty, and never past the larger bound |
| GapPlacement.GapY | src/components/PuzzleCaptcha.tsx:71-73 | the chosen y lies in its range when that is non-empty, and never past the larger bound |
| GapPlacement.GapXInRightHalf | src/components/PuzzleCaptcha.tsx:65-68 | with room for it, gapX lies in [floor(imageWidth/2), imageWidth - pieceWidth - 10]: the right half of the image, with the piece 10 pixels clear of the right edge |
| GapPlacement.GapYWithinMargins | src/components/PuzzleCaptcha.tsx:70-73 | with room for it, gapY lies in [10, imageHeight - pieceHeight - 10] |
| GapPlacement.DegenerateGapX | src/components/PuzzleCaptcha.tsx:66-68 | without room, gapX is not clamped: it lies beyond the right margin and at most floor(imageWidth/2) |
| GapPlacement.EveryPositionReachable | src/components/PuzzleCaptcha.tsx:68 | every position of a non-empty range can be drawn |
| GapPlacement.DemoRanges | src/App.tsx:12-47 | the demo props give gapX in [150, 240] and gapY in [10, 90] |
| GapPlacement.NarrowImageLeavesRightHalf | src/components/PuzzleCaptcha.tsx:66-68 | a 100-pixel image with a 50-pixel piece can get its gap at x = 41, in the left half |
| Alignment.HoleCentre | src/components/PuzzleCaptcha.tsx:106-109 | the hole's star is centred on the image region the piece shows, so the piece carries what was cut out |
| Alignment.CropRegion | src/components/PuzzleCaptcha.tsx:152-162 | the piece-sized image region at (gapX, gapY) that the piece shows; its relation to the piece frame and the hole is stated by PieceCoversHoleIff, PassesIffCentresClose and HoleCentre |
| Alignment.PieceFrame | src/components/PuzzleCaptcha.tsx:285-292 | the piece-sized box at left = sliderValue, top = gapY; where it lies is stated by PieceWithinImage, PieceCoversHoleIff and PieceOffset |
| Alignment.PieceCentre | src/components/PuzzleCaptcha.tsx:143-144 | the drawn star is centred the 2-pixel border right of and below the piece frame's centre; its offset from the hole is stated by PieceOffset |
| Alignment.PieceWithinImage | src/components/PuzzleCaptcha.tsx:285-300 | over the slider range the piece frame stays inside the image and reaches its right edge exactly at the maximum, where the bordered canvas overhangs by 4 pixels |
| Alignment.PieceCoversHoleIff | src/components/PuzzleCaptcha.tsx:130-162 | the piece frame coincides with the region the piece shows iff sliderValue = gapX; the drawn star is then the hole's star moved by the 2-pixel border |
| Alignment.PieceOffset | src/components/PuzzleCaptcha.tsx:285-300 | the drawn star is always 2 pixels below the hole; its horizontal offset from the hole is sliderValue - gapX + 2 |
| Alignment.DrawnStarNeverOnHole | src/components/PuzzleCaptcha.tsx:285-300 | the drawn star never sits exactly on the hole; it is horizontally centred on it iff sliderValue = gapX - 2 |
| Alignment.PassesIffCentresClose | src/components/PuzzleCaptcha.tsx:210-212 | a release passes iff the piece frame is less than `tolerance` from the region the piece shows, that is, iff the drawn star is within `tolerance` of the hole's star moved by the border |
| Alignment.CentredStarPassesIff | src/components/PuzzleCaptcha.tsx:212 | a release with the drawn star centred on the hole passes iff the tolerance exceeds 2 |
| Alignment.Passes | src/components/PuzzleCaptcha.tsx:212 | the release test abs(sliderValue - gapX) < tolerance, strict; its meaning is stated by PassesIffCentresClose and ToleranceBoundary |
| Alignment.ToleranceBoundary | src/components/PuzzleCaptcha.tsx:212 | a distance exactly equal to the tolerance fails; the test is symmetric about the gap |
| Alignment.AlignedPassesIff | src/components/PuzzleCaptcha.tsx:212 | exact alignment passes iff the tolerance is positive |
| Controller.Initial | src/components/PuzzleCaptcha.tsx:31-36 | before mounting, the slider is at 0 and enabled |
| Controller.SliderDisabled | src/components/PuzzleCaptcha.tsx:324 | the slider is disabled iff isLoading, isFailed or isSolved; its effect is stated by SliderInputIgnoredWhenDisabled |
| Controller.LoadStarted | src/components/PuzzleCaptcha.tsx:41-42 | starting a load raises isLoading, which disables the slider, and changes nothing else |
| Controller.ImageLoaded | src/components/PuzzleCaptcha.tsx:61-79 | after an image load, the gap holds the newly drawn position in its ranges, loading is over, the slider is at 0, solved is cleared, and isFailed is untouched |
| Controller.SliderChanged | src/components/PuzzleCaptcha.tsx:204-207 | a slider change stores the position the range input reports, which is the requested one when in range, and changes no other field |
| Controller.Released | src/components/PuzzleCaptcha.tsx:210-221 | a release raises isSolved when the slider is within tolerance and isFailed otherwise; nothing else changes |
| Controller.Reset | src/components/PuzzleCaptcha.tsx:224-228 | a reset leaves only isLoading raised and keeps the gap and the slider |
| Controller.ReloadsOn | src/components/PuzzleCaptcha.tsx:233 | the load effect's dependencies: image width, image height and tolerance; its effect is stated by Reconfigured and ReconfiguringAFailureKeepsItFailed |
| Controller.Reconfigured | src/components/PuzzleCaptcha.tsx:230-233 | new props raise isLoading iff the image size or the tolerance changed; nothing is cleared |
| Controller.Step | src/components/PuzzleCaptcha.tsx:204-228 | one event: changes and mouse releases are gated by the disabled rule, touch releases, loads and resets are not; its properties are stated by the lemmas below |
| Controller.ReleaseDecides | src/components/PuzzleCaptcha.tsx:210-221 | releasing an enabled slider, by mouse or by touch, leaves exactly one of solved and failed raised, solved iff abs(sliderValue - gapX) < tolerance |
| Controller.SliderInputIgnoredWhenDisabled | src/components/PuzzleCaptcha.tsx:316-324 | while isLoading, isFailed or isSolved holds, changes and mouse releases change nothing, and a touch release still runs the release test; an enabled change alters only sliderValue |
| Controller.ResetIdempotent | src/components/PuzzleCaptcha.tsx:224-228 | a second reset gives the same state as the first |
| Controller.StepKeepsSound | src/components/PuzzleCaptcha.tsx:204-228 | every event, touch releases included, keeps the slider in range and a solved puzzle within tolerance |
| Controller.RunKeepsSound | src/components/PuzzleCaptcha.tsx:204-228 | the same for every sequence of events |
| Controller.MountedStatesSound | src/components/PuzzleCaptcha.tsx:31-42 | every state reachable from mounting with fixed props has the slider in range, and is solved only within tolerance |
| Controller.StepKeepsConsistent | src/components/PuzzleCaptcha.tsx:204-228 | every event except a touch release also keeps at most one flag raised |
| Controller.RunKeepsConsistent | src/components/PuzzleCaptcha.tsx:204-228 | the same for every sequence of events without touch releases |
| Controller.MountedStatesConsistent | src/components/PuzzleCaptcha.tsx:31-42 | every state reachable from mounting with fixed props and no touch release is consistent |
| Controller.TouchWhileLoadingBreaksConsistency | src/components/PuzzleCaptcha.tsx:322-324 | after mounting, loading the demo image, failing at 150 and resetting, the state is consistent, and a touchend then raises isFailed beside isLoading |
| Controller.FailureRecovers | src/components/PuzzleCaptcha.tsx:215-228 | a failed release, its retry and the next image load give an enabled puzzle with the slider at 0 |
| Controller.ReconfiguringAFailureKeepsItFailed | src/components/PuzzleCaptcha.tsx:230-233 | changing the image size or the tolerance during a failure raises loading beside failed, and the next puzzle stays failed and disabled |
| Controller.Captcha.constructor | src/components/PuzzleCaptcha.tsx:31-36 | mounting gives the initial state with loading raised and no retry pending |
| Controller.Captcha.LoadImage | src/components/PuzzleCaptcha.tsx:41-42 | starting a load raises isLoading and changes nothing else |
| Controller.Captcha.OnImageLoad | src/components/PuzzleCaptcha.tsx:61-79 | the new state is ImageLoaded of the old one |
| Controller.Captcha.HandleSliderChange | src/components/PuzzleCaptcha.tsx:204-207 | the input is accepted iff the slider is enabled; the new state is the change step |
| Controller.Captcha.HandleSliderRelease | src/components/PuzzleCaptcha.tsx:210-221 | the new state is Released of the old one, in any state; a failure schedules exactly one retry |
| Controller.Captcha.OnMouseUp | src/components/PuzzleCaptcha.tsx:322-324 | a mouseup runs the release handler iff the slider is enabled |
| Controller.Captcha.HandleReset | src/components/PuzzleCaptcha.tsx:224-228 | the new state is Reset of the old one |
| Controller.Captcha.RetryTimerFires | src/components/PuzzleCaptcha.tsx:217-219 | a pending retry fires, is consumed, and resets the puzzle |
| Controller.Captcha.UpdateProps | src/components/PuzzleCaptcha.tsx:230-233 | new props reload the puzzle iff the image size or the tolerance changed |
| Scenarios.DemoPuzzleAt | src/App.tsx:12-47 | the demo puzzle with its gap at 200 has an enabled slider at the requested position |
| Scenarios.DemoReleases | src/components/PuzzleCaptcha.tsx:210-221 | in the demo puzzle, releasing at 199 solves it; releasing at 150 fails it, and the retry reloads |

## Left out

- Star geometry (`createStarPath`) and all canvas drawing: these use floating-point
  trigonometry and side effects on canvas contexts. Only the coordinates of the hole, the
  piece frame and the crop are modelled.
- Image fetching (`new Image()`, `crossOrigin`, `onerror`): this is network I/O. An error
  requests another image and changes no state. The source-list index is never advanced,
  so the "all sources failed" branch is unreachable and is not modelled.
- Timing of the 2000 ms retry: only its effect is modelled, as a later `RetryTimerFires`.
  A retry still fires after a manual reset, and may reset a newer puzzle.
- Controller.Captcha.OnImageLoad: uses the props current when the image arrives. The
  source's handler uses the props captured when its `loadImage` ran.
- Dimensions are integers and arithmetic is exact. JavaScript numbers may be fractional,
  and `Math.random() * span` rounds.
- The image is assumed to arrive at the requested size, so crop coordinates and canvas
  coordinates agree.
- Styling, messages, layout, the options panel, the documentation modal and the app wiring
  are presentation only.
