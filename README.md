# Scroll-scrubbed hero player and site configuration panel, in Dafny

This project models the logic of a one-page portfolio site. Its hero section
plays a 192-frame image sequence on a canvas as the page scrolls. A floating
panel edits the live site configuration.

Three parts of the site are modelled.

- **The hero player** (`components/ParallaxHero.tsx`), in two halves.
  - Pure functions: the frame URLs (`FrameSequence`), the scroll-to-frame
    mapping (`ScrollMapper`) and the "cover" placement of a frame on the
    canvas (`CoverFit`).
  - The class `ParallaxHero.Hero`, which holds the state the component
    keeps between browser events:
    - the `imagesLoaded` flag and the frame array;
    - the counter that each run of the preload effect keeps in its closure;
    - the canvas size, and a log of the calls made on the canvas.

  Each event is a method: a frame's `onload` or `onerror`, the safety
  timeout, a new sequence URL, a scroll, and a window resize.
- **The configuration panel** (`components/ConfigPanel.tsx`), in module
  `ConfigPanel`:
  - `handleChange`, a record update;
  - the buttons that call it, and the predicates that mark a button active
    or selected;
  - the `isOpen` flag, as class `ConfigPanel.Panel`.
- **The configuration record and its constant tables** (`types.ts`), in
  module `Types`.

Each run of the preload effect first clears the flag
(`components/ParallaxHero.tsx:22-23`) and sets it again on its own twentieth
successful load, a fixed count tested with `===`
(`components/ParallaxHero.tsx:31-33`, `:52`).

Sizes and scroll offsets are exact reals. The flag that `setImagesLoaded`
sets is a plain field, and React's re-rendering is not modelled: an effect's
work happens in the method of the event that triggers it.

## Where the code departs from its evident intent

The model follows the code as written in each of these cases.

- **The safety timeout reads a captured flag.** The comment at
  `components/ParallaxHero.tsx:35` says the timeout is there to show the
  content even if the network is slow. The callback, though, tests
  `imagesLoaded` as it was in the render that started the preload run
  (`components/ParallaxHero.tsx:36-41`), not its current value.
  - On mount the captured value is false, so the timeout always enables
    playback.
  - When the sequence URL changes while playback is enabled, the new run
    captured `true`. Its timeout then does nothing, and playback waits
    until the new run's twentieth load, or the twentieth stale load of an
    older run that had not yet reached 20, however slow the network is.

  Field `Hero.capturedLoaded` models the capture.
  - `ParallaxHero.TimeoutOnMount` proves the first case.
  - `ParallaxHero.TimeoutAfterSwitchFromReady` proves the second.
- **Loads from an abandoned run still count.** Cleanup only clears the
  timer (`components/ParallaxHero.tsx:69`), and each run counts in its own
  closure.
  - An `onload` from a previous run cannot corrupt the new run's counter.
  - The stale load that brings the old run's own counter to exactly 20 still
    sets the shared flag (`===` at `components/ParallaxHero.tsx:52`). If the
    old run had already counted 20 before the switch, no stale load sets the
    flag again.

  `ParallaxHero.StaleLoadsEnablePlayback` proves the case of a switch made
  before any frame of the old run loaded: twenty stale loads enable playback
  while the new run has loaded nothing.
  `ParallaxHero.StaleLoadsAfterTimeoutSwitch` proves the same after a switch
  made once the mount timeout had enabled playback: the new run's timeout
  does nothing, and the old run's twentieth load enables playback again.
- **Nothing guards the scroll travel or the canvas size.** The source divides
  by `endY - startY` (`components/ParallaxHero.tsx:87`), by `canvas.height`
  (`:100`) and by `img.height` (`:101`) without checking them; only
  `img.naturalWidth > 0` is checked (`:98`). Once the flag is set, the model
  requires `scrollHeight > innerHeight` and a non-empty canvas; before that
  the handler returns first and nothing is required. A loaded frame always
  has a positive height.

## Model

| member | source | states |
|---|---|---|
| FrameSequence.ToDecimal | components/ParallaxHero.tsx:46 | `i.toString()` is a non-empty string of decimal digits |
| FrameSequence.ToDecimalValue | components/ParallaxHero.tsx:46 | the digits of `i.toString()` denote `i` |
| FrameSequence.ToDecimalLength | components/ParallaxHero.tsx:46 | `i.toString()` has at most 1, 2 or 3 digits below 10, 100 or 1000 |
| FrameSequence.PadStart | components/ParallaxHero.tsx:46 | `padStart` gives length max(length, target), ends with the original string, and is preceded only by fill characters |
| FrameSequence.ZerosValue | components/ParallaxHero.tsx:46 | a run of `'0'` characters denotes 0 |
| FrameSequence.LeadingZerosValue | components/ParallaxHero.tsx:46 | leading zeros added by `padStart` do not change the number denoted |
| FrameSequence.Pad3Digits | components/ParallaxHero.tsx:46 | for every index below 1000 the padded frame number (`Pad3`) is exactly three digits denoting the index |
| FrameSequence.ParseFrameUrl | components/ParallaxHero.tsx:47 | reading a frame index back out of a URL under a folder yields, when it succeeds, an index below 1000 |
| FrameSequence.FrameUrlRoundTrip | components/ParallaxHero.tsx:43-47 | parsing frame `i`'s URL (`FrameUrl`, the template at line 47) gives back `i` |
| FrameSequence.FrameUrlInjective | components/ParallaxHero.tsx:43-47 | two frame URLs under the same folder are equal if and only if their indices are |
| FrameSequence.FrameUrlInFolder | components/ParallaxHero.tsx:47 | a frame URL is the folder URL followed by 25 characters with no `/` |
| ScrollMapper.ScrollEnd | components/ParallaxHero.tsx:85 | the scroll travel `endY - startY` is the container height minus the viewport height, so it is positive exactly when the container is taller than the viewport |
| ScrollMapper.Progress | components/ParallaxHero.tsx:83-88 | progress is in [0, 1]; it is 0 at or above the container top, 1 at or past the end, and in between the exact fraction of the scroll travel |
| ScrollMapper.FrameIndex | components/ParallaxHero.tsx:90-93 | the frame index is in [0, 191], is the floor of progress × 191 (the greatest integer at most progress × 191), and is 191 at progress 1 |
| ScrollMapper.FrameIndexAt | components/ParallaxHero.tsx:83-93 | the frame shown is in [0, 191]; it is 0 when `scrollY <= startY` and 191 when `scrollY >= endY` |
| ScrollMapper.FloorNeedsNoCap | components/ParallaxHero.tsx:90-93 | the `Math.min` cap never takes effect: the frame index is the floor itself |
| ScrollMapper.FrameIndexMonotonic | components/ParallaxHero.tsx:83-93 | scrolling further down never shows an earlier frame |
| ScrollMapper.EveryFrameReached | components/ParallaxHero.tsx:83-93 | every frame `k` is shown, at the fraction `k / 191` of the scroll travel |
| CoverFit.Cover | components/ParallaxHero.tsx:99-114 | the drawn rectangle keeps the image's aspect ratio, covers the canvas, matches it in one dimension, and is centred, so both offsets are at most 0 |
| CoverFit.CoverWideImage | components/ParallaxHero.tsx:104-108 | when the image is relatively wider than the canvas, the height-matched width keeps the ratio and exceeds the canvas width |
| CoverFit.CoverTallImage | components/ParallaxHero.tsx:109-114 | otherwise the width-matched height keeps the ratio and reaches the canvas height |
| CoverFit.CoverIsSmallestCovering | components/ParallaxHero.tsx:99-114 | no scaling of the image that covers the canvas is smaller in either direction than the drawn rectangle |
| CoverFit.CoverPortraitOnLandscape | components/ParallaxHero.tsx:99-114 | an 800 × 1000 frame on a 1920 × 1080 canvas is drawn at (0, −660), 1920 × 2400 |
| ParallaxHero.Complete | components/ParallaxHero.tsx:98 | `img.complete`: the fetch has finished, by loading or by failing |
| ParallaxHero.NaturalWidth | components/ParallaxHero.tsx:98 | `img.naturalWidth` is positive exactly when the frame loaded |
| ParallaxHero.Drawable | components/ParallaxHero.tsx:98 | the draw guard passes exactly for a frame that loaded: a failed or pending frame is never drawn |
| ParallaxHero.CountLoaded | components/ParallaxHero.tsx:29 | the number of loaded frames never exceeds the number of frames |
| ParallaxHero.CountLoadedAllPending | components/ParallaxHero.tsx:43-67 | a freshly built frame array counts zero loaded frames |
| ParallaxHero.CountLoadedAfterSettle | components/ParallaxHero.tsx:49-62 | a pending frame that loads adds one to the count; one that fails adds nothing |
| ParallaxHero.RunsOkAfterLoad | components/ParallaxHero.tsx:49-55 | one more load in a run keeps each run's counter within 192, with exactly one ready call once it has reached 20 and none before |
| ParallaxHero.BuildFrames | components/ParallaxHero.tsx:43-67 | the preload loop creates exactly 192 pending images, image `i` fetching frame `i`'s URL |
| ParallaxHero.Hero.constructor | components/ParallaxHero.tsx:15-146 | on mount the flag is false, the first run's 192 frames are pending with counter 0, and the canvas has the viewport's size |
| ParallaxHero.Hero.SetSequenceUrl | components/ParallaxHero.tsx:21-70 | a new URL starts a new run: the run captures the flag, the flag is cleared, the frames are rebuilt pending and a new counter starts at 0, while older runs' counters are kept; an unchanged URL changes nothing |
| ParallaxHero.Hero.OnLoad | components/ParallaxHero.tsx:49-55 | a load adds one to its own run's counter, sets the flag exactly when that counter reaches 20, and so calls `setImagesLoaded` at most once per run; only a current-run load marks a frame loaded |
| ParallaxHero.Hero.OnLoadCurrent | components/ParallaxHero.tsx:49-55 | a current-run load marks its frame loaded, adds one to the current counter and sets the flag at the twentieth load |
| ParallaxHero.Hero.OnLoadStale | components/ParallaxHero.tsx:49-55 | a load of an older run changes only that run's counter and, at its twentieth load, the flag |
| ParallaxHero.Hero.OnError | components/ParallaxHero.tsx:58-62 | an error leaves every counter and the flag unchanged; only a current-run error marks its frame failed |
| ParallaxHero.Hero.OnErrorCurrent | components/ParallaxHero.tsx:58-62 | a current-run error marks its frame failed and keeps the counter equal to the number of loaded frames |
| ParallaxHero.Hero.OnTimeout | components/ParallaxHero.tsx:36-41 | the timeout sets the flag exactly when the flag captured at the run's start was false |
| ParallaxHero.Hero.Resize | components/ParallaxHero.tsx:137-141 | after a resize the canvas has the viewport's size |
| ParallaxHero.Hero.HandleScroll | components/ParallaxHero.tsx:74-127 | nothing is drawn unless the flag is set and the chosen frame is complete with a positive natural width; otherwise the whole canvas is cleared and then the scroll position's frame is drawn into its cover rectangle |
| ParallaxHero.Hero.OnWindowResize | components/ParallaxHero.tsx:121-146 | a window resize first gives the canvas the viewport's size, then redraws the current frame with that new size |
| ParallaxHero.TimeoutOnMount | components/ParallaxHero.tsx:36-41 | on mount the timeout enables playback although no frame has loaded |
| ParallaxHero.TimeoutAfterSwitchFromReady | components/ParallaxHero.tsx:36-41 | after a sequence switch made while playback was enabled, the new run's timeout leaves playback disabled |
| ParallaxHero.StaleLoadsEnablePlayback | components/ParallaxHero.tsx:49-70 | twenty loads of the previous sequence after a switch enable playback while the new run's counter is still 0 |
| ParallaxHero.StaleLoadsAfterTimeoutSwitch | components/ParallaxHero.tsx:35-70 | after the mount timeout enabled playback and the URL changed, the new run's timeout does nothing, yet twenty loads of the old run enable playback while the new run's counter is still 0 |
| Types.DefaultSequenceIsFirst | types.ts:43 | the default configuration plays the first picker entry's folder |
| Types.SequenceUrlsAreFolders | types.ts:25-35 | both picker entries share one URL, and it ends in `/` |
| ParallaxHero.SequenceFramesInFolder | components/ParallaxHero.tsx:47 | for a picker entry, each frame URL is the entry's folder, ending in `/`, followed by a file name without `/`: a file directly inside that folder |
| Types.ThemeColorsDistinct | types.ts:46-53 | there are six accent colours with pairwise distinct names and pairwise distinct values |
| Types.DefaultAccentIsOrange | types.ts:41-47 | the default accent is the Orange swatch's value and the default theme is dark |
| ConfigPanel.Field | types.ts:2-9 | each of the six configuration fields holds a value of its declared type |
| ConfigPanel.FieldsDetermineConfig | types.ts:2-9 | two configurations that agree on all six fields are equal |
| ConfigPanel.HandleChange | components/ConfigPanel.tsx:14-16 | the changed field takes the new value and every other field keeps its old value |
| ConfigPanel.HandleChangeLastWins | components/ConfigPanel.tsx:15 | of two changes to the same field, the later one wins |
| ConfigPanel.HandleChangeIdempotent | components/ConfigPanel.tsx:15 | applying the same change twice is the same as applying it once |
| ConfigPanel.HandleChangeCurrentValue | components/ConfigPanel.tsx:15 | writing a field's current value back leaves the configuration unchanged |
| ConfigPanel.HandleChangeCommutes | components/ConfigPanel.tsx:15 | changes to two different fields give the same result in either order |
| ConfigPanel.LightActive | components/ConfigPanel.tsx:61 | the Light button is styled active exactly when the `isDarkMode` field is false |
| ConfigPanel.DarkActive | components/ConfigPanel.tsx:68 | the Dark button is styled active exactly when the `isDarkMode` field is true, so exactly one of the two buttons is active |
| ConfigPanel.OnLightClick | components/ConfigPanel.tsx:59-65 | the Light button turns dark mode off, after which Light and not Dark is styled active; nothing else changes |
| ConfigPanel.OnDarkClick | components/ConfigPanel.tsx:66-72 | the Dark button turns dark mode on, after which Dark and not Light is styled active; nothing else changes |
| ConfigPanel.SwatchChecked | components/ConfigPanel.tsx:88 | a swatch shows the check mark exactly when the accent field holds its value |
| ConfigPanel.OnSwatchClick | components/ConfigPanel.tsx:80-88 | a swatch sets the accent to its own value, so it shows the check mark; nothing else changes |
| ConfigPanel.AtMostOneSwatchChecked | components/ConfigPanel.tsx:88 | no two swatches show the check mark at once |
| ConfigPanel.SwatchClickChecksOnlyIt | components/ConfigPanel.tsx:80-88 | after clicking a swatch, a swatch is checked if and only if it is the clicked one |
| ConfigPanel.DefaultChecksOrange | components/ConfigPanel.tsx:88 | under the default configuration a swatch is checked if and only if it is Orange |
| ConfigPanel.SequenceSelected | components/ConfigPanel.tsx:102-108 | a picker entry is styled selected and checked exactly when the frame-folder field holds its URL |
| ConfigPanel.OnSequenceClick | components/ConfigPanel.tsx:98-108 | a picker entry sets the frame folder to its URL, so it is marked selected; nothing else changes |
| ConfigPanel.SequenceEntriesSelectedTogether | components/ConfigPanel.tsx:102-108 | the two picker entries are always marked selected together, and both are under the default configuration |
| ConfigPanel.OnTextInput | components/ConfigPanel.tsx:113-153 | typing into a text input replaces exactly that field with the typed text |
| ConfigPanel.Panel.Rendered | components/ConfigPanel.tsx:30 | the sidebar and backdrop are rendered exactly when `isOpen` holds |
| ConfigPanel.Panel.constructor | components/ConfigPanel.tsx:12 | the panel starts closed and unrendered |
| ConfigPanel.Panel.OnTriggerClick | components/ConfigPanel.tsx:21-30 | the trigger opens the panel, which is then rendered |
| ConfigPanel.Panel.OnBackdropClick | components/ConfigPanel.tsx:33-35 | clicking the backdrop closes the panel, which is then not rendered |
| ConfigPanel.Panel.OnCloseClick | components/ConfigPanel.tsx:45-46 | the X button closes the panel, which is then not rendered |

## Left out

- Markup, styling and icons are not modelled: the JSX of every component,
  Tailwind classes and lucide icons. So are the static components
  `LearningPaths`, `ProjectsShowcase` and `Footer`, and `App.tsx`, which
  toggles the `dark` class on the document and wires `onUpdate`. They carry
  no behaviour beyond presentation.
- Network fetching, `console.warn` and real time are left out. A frame's
  load or error and the timeout firing are events that may arrive in any
  order. No clock is modelled, so the 2000 ms delay of the timeout does not appear.
- React scheduling is left out. The effect runs inside the event method that
  triggers it, so the instant when the frame array is empty
  (`components/ParallaxHero.tsx:24`) is not observable. The same goes for
  the render between `setImagesLoaded` and the effects that follow it.
- The server-side guard `typeof window === 'undefined'` is left out. So are
  the null checks of the container and canvas refs and of the 2D context.
  The model assumes a browser with a mounted canvas.
- Canvas drawing is recorded as a log of `clearRect` and `drawImage` calls,
  not as pixels.
- Subscribing and unsubscribing the scroll and resize listeners is modelled
  only through the order of `OnWindowResize`. The initial draw when the flag
  becomes true (`components/ParallaxHero.tsx:125-127`) is a `HandleScroll`
  call, since its own guard already checks the flag.
- JavaScript's floating-point arithmetic is left out: the numbers are exact
  reals. The `NaN` and `Infinity` produced by zero travel or an empty canvas
  are excluded by preconditions.
- `img.width` is taken to be the frame's natural width, as it is for an
  image that is not in the document.
- ParallaxHero.Hero.OnLoad: the model does not remember which frames of an
  older run have already settled. A stale load is only required to leave
  that run's counter within 192, which is weaker than "each image fires once".
- ParallaxHero.Hero.OnError: an older run's error is accepted at any time
  and changes nothing; the model does not check that its frame was pending.
- ConfigPanel.HandleChange: the source's `value: any` is narrowed to a value
  of the field's own type, which every call site in the panel passes.
