# Butterchurn sphere visualizer: the logic inside the component

The application plays an audio file and, on every animation frame, reads the
analyser's frequency magnitudes. It turns them into bass, mid and treble levels
that deform a sphere, which is textured with the output of the butterchurn
preset visualizer. Almost all of `src/App.jsx` is glue around React, Web Audio,
Three.js and butterchurn. This project models the part of it whose behaviour can
be stated without those libraries:

- `levels.dfy` (module `Levels`) covers the per-frame band levels. The split
  points are `floor(n*0.15)` and `floor(n*0.4)`. There is one summing loop per
  band, an average that is 0 for an empty range, normalisation by 128, and
  exponential smoothing with factor 0.08. The overall level is the mean of the
  three smoothed levels.
- `media_errors.dfy` (module `MediaErrors`) covers the text the audio element's
  `onerror` handler shows. The codes are the MediaError codes of the WHATWG HTML
  Standard, section 4.8.11.1.
- `controls.dfy` (module `Controls`) covers the overlay controls. It models
  which of Play, Pause and the preset select are enabled, and their titles and
  options. It also models preset-label truncation and the guards of the preset,
  Play and Pause handlers.
- `lifecycle.dfy` (module `Lifecycle`) is the class `Visualizer`. Its fields
  are the component's refs and state: `isInitializedRef`, `audioContextRef`,
  `animationFrameIdRef`, the pipeline refs, the smoothed levels and the React
  state. Its methods are `initialize`, the element's `onloadeddata` and
  `onerror` handlers, the frame callback, the preset handler, Play's guard and
  the effect cleanup. The invariant `Valid()` states five things. The flag is
  set only while every object the loop needs exists and a frame is pending. A
  pending frame handle is non-zero. The element's handlers are attached only
  while the element exists. A pipeline ref is set only while the audio context
  exists. The smoothed levels and the shader uniforms stay in [0, 255/128].
- `wrappers.dfy` holds `Option`. It models a ref that may be null.

Browser callbacks, library calls and exceptions are parameters of the methods.
The buffer the analyser fills is one parameter. So is the handle that
`requestAnimationFrame` returns, which the HTML Standard guarantees is non-zero.
The message an exception carries is another. A further parameter names the
setup step that throws, if any.

## Model

| member | source | states |
|---|---|---|
| `Levels.BassEnd` | src/App.jsx:272 | the bass end is floor(n·15/100): b·100 ≤ 15n < b·100 + 100 |
| `Levels.MidEnd` | src/App.jsx:273 | the mid end is floor(n·40/100): m·100 ≤ 40n < m·100 + 100 |
| `Levels.SplitOrdered` | src/App.jsx:272-274 | 0 ≤ bassEnd ≤ midEnd ≤ dataLen for every buffer length |
| `Levels.FrameSplit` | src/App.jsx:170 | fftSize 2048 gives 1024 bins, split at 153 and 409 |
| `Levels.BandRange` | src/App.jsx:277-290 | each band's loop range [start, end) lies inside the buffer |
| `Levels.BandsPartition` | src/App.jsx:272-293 | every bin lies in the loop range of exactly one band: the three ranges are disjoint and cover the buffer |
| `Levels.SumSplit` | src/App.jsx:276-293 | sums over adjacent ranges add up |
| `Levels.BandSumsCoverBuffer` | src/App.jsx:276-293 | bassSum + midSum + trebleSum is the sum of the whole buffer: each bin is counted once |
| `Levels.SumBounds` | src/App.jsx:276-291 | a sum of k values in [m, M] lies in [k·m, k·M] |
| `Levels.AverageWithinRange` | src/App.jsx:280-293 | the average of a non-empty range lies between its smallest and its largest bin |
| `Levels.LevelBounds` | src/App.jsx:280-298 | over a byte buffer each normalised level is in [0, 255/128], and an empty range gives 0 |
| `Levels.BandSum` | src/App.jsx:276-279 | the summing loop (one per band) returns the sum of the bins in [lo, hi) |
| `Levels.BandLevels` | src/App.jsx:267-298 | the three raw levels are the normalised averages of the bass, mid and treble ranges, each in [0, 255/128] for a byte buffer |
| `Levels.Smooth` | src/App.jsx:301-303 | a smoothing step lands between the old value and the raw level, keeps a value equal to the raw level, and leaves 0.92 of the distance to it |
| `Levels.SmoothTraceBounded` | src/App.jsx:76-78 | starting inside an interval and fed raw levels from it, the smoothed value never leaves it; from 0 it stays in [0, 255/128] |
| `Levels.Decay` | src/App.jsx:253 | the part of the distance left after k frames, 0.92^k, is in (0, 1] |
| `Levels.SmoothTraceConstant` | src/App.jsx:301-303 | fed a constant raw level, the distance to it after k frames is 0.92^k times the initial distance |
| `Levels.Overall` | src/App.jsx:309 | the overall level times 3 is the sum of the three smoothed levels |
| `Levels.OverallBetween` | src/App.jsx:309 | the overall level lies in any interval that holds the three smoothed levels |
| `MediaErrors.DecimalString` | src/App.jsx:139 | the printed code is non-empty decimal digits with no leading zero |
| `MediaErrors.DecimalRoundTrip` | src/App.jsx:139 | reading back the printed code gives the code |
| `MediaErrors.DecimalStringInjective` | src/App.jsx:139 | different codes print differently |
| `MediaErrors.ErrorDetailsCases` | src/App.jsx:132-141 | codes 1-4 give 'Aborted', 'Network error', 'Decode error' and 'Source not supported'; any other code gives "Code " and its decimal value; no error object gives 'Unknown error' |
| `MediaErrors.ErrorDetailsInjective` | src/App.jsx:132-141 | the details text determines the error: two errors with the same text are the same |
| `MediaErrors.AudioErrorMessage` | src/App.jsx:143 | the shown message is "Audio Error: " followed by the details text |
| `MediaErrors.AudioErrorMessageInjective` | src/App.jsx:143 | the shown message identifies the error: two errors with the same message are the same |
| `Controls.OptionLabel` | src/App.jsx:626 | a key of at most 40 characters is shown as is; a longer key is shown as exactly 40 characters, its first 37 followed by "..." |
| `Controls.OptionLabelIdempotent` | src/App.jsx:626 | a label is its own label |
| `Controls.OptionLabelsCollide` | src/App.jsx:626 | two long keys with the same first 37 characters are shown with the same label |
| `Controls.SelectOptions` | src/App.jsx:621-629 | while waiting or without keys the select holds only "Loading..."; otherwise it holds one option per key, in order, valued by the key and labelled by its label |
| `Controls.View` | src/App.jsx:598-622 | Play and Pause are never both enabled, and exactly one is once ready; while the refs or the flag are not ready, every control is disabled and titled "Initializing..."; the select is also disabled without keys |
| `Controls.PresetChange` | src/App.jsx:521-534 | a preset loads exactly when the visualizer exists, the key is listed and the flag is set; otherwise the reason is 'Visualizer not ready', then 'Preset not found', then 'Not initialized', in that order |
| `Controls.PresetErrorMessage` | src/App.jsx:534 | the shown message is "Preset Error: " followed by the reason |
| `Controls.PlayGuard` | src/App.jsx:466-480 | Play is refused as not ready exactly when the element, the context or the flag is missing; it is refused as closed exactly when it gets past that and the context is closed; otherwise it resumes a suspended context and starts a paused element |
| `Controls.PauseGuard` | src/App.jsx:498-509 | Pause does nothing exactly when the element or the flag is missing; otherwise it pauses a playing element |
| `Lifecycle.SetupPipeline` | src/App.jsx:157-243 | refs are assigned in setup order, so each set ref implies every earlier one; a failing step leaves its own ref unassigned and the earlier ones assigned, and a throw in `connectAudio` or `getPresets` leaves the visualizer set and the scene unset; the render guard holds exactly when the sphere step completes, and no ref is set when the analyser step fails |
| `Lifecycle.Visualizer.constructor` | src/App.jsx:60-86 | every ref is null, every flag is false, the smoothed levels and the uniforms are 0 and the state is empty |
| `Lifecycle.Visualizer.CheckRefs` | src/App.jsx:369-377 | the refs become ready once the mount point and the canvas both exist |
| `Lifecycle.Visualizer.Initialize` | src/App.jsx:97-365 | a no-op once initialised; missing refs and fatal errors show their message and attach nothing; otherwise the element exists with its listeners and handlers; the flag is never set here |
| `Lifecycle.Visualizer.InitEffect` | src/App.jsx:380-388 | calls `initialize` only when the refs are ready and the flag is clear, and otherwise changes nothing; a refusal shows its message and leaves the element, listeners and handlers as they were; a success attaches them and keeps the message |
| `Lifecycle.Visualizer.OnLoadedData` | src/App.jsx:148-354 | skipped without a handler, when initialised or when a context exists; otherwise the refs of the completed steps are set, the presets are listed and the first one is chosen, the level uniforms are reset to 0 once the material is created, and the flag is set exactly when the whole setup succeeds, after the first frame is requested; a failing step shows "Setup Error: " and leaves the flag clear |
| `Lifecycle.Visualizer.RenderFrame` | src/App.jsx:255-340 | with the whole pipeline present, each smoothed level takes one smoothing step towards its band's level and the uniforms carry the smoothed levels and their mean; a render error nulls the frame id, clears the flag and shows "Render Error: "; otherwise the next frame is requested |
| `Lifecycle.Visualizer.OnAudioError` | src/App.jsx:131-145 | shows the error's text and clears the flag, leaving the render loop as it is |
| `Lifecycle.Visualizer.OnPlaybackEvent` | src/App.jsx:122-129 | the playing state follows the element's paused flag once the listeners are attached |
| `Lifecycle.Visualizer.View` | src/App.jsx:598-622 | without the flag every control is disabled |
| `Lifecycle.Visualizer.InitializedPresetChange` | src/App.jsx:521-534 | once initialised, a change is refused only for a key that is not listed |
| `Lifecycle.Visualizer.EnabledPlayIsReady` | src/App.jsx:466-480 | a click on an enabled Play button is never refused as not ready, and it always proceeds unless the context is closed |
| `Lifecycle.Visualizer.ChangePreset` | src/App.jsx:518-536 | a loaded preset becomes current and clears the message; a load error or a refusal shows its "Preset Error: " message and keeps the current key |
| `Lifecycle.Visualizer.Play` | src/App.jsx:463-480 | the decision is the Play guard's, and a refusal shows its message |
| `Lifecycle.Visualizer.Cleanup` | src/App.jsx:391-459 | acts only when initialised; it then ends with the flag clear, the frame id null and every ref null |
| `Lifecycle.AudioErrorThenUnmount` | src/App.jsx:393 | after a successful setup, an audio error and an unmount, a frame is still pending and the audio context is still open |
| `Lifecycle.CleanupAcquired` | src/App.jsx:391-459 | the intended cleanup ends with the flag clear, the frame id null and every ref null, whatever the flag was |
| `Lifecycle.AudioErrorThenUnmountAcquired` | src/App.jsx:393 | with the intended cleanup, the same sequence leaves no frame pending and no context open |

## Findings

| source | as written | input that shows it | evidently intended | confidence | as-written member | corrected member |
|---|---|---|---|---|---|---|
| src/App.jsx:393 | the effect cleanup releases resources only while `isInitializedRef` is true | a successful load, then an audio element error (or a render error), then unmount: the error clears the flag, so the cleanup does nothing | the comment at line 392 says cleanup should run once initialisation has started; the loop should stop and the context should close | medium, not executed | `Lifecycle.AudioErrorThenUnmount` | `Lifecycle.CleanupAcquired` |

`Lifecycle.Visualizer.Cleanup` models the cleanup as written.
`Lifecycle.CleanupAcquired` is the corrected cleanup, and
`Lifecycle.AudioErrorThenUnmountAcquired` shows it on the same input.

## Left out

- Floating point: the split points use the exact rationals 15/100 and 40/100
  with floor. Averages, normalisation and smoothing are over `real`. IEEE
  rounding of `dataLen*0.15`, `dataLen*0.4`, `/128` and the smoothing product is
  abstracted away.
- The GLSL shaders, the Three.js scene, camera, renderer, texture and their
  `dispose` calls, and the resize handler's camera arithmetic are foreign
  library code over floats. Each ref is modelled only as set or null.
- The Web Audio graph, butterchurn's `createVisualizer`, `connectAudio`,
  `render` and `loadPreset`, and `getPresets` are not modelled. Their effects
  are parameters: the preset keys the library returns, and the step or message
  at which a call throws.
- `uTime` comes from a clock and is left out of the uniforms.
- `requestAnimationFrame` and `cancelAnimationFrame` scheduling is not
  modelled. A frame callback runs only while a frame is pending, which is
  `RenderFrame`'s precondition.
- `Lifecycle.Visualizer.RenderFrame`: a render error is taken to be thrown by
  the library render calls after the levels are smoothed. An error thrown
  earlier, in `getByteFrequencyData`, would leave the levels unsmoothed.
- `Lifecycle.Visualizer.Initialize`: a fatal error is taken to be thrown before
  the element is created or any handler is attached.
- `Lifecycle.Visualizer.OnLoadedData`: a failure at the preset step is taken to
  be thrown by `connectAudio` or `getPresets`, after the visualizer ref is set
  and before any preset state is set. A `loadPreset` that throws after the keys
  are stored is not distinguished.
- `Lifecycle.Visualizer.Play`: only the synchronous guard is modelled. Awaiting
  `resume` and `play`, clearing the message after `play` resolves, and the
  error path of a rejected `play` are asynchronous browser mechanics. Pause is
  modelled only by its guard, `Controls.PauseGuard`. A `pause()` that throws is
  not modelled.
- `Lifecycle.Visualizer.Cleanup`: the pause, `src = ''` and `close()` calls are
  modelled only by nulling their refs. The `pause` event that follows is a
  separate `OnPlaybackEvent`.
- Controls.OptionLabel: lengths and the 37-character cut are counted in Unicode
  scalar values (Dafny characters), while JavaScript's `length` and `substring`
  count UTF-16 code units. The two agree only for keys made entirely of Basic
  Multilingual Plane characters. A key with characters outside it, such as 21
  emoji (42 code units), is truncated by the original and kept whole here, and
  the original's cut can split a surrogate pair.
- Preset lookup is modelled as membership in the listed keys. JavaScript
  property lookup on the preset object would also find inherited names such as
  `toString`, but the select only offers listed keys.
- Logging, styles, the server stub (`server.cjs`) and the React root
  (`src/main.jsx`) are not part of this model. React's rendering, effect
  scheduling and StrictMode double invocation are not modelled either.
