# Dev-tools detection and particle count of `script.js`

`script.js` enhances a web page: it draws a particle background on a canvas,
fetches a visitor counter, animates the page, and runs heuristics meant to
notice when a visitor opens the browser's developer tools. Every heuristic
reports to one handler, `handleDetection(reason)`.

This project models the parts of the script that make decisions or count:

- the **contextmenu listener**: every right-click is suppressed and reported;
- the **keydown listener**: it picks the platform's primary modifier (Meta
  when `navigator.platform` contains `Mac`, `iPhone`, `iPad` or `iPod`,
  Control otherwise) and then tries F12, Ctrl/Cmd+Shift+I/J, Ctrl/Cmd+U and
  Ctrl/Cmd+Shift+C in that order. The first match is suppressed and reported;
  nothing else happens;
- the **window-size poll**: it reports when `outer − inner` exceeds a
  threshold on either axis, with falsy sizes read as 0;
- the **particle initialisation**: `init()` refills the particle array with
  `ceil(width × height / density)` particles, and the resize listener
  re-runs it.

Files:

- `wrappers.dfy`: `Option`, for JavaScript values that may be `undefined`.
- `config.dfy`: the `CONFIG` constants the model reads.
- `text.dfy`: substring search (the platform regex) and ASCII `toLowerCase`.
- `detection.dfy`: the reason tags, a listener's response, and
  `handleDetection` as a log of reason strings.
- `input_listeners.dfy`: the contextmenu and keydown listeners.
- `size_poll.dfy`: the window-size poll.
- `particles.dfy`: the particle count, `init()`, `setupCanvas()` and the
  resize listener.

A response is `Response(reason: Option<Reason>, preventDefault: bool)`. So each
event yields at most one reason by construction. `Response.WellFormed` states
that `preventDefault` is called exactly when a reason is reported.

Three facts about `script.js` shape the model:

- F12 is reported whatever modifiers are held: the test at script.js:244 reads no modifier.
- Each reason is the literal string the listener passes to `handleDetection` (script.js:234, 246, 253, 260, 267, 281).
- `CONFIG.SIZE_THRESHOLD` is undefined (script.js:2-11), so the shipped poll at script.js:280 never fires.

## Model

| member | source | states |
|---|---|---|
| `Text.Contains` | script.js:240 | true exactly when the pattern occurs in the string at some index (a regex made of a literal) |
| `Text.ToLower` | script.js:251 | lower-casing keeps the length, leaves no capital letter behind, and changes nothing in a string without capitals |
| `Text.ToLowerIdempotent` | script.js:251 | lower-casing a lower-cased string changes nothing |
| `Text.ToLowerIsLetter` | script.js:251-265 | a string lower-cases to a one-letter string exactly when it is that letter in lower or upper case |
| `Detection.TagIsInjective` | script.js:234-281 | two reasons give the same handler string only when they are the same reason |
| `Detection.Detected` | script.js:245-246 | a detection carries its reason and is marked as suppressed |
| `Detection.DetectionLog.Handle` | script.js:234 | each handleDetection call appends exactly one reason string to what the handler has seen |
| `InputListeners.OnContextMenu` | script.js:232-235 | every right-click is suppressed and reported as the contextmenu reason |
| `InputListeners.ContextMenuListener` | script.js:232-235 | each right-click makes exactly one handleDetection call with the contextmenu string |
| `InputListeners.IsApplePlatform` | script.js:240 | the platform counts as Apple exactly when one of Mac, iPhone, iPad, iPod occurs in it |
| `InputListeners.PlatformExamples` | script.js:240-241 | MacIntel, iPhone and iPad select Meta; Win32 and an empty platform select Control |
| `InputListeners.OnKeyDown` | script.js:238-271 | a keydown yields at most one reason, and preventDefault is called exactly when one is reported |
| `InputListeners.KeyDownListener` | script.js:238-271 | handleDetection is called once with the matched combo's string, or not at all |
| `InputListeners.FirstHeld` | script.js:243-269 | returns the first held combo in the list, with none held before it; nothing exactly when no combo is held |
| `InputListeners.KeyIsLetter` | script.js:251-265 | the guarded lower-case comparison on `key` accepts exactly the letter in either case |
| `InputListeners.OnKeyDownIsFirstHeldCombo` | script.js:243-269 | the listener reports the highest-priority held combo (F12, then I/J, then U, then C) and nothing when none is held |
| `InputListeners.F12AlwaysReported` | script.js:244-248 | key F12 or keyCode 123 is always reported as F12, whatever modifiers are held |
| `InputListeners.OtherModifierIrrelevant` | script.js:240-241 | changing the modifier that is not the platform's primary one never changes the outcome |
| `InputListeners.InspectorKeysNeedShift` | script.js:251-255 | i, I, j, J are reported exactly when the primary modifier and Shift are both held |
| `InputListeners.ViewSourceKeyIgnoresShift` | script.js:258-262 | u, U are reported exactly when the primary modifier is held, Shift or not |
| `InputListeners.ElementPickerKeyNeedsShift` | script.js:265-269 | c, C are reported exactly when the primary modifier and Shift are both held |
| `InputListeners.MissingKeyIgnored` | script.js:243-269 | an undefined or empty key with keyCode other than 123 yields nothing and no preventDefault |
| `SizePoll.OnSizePoll` | script.js:274-284 | a poll yields the size-delta reason or nothing |
| `SizePoll.SizePollTick` | script.js:274-284 | a tick calls handleDetection once with the size-delta string when the poll fires, and not otherwise |
| `SizePoll.SilentIffWithinThreshold` | script.js:276-281 | with a defined threshold the poll is silent exactly when both deltas (falsy sizes as 0) are at most the threshold |
| `SizePoll.ThresholdBoundary` | script.js:280 | deltas up to and including the threshold on both axes do not fire |
| `SizePoll.OneBelowDeltaFires` | script.js:280 | a threshold one pixel below the delta on either axis fires |
| `SizePoll.LowerThresholdStillFires` | script.js:280 | lowering the threshold never silences a poll that fired |
| `SizePoll.UndefinedThresholdNeverFires` | script.js:280 | an undefined threshold never fires, whatever the window sizes |
| `SizePoll.ShippedPollNeverFires` | script.js:280 | with CONFIG as shipped the poll never fires, whatever the window sizes |
| `SizePoll.DefinedThresholdReportsDockedInspector` | script.js:276-281 | with a threshold of 160, a 200-pixel width delta fires with or without height fields, and a 160-pixel delta does not |
| `Particles.CeilDiv` | script.js:66-68 | the count covers the area, and one particle fewer would not |
| `Particles.CeilDivUnique` | script.js:66-68 | only one count has both of those properties |
| `Particles.GuardIsIntegerTest` | script.js:68 | the loop test `i < (w*h)/density` holds exactly when `i*density < w*h` |
| `Particles.NewParticles` | script.js:64-71 | the refilled array holds ceil(w*h/density) particles |
| `Particles.ParticleCountExamples` | script.js:64-71 | a 1920x1080 canvas gets 231 particles, a zero-width one none, a 1x1 one a single particle |
| `Particles.ParticleCountMonotone` | script.js:64-71 | a canvas at least as large in both dimensions never gets fewer particles |
| `Particles.ParticleField.constructor` | script.js:107-109 | the canvas takes the window's inner size and holds that size's particle count |
| `Particles.ParticleField.SetupCanvas` | script.js:27-30 | the canvas takes the window's inner size and the particles are untouched |
| `Particles.ParticleField.Init` | script.js:64-71 | the particle count becomes that of the canvas, whatever the array held before |
| `Particles.ParticleField.OnResize` | script.js:113-116 | after a resize the count is that of the new window size, so repeated resizes never accumulate particles |

## Findings

| source | as written | input that shows it | evidently intended | confidence | as-written member | corrected member |
|---|---|---|---|---|---|---|
| script.js:280 | the poll compares against `CONFIG.SIZE_THRESHOLD`, which `CONFIG` (script.js:2-11) never defines, and `x > undefined` is always false | outerWidth 1200, innerWidth 1000 (a docked 200-pixel inspector) | a numeric threshold, so that a delta above it is reported | not executed | `SizePoll.ShippedPollNeverFires` | `SizePoll.DefinedThresholdReportsDockedInspector` |

## Left out

- Particle motion, drawing and the connecting lines (script.js:33-61, 74-105): they use `Math.random`, floating-point positions, `Math.sqrt` and the canvas API. A `Particle` is an opaque value here.
- The visitor counter (script.js:120-152): a network fetch, JSON parsing and locale formatting.
- The mobile menu, smooth scrolling and card animations (script.js:155-209): DOM class and style changes and timeouts, with no logic beyond null checks.
- The getter trap (script.js:287-300): it fires only when a console evaluates the accessor, a host side channel.
- The debugger-timing probe (script.js:303-313): floating-point `performance.now()` timestamps and a `debugger` statement whose effect depends on an attached debugger.
- Registering the listeners and interval timers, and the intervals themselves. `CONFIG.POLL_INTERVAL`, `GETTER_INTERVAL` and `DEBUGGER_INTERVAL` are undefined too; that affects only the timing.
- `handleDetection` is not defined in `script.js`. It is modelled as a log that records each reason string it receives.
- The `try`/`catch` blocks: no modelled operation can throw. A `preventDefault` that throws still counts as attempted, and the reason is still reported.
- `Text.ToLower`: folds only the ASCII letters A-Z, not the full Unicode mapping of `toLowerCase`. No other character lower-cases to exactly i, j, u or c, so the listener's outcome is the same.
- `Particles.NewParticles`: uses exact arithmetic for `(w*h)/density`. JavaScript's floating-point division gives the same loop count while `w*h` stays below 2^53.
- Window sizes and thresholds are integers. A falsy size (undefined, null, NaN or 0) is `None` or `Some(0)`, and both read as 0.
