# Particle background and navigation sidebar, in Dafny

This project models the two browser scripts of a static personal site.

- **particles.js** draws an ambient field of faint, slowly drifting dots on a canvas.
  The model covers these rules:
  - the particle count scales with viewport area, floored at half the 1920×1080 area, and is clamped to [18, 160];
  - both viewport dimensions are floored at 300;
  - a resize re-seeds the whole field;
  - every new particle's radius, opacity, position and seed fall in fixed ranges;
  - each frame caps its elapsed time at 60 ms, nudges velocities by a slow oscillation, moves the dots and wraps them inside a band 30 units around the viewport;
  - a run/pause machine (`start`, `stop`, the visibility listener, the exported `restart`) keeps at most one animation frame pending.
- **sidebar.js** drives an off-canvas navigation sidebar:
  - the toggle, close button, overlay, Escape key and narrow-screen link clicks open and close it;
  - open and close set four flags together: the `open` class, the overlay's `visible` class, `aria-expanded` and the body's `overflow`;
  - a throttle gates the scroll and resize handlers;
  - the link targeting the last section scrolled past is marked `active`.

Files:
- `wrappers.dfy`: the `Option` datatype and `Min`, `Max` and `Abs`.
- `particles.dfy`: module `Particles`, which holds:
  - pure rules for sizing, seeding and stepping;
  - a `LoopState` datatype with one transition function for each operation of the run/pause machine;
  - class `Field`, the script's module-level state (`w`, `h`, `particles`, `animId`, `paused`, `last`).
- `sidebar.dfy`: module `Sidebar`, which holds:
  - pure rules for the open/closed flags, link targets and sections;
  - the active-section loop;
  - class `Throttle`, the closure holding `last`;
  - class `Navigation`, the page state.

Each class method is proved against a pure function of the old state, for example `Loop() == StartLoop(old(Loop()), clock)` and `State() == Toggle(old(State()))`. The lemmas about those functions carry the properties.

Host services are parameters:
- `Math.random` is a stream `random: nat -> real` of values in [0, 1). Particle i consumes values 7i to 7i+6, in the order the script draws them: r, x, y, vx, vy, alpha, seed.
- `Math.sin` and `Math.cos` are functions `real -> real`. They are bounded in [-1, 1] only where a lemma needs it.
- `Math.sqrt(w*w + h*h)` is `hypot(w, h)`.
- The CSS variable `--particles-scale` is its `parseFloat` result: `None` stands for NaN.
- `performance.now()`, the frame time stamp and `Date.now()` are arguments.
- `requestAnimationFrame` and `cancelAnimationFrame` act on two fields of `Field`: the ghost set `scheduled` of pending callbacks and the counter `nextHandle`.
- `scrollY`, `innerHeight` and `innerWidth` are numbers. An element's `offsetTop` is a function of its id. The document's element ids are a set.

Modelling decisions about the script's behaviour at its edges:
- the count clamp holds for every width, height and scale, not only for dimensions of at least 300;
- radius and opacity lie in half-open ranges [min, max), because `Math.random` is below 1;
- without a canvas the script returns at once: it registers no listeners and exports nothing (`Boot` returns `null`), instead of building an inert object;
- the elapsed time `dt` is only capped from above. A frame time stamp earlier than the `performance.now()` read in `start` gives a slightly negative `dt`, and the model allows it.

## Model

| member | source | states |
|---|---|---|
| Particles.ComputeCount | particles.js:42-49 | the count is in [18, 160] for every width, height and scale; it equals the rounded, area-floored raw count when that is in range, and the nearer bound otherwise |
| Particles.Round | particles.js:47 | `Math.round` gives the integer within half a unit of x, with halves rounded up |
| Particles.ScaleFactor | particles.js:46 | a falsy parse result (NaN or 0) falls back to 1, so the scale is never 0; a parsed non-zero value is used as is |
| Particles.ReferenceViewportCount | particles.js:42-48 | 1920×1080 with scale 1 (or no CSS value) gives exactly 60 particles |
| Particles.SmallViewportCount | particles.js:43-47 | at most half the reference area, the raw count is round(30·scale) whatever the area; with scale 1 the count is 30 |
| Particles.CountMonotone | particles.js:43-48 | with a positive scale, a viewport of larger area never gets fewer particles |
| Particles.ViewportExtent | particles.js:30-31 | a dimension is at least 300; it is either 300 or the client size, falling back to the window size when the client size is 0 |
| Particles.Rand | particles.js:51-53 | with a random value in [0, 1), rand(min, max) lies in [min, max) |
| Particles.SpeedFactor | particles.js:63 | the speed factor is the viewport diagonal over 2000 (diagonal/1200 times baseSpeed/10), never negative |
| Particles.Spawn | particles.js:58-70 | a new particle has r in [0.8, 2.6), alpha in [0.035, 0.12), x in [-20, w+20), y in [-20, h+20) and seed in [0, 1000); each velocity component is at most 0.25·speedFactor in size |
| Particles.Seeded | particles.js:55-72 | initParticles builds exactly `count` particles, each satisfying the ranges above |
| Particles.SeededFieldOk | particles.js:55-72 | a freshly seeded field satisfies the field invariant: all particles in the wrap band, radius and opacity in range |
| Particles.FrameDt | particles.js:78 | dt never exceeds 0.06 s however long the gap; below 60 ms it is the gap in seconds, above it exactly 0.06 |
| Particles.Wrap | particles.js:96-100 | a coordinate ends in [-30, extent+30]; inside the band it is unchanged, below it re-enters at extent+30, above it at -30 |
| Particles.Step | particles.js:86-101 | after one running frame a particle is inside the wrap band and keeps its radius, opacity and seed |
| Particles.Advance | particles.js:86-101 | the frame loop's in-place updates of vx, vy, x, y and the four wrap tests compute exactly `Step` |
| Particles.StepInPlace | particles.js:86-107 | the frame loop over the particle array replaces every element, in place, by its `Step` |
| Particles.StepAll | particles.js:86-107 | a frame keeps the particle count; every particle ends in the band with its r, alpha and seed unchanged |
| Particles.StepAllFieldOk | particles.js:86-101 | a frame preserves the field invariant |
| Particles.DriftPerFrame | particles.js:88-90 | with sine and cosine in [-1, 1], one frame changes each velocity component by at most 0.005 |
| Particles.VelocityDriftBound | particles.js:86-94 | after n frames each velocity component has moved by at most n·0.005 (velocity is never damped), and r, alpha and seed are unchanged |
| Particles.VelocityDriftTight | particles.js:86-90 | the drift bound is reached: with sine and cosine constantly 1, n frames add exactly n·0.005 to each velocity component, so velocity is unbounded |
| Particles.AtMostOnePending | particles.js:113-125 | under the loop invariant, at most one frame callback is pending |
| Particles.StartLoop | particles.js:113-118 | start runs the loop with the next handle as animId and `last` at the clock; under the loop invariant exactly that frame is pending afterwards |
| Particles.StopLoop | particles.js:121-125 | stop pauses, clears animId and keeps `last`; under the loop invariant nothing is pending afterwards |
| Particles.FrameLoop | particles.js:76-110 | a paused frame changes nothing; a running one sets `last` to now and requests the next handle, which becomes animId |
| Particles.FireLoop | particles.js:109 | firing the pending frame named by animId leaves exactly its successor pending and keeps the loop invariant |
| Particles.VisibilityLoop | particles.js:128-131 | hidden stops the loop, visible starts it with `last` at the clock; the loop invariant is kept either way |
| Particles.StartSchedulesOne | particles.js:113-118 | start cancels the old frame before requesting one: exactly the new frame is pending, the loop runs and `last` is the clock |
| Particles.StopClears | particles.js:121-125 | stop leaves `paused` true, `animId` null and nothing pending |
| Particles.StopIdempotent | particles.js:121-125 | stopping twice gives the same state as stopping once |
| Particles.StartTwice | particles.js:113-118 | two starts in a row leave exactly one pending frame, the second one |
| Particles.FireSchedulesOne | particles.js:76-110 | running the pending frame schedules exactly one successor and sets `last` to its time stamp |
| Particles.PausedFrameInert | particles.js:77 | a frame that finds the loop paused changes nothing, leaves `last` alone and schedules nothing |
| Particles.VisibilityFlicker | particles.js:128-131 | hidden, visible, hidden in quick succession ends stopped, with no handle and nothing pending |
| Particles.ApplyKeepsOnePending | particles.js:109-131 | every start, stop, frame or visibility change preserves the loop invariant |
| Particles.RunKeepsOnePending | particles.js:109-131 | after any sequence of those events at most one frame is pending |
| Particles.StoppedStaysStopped | particles.js:121-131 | after stop, no frame runs and nothing changes until something starts the loop again |
| Particles.Field.constructor | particles.js:141-142 | start-up: the field is resized and seeded into a newly allocated particle array, and the loop is running with exactly the frame in animId pending |
| Particles.Field.RequestFrame | particles.js:117 | requestAnimationFrame returns a fresh handle, which is now pending |
| Particles.Field.CancelFrame | particles.js:114 | cancelAnimationFrame removes the handle from the pending callbacks |
| Particles.Field.Resize | particles.js:29-39 | w and h are floored at 300; a fresh particle array (no old particle survives) of length computeCount(w, h) replaces the old one; the loop state is unchanged |
| Particles.Field.InitParticles | particles.js:55-72 | a fresh array of computeCount() particles built from the draws replaces the old array |
| Particles.Field.Frame | particles.js:76-110 | paused: nothing changes; running: `last` is `now`, every particle is stepped in place with the capped dt, and one new frame is requested; the field invariant is kept |
| Particles.Field.Fire | particles.js:109 | the host runs the pending callback: it leaves the queue and a running frame follows |
| Particles.Field.Start | particles.js:113-118 | the new loop state is `StartLoop` of the old one; particles untouched |
| Particles.Field.Stop | particles.js:121-125 | the new loop state is `StopLoop` of the old one; particles untouched |
| Particles.Field.OnVisibilityChange | particles.js:128-131 | hidden calls stop, any other change calls start |
| Particles.Field.Restart | particles.js:146 | re-seeds at the current size, then starts |
| Particles.Boot | particles.js:6-8 | without a canvas the script does nothing; with one, it ends with a new field whose dimensions are the floored viewport, whose new particle array is the seeded start-up array of computeCount particles, with `last` at the start clock, running with exactly the frame in animId pending |
| Sidebar.Open | sidebar.js:13-21 | opening adds `open` and `visible`, sets aria-expanded "true" and overflow "hidden", and no other class changes |
| Sidebar.Close | sidebar.js:22-28 | closing removes `open` and `visible`, sets aria-expanded "false" and overflow "", and no other class changes |
| Sidebar.Toggle | sidebar.js:30-33 | the toggle click flips the open state, leaves the flags coherent and changes no other class |
| Sidebar.Escape | sidebar.js:39-43 | Escape while open closes coherently; any other key, or Escape while closed, leaves the flags unchanged |
| Sidebar.NavClick | sidebar.js:55-56 | below 900 px the flags end closed and coherent with no other class changed; otherwise they are unchanged |
| Sidebar.ToggleFlips | sidebar.js:30-33 | a toggle always flips the open state and leaves the four flags coherent |
| Sidebar.ToggleTwice | sidebar.js:30-33 | from a coherent state, two toggles restore exactly the original state |
| Sidebar.CloseIdempotent | sidebar.js:22-28 | closing twice gives the same state as closing once |
| Sidebar.EscapeCloses | sidebar.js:39-43 | Escape while open closes; any other key, or Escape while closed, changes nothing |
| Sidebar.EscapeOnCoherent | sidebar.js:39-43 | on a coherent state, Escape is the same as close |
| Sidebar.NavClickNarrow | sidebar.js:55-56 | below 900 px a nav click leaves the sidebar closed and coherent; otherwise the flags are untouched |
| Sidebar.TargetId | sidebar.js:50 | the target id is the href minus its first character (empty for an empty href) |
| Sidebar.FragmentTarget | sidebar.js:50 | the link `#id` targets `id` |
| Sidebar.Sections | sidebar.js:61-63 | every entry is the target of some link and an existing id, and every existing target of a link is among them |
| Sidebar.SectionsAppend | sidebar.js:61-63 | sections keeps link order: one more link appends its target, if it exists, after all earlier ones |
| Sidebar.CurrentSection | sidebar.js:79-82 | currentId is the id of the last section, in list order, with offsetTop ≤ scrollPos, or null when none qualifies |
| Sidebar.SpacedPairwise | sidebar.js:66-75 | with a non-negative wait, any two forwarded calls are at least `wait` apart |
| Sidebar.Throttle.constructor | sidebar.js:66-67 | a throttle starts with `last` = 0 and nothing forwarded |
| Sidebar.Throttle.Call | sidebar.js:68-74 | a call is forwarded exactly when now − last ≥ wait, and only forwarded calls move `last`; the log stays spaced |
| Sidebar.Navigation.constructor | sidebar.js:3-94 | start-up: the overlay has only its own class, the page ids are recorded and sections collected from them, two new throttles start with `last` = 0 and nothing forwarded, and the first highlight is applied |
| Sidebar.Navigation.OpenSidebar | sidebar.js:13-21 | the four flags become `Open` of the old ones |
| Sidebar.Navigation.CloseSidebar | sidebar.js:22-28 | the four flags become `Close` of the old ones (also the close button and overlay handlers) |
| Sidebar.Navigation.OnToggleClick | sidebar.js:30-33 | the flags become `Toggle` of the old ones |
| Sidebar.Navigation.OnKeydown | sidebar.js:39-43 | the flags become `Escape` of the old ones and the key |
| Sidebar.Navigation.OnNavClick | sidebar.js:47-57 | returns the href minus its first character and whether that element exists; closes below 900 px |
| Sidebar.Highlight | sidebar.js:83-87 | after the link loop a link has `active` exactly when its target equals currentId (never when currentId is null); hrefs, order, count and all other classes are unchanged |
| Sidebar.Navigation.OnScroll | sidebar.js:77-88 | currentId is chosen as above; a link has `active` exactly when it targets currentId (none when null); hrefs and other classes are unchanged |
| Sidebar.Navigation.OnScrollEvent | sidebar.js:90 | onScroll runs only when the 120 ms throttle lets the call through, and then the gate records `now`; otherwise links and the gate are unchanged |
| Sidebar.Navigation.ScrollBurst | sidebar.js:68-74 | of two scroll events less than 120 ms apart, at most the first runs onScroll |
| Sidebar.Navigation.OnResizeEvent | sidebar.js:91 | onScroll runs only when the separate 200 ms throttle lets the call through, and then that gate records `now`; otherwise links and the gate are unchanged |

## Left out

- Canvas drawing is not modelled. That covers `getContext`, the canvas size and style, `setTransform`, `clearRect`, `beginPath`, `arc`, `fill`, the `fillStyle` string built with `toFixed`, and `devicePixelRatio`. These are rendering side effects with no state the script reads back.
- Floating point is not modelled: numbers are exact reals. The model makes no IEEE rounding claims, and `Math.round` is floor(x + 0.5). NaN and Infinity are not represented. A CSS scale of `Infinity` (count 160) or `-Infinity` (count 18) lies outside the model.
- `Math.sin`, `Math.cos`, `Math.sqrt` and `Math.random` are parameters. No property of the real functions is used beyond the bound on sine and cosine and the [0, 1) range of the random draws.
- The resize debounce (`setTimeout`/`clearTimeout`, particles.js:133-138) is not modelled. `Field.Resize` is the callback that fires once the timer expires.
- The `window.__particles` object is not modelled. Its three entries are `Field.Restart`, `Field.Stop` and `Field.Start`.
- Particle records are values stored in the `particles` array. The frame loop writes each updated record back in place. Nothing else in the script holds a reference to a particle, so no aliasing is lost.
- `focus()` (sidebar.js:17-19, 27), `preventDefault`, `scrollIntoView` and listener registration are browser side effects and are not modelled. A nav click reports only whether a scroll target exists.
- Sections are modelled by their ids. `getElementById` returns the element with that id, and its `offsetTop` is read through the `offsetTop` parameter.
- A navigation link without an `href` attribute makes the script throw; the model gives every link an href string.
- Missing sidebar elements are not modelled. sidebar.js does not check its element lookups: without `#sidebarToggle` it throws at sidebar.js:30, before any handler, nav-link listener or scroll highlight is installed; without `#sidebarClose` it throws at sidebar.js:35; without `#sidebar` every toggle and Escape press throws (sidebar.js:31, 40). `Navigation` assumes all three elements exist.
- `slice(1)` (sidebar.js:50, 62, 84) drops one UTF-16 code unit, while `TargetId` drops one character of the `string`. The two differ for an href that starts with a character outside the Basic Multilingual Plane; UTF-16 encoding is not modelled.
- Sidebar.Throttle.Call: it reports whether `fn` ran but does not model the value `fn` returns through the wrapper, because both callers ignore it.
