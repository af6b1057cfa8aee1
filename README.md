# Light beams background: a Dafny model

The site's `script.js` draws an animated "light beams" background on a
full-window canvas. About thirty translucent, tilted, gradient-filled beams
drift upwards. Each breathes through a sine-driven pulse, and each is recycled
below the bottom edge once it has left the top. This project models that
animation and proves what it promises:

- the ranges of a freshly created beam;
- where a recycled beam goes and what it keeps;
- that one frame advances every beam independently and in place;
- that the pulse only grows;
- that a resize rebuilds exactly thirty beams;
- the bounds and the symmetry of the alpha values fed to the gradient.

Modules, one per concern of the animation:

- `Beams` (`beams.dfy`): the beam record, `createBeam` as `CreateBeam`, `resetBeam` as `Reset`, and one
  beam's share of a frame as `Advance`.
- `Render` (`render.dfy`): the intensity levels, the pulsing opacity, the six gradient stops,
  and what `drawBeam` hands to the canvas (`DrawBeam`).
- `Animation` (`animation.dfy`): the `forEach` loop of `animate` as a function on the beam
  sequence that writes back each beam before visiting the next (`TickFrom`,
  `Ticked`), and runs of many frames (`Run`) with their invariants.
- `Field` (`field.dfy`): the page-level state as a class `BeamField`. It holds the canvas size in
  device pixels and the `beams` array. `Resize` is `updateCanvasSize`: it
  allocates a fresh array. `Tick` is the beam loop of `animate`: it updates
  the array element by element, in place.

Modelling choices:

- Numbers are `real`.
- Every `Math.random()` draw is an input in [0, 1). `CreateDraws` holds the
  nine draws of `createBeam`, `ResetDraws` the four of `resetBeam`.
- `Math.sin` is a function parameter whose values lie in [-1, 1].
- The window's inner size and `devicePixelRatio` are inputs.
- `canvas.width` and `canvas.height` are unsigned integers, so assigning
  `innerWidth * dpr` truncates. `CanvasSize` makes that truncation explicit.
- `createBeam` receives the canvas size in device pixels (line 130).
  `resetBeam` receives it divided by the current `devicePixelRatio` (line 146).
  The model keeps both, as written: `Resize` passes `canvasWidth` and
  `canvasHeight`, and `Tick` passes the sizes of `CssFrame`.
- The source passes `index` and `beams.length` to `resetBeam`. The hue bound
  `190 <= hue < 260` holds because `index < totalBeams`. `Reset` states that
  bound only under that condition, and `Advance` relies on it through the
  `Plausible` invariant.
- A `Plausible` beam has width, angle, speed, opacity, hue and pulseSpeed
  inside the union of the creation and recycle ranges, and a non-negative
  pulse and length; x and y are unconstrained. `CreateBeam` establishes it
  for a non-negative height; `Reset` and `Advance`, and so every frame, keep it
  for a beam whose index is below the field's length.
- `BeamField.Valid` adds two facts: the array holds 0 beams (before the first
  resize) or 30, and every beam is 2.5 canvas heights long.

## Model

| member | source | states |
|---|---|---|
| `Beams.CreateBeam` | script.js:74-88 | with all draws in [0,1): width in [30,90), angle in [-35,-25), speed in [0.6,1.8), opacity in [0.12,0.28), hue in [190,260), pulse in [0,2π), pulseSpeed in [0.02,0.05), length = 2.5 × height; x within a quarter of the width outside either edge, and y likewise; the beam is `Plausible` |
| `Beams.Scatter` | script.js:77-78 | a start coordinate `random * k * 1.5 - k * 0.25` lies in [-k/4, 5k/4) for k > 0 |
| `Beams.Column` | script.js:91 | the column is one of 0, 1, 2, and is the index's residue modulo 3 |
| `Beams.ColumnX` | script.js:92-95 | a recycled x lies in the middle half [c·s + s/4, c·s + 3s/4) of column c, with s = width/3, hence strictly inside that third of the width |
| `Beams.Jitter` | script.js:95 | the jitter `(random - 0.5) * s * 0.5` is within ±s/4 |
| `Beams.IndexHue` | script.js:98 | the recycle hue `190 + index*70/totalBeams` is at least 190, and below 260 whenever index < totalBeams |
| `Beams.HueIncreasing` | script.js:98 | a higher index gets a strictly higher hue: a gradient of hues across the field |
| `Beams.Reset` | script.js:90-101 | y = height + 100; x in the middle half of column `index % 3`; width in [100,200), speed in [0.5,0.9), opacity in [0.2,0.3); hue fixed by the index; angle, length, pulse and pulseSpeed unchanged; a plausible beam at an index below totalBeams stays plausible |
| `Beams.OffScreen` | script.js:145 | the recycle test `y + length < -100`; when it holds for a beam of non-negative length, both of the beam's ends are more than 100 above the top |
| `Beams.Advance` | script.js:142-147 | pulse grows by exactly pulseSpeed; angle, length and pulseSpeed are kept. If `y - speed + length < -100`, the beam is recycled in the same frame, with y = height + 100 and the rest of the recycle policy. Otherwise it only moves up by speed, and x, width, speed, opacity and hue are unchanged. A plausible beam stays plausible and its pulse strictly increases |
| `Render.OpacityFactor` | script.js:66-72 | every intensity level's factor is in [0.7, 1], and it is 1 exactly for `strong` |
| `Render.PulsingOpacity` | script.js:108 | with sin in [-1,1] and non-negative opacity and factor, the pulsing opacity lies in [0.6·opacity·factor, opacity·factor], with the upper end at sin = 1 and the lower end at sin = -1 |
| `Render.GradientStops` | script.js:111-116 | the gradient has exactly six colour stops; what they hold is stated by `GradientProfile` |
| `Render.GradientProfile` | script.js:111-116 | the six stops have increasing offsets from 0 to 1; they are symmetric about the middle in offset and in alpha; they share one hue at 85 % saturation and 65 % lightness; the alpha is 0 at both ends, p/2 at 0.1 and p at 0.4 and 0.6, and it lies in [0, p] |
| `Render.DrawBeam` | script.js:103-121 | the drawing is anchored at the beam's (x, y) and rotated by the angle in radians; the rectangle is centred on the beam's axis, as wide as the beam and as long as its gradient; every stop has the beam's hue and an alpha in [0, opacity·factor] |
| `Animation.TickFrom` | script.js:141-150 | the `forEach` from index k, writing each advanced beam back before the next visit, keeps the array's length |
| `Animation.Ticked` | script.js:140-150 | one frame of the whole field keeps the number of beams |
| `Animation.TickFromAt` | script.js:140-150 | the in-place `forEach` from index k leaves the beams before k alone; every later beam i becomes `Advance` of its own old value, its index and the array length, whatever the earlier visits wrote |
| `Animation.TickedAt` | script.js:140-150 | after a frame, beam i is beam i advanced, with index i and the array's length |
| `Animation.TickedLocal` | script.js:140-150 | two fields that agree on beam i and have the same length agree on beam i after a frame: no beam is touched on behalf of another |
| `Animation.TickedFields` | script.js:142-143 | a frame keeps each beam's angle, length and pulseSpeed, and adds pulseSpeed to its pulse |
| `Animation.TickedPlausible` | script.js:140-148 | a frame keeps every beam plausible |
| `Animation.Run` | script.js:133-152 | successive `animate` frames with no resize between keep the number of beams |
| `Animation.Grown` | script.js:143 | adding the pulse speed once per frame for n frames gives exactly the old pulse plus n·pulseSpeed |
| `Animation.GrownMonotone` | script.js:143 | with a non-negative pulse speed, more frames of growth never give a smaller pulse |
| `Animation.RunPulse` | script.js:142-143 | after n frames, each beam has its old angle, length and pulseSpeed, and its pulse has grown by one pulseSpeed per frame (so it is the old pulse plus n·pulseSpeed) |
| `Animation.RunPlausible` | script.js:140-148 | any run of frames keeps every beam plausible |
| `Animation.PulseNonDecreasing` | script.js:143 | a beam's pulse after j frames of a run is at most its pulse after m ≥ j frames |
| `Field.DeviceRatio` | script.js:124 | the ratio with its fallback is positive, equals the ratio whenever the ratio is set, and is exactly 1 when the ratio is missing (zero) |
| `Field.CanvasSize` | script.js:125-126 | the canvas dimension is the window dimension times the ratio, truncated to an integer |
| `Field.MoveBeam` | script.js:142-147 | the callback's `y -= speed`, `pulse += pulseSpeed` and recycle test compute `Advance` of the beam |
| `Field.BeamField.constructor` | script.js:50-64 | a new field has a 300 × 150 canvas and no beams |
| `Field.BeamField.CssFrame` | script.js:146 | the size passed to `resetBeam` times the current ratio is the canvas size |
| `Field.BeamField.Resize` | script.js:123-131 | the canvas is sized as `CanvasSize` says; the array is replaced by a fresh one of exactly `MINIMUM_BEAMS * 1.5` = 30 beams, whatever it held; beam k is `CreateBeam` of the canvas size and the k-th draws; the field is valid |
| `Field.BeamField.Tick` | script.js:133-150 | the array becomes `Ticked` of its old contents for the frame's draws and CSS size, and the field stays valid. What is drawn for beam k is `DrawBeam` of beam k as it stands after its own update |

## Left out

- Navbar shadow, smooth anchor scrolling and the scroll-reveal observer (script.js:4-47): page event wiring outside the animation.
- Creating and styling the canvas element, and `getContext` (script.js:50-63): host UI setup. The constructor keeps only the canvas's initial 300 × 150 size and the empty beam list.
- The canvas calls (`save`, `translate`, `rotate`, `createLinearGradient`, `addColorStop`, `fillRect`, `restore`, `clearRect`, `ctx.scale`): foreign drawing APIs. Only the values handed to them are modelled, as `Drawing` and `ColorStop`; the `hsla(...)` string formatting is not.
- `requestAnimationFrame` and the `resize` listener (script.js:152-157): the host's event loop. The caller invokes `Tick` once per frame and `Resize` on a viewport change, and `Run` composes frames.
- `Math.random`, `Math.sin`, `window.innerWidth`, `window.innerHeight` and `window.devicePixelRatio`: random draws are inputs in [0, 1), `sin` is a parameter bounded in [-1, 1], and the window's size and ratio are inputs.
- A `devicePixelRatio` that is not a number: only 0 stands for a missing value, which line 124 replaces by 1. `Tick` requires a positive ratio, because line 146 divides by it without that fallback.
- IEEE double rounding: arithmetic is over the reals, and `Math.PI` is the decimal JavaScript prints for it (3.141592653589793), taken as an exact real rather than as the double it denotes.
- Oversized canvas dimensions: on assignment a width or height is truncated and wrapped modulo 2^32, then replaced with the default 300 or 150 if it is above 2147483647; the model's sizes are unbounded naturals.
- `Tick`: the draws of a beam that is not recycled in that frame are supplied but unused; the model does not say how many `Math.random()` calls the frame makes.
