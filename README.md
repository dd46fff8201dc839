# Box drawing over a paused video frame

This project models the interaction core of `src/index.js`: the user drags a
rectangle over the video with a mouse or a finger, and on release the
rectangle seeds an object tracker. Two parts are modelled.

- **Box normalisation** (`BoxGeometry`, geometry.dfy). `normalizeBoxSize`
  turns a box `[x, y, width, height]` with signed width and height, as
  produced by dragging in any direction, into a canonical box with
  non-negative size over the same rectangle. An absent box becomes
  `[0, 0, 0, 0]`. Coordinates are integers, so `Math.round` is the identity
  and is not written out.
- **The drawing state machine** (`Drawing`, drawing.dfy). The component
  state is the `drawing` flag and the optional raw `box`. The canvas is
  `[0, W] x [0, H]`. Each handler is specified by a pure transition
  function: `StartState` for `handleMouseDown`, `MoveState` for
  `handleMouseMove` and `Finish` for `handleMouseUp`. The class
  `Drawing.Controller` holds the state in fields. Its methods `Start`,
  `Move` and `End` update those fields as the handlers do, and are proved
  to perform exactly those transitions. `Drag` replays a sequence of
  moves. `Gesture` is a whole start–moves–end interaction. The lemmas
  about these two functions state what holds across any number of moves.

Pointer positions enter the model already translated into canvas-local
integer coordinates. The tracker's initialisation is modelled as the box
that `End` returns, which `objectTracker.init` receives.

## Model

| member | source | states |
|---|---|---|
| `BoxGeometry.Abs` | src/index.js:17-18 | `Math.abs` on integers: the result is non-negative and is `n` or `-n` |
| `BoxGeometry.Normalize` | src/index.js:9-20 | an absent box gives `(0,0,0,0)`; otherwise the result is canonical (width, height ≥ 0), its width and height are the absolute values of `w` and `h`, and on each axis it spans from `min(x, x+w)` to `max(x, x+w)`, the same rectangle as the raw box |
| `BoxGeometry.CanonicalByExtent` | src/index.js:14-19 | two canonical boxes over the same rectangle are equal, so the canonical form is unique |
| `BoxGeometry.NormalizeFixesExactlyCanonical` | src/index.js:13-19 | normalisation leaves a box unchanged if and only if its width and height are non-negative |
| `BoxGeometry.NormalizeIdempotent` | src/index.js:9-20 | `normalize(normalize(b)) == normalize(b)` for every box, absent or present |
| `BoxGeometry.NormalizeDirectionIndependent` | src/index.js:14-19 | `normalize(x, y, w, h) == normalize(x+w, y+h, -w, -h)`: dragging the opposite way gives the same box |
| `BoxGeometry.NormalizeInCanvas` | src/index.js:14-19 | a raw box with both corners in the canvas normalises to a box inside the canvas |
| `Drawing.Clamp` | src/index.js:77-84 | the clamped value lies in `[0, hi]`; it is the input when the input is in range, `0` below it and `hi` above it |
| `Drawing.StartState` | src/index.js:41-61 | gesture start, from any state: drawing is on, and the box is a point at the clamped pointer, so it lies in the canvas and equals `(px, py, 0, 0)` when the pointer is inside the canvas |
| `Drawing.MoveState` | src/index.js:64-89 | a move while not drawing changes nothing; while drawing it keeps the anchor, puts the tip `(x+w, y+h)` at the clamped pointer, and keeps both corners in the canvas |
| `Drawing.Finish` | src/index.js:110-124 | gesture end: drawing is off and the box is cleared; the tracker's seed is canonical, is `(0,0,0,0)` without a box, spans the raw box's rectangle, and lies in the canvas when the state invariant held |
| `Drawing.DragWhileIdle` | src/index.js:66-68 | any number of moves while not drawing leave the state unchanged |
| `Drawing.DragKeepsAnchor` | src/index.js:86 | the anchor `(x, y)` is the same after any number of moves in one gesture |
| `Drawing.DragTipAtLastPointer` | src/index.js:77-86 | after one or more moves, `x + w` and `y + h` equal the last pointer position clamped into the canvas |
| `Drawing.DragKeepsInv` | src/index.js:76-86 | any sequence of moves keeps both corners of the box inside the canvas |
| `Drawing.GestureSeedInCanvas` | src/index.js:110-121 | every gesture ends idle and seeds the tracker with a canonical box inside the canvas |
| `Drawing.GestureSeedSpansEnds` | src/index.js:113-121 | the seed is the normalised box between the clamped start position and the clamped last position; earlier moves do not matter |
| `Drawing.GestureDirectionIndependent` | src/index.js:41-121 | dragging from `p` to `q` seeds the tracker with the same box as dragging from `q` to `p` |
| `Drawing.ForwardDragScenario` | src/index.js:41-121 | on a 1280×720 canvas, start at (100,100) gives `(100,100,0,0)`, a move to (300,400) gives `(100,100,200,300)`, and the seed is `(100,100,200,300)` |
| `Drawing.BackwardDragScenario` | src/index.js:41-121 | start at (300,400) and a move to (100,100) give `(300,400,-200,-300)`, and the seed is again `(100,100,200,300)` |
| `Drawing.Controller.constructor` | src/index.js:39-40 | initially not drawing and no box |
| `Drawing.Controller.Start` | src/index.js:41-62 | the fields become `StartState` of the pointer, and the invariant holds afterwards |
| `Drawing.Controller.Move` | src/index.js:64-89 | the fields become `MoveState` of the old state and the pointer; the invariant is preserved |
| `Drawing.Controller.End` | src/index.js:110-127 | the fields become `Finish`'s idle state; the returned tracker seed is `Finish`'s seed and lies in the canvas when the invariant held |

## Left out

- The tracking loop `trackAndRender` (src/index.js:99-108) is not modelled. It is an asynchronous, self-rescheduling `requestAnimationFrame` loop that calls an external tracking library and has no stop condition. Only its seed, the box `End` returns, is modelled.
- `renderBox` (src/index.js:91-97) is not modelled: it only clears the canvas and strokes a rectangle.
- Event listener registration and removal, the JSX tree and `ReactDOM.render` (src/index.js:26-37, 134-175) are host plumbing and are not modelled.
- `handleVideoLoad` (src/index.js:129-132) is not modelled. The canvas size `W`, `H` is fixed when a `Controller` is constructed.
- The subtraction of `getBoundingClientRect()` offsets and the choice between mouse event and first touch point (src/index.js:43-54, 69-76) are not modelled. Positions arrive as canvas-local integers. The quirk that a mouse event with a zero `clientX` or `clientY` is read as a touch event is not captured.
- Fractional coordinates and `Math.round` on non-integers are not modelled. The model uses integers only.
- Drawing.Controller.End: does not model the delay before the seek completes. The source clears `drawing` at once. It normalises the box, clears it, and initialises the tracker later, in the video's `onseeked` callback; it also sets `currentTime = 0` and calls `play()`. The model performs these in one step. As a result, one interleaving of the source is not captured: a new gesture start before the seek completes, after which the callback clears the box while `drawing` is on.
- Drawing.Controller.Move: requires a box while drawing. In the source a move in that state would throw when destructuring the absent box. With `End` taken as one step, that state cannot arise.
- React's stale-closure behaviour (handlers capturing `drawing` and `box` from the last render) is not modelled. Each handler sees the current state.
