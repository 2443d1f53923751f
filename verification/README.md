# WaveBackground — a verified model of the animated page background

The `WaveBackground` component fills the viewport with a canvas. On mount it
creates thirty boxes with random size, direction, speed, opacity, spin and
palette colour. It then draws one frame and asks the browser for the next,
and keeps doing that for every frame. Each frame does four things in order:
- clears the canvas;
- strokes three sine waves;
- moves, wraps, rotates and strokes each box, in array order;
- advances a time accumulator by 0.02.

A resize listener keeps the canvas the size of the window. `hexToRgb` turns a
box's `#rrggbb` colour into the `r, g, b` text of its stroke style.

The model has three modules, one per concern of the component:

- `color.dfy` (module `Color`) models `hexToRgb` as pure functions:
  - the anchored, case-insensitive pattern `#?` followed by three pairs of hex digits;
  - `parseInt(…, 16)` of each pair;
  - the decimal interpolation of the three numbers;
  - the fallback text `35, 134, 54`.

  It proves:
  - the parser accepts exactly the strings of that pattern, stated in both directions;
  - the parser ignores letter case;
  - round trips with the `#rrggbb` writer;
  - decimal printing reads back to the same number;
  - the `r, g, b` text determines the colour.
- `boxes.dfy` (module `Boxes`) covers a box's value and one call of
  `updateBox` as a function (`Advance`), with one lemma per direction. It also
  has the object literal of the initialisation loop (`NewBox`) and the run of
  many updates (`Ticks`). Lemmas cover the creation ranges, the growth of
  rotation, and the fact that a box never leaves its lane while the viewport
  keeps its size.
- `wave_background.dfy` (module `WaveBackground`) has two layers:
  - The mounted instance is the class `Background`. Its fields are the canvas
    size, the boxes, the time accumulator, the log of drawing operations
    issued on the canvas, whether the resize listener is attached, and whether
    a frame request is pending.
  - Its methods are the mount effect (the constructor), `updateBox`,
    `drawWave`, `drawBox`, `animate` with its two loops, `handleResize`, the
    listener, and the cleanup. Each method is proved against the pure
    description beside it:
    - `Scene` is the state of the instance as a value;
    - `Frame` is one frame's update of it;
    - `FrameOps` is one frame's drawing operations;
    - `Frames` is a run of frames.

    The lemmas about these state what frames do over time.

Modelling decisions:

- Numbers are real numbers, not IEEE doubles. The proved equalities, such as
  a time of exactly 0.02·k after k frames, hold over the reals. `Math.PI` is
  the decimal 3.141592653589793.
- Canvas sizes are natural numbers, as the browser's `innerWidth`,
  `innerHeight` and the canvas size attributes are.
- `Math.random()` is not called by the model. Its values are passed in as
  draws in [0, 1):
  - nine per box for the initialisation loop, in the order the object literal
    makes them;
  - one per box per frame, which `updateBox` uses only when the box wraps
    around.
- The canvas is modelled as the list of operations issued on it:
  - the clear, with the canvas size;
  - the reset caused by each assignment of the canvas width or height, with
    the size after it (the bitmap is cleared and the 2D context restored);
  - per wave, its colour, line width, phase index, the time, its baseline
    (half the canvas height) and the x
    coordinates of its polyline;
  - per box, the translation to its centre, the rotation, the `r, g, b` text,
    the opacity and the side of the square.
- Boxes are a sequence of values that `updateBox` replaces one at a time. The
  source mutates box objects in place, but no box object is shared or
  reachable from anywhere else, so nothing aliases them.
- The first `animate` call runs inside the mount effect, so the constructor
  ends after the first frame with a frame request pending. Later frames are
  the host's callbacks (`FrameFired`).
- Unmounting: the component's cleanup only removes the resize listener. It does
  not cancel the frame requested at the end of the last `animate`, so the
  animation runs on after unmount. An effect's cleanup is meant to undo what
  the effect started, which here includes cancelling the frame requested at
  line 144 with `cancelAnimationFrame`. The model follows the code in `CleanupAsWritten`
  and records the difference under Findings. `Unmount` is the corrected
  cleanup.

## Model

| member | source | states |
|---|---|---|
| `Color.ByteValue` | src/components/WaveBackground.tsx:125 | `parseInt(pair, 16)` of two hex digits is a byte whose high and low base-16 digits are the two characters' values |
| `Color.FormatRgb` | src/components/WaveBackground.tsx:125 | the `r, g, b` text of a colour has at least 7 characters, and at most 13 (`255, 255, 255`) for a byte colour |
| `Color.ParseHexColor` | src/components/WaveBackground.tsx:123-125 | a successful parse yields three values below 256 |
| `Color.ParseSucceedsIffMatch` | src/components/WaveBackground.tsx:123 | the parse succeeds if and only if the input is an optional `#` followed by exactly six hex digits, with nothing before or after |
| `Color.HexToRgb` | src/components/WaveBackground.tsx:122-127 | whatever the input, the result is the `r, g, b` text of three byte values |
| `Color.HexToRgbOnMatch` | src/components/WaveBackground.tsx:123-125 | on a matching input the result is the three parsed values joined by `, ` |
| `Color.HexToRgbFallback` | src/components/WaveBackground.tsx:124-126 | on a non-matching input the result is `35, 134, 54` |
| `Color.DefaultRgbIsFormatted` | src/components/WaveBackground.tsx:126 | the fallback text is the decimal text of the colour (35, 134, 54) |
| `Color.WrongLengthFallsBack` | src/components/WaveBackground.tsx:123 | an input of any length other than 6 or 7 falls back |
| `Color.NonHexCharFallsBack` | src/components/WaveBackground.tsx:123 | a non-hex character anywhere except a leading `#` makes the input fall back |
| `Color.TrailingTextFallsBack` | src/components/WaveBackground.tsx:123 | a matching colour followed by any text falls back, because the pattern is anchored at its end |
| `Color.LeadingTextFallsBack` | src/components/WaveBackground.tsx:123 | any text other than a single `#` in front of a matching colour makes it fall back, because the pattern is anchored at its start |
| `Color.ParseIgnoresCase` | src/components/WaveBackground.tsx:123 | folding the input to lower case does not change the parse, per the `i` flag |
| `Color.ParseFormatHex` | src/components/WaveBackground.tsx:123-125 | writing a byte colour as `#rrggbb` and parsing it gives the colour back |
| `Color.FormatParsedHex` | src/components/WaveBackground.tsx:123-125 | a parsed colour written back is `#` plus the input's six digits in lower case, so the parse loses only case and the optional `#` |
| `Color.Decimal` | src/components/WaveBackground.tsx:125 | the interpolated text of a number is a non-empty run of digits with no leading zero except for 0 itself |
| `Color.DecimalRoundTrip` | src/components/WaveBackground.tsx:125 | reading the decimal text of n back gives n |
| `Color.FormatRgbInjective` | src/components/WaveBackground.tsx:125 | two colours with the same `r, g, b` text are the same colour |
| `Color.HexToRgbExamples` | src/components/WaveBackground.tsx:122-127 | `#238636` gives `35, 134, 54`, and a non-colour gives the fallback |
| `Boxes.Advance` | src/components/WaveBackground.tsx:76-110 | one update changes only x, y and rotation, and rotation grows by exactly the rotation speed |
| `Boxes.AdvanceUp` | src/components/WaveBackground.tsx:79-85 | an upward box moves up by its speed; once its bottom edge passes the top it re-enters at the bottom edge in a random column inside the viewport |
| `Boxes.AdvanceDown` | src/components/WaveBackground.tsx:86-92 | a downward box moves down by its speed; once its top edge passes the bottom it re-enters one size above the top, in a random column inside the viewport |
| `Boxes.AdvanceLeft` | src/components/WaveBackground.tsx:93-99 | a leftward box moves left by its speed; once its right edge passes the left it re-enters at the right edge in a random row inside the viewport |
| `Boxes.AdvanceRight` | src/components/WaveBackground.tsx:100-106 | a rightward box moves right by its speed; once its left edge passes the right it re-enters one size left of the left edge, in a random row inside the viewport |
| `Boxes.AdvanceKeepsInLane` | src/components/WaveBackground.tsx:76-110 | an update keeps a forward-moving box in its lane: across its direction of travel it stays inside the viewport, and along it it stays between one size before the near edge and the far edge |
| `Boxes.TicksRotation` | src/components/WaveBackground.tsx:109 | after k updates the rotation has grown by k times the rotation speed, whether or not the box wrapped, and size, direction, speed, opacity, spin and colour never change |
| `Boxes.TicksUpWithoutWrap` | src/components/WaveBackground.tsx:79-85 | an upward box that stays clear of the top edge for k updates is k speeds higher after them, in the same column |
| `Boxes.TicksKeepInLane` | src/components/WaveBackground.tsx:76-110 | a box in its lane stays in its lane over any number of updates |
| `Boxes.PickIndex` | src/components/WaveBackground.tsx:50 | `Math.floor(Math.random() * n)` is a valid index into a list of n entries |
| `Boxes.NewBox` | src/components/WaveBackground.tsx:46-56 | a new box has size in [20, 60), speed in [1, 3), opacity in [0.1, 0.5), spin in [-0.02, 0.02), rotation in [0, 2π) and a palette colour |
| `Boxes.NewBoxRanges` | src/components/WaveBackground.tsx:47-48 | a new box starts at a position inside the viewport |
| `Boxes.NewBoxInLane` | src/components/WaveBackground.tsx:46-56 | a box created in a non-empty viewport starts in its lane |
| `WaveBackground.Mounted` | src/components/WaveBackground.tsx:15-59 | the scene after the initialisation loop has thirty boxes, the captured window size and time 0 |
| `WaveBackground.MountedBoxes` | src/components/WaveBackground.tsx:45-57 | the initialisation loop creates thirty boxes, each within the creation ranges, and in a non-empty viewport each in its lane |
| `WaveBackground.FramesTime` | src/components/WaveBackground.tsx:143 | after k frames the time accumulator has grown by exactly 0.02·k |
| `WaveBackground.TimeAfterFrames` | src/components/WaveBackground.tsx:59 | starting from 0, the time after k frames is 0.02·k |
| `WaveBackground.FramesBox` | src/components/WaveBackground.tsx:138-141 | boxes do not interact: over any run of frames each box evolves exactly as repeated updates with its own draws |
| `WaveBackground.FrameKeepsInLane` | src/components/WaveBackground.tsx:138-141 | a frame keeps every box in its lane while the viewport keeps its size |
| `WaveBackground.FramesKeepInLane` | src/components/WaveBackground.tsx:129-145 | any run of frames keeps every box in its lane while the viewport keeps its size |
| `WaveBackground.Frame` | src/components/WaveBackground.tsx:138-143 | a frame keeps the number of boxes and the viewport size, advances time by exactly 0.02, and turns every box by exactly its rotation speed |
| `WaveBackground.FrameOps` | src/components/WaveBackground.tsx:130-141 | a frame draws one operation per wave and per box after the clear of the whole canvas, which comes first |
| `WaveBackground.FrameOpsOrder` | src/components/WaveBackground.tsx:129-141 | after the clear come the three waves in list order at the current time about half the height, then one stroke per box in array order, each showing the box after its update |
| `WaveBackground.PaletteColors` | src/components/WaveBackground.tsx:41 | every palette colour matches the pattern, so no box is drawn in the fallback colour by accident |
| `WaveBackground.PolylineSteps` | src/components/WaveBackground.tsx:65 | a wave's polyline runs from x = 0 to x = width in unit steps |
| `WaveBackground.Background.constructor` | src/components/WaveBackground.tsx:8-57 | mount creates thirty boxes as the initialisation loop does and draws the first frame; afterwards the listener is attached, a frame is pending, and the state and log are exactly those of one frame from the freshly created scene |
| `WaveBackground.Background.UpdateBox` | src/components/WaveBackground.tsx:76-110 | box k becomes its one-step update and every other box is unchanged |
| `WaveBackground.Background.DrawWave` | src/components/WaveBackground.tsx:61-74 | the loop strokes one wave whose x coordinates run 0..width, in the wave's colour at line width 2 |
| `WaveBackground.Background.DrawBox` | src/components/WaveBackground.tsx:112-119 | the log gains one stroke of box k around its centre, at its rotation, colour text and opacity |
| `WaveBackground.Background.Animate` | src/components/WaveBackground.tsx:129-145 | the new state is one frame of the old one and the log gains exactly that frame's operations; a next frame is pending |
| `WaveBackground.Background.DrawWaves` | src/components/WaveBackground.tsx:133-135 | the waves are stroked once each, in list order |
| `WaveBackground.Background.UpdateAndDrawBoxes` | src/components/WaveBackground.tsx:138-141 | every box is advanced once with its own draw, and the log gains their strokes in array order, each after its update |
| `WaveBackground.Background.FrameFired` | src/components/WaveBackground.tsx:144 | a pending frame runs animate once; with no frame pending nothing changes |
| `WaveBackground.Background.HandleResize` | src/components/WaveBackground.tsx:149-152 | resizing overwrites the width and then the height, and the log gains the two canvas resets those assignments cause; no box moves and time is unchanged |
| `WaveBackground.Background.WindowResized` | src/components/WaveBackground.tsx:154 | a window resize reaches handleResize, with its size change and its canvas resets, only while the listener is attached |
| `WaveBackground.Background.CleanupAsWritten` | src/components/WaveBackground.tsx:156-158 | the cleanup detaches the listener and leaves the pending frame pending |
| `WaveBackground.Background.Unmount` | src/components/WaveBackground.tsx:156-158 | the corrected cleanup detaches the listener and cancels the pending frame |
| `WaveBackground.FrameAfterCleanup` | src/components/WaveBackground.tsx:144-158 | after mount and the cleanup as written, the promised callback still draws a second frame (time 0.04) |
| `WaveBackground.NoFrameAfterUnmount` | src/components/WaveBackground.tsx:144-158 | after mount and the corrected unmount, the callback changes nothing (time stays 0.02) |

## Left out

- The y coordinates of the waves (`Math.sin` of position, time and phase, times the amplitude, around half the height) are not modelled, because they need floating-point trigonometry. A wave stroke records everything its y values depend on: the wave's index, and hence its amplitude, frequency, speed and phase offset of index·π/3, the time, the baseline at half the canvas height and the polyline's x run. The `moveTo(0, height/2)` start point is not recorded separately.
- Canvas state calls (`beginPath`, `save`, `restore`) and the square's exact corner arguments are folded into one operation per stroke. The `rgba(…)` text is recorded as its `r, g, b` part and the opacity.
- The early returns when the canvas element or its 2D context is missing, the React component, its JSX, its class names and its blur style are not modelled. The model starts from a mounted canvas. The resets caused by the size assignments at mount (lines 15-16) are not logged; they happen before anything is drawn.
- Scheduling by `requestAnimationFrame` is a pending flag plus `FrameFired`, the host's callback. Timing, and the host pausing callbacks, are not modelled.
- IEEE double rounding is not modelled: for example, 0.02 added k times is exactly 0.02·k here, and `Math.random() * width` never rounds up to `width`.
- `Math.random` itself is not modelled. Its values are parameters, each assumed in [0, 1).
- The rest of the application (pages, authentication, data fetching, forms) is not part of this model.

## Findings

| source | as written | input that shows it | evidently intended | confidence | as-written member | corrected member |
|---|---|---|---|---|---|---|
| src/components/WaveBackground.tsx:144-158 | the effect's cleanup only removes the resize listener and never cancels the frame requested by the last `animate`, so frames keep firing and drawing after unmount | mount in a 1×1 viewport with every draw 0, run the cleanup, then fire the pending callback: a second frame is drawn and time reaches 0.04 | the cleanup also cancels the pending frame (`cancelAnimationFrame`), so no frame runs after unmount | high; not executed | `WaveBackground.Background.CleanupAsWritten`, `WaveBackground.FrameAfterCleanup` | `WaveBackground.Background.Unmount`, `WaveBackground.NoFrameAfterUnmount` |
