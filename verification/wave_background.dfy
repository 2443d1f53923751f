/** The animated background component: a full-viewport canvas on which, once
    per animation frame, three sine waves and thirty drifting boxes are drawn.
    The canvas is modelled as the list of drawing operations issued on it; the
    host's random numbers are passed in as draws in [0, 1). */
module WaveBackground {
  import opened Boxes
  import Color

  const BoxCount: nat := 30
  /** The per-frame increment of the time accumulator. */
  const TimeStep: real := 0.02
  /** Math.random() calls made for each box by the initialisation loop. */
  const DrawsPerBox: nat := 9

  /** A wave preset; its phase offset is its index in Waves times π/3. */
  datatype Wave = Wave(amplitude: real, frequency: real, speed: real, color: string)

  const Waves: seq<Wave> := [
    Wave(120.0, 0.005, 0.02, "#238636"),
    Wave(100.0, 0.008, 0.03, "#2ea043"),
    Wave(80.0, 0.01, 0.015, "#3fb950")
  ]

  /** The drawing operations a frame issues on the canvas. A wave stroke records
      the baseline its sine curve oscillates about (half the canvas height) and
      the x coordinates of its polyline (its y coordinates are sine values and
      are not modelled); a box stroke records the translation to the box's
      centre, the rotation, the "r, g, b" text of its colour, its opacity and
      the side of the square. Assigning the canvas width or height resets the
      canvas: its bitmap is cleared to transparent and its 2D context restored
      to defaults, even when the value does not change. */
  datatype DrawOp =
    | ClearRect(clearWidth: nat, clearHeight: nat)
    | StrokeWave(waveColor: string, lineWidth: nat, phaseIndex: nat, waveTime: real, baseline: real, xs: seq<int>)
    | StrokeBox(centerX: real, centerY: real, angle: real, rgb: string, alpha: real, side: real)
    | ResetCanvas(newWidth: nat, newHeight: nat)

  // ---------------------------------------------------------------------------
  // The scene as a value, and what one frame does to it

  datatype Scene = Scene(boxes: seq<BoxState>, width: nat, height: nat, time: real)

  /** The scene right after the initialisation loop, before the first frame. */
  function Mounted(width: nat, height: nat, draws: seq<real>): (s: Scene)
    requires |draws| == DrawsPerBox * BoxCount && forall i :: 0 <= i < |draws| ==> IsDraw(draws[i])
    ensures |s.boxes| == BoxCount && s.width == width && s.height == height && s.time == 0.0
  {
    var boxes := seq(BoxCount, i requires 0 <= i < BoxCount =>
      NewBox(draws[DrawsPerBox * i .. DrawsPerBox * (i + 1)], width, height));
    Scene(boxes, width, height, 0.0)
  }

  /** One frame's update of the scene: each box advanced once with its own draw,
      and the time accumulator advanced by one step. */
  function Frame(s: Scene, draws: seq<real>): (t: Scene)
    requires |draws| == |s.boxes|
    ensures |t.boxes| == |s.boxes| && t.width == s.width && t.height == s.height
    ensures t.time == s.time + TimeStep
    ensures forall i :: 0 <= i < |t.boxes| ==>
      t.boxes[i].rotation == s.boxes[i].rotation + s.boxes[i].rotationSpeed
  {
    s.(boxes := AdvanceAll(s.boxes, s.width, s.height, draws), time := s.time + TimeStep)
  }

  /** Each box advanced once, with its own draw. */
  function AdvanceAll(bs: seq<BoxState>, width: nat, height: nat, draws: seq<real>): (r: seq<BoxState>)
    requires |draws| == |bs|
    ensures |r| == |bs|
  {
    seq(|bs|, i requires 0 <= i < |bs| => Advance(bs[i], width, height, draws[i]))
  }

  predicate FitsFrames(s: Scene, ds: seq<seq<real>>) {
    forall k :: 0 <= k < |ds| ==> |ds[k]| == |s.boxes|
  }

  /** The scene after one frame per entry of ds, the viewport unchanged. */
  function Frames(s: Scene, ds: seq<seq<real>>): (t: Scene)
    requires FitsFrames(s, ds)
    ensures |t.boxes| == |s.boxes| && t.width == s.width && t.height == s.height
    decreases |ds|
  {
    if ds == [] then s else Frames(Frame(s, ds[0]), ds[1..])
  }

  /** The draws one box receives over a run of frames. */
  function Column(ds: seq<seq<real>>, i: nat): (c: seq<real>)
    requires forall k :: 0 <= k < |ds| ==> i < |ds[k]|
    ensures |c| == |ds|
  {
    seq(|ds|, k requires 0 <= k < |ds| => ds[k][i])
  }

  // ---------------------------------------------------------------------------
  // What one frame draws

  /** The x coordinates of a wave's polyline: 0 to width in unit steps. */
  function Polyline(width: nat): (xs: seq<int>)
    ensures |xs| == width + 1
  {
    seq(width + 1, k requires 0 <= k <= width => k)
  }

  function WaveStroke(i: nat, width: nat, height: nat, time: real): DrawOp
    requires i < |Waves|
  {
    StrokeWave(Waves[i].color, 2, i, time, height as real / 2.0, Polyline(width))
  }

  function WaveStrokes(width: nat, height: nat, time: real): (ops: seq<DrawOp>)
    ensures |ops| == |Waves|
  {
    seq(|Waves|, i requires 0 <= i < |Waves| => WaveStroke(i, width, height, time))
  }

  function BoxStroke(b: BoxState): DrawOp {
    StrokeBox(b.x + b.size / 2.0, b.y + b.size / 2.0, b.rotation, Color.HexToRgb(b.color), b.opacity, b.size)
  }

  function BoxStrokes(bs: seq<BoxState>): (ops: seq<DrawOp>)
    ensures |ops| == |bs|
  {
    seq(|bs|, i requires 0 <= i < |bs| => BoxStroke(bs[i]))
  }

  /** Regrouping a log of four parts. */
  lemma ConcatAssoc<T>(a: seq<T>, b: seq<T>, c: seq<T>, d: seq<T>)
    ensures a + b + c + d == a + (b + c + d)
  {
  }

  /** Stroking one more box appends its stroke to the log. */
  lemma BoxStrokesSnoc(bs: seq<BoxState>, b: BoxState)
    ensures BoxStrokes(bs + [b]) == BoxStrokes(bs) + [BoxStroke(b)]
  {
  }

  /** The operations of one frame: clear, the waves at the current time, then each
      box as it is after its update, in array order. */
  function FrameOps(s: Scene, draws: seq<real>): (ops: seq<DrawOp>)
    requires |draws| == |s.boxes|
    ensures |ops| == 1 + |Waves| + |s.boxes|
    ensures ops[0] == ClearRect(s.width, s.height)
  {
    [ClearRect(s.width, s.height)] + WaveStrokes(s.width, s.height, s.time) + BoxStrokes(Frame(s, draws).boxes)
  }

  // ---------------------------------------------------------------------------
  // Properties of frames

  /** The time accumulator after k frames is exactly k steps of 0.02 more
      (over the reals). */
  lemma {:induction false} FramesTime(s: Scene, ds: seq<seq<real>>)
    requires FitsFrames(s, ds)
    ensures Frames(s, ds).time == s.time + |ds| as real * TimeStep
    decreases |ds|
  {
    if ds != [] {
      var t := Frame(s, ds[0]);
      assert FitsFrames(t, ds[1..]);
      FramesTime(t, ds[1..]);
      assert |ds[1..]| as real * TimeStep + TimeStep == |ds| as real * TimeStep;
    }
  }

  /** Starting from time 0, the time after k frames is 0.02·k. */
  lemma TimeAfterFrames(s: Scene, ds: seq<seq<real>>)
    requires FitsFrames(s, ds) && s.time == 0.0
    ensures Frames(s, ds).time == 0.02 * |ds| as real
  {
    FramesTime(s, ds);
  }

  /** Boxes do not interact: over a run of frames each box evolves on its own,
      exactly as repeated updateBox calls with the draws it receives (so
      Boxes.TicksRotation gives its rotation after k frames). */
  lemma {:induction false} FramesBox(s: Scene, ds: seq<seq<real>>, i: nat)
    requires FitsFrames(s, ds) && i < |s.boxes|
    ensures Frames(s, ds).boxes[i] == Ticks(s.boxes[i], s.width, s.height, Column(ds, i))
    decreases |ds|
  {
    if ds != [] {
      var t := Frame(s, ds[0]);
      assert FitsFrames(t, ds[1..]);
      FramesBox(t, ds[1..], i);
      assert Column(ds, i)[1..] == Column(ds[1..], i);
      assert Column(ds, i)[0] == ds[0][i];
    }
  }

  predicate AllDraws(draws: seq<real>) {
    forall i :: 0 <= i < |draws| ==> IsDraw(draws[i])
  }

  /** Every box in its lane, moving forward. */
  predicate AllInLane(s: Scene) {
    forall i :: 0 <= i < |s.boxes| ==> InLane(s.boxes[i], s.width, s.height) && s.boxes[i].speed >= 0.0
  }

  /** A frame keeps every box in its lane while the viewport keeps its size. */
  lemma FrameKeepsInLane(s: Scene, draws: seq<real>)
    requires |draws| == |s.boxes| && AllInLane(s) && AllDraws(draws)
    ensures AllInLane(Frame(s, draws))
  {
    forall i | 0 <= i < |s.boxes|
      ensures InLane(Frame(s, draws).boxes[i], s.width, s.height)
    {
      AdvanceKeepsInLane(s.boxes[i], s.width, s.height, draws[i]);
    }
  }

  lemma {:induction false} FramesKeepInLane(s: Scene, ds: seq<seq<real>>)
    requires FitsFrames(s, ds) && AllInLane(s)
    requires forall k :: 0 <= k < |ds| ==> AllDraws(ds[k])
    ensures AllInLane(Frames(s, ds))
    decreases |ds|
  {
    if ds != [] {
      FrameKeepsInLane(s, ds[0]);
      var t := Frame(s, ds[0]);
      assert FitsFrames(t, ds[1..]);
      FramesKeepInLane(t, ds[1..]);
    }
  }

  /** The initialisation loop makes thirty boxes, each in its creation ranges,
      and, in a non-empty viewport, each in its lane. */
  lemma MountedBoxes(width: nat, height: nat, draws: seq<real>)
    requires |draws| == DrawsPerBox * BoxCount && AllDraws(draws)
    ensures forall i :: 0 <= i < BoxCount ==> WellFormed(Mounted(width, height, draws).boxes[i])
    ensures width > 0 && height > 0 ==> AllInLane(Mounted(width, height, draws))
  {
    var s := Mounted(width, height, draws);
    forall i | 0 <= i < BoxCount
      ensures WellFormed(s.boxes[i])
      ensures width > 0 && height > 0 ==> InLane(s.boxes[i], width, height) && s.boxes[i].speed >= 0.0
    {
      var d := draws[DrawsPerBox * i .. DrawsPerBox * (i + 1)];
      NewBoxRanges(d, width, height);
      if width > 0 && height > 0 {
        NewBoxInLane(d, width, height);
      }
    }
  }

  /** One frame's drawing: a clear, the three waves in list order with their x
      running 0..width, then one stroke per box in array order, the k-th showing
      box k after its update. */
  lemma FrameOpsOrder(s: Scene, draws: seq<real>)
    requires |draws| == |s.boxes|
    ensures forall i :: 1 <= i <= |Waves| ==>
      var op := FrameOps(s, draws)[i];
      op.StrokeWave? && op.phaseIndex == i - 1 && op.waveTime == s.time &&
      op.baseline == s.height as real / 2.0 && op.xs == Polyline(s.width)
    ensures forall k :: 1 + |Waves| <= k < |FrameOps(s, draws)| ==>
      var j := k - 1 - |Waves|;
      FrameOps(s, draws)[k] == BoxStroke(Advance(s.boxes[j], s.width, s.height, draws[j]))
  {
    var ops := FrameOps(s, draws);
    var waves := WaveStrokes(s.width, s.height, s.time);
    var after := Frame(s, draws).boxes;
    assert ops == [ClearRect(s.width, s.height)] + waves + BoxStrokes(after);
    forall i | 1 <= i <= |Waves|
      ensures ops[i] == WaveStroke(i - 1, s.width, s.height, s.time)
    {
      assert ops[i] == waves[i - 1];
    }
    forall k | 1 + |Waves| <= k < |ops|
      ensures ops[k] == BoxStroke(Advance(s.boxes[k - 1 - |Waves|], s.width, s.height, draws[k - 1 - |Waves|]))
    {
      var j := k - 1 - |Waves|;
      assert after[j] == Advance(s.boxes[j], s.width, s.height, draws[j]);
      assert ops[k] == BoxStrokes(after)[j];
    }
  }

  /** Every palette colour matches the hex pattern, so no box is stroked in the
      fallback colour by accident. */
  lemma PaletteColors()
    ensures Color.ParseHexColor(Palette[0]) == Color.Some(Color.Rgb(35, 134, 54))
    ensures Color.ParseHexColor(Palette[1]) == Color.Some(Color.Rgb(46, 160, 67))
    ensures Color.ParseHexColor(Palette[2]) == Color.Some(Color.Rgb(63, 185, 80))
    ensures Color.ParseHexColor(Palette[3]) == Color.Some(Color.Rgb(70, 196, 83))
  {
  }

  /** The x coordinates of a polyline run from 0 to width in unit steps. */
  lemma PolylineSteps(width: nat)
    ensures Polyline(width)[0] == 0 && Polyline(width)[width] == width
    ensures forall k :: 0 <= k < width ==> Polyline(width)[k + 1] == Polyline(width)[k] + 1
  {
  }

  // ---------------------------------------------------------------------------
  // The component instance

  /** The state the mount effect creates: the canvas size, the boxes array, the
      time accumulator, the canvas's drawing history and whether the resize
      listener is attached. */
  class Background {
    var width: nat
    var height: nat
    var time: real
    var boxes: seq<BoxState>
    var canvas: seq<DrawOp>
    var listening: bool
    /** A call of animate has been requested from the host and has neither fired
        nor been cancelled. */
    var framePending: bool

    function Snapshot(): Scene
      reads this
    {
      Scene(boxes, width, height, time)
    }

    /** The mount effect: capture the window size, create the boxes, draw the
        first frame, and attach the resize listener. */
    constructor (w: nat, h: nat, initDraws: seq<real>, firstDraws: seq<real>)
      requires |initDraws| == DrawsPerBox * BoxCount && AllDraws(initDraws)
      requires |firstDraws| == BoxCount
      ensures listening && framePending && |boxes| == BoxCount
      ensures Snapshot() == Frame(Mounted(w, h, initDraws), firstDraws)
      ensures canvas == FrameOps(Mounted(w, h, initDraws), firstDraws)
    {
      width, height := w, h;
      boxes, canvas := [], [];
      time := 0.0;
      listening, framePending := false, false;
      new;
      var i := 0;
      while i < BoxCount
        invariant 0 <= i <= BoxCount && |boxes| == i
        invariant forall j :: 0 <= j < i ==>
          boxes[j] == NewBox(initDraws[DrawsPerBox * j .. DrawsPerBox * (j + 1)], w, h)
        invariant width == w && height == h && time == 0.0 && canvas == []
      {
        boxes := boxes + [NewBox(initDraws[DrawsPerBox * i .. DrawsPerBox * (i + 1)], width, height)];
        i := i + 1;
      }
      assert Snapshot() == Mounted(w, h, initDraws);
      Animate(firstDraws);
      assert canvas == [] + FrameOps(Mounted(w, h, initDraws), firstDraws);
      listening := true;
    }

    /** updateBox: move box k, wrap it around if it has left the viewport, then
        rotate it; no other box changes. */
    method UpdateBox(k: nat, draw: real)
      requires k < |boxes|
      modifies this`boxes
      ensures boxes == old(boxes)[k := Advance(old(boxes[k]), width, height, draw)]
    {
      var box := boxes[k];
      match box.direction {
        case Up =>
          box := box.(y := box.y - box.speed);
          if box.y + box.size < 0.0 {
            box := box.(y := height as real, x := draw * width as real);
          }
        case Down =>
          box := box.(y := box.y + box.speed);
          if box.y > height as real {
            box := box.(y := -box.size, x := draw * width as real);
          }
        case Left =>
          box := box.(x := box.x - box.speed);
          if box.x + box.size < 0.0 {
            box := box.(x := width as real, y := draw * height as real);
          }
        case Right =>
          box := box.(x := box.x + box.speed);
          if box.x > width as real {
            box := box.(x := -box.size, y := draw * height as real);
          }
      }
      box := box.(rotation := box.rotation + box.rotationSpeed);
      assert box.rotation == Advance(old(boxes[k]), width, height, draw).rotation;
      boxes := boxes[k := box];
    }

    /** drawWave: stroke wave i as a polyline whose x runs from 0 to the canvas width. */
    method DrawWave(i: nat)
      requires i < |Waves|
      modifies this`canvas
      ensures canvas == old(canvas) + [WaveStroke(i, width, height, time)]
    {
      var xs: seq<int> := [];
      var x := 0;
      while x <= width
        invariant 0 <= x <= width + 1 && |xs| == x
        invariant forall k :: 0 <= k < x ==> xs[k] == k
      {
        xs := xs + [x];
        x := x + 1;
      }
      assert xs == Polyline(width);
      canvas := canvas + [StrokeWave(Waves[i].color, 2, i, time, height as real / 2.0, xs)];
    }

    /** drawBox: stroke box k as a square rotated about its centre, in its
        colour at its opacity. */
    method DrawBox(k: nat)
      requires k < |boxes|
      modifies this`canvas
      ensures canvas == old(canvas) + [BoxStroke(boxes[k])]
    {
      var box := boxes[k];
      var half := box.size / 2.0;
      canvas := canvas + [StrokeBox(box.x + half, box.y + half, box.rotation, Color.HexToRgb(box.color), box.opacity, box.size)];
    }

    /** animate: clear, stroke each wave in list order, update and stroke each
        box in array order, advance the time accumulator by one step, and
        request the next frame. */
    method Animate(draws: seq<real>)
      requires |draws| == |boxes|
      modifies this`time, this`canvas, this`boxes, this`framePending
      ensures Snapshot() == Frame(old(Snapshot()), draws)
      ensures canvas == old(canvas) + FrameOps(old(Snapshot()), draws)
      ensures framePending
    {
      ghost var s0, c0 := Snapshot(), canvas;
      canvas := canvas + [ClearRect(width, height)];
      DrawWaves();
      UpdateAndDrawBoxes(draws);
      time := time + TimeStep;
      framePending := true;
      ghost var clear, waves, strokes := [ClearRect(s0.width, s0.height)], WaveStrokes(s0.width, s0.height, s0.time), BoxStrokes(boxes);
      assert canvas == c0 + clear + waves + strokes;
      ConcatAssoc(c0, clear, waves, strokes);
      assert boxes == Frame(s0, draws).boxes;
    }

    /** The host's frame callback: a pending request runs animate once; with
        nothing pending, nothing happens. */
    method FrameFired(draws: seq<real>)
      requires |draws| == |boxes|
      modifies this`time, this`canvas, this`boxes, this`framePending
      ensures old(framePending) ==>
        Snapshot() == Frame(old(Snapshot()), draws) &&
        canvas == old(canvas) + FrameOps(old(Snapshot()), draws) && framePending
      ensures !old(framePending) ==>
        Snapshot() == old(Snapshot()) && canvas == old(canvas) && !framePending
    {
      if framePending {
        framePending := false;
        Animate(draws);
      }
    }

    /** The wave loop of animate: one stroke per preset, in preset order. */
    method DrawWaves()
      modifies this`canvas
      ensures canvas == old(canvas) + WaveStrokes(width, height, time)
    {
      var i := 0;
      while i < |Waves|
        invariant 0 <= i <= |Waves|
        invariant canvas == old(canvas) + WaveStrokes(width, height, time)[..i]
      {
        DrawWave(i);
        assert WaveStrokes(width, height, time)[..i + 1] == WaveStrokes(width, height, time)[..i] + [WaveStroke(i, width, height, time)];
        i := i + 1;
      }
      assert WaveStrokes(width, height, time)[..|Waves|] == WaveStrokes(width, height, time);
    }

    /** The box loop of animate: each box is updated and then drawn, in array order. */
    method UpdateAndDrawBoxes(draws: seq<real>)
      requires |draws| == |boxes|
      modifies this`boxes, this`canvas
      ensures boxes == AdvanceAll(old(boxes), width, height, draws)
      ensures canvas == old(canvas) + BoxStrokes(boxes)
    {
      ghost var after := AdvanceAll(boxes, width, height, draws);
      var k := 0;
      while k < |boxes|
        invariant 0 <= k <= |boxes| == |old(boxes)|
        invariant forall j :: 0 <= j < k ==> boxes[j] == after[j]
        invariant forall j :: k <= j < |boxes| ==> boxes[j] == old(boxes)[j]
        invariant canvas == old(canvas) + BoxStrokes(boxes[..k])
      {
        ghost var drawn := boxes[..k];
        UpdateBox(k, draws[k]);
        assert boxes[..k + 1] == drawn + [boxes[k]];
        DrawBox(k);
        BoxStrokesSnoc(drawn, boxes[k]);
        k := k + 1;
      }
      assert boxes == after;
      assert boxes[..k] == boxes;
    }

    /** handleResize: overwrite the canvas width, then its height; each
        assignment resets the canvas, erasing the frame on screen until the next
        animate. No box moves and time is unchanged. */
    method HandleResize(w: nat, h: nat)
      modifies this`width, this`height, this`canvas
      ensures Snapshot() == old(Snapshot()).(width := w, height := h)
      ensures canvas == old(canvas) + [ResetCanvas(w, old(height)), ResetCanvas(w, h)]
    {
      width := w;
      canvas := canvas + [ResetCanvas(width, height)];
      height := h;
      canvas := canvas + [ResetCanvas(width, height)];
    }

    /** A resize notification from the window reaches handleResize only while
        the listener is attached. */
    method WindowResized(w: nat, h: nat)
      modifies this`width, this`height, this`canvas
      ensures Snapshot() == if old(listening) then old(Snapshot()).(width := w, height := h) else old(Snapshot())
      ensures canvas == if old(listening) then old(canvas) + [ResetCanvas(w, old(height)), ResetCanvas(w, h)] else old(canvas)
    {
      if listening {
        HandleResize(w, h);
      }
    }

    /** The effect's cleanup as written: it detaches the resize listener and
        leaves the frame already requested pending, so the animation goes on
        after unmount. */
    method CleanupAsWritten()
      modifies this`listening
      ensures !listening && framePending == old(framePending)
    {
      listening := false;
    }

    /** Unmount as intended: detach the resize listener and cancel the pending
        frame, so that neither a frame nor a resize reaches the instance again. */
    method Unmount()
      modifies this`listening, this`framePending
      ensures !listening && !framePending
    {
      listening := false;
      framePending := false;
    }
  }

  /** Mount with every draw 0, run the cleanup as written, and let the host fire
      the frame it was promised: the boxes and waves are drawn once more. */
  method FrameAfterCleanup() returns (b: Background)
    ensures !b.listening && b.framePending
    ensures b.time == 2.0 * TimeStep
  {
    b := new Background(1, 1, seq(DrawsPerBox * BoxCount, _ => 0.0), seq(BoxCount, _ => 0.0));
    b.CleanupAsWritten();
    b.FrameFired(seq(BoxCount, _ => 0.0));
  }

  /** The same sequence with the intended unmount: the fired callback finds no
      pending frame and the scene stays as it was. */
  method NoFrameAfterUnmount() returns (b: Background)
    ensures !b.listening && !b.framePending
    ensures b.time == TimeStep
  {
    b := new Background(1, 1, seq(DrawsPerBox * BoxCount, _ => 0.0), seq(BoxCount, _ => 0.0));
    b.Unmount();
    b.FrameFired(seq(BoxCount, _ => 0.0));
  }
}
