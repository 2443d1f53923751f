/** The drifting boxes of the animated background. A box travels in one fixed
    direction at a fixed speed, spins at a fixed rate, and when it has left the
    viewport along its direction of travel it re-enters at the opposite edge at
    a random place along the other axis. Coordinates are real numbers: the
    equalities proved here hold over the reals, not over IEEE doubles. */
module Boxes {

  datatype Direction = Up | Down | Left | Right

  /** The value of a box's nine fields. */
  datatype BoxState = BoxState(
    x: real,
    y: real,
    size: real,
    direction: Direction,
    speed: real,
    opacity: real,
    rotationSpeed: real,
    rotation: real,
    color: string)

  /** Math.PI, written as the decimal JavaScript prints for it. */
  const Pi: real := 3.141592653589793

  const Directions: seq<Direction> := [Up, Down, Left, Right]
  const Palette: seq<string> := ["#238636", "#2ea043", "#3fb950", "#46c453"]

  /** A draw of Math.random(). */
  predicate IsDraw(d: real) {
    0.0 <= d < 1.0
  }

  // ---------------------------------------------------------------------------
  // One step: updateBox

  /** The state of a box after one call of updateBox in a viewport of the given
      size; `draw` is what Math.random() returns if the box wraps around. */
  function Advance(b: BoxState, width: nat, height: nat, draw: real): (a: BoxState)
    ensures a.(x := b.x, y := b.y, rotation := b.rotation) == b
    ensures a.rotation == b.rotation + b.rotationSpeed
  {
    var w, h := width as real, height as real;
    var moved :=
      match b.direction
      case Up =>
        var y := b.y - b.speed;
        if y + b.size < 0.0 then b.(y := h, x := draw * w) else b.(y := y)
      case Down =>
        var y := b.y + b.speed;
        if y > h then b.(y := -b.size, x := draw * w) else b.(y := y)
      case Left =>
        var x := b.x - b.speed;
        if x + b.size < 0.0 then b.(x := w, y := draw * h) else b.(x := x)
      case Right =>
        var x := b.x + b.speed;
        if x > w then b.(x := -b.size, y := draw * h) else b.(x := x);
    moved.(rotation := b.rotation + b.rotationSpeed)
  }

  /** A draw scaled by a non-negative extent lies in [0, extent) unless the extent is 0. */
  lemma ScaledDraw(d: real, extent: nat)
    requires IsDraw(d)
    ensures 0.0 <= d * extent as real
    ensures extent > 0 ==> d * extent as real < extent as real
  {
    if extent > 0 {
      assert d * extent as real < 1.0 * extent as real;
    }
  }

  /** Up: the box moves up by its speed and keeps its column, unless its bottom
      edge has passed the top of the viewport; then it re-enters at the bottom
      edge in a random column inside the viewport. */
  lemma AdvanceUp(b: BoxState, width: nat, height: nat, draw: real)
    requires b.direction == Up && IsDraw(draw)
    ensures var a := Advance(b, width, height, draw);
      if b.y - b.speed + b.size < 0.0 then
        a.y == height as real && a.x == draw * width as real &&
        0.0 <= a.x && (width > 0 ==> a.x < width as real)
      else
        a.y == b.y - b.speed && a.x == b.x
  {
    ScaledDraw(draw, width);
  }

  /** Down: the box moves down by its speed, unless its top edge has passed the
      bottom of the viewport; then it re-enters just above the top edge. */
  lemma AdvanceDown(b: BoxState, width: nat, height: nat, draw: real)
    requires b.direction == Down && IsDraw(draw)
    ensures var a := Advance(b, width, height, draw);
      if b.y + b.speed > height as real then
        a.y == -b.size && a.x == draw * width as real &&
        0.0 <= a.x && (width > 0 ==> a.x < width as real)
      else
        a.y == b.y + b.speed && a.x == b.x
  {
    ScaledDraw(draw, width);
  }

  /** Left: the box moves left by its speed and keeps its row, unless its right
      edge has passed the left of the viewport; then it re-enters at the right edge. */
  lemma AdvanceLeft(b: BoxState, width: nat, height: nat, draw: real)
    requires b.direction == Left && IsDraw(draw)
    ensures var a := Advance(b, width, height, draw);
      if b.x - b.speed + b.size < 0.0 then
        a.x == width as real && a.y == draw * height as real &&
        0.0 <= a.y && (height > 0 ==> a.y < height as real)
      else
        a.x == b.x - b.speed && a.y == b.y
  {
    ScaledDraw(draw, height);
  }

  /** Right: the box moves right by its speed, unless its left edge has passed
      the right of the viewport; then it re-enters just left of the left edge. */
  lemma AdvanceRight(b: BoxState, width: nat, height: nat, draw: real)
    requires b.direction == Right && IsDraw(draw)
    ensures var a := Advance(b, width, height, draw);
      if b.x + b.speed > width as real then
        a.x == -b.size && a.y == draw * height as real &&
        0.0 <= a.y && (height > 0 ==> a.y < height as real)
      else
        a.x == b.x + b.speed && a.y == b.y
  {
    ScaledDraw(draw, height);
  }

  // ---------------------------------------------------------------------------
  // An invariant of the viewport: every box stays in its lane

  /** A box is in its lane when its coordinate across its direction of travel
      lies inside the viewport and its coordinate along it lies between one box
      size before the near edge and the far edge. */
  predicate InLane(b: BoxState, width: nat, height: nat) {
    match b.direction
    case Up | Down =>
      0.0 <= b.x < width as real && -b.size <= b.y <= height as real
    case Left | Right =>
      0.0 <= b.y < height as real && -b.size <= b.x <= width as real
  }

  /** updateBox keeps a box in its lane while the viewport keeps its size. */
  lemma AdvanceKeepsInLane(b: BoxState, width: nat, height: nat, draw: real)
    requires InLane(b, width, height) && b.speed >= 0.0 && IsDraw(draw)
    ensures InLane(Advance(b, width, height, draw), width, height)
  {
    match b.direction
    case Up => AdvanceUp(b, width, height, draw);
    case Down => AdvanceDown(b, width, height, draw);
    case Left => AdvanceLeft(b, width, height, draw);
    case Right => AdvanceRight(b, width, height, draw);
  }

  // ---------------------------------------------------------------------------
  // Many steps

  /** The state of a box after one updateBox call per draw, in a viewport of fixed size. */
  function Ticks(b: BoxState, width: nat, height: nat, draws: seq<real>): BoxState
    decreases |draws|
  {
    if draws == [] then b else Ticks(Advance(b, width, height, draws[0]), width, height, draws[1..])
  }

  /** Rotation is additive and independent of position: after k steps it has grown
      by k times the rotation speed, whether or not the box wrapped; the fields
      other than x, y and rotation never change. */
  lemma {:induction false} TicksRotation(b: BoxState, width: nat, height: nat, draws: seq<real>)
    ensures Ticks(b, width, height, draws).rotation == b.rotation + |draws| as real * b.rotationSpeed
    ensures Ticks(b, width, height, draws).(x := b.x, y := b.y, rotation := b.rotation) == b
    decreases |draws|
  {
    if draws != [] {
      var a := Advance(b, width, height, draws[0]);
      TicksRotation(a, width, height, draws[1..]);
      assert |draws[1..]| as real * b.rotationSpeed + b.rotationSpeed
          == |draws| as real * b.rotationSpeed;
    }
  }

  /** An upward box that stays clear of the top edge for k steps is k speeds
      higher after them, in the same column. */
  lemma {:induction false} TicksUpWithoutWrap(b: BoxState, width: nat, height: nat, draws: seq<real>)
    requires b.direction == Up && b.speed >= 0.0
    requires b.y - |draws| as real * b.speed + b.size >= 0.0
    ensures Ticks(b, width, height, draws).y == b.y - |draws| as real * b.speed
    ensures Ticks(b, width, height, draws).x == b.x
    decreases |draws|
  {
    if draws != [] {
      var k := |draws| as real;
      assert k >= 1.0;
      assert b.y - b.speed + b.size >= b.y - k * b.speed + b.size by {
        assert k * b.speed >= 1.0 * b.speed;
      }
      var a := Advance(b, width, height, draws[0]);
      assert a.y == b.y - b.speed && a.x == b.x;
      assert |draws[1..]| as real == k - 1.0;
      assert a.y - (k - 1.0) * a.speed == b.y - k * b.speed;
      TicksUpWithoutWrap(a, width, height, draws[1..]);
    }
  }

  /** A box in its lane stays in its lane over any number of steps. */
  lemma {:induction false} TicksKeepInLane(b: BoxState, width: nat, height: nat, draws: seq<real>)
    requires InLane(b, width, height) && b.speed >= 0.0
    requires forall i :: 0 <= i < |draws| ==> IsDraw(draws[i])
    ensures InLane(Ticks(b, width, height, draws), width, height)
    decreases |draws|
  {
    if draws != [] {
      AdvanceKeepsInLane(b, width, height, draws[0]);
      TicksKeepInLane(Advance(b, width, height, draws[0]), width, height, draws[1..]);
    }
  }

  // ---------------------------------------------------------------------------
  // Creation

  /** Math.floor(draw * n): a uniformly drawn index into a list of n entries. */
  function PickIndex(draw: real, n: nat): (k: nat)
    requires IsDraw(draw) && n > 0
    ensures k < n
  {
    assert draw * n as real < n as real by {
      assert draw * n as real < 1.0 * n as real;
    }
    (draw * n as real).Floor
  }

  /** The ranges a freshly created box lies in. */
  predicate WellFormed(b: BoxState) {
    && 20.0 <= b.size < 60.0
    && 1.0 <= b.speed < 3.0
    && 0.1 <= b.opacity < 0.5
    && -0.02 <= b.rotationSpeed < 0.02
    && 0.0 <= b.rotation < 2.0 * Pi
    && b.color in Palette
  }

  /** Where the scaled draws of the object literal land. */
  lemma DrawRanges(d: seq<real>)
    requires |d| == 9 && forall i :: 0 <= i < 9 ==> IsDraw(d[i])
    ensures 20.0 <= d[2] * 40.0 + 20.0 < 60.0
    ensures 1.0 <= d[4] * 2.0 + 1.0 < 3.0
    ensures 0.1 <= d[5] * 0.4 + 0.1 < 0.5
    ensures -0.02 <= (d[6] - 0.5) * 0.04 < 0.02
    ensures 0.0 <= d[7] * Pi * 2.0 < 2.0 * Pi
  {
    assert IsDraw(d[7]);
    assert d[7] * Pi < 1.0 * Pi;
  }

  /** The object literal pushed by the initialisation loop, from its nine
      Math.random() draws in the order they are made. Every box it makes lies
      in the creation ranges. */
  function NewBox(d: seq<real>, width: nat, height: nat): (b: BoxState)
    requires |d| == 9 && forall i :: 0 <= i < 9 ==> IsDraw(d[i])
    ensures WellFormed(b)
  {
    DrawRanges(d);
    BoxState(
      x := d[0] * width as real,
      y := d[1] * height as real,
      size := d[2] * 40.0 + 20.0,
      direction := Directions[PickIndex(d[3], |Directions|)],
      speed := d[4] * 2.0 + 1.0,
      opacity := d[5] * 0.4 + 0.1,
      rotationSpeed := (d[6] - 0.5) * 0.04,
      rotation := d[7] * Pi * 2.0,
      color := Palette[PickIndex(d[8], |Palette|)])
  }

  /** A new box starts at a position inside the viewport. */
  lemma NewBoxRanges(d: seq<real>, width: nat, height: nat)
    requires |d| == 9 && forall i :: 0 <= i < 9 ==> IsDraw(d[i])
    ensures 0.0 <= NewBox(d, width, height).x && (width > 0 ==> NewBox(d, width, height).x < width as real)
    ensures 0.0 <= NewBox(d, width, height).y && (height > 0 ==> NewBox(d, width, height).y < height as real)
  {
    ScaledDraw(d[0], width);
    ScaledDraw(d[1], height);
  }

  /** A box created in a non-empty viewport starts in its lane. */
  lemma NewBoxInLane(d: seq<real>, width: nat, height: nat)
    requires |d| == 9 && forall i :: 0 <= i < 9 ==> IsDraw(d[i])
    requires width > 0 && height > 0
    ensures InLane(NewBox(d, width, height), width, height)
  {
    NewBoxRanges(d, width, height);
  }
}
