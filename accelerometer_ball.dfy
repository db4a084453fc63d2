/**
  The tilt ball: a position in percent of the screen that each animation frame
  moves by twice the tilt reading, y inverted, and keeps within [5, 95].
 */
module AccelerometerBall {
  import opened Wrappers
  import opened Accelerometer

  datatype Position = Position(x: real, y: real)

  const StartPosition := Position(50.0, 50.0)
  const Sensitivity: real := 2.0
  const Low: real := 5.0
  const High: real := 95.0

  predicate InBounds(p: Position) {
    Low <= p.x <= High && Low <= p.y <= High
  }

  /** `Math.max(5, Math.min(95, v))`. */
  function Clamp(v: real): (r: real)
    ensures Low <= r <= High
    ensures Low <= v <= High ==> r == v
    ensures v < Low ==> r == Low
    ensures v > High ==> r == High
  {
    var capped := if v < High then v else High;
    if capped > Low then capped else Low
  }

  /** The position before clamping: x moves with the tilt, y against it; a missing axis reads 0. */
  function Unclamped(prev: Position, data: AccelerometerData): Position {
    Position(prev.x + AxisValue(data.x) * Sensitivity, prev.y - AxisValue(data.y) * Sensitivity)
  }

  /** The setBallPosition updater of one animation frame. */
  function NextPosition(prev: Position, data: AccelerometerData): (next: Position)
    ensures InBounds(next)
    ensures InBounds(Unclamped(prev, data)) ==> next == Unclamped(prev, data)
    ensures next.x == Clamp(Unclamped(prev, data).x) && next.y == Clamp(Unclamped(prev, data).y)
  {
    var newX := prev.x + AxisValue(data.x) * Sensitivity;
    var newY := prev.y - AxisValue(data.y) * Sensitivity;
    Position(Clamp(newX), Clamp(newY))
  }

  /** A tilt to the right never moves the ball left, nor does one upward move it down, from inside the bounds. */
  lemma TiltDirection(prev: Position, data: AccelerometerData)
    requires InBounds(prev)
    ensures AxisValue(data.x) >= 0.0 ==> NextPosition(prev, data).x >= prev.x
    ensures AxisValue(data.x) <= 0.0 ==> NextPosition(prev, data).x <= prev.x
    ensures AxisValue(data.y) >= 0.0 ==> NextPosition(prev, data).y <= prev.y
    ensures AxisValue(data.y) <= 0.0 ==> NextPosition(prev, data).y >= prev.y
  {
  }

  /** needsPermission: the sensor exists and the user has not answered yet. */
  predicate NeedsPermission(isSupported: bool, permission: Permission) {
    isSupported && permission == Prompt
  }

  /** The effect's guard: the loop starts only with both x and y readings and a granted permission. */
  predicate LoopRuns(data: AccelerometerData, permission: Permission) {
    data.x.Some? && data.y.Some? && permission == Granted
  }

  /** While the permission prompt shows, the ball does not move. */
  lemma PromptStopsLoop(isSupported: bool, data: AccelerometerData, permission: Permission)
    ensures NeedsPermission(isSupported, permission) ==> !LoopRuns(data, permission)
    ensures LoopRuns(data, permission) ==> data.x.Some? && data.y.Some? && !NeedsPermission(isSupported, permission)
  {
  }

  /** The position after `frames` frames of the same reading. */
  function Iterate(p: Position, data: AccelerometerData, frames: nat): Position
    decreases frames
  {
    if frames == 0 then p else Iterate(NextPosition(p, data), data, frames - 1)
  }

  /** From inside the bounds, the ball never leaves them. */
  lemma {:induction false} IterateInBounds(p: Position, data: AccelerometerData, frames: nat)
    requires InBounds(p)
    ensures InBounds(Iterate(p, data, frames))
    decreases frames
  {
    if frames > 0 {
      IterateInBounds(NextPosition(p, data), data, frames - 1);
    }
  }

  /** One coordinate moved by `d` per frame and clamped, over `frames` frames. */
  function Slide(v: real, d: real, frames: nat): real
    decreases frames
  {
    if frames == 0 then v else Slide(Clamp(v + d), d, frames - 1)
  }

  /** The x coordinate moves on its own, by 2·x per frame. */
  lemma {:induction false} IterateSlidesX(p: Position, data: AccelerometerData, frames: nat)
    ensures Iterate(p, data, frames).x == Slide(p.x, AxisValue(data.x) * Sensitivity, frames)
    decreases frames
  {
    if frames > 0 {
      IterateSlidesX(NextPosition(p, data), data, frames - 1);
    }
  }

  /**
    Moving by d >= 0 per frame from inside the bounds goes straight until the
    upper edge, then stays there; with `IterateSlidesX`, a steady tilt to the
    right moves the ball 2·x per frame until it stops at the right edge.
   */
  lemma {:induction false} SlideToEdge(v: real, d: real, frames: nat)
    requires Low <= v <= High && d >= 0.0
    ensures Slide(v, d, frames) == if v + frames as real * d < High then v + frames as real * d else High
    decreases frames
  {
    if frames > 0 {
      SlideToEdge(Clamp(v + d), d, frames - 1);
      assert frames as real * d == (frames - 1) as real * d + d;
      assert (frames - 1) as real * d >= 0.0;
    }
  }

  /** The ball's state. */
  class Ball {
    var position: Position

    constructor ()
      ensures position == StartPosition
    {
      position := StartPosition;
    }

    /**
      The animation loop: when the guard holds, `frames` animation frames each
      apply the updater to the previous position; otherwise nothing moves.
     */
    method Animate(data: AccelerometerData, permission: Permission, frames: nat)
      requires InBounds(position)
      modifies this
      ensures InBounds(position)
      ensures !LoopRuns(data, permission) ==> position == old(position)
      ensures LoopRuns(data, permission) ==> position == Iterate(old(position), data, frames)
    {
      if !LoopRuns(data, permission) {
        return;
      }
      var i := 0;
      while i < frames
        invariant 0 <= i <= frames
        invariant InBounds(position)
        invariant Iterate(position, data, frames - i) == Iterate(old(position), data, frames)
      {
        position := NextPosition(position, data);
        i := i + 1;
      }
    }
  }
}
