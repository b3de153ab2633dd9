/**
 * The moving trains of the train level (js/levels.js, `MovingTrain`): a
 * box that bounces between two walls on a horizontal or vertical track, or
 * cycles through the waypoints of a custom path.
 */
module Trains {
  import opened Utils

  /**
   * The constructor's `params` object. A missing field is `None`. The
   * source reads every number with `params.f || default`, so a field given
   * as 0 also takes the default. `direction` is accepted but never read.
   */
  datatype TrainParams = TrainParams(
    x: Option<real>, y: Option<real>,
    width: Option<real>, height: Option<real>,
    speed: Option<real>, damage: Option<int>,
    path: Option<string>, pathPoints: Option<seq<(real, real)>>,
    boundaryLeft: Option<real>, boundaryRight: Option<real>,
    boundaryTop: Option<real>, boundaryBottom: Option<real>,
    direction: Option<int>)

  /** `v || d` for a number: the default replaces a missing value and 0. */
  function OrDefault(v: Option<real>, d: real): (r: real)
    ensures v.Some? && v.value != 0.0 ==> r == v.value
    ensures v.None? || v.value == 0.0 ==> r == d
  {
    if v.Some? && v.value != 0.0 then v.value else d
  }

  function OrDefaultInt(v: Option<int>, d: int): (r: int)
    ensures v.Some? && v.value != 0 ==> r == v.value
    ensures v.None? || v.value == 0 ==> r == d
  {
    if v.Some? && v.value != 0 then v.value else d
  }

  /** `s || d` for a string: the default replaces a missing and an empty string. */
  function OrDefaultString(v: Option<string>, d: string): (r: string)
    ensures v.Some? && v.value != "" ==> r == v.value
    ensures v.None? || v.value == "" ==> r == d
  {
    if v.Some? && v.value != "" then v.value else d
  }

  const Horizontal: string := "horizontal"
  const Vertical: string := "vertical"
  const Custom: string := "custom"

  class MovingTrain {
    var x: real
    var y: real
    const width: real
    const height: real
    const speed: real
    const path: string
    var active: bool
    const damage: int
    const pathPoints: seq<(real, real)>
    var currentPathIndex: int
    const boundaryLeft: real
    const boundaryRight: real
    const boundaryTop: real
    const boundaryBottom: real
    var direction: int

    /** The direction is always 1 or -1 and the waypoint index stays in range. */
    ghost predicate Valid()
      reads this`direction, this`currentPathIndex
    {
      (direction == 1 || direction == -1) &&
      0 <= currentPathIndex && (|pathPoints| > 0 ==> currentPathIndex < |pathPoints|)
    }

    /**
     * Defaults: position (0, 0), 100×30, speed 2, damage 50, walls at 0,
     * 800, 0 and 600, a horizontal path and no waypoints. The train starts
     * active, at waypoint 0 and moving in direction 1 whatever `direction`
     * it was given.
     */
    constructor (params: TrainParams)
      ensures Valid()
      ensures x == OrDefault(params.x, 0.0) && y == OrDefault(params.y, 0.0)
      ensures width == OrDefault(params.width, 100.0) && height == OrDefault(params.height, 30.0)
      ensures speed == OrDefault(params.speed, 2.0) && damage == OrDefaultInt(params.damage, 50)
      ensures path == OrDefaultString(params.path, Horizontal)
      ensures pathPoints == (if params.pathPoints.Some? then params.pathPoints.value else [])
      ensures boundaryLeft == OrDefault(params.boundaryLeft, 0.0) && boundaryRight == OrDefault(params.boundaryRight, 800.0)
      ensures boundaryTop == OrDefault(params.boundaryTop, 0.0) && boundaryBottom == OrDefault(params.boundaryBottom, 600.0)
      ensures active && currentPathIndex == 0 && direction == 1
    {
      x := OrDefault(params.x, 0.0);
      y := OrDefault(params.y, 0.0);
      width := OrDefault(params.width, 100.0);
      height := OrDefault(params.height, 30.0);
      speed := OrDefault(params.speed, 2.0);
      path := OrDefaultString(params.path, Horizontal);
      active := true;
      damage := OrDefaultInt(params.damage, 50);
      pathPoints := if params.pathPoints.Some? then params.pathPoints.value else [];
      currentPathIndex := 0;
      boundaryLeft := OrDefault(params.boundaryLeft, 0.0);
      boundaryRight := OrDefault(params.boundaryRight, 800.0);
      boundaryTop := OrDefault(params.boundaryTop, 0.0);
      boundaryBottom := OrDefault(params.boundaryBottom, 600.0);
      direction := 1;
    }

    function Bounds(): Rect
      reads this`x, this`y
    {
      Rect(x, y, width, height)
    }

    /** `collidesWith`: the overlap test between the train and a box. */
    predicate CollidesWith(other: Rect)
      reads this`x, this`y
    {
      CheckCollision(Bounds(), other)
    }

    /**
     * `update`: an inactive train does not move. On a horizontal or vertical
     * track the train advances `speed` in its direction; reaching the low
     * wall puts it on the wall heading +1, reaching the high wall puts it
     * against the wall heading -1. On a custom path with at least two
     * waypoints it steps toward the current waypoint, and when closer than
     * one step it lands on the waypoint and aims at the next one, cyclically.
     */
    method Update(deltaTime: real, trig: Trig)
      requires Valid()
      modifies this`x, this`y, this`direction, this`currentPathIndex
      ensures Valid()
      ensures !active ==> x == old(x) && y == old(y) && direction == old(direction) && currentPathIndex == old(currentPathIndex)
      ensures active && path == Horizontal ==>
                y == old(y) && currentPathIndex == old(currentPathIndex) &&
                (x, direction) == Bounce(old(x) + Stride(speed, old(direction)), width, boundaryLeft, boundaryRight, old(direction))
      ensures active && path == Vertical ==>
                x == old(x) && currentPathIndex == old(currentPathIndex) &&
                (y, direction) == Bounce(old(y) + Stride(speed, old(direction)), height, boundaryTop, boundaryBottom, old(direction))
      ensures active && path == Custom && |pathPoints| > 1 ==>
                direction == old(direction) &&
                var target := pathPoints[old(currentPathIndex)];
                if trig.distance(old(x), old(y), target.0, target.1) < speed then
                  (x, y) == target && currentPathIndex == (old(currentPathIndex) + 1) % |pathPoints|
                else
                  currentPathIndex == old(currentPathIndex) &&
                  x == old(x) + trig.toward(old(x), old(y), target.0, target.1, speed).0 &&
                  y == old(y) + trig.toward(old(x), old(y), target.0, target.1, speed).1
      ensures active && path == Horizontal && boundaryRight - boundaryLeft >= width ==>
                boundaryLeft <= x && x + width <= boundaryRight
      ensures active && path == Vertical && boundaryBottom - boundaryTop >= height ==>
                boundaryTop <= y && y + height <= boundaryBottom
      ensures active && path != Horizontal && path != Vertical && !(path == Custom && |pathPoints| > 1) ==>
                x == old(x) && y == old(y) && direction == old(direction) && currentPathIndex == old(currentPathIndex)
    {
      if !active {
        return;
      }
      if path == Horizontal {
        if boundaryRight - boundaryLeft >= width {
          BounceStaysInside(x + Stride(speed, direction), width, boundaryLeft, boundaryRight, direction);
        }
        x, direction := StepAxis(x, width, boundaryLeft, boundaryRight);
      } else if path == Vertical {
        if boundaryBottom - boundaryTop >= height {
          BounceStaysInside(y + Stride(speed, direction), height, boundaryTop, boundaryBottom, direction);
        }
        y, direction := StepAxis(y, height, boundaryTop, boundaryBottom);
      } else if path == Custom && |pathPoints| > 1 {
        StepCustom(trig);
      }
    }

    /**
     * The track step shared by both axes: advance `speed` in the current
     * direction, then stop at a wall that was reached and turn away from it.
     */
    method StepAxis(p: real, size: real, lo: real, hi: real) returns (q: real, dir: int)
      ensures (q, dir) == Bounce(p + Stride(speed, direction), size, lo, hi, direction)
    {
      q, dir := p + Stride(speed, direction), direction;
      if q <= lo {
        q := lo;
        dir := 1;
      } else if q + size >= hi {
        q := hi - size;
        dir := -1;
      }
    }

    /** One step along a custom path of at least two waypoints. */
    method StepCustom(trig: Trig)
      requires Valid() && |pathPoints| > 1
      modifies this`x, this`y, this`currentPathIndex
      ensures Valid()
      ensures var target := pathPoints[old(currentPathIndex)];
              if trig.distance(old(x), old(y), target.0, target.1) < speed then
                (x, y) == target && currentPathIndex == (old(currentPathIndex) + 1) % |pathPoints|
              else
                currentPathIndex == old(currentPathIndex) &&
                x == old(x) + trig.toward(old(x), old(y), target.0, target.1, speed).0 &&
                y == old(y) + trig.toward(old(x), old(y), target.0, target.1, speed).1
    {
      var target := pathPoints[currentPathIndex];
      var distance := trig.distance(x, y, target.0, target.1);
      if distance < speed {
        x := target.0;
        y := target.1;
        currentPathIndex := (currentPathIndex + 1) % |pathPoints|;
      } else {
        var step := trig.toward(x, y, target.0, target.1, speed);
        x := x + step.0;
        y := y + step.1;
      }
    }
  }

  /** `speed * direction`: the raw move of one step. */
  function Stride(speed: real, dir: int): real {
    speed * dir as real
  }

  /**
   * One axis of a bounce: the position after the raw step `p` and the new
   * direction, for a box of size `size` between walls `lo` and `hi`.
   */
  function Bounce(p: real, size: real, lo: real, hi: real, dir: int): (real, int) {
    if p <= lo then (lo, 1)
    else if p + size >= hi then (hi - size, -1)
    else (p, dir)
  }

  /**
   * The bounce keeps a box that fits between the walls inside them, heads
   * it away from a wall it reached, and keeps a direction of ±1.
   */
  lemma BounceStaysInside(p: real, size: real, lo: real, hi: real, dir: int)
    requires hi - lo >= size
    ensures var (q, d) := Bounce(p, size, lo, hi, dir);
            lo <= q && q + size <= hi &&
            (p <= lo ==> d == 1) &&
            (lo < p && p + size >= hi ==> d == -1) &&
            (lo < p && p + size < hi ==> q == p && d == dir)
  {
  }

  /** `steps` bounces in a row from position p in direction dir. */
  function Travel(p: real, size: real, lo: real, hi: real, speed: real, dir: int, steps: nat): (real, int)
    decreases steps
  {
    if steps == 0 then (p, dir)
    else
      var (q, d) := Bounce(p + Stride(speed, dir), size, lo, hi, dir);
      Travel(q, size, lo, hi, speed, d, steps - 1)
  }

  /**
   * However many steps a train on a track wide enough for it takes, it
   * stays between the walls and its direction stays ±1.
   */
  lemma {:induction false} TravelStaysInside(p: real, size: real, lo: real, hi: real, speed: real, dir: int, steps: nat)
    requires hi - lo >= size && (dir == 1 || dir == -1)
    requires steps == 0 ==> lo <= p && p + size <= hi
    ensures var (q, d) := Travel(p, size, lo, hi, speed, dir, steps);
            lo <= q && q + size <= hi && (d == 1 || d == -1)
    decreases steps
  {
    if steps > 0 {
      var (q, d) := Bounce(p + Stride(speed, dir), size, lo, hi, dir);
      BounceStaysInside(p + Stride(speed, dir), size, lo, hi, dir);
      if steps > 1 {
        TravelStaysInside(q, size, lo, hi, speed, d, steps - 1);
      }
    }
  }
}
