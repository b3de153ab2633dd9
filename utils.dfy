/**
 * The leaf utilities of the game (js/utils.js): the axis-aligned rectangle
 * overlap test every interaction uses, `randomInt`, and the two things the
 * model takes as given instead of computing: the random stream behind
 * `Math.random` and the floating-point geometry behind `sqrt`, `cos`, `sin`
 * and `atan2`.
 */
module Utils {

  /** A value that may be absent: `null` in the source. */
  datatype Option<T> = None | Some(value: T)

  /** An axis-aligned rectangle: the `{x, y, width, height}` records of the source. */
  datatype Rect = Rect(x: real, y: real, width: real, height: real)

  /** `checkCollision`: all four comparisons are strict. */
  predicate CheckCollision(a: Rect, b: Rect) {
    a.x < b.x + b.width &&
    a.x + a.width > b.x &&
    a.y < b.y + b.height &&
    a.y + a.height > b.y
  }

  /** Point (px, py) lies strictly inside r. */
  predicate Inside(r: Rect, px: real, py: real) {
    r.x < px < r.x + r.width && r.y < py < r.y + r.height
  }

  function Max(a: real, b: real): real { if a < b then b else a }
  function Min(a: real, b: real): real { if a < b then a else b }

  /**
   * An independent reading of the overlap test: two rectangles collide
   * exactly when some point lies strictly inside both of them. This holds for
   * rectangles of positive size, as every entity of the game is; a degenerate
   * rectangle has no interior yet can pass the four comparisons.
   */
  lemma {:induction false} CollisionIffCommonInteriorPoint(a: Rect, b: Rect)
    requires a.width > 0.0 && a.height > 0.0 && b.width > 0.0 && b.height > 0.0
    ensures CheckCollision(a, b) <==> exists px, py :: Inside(a, px, py) && Inside(b, px, py)
  {
    if CheckCollision(a, b) {
      var loX, hiX := Max(a.x, b.x), Min(a.x + a.width, b.x + b.width);
      var loY, hiY := Max(a.y, b.y), Min(a.y + a.height, b.y + b.height);
      assert loX < hiX && loY < hiY;
      var px, py := (loX + hiX) / 2.0, (loY + hiY) / 2.0;
      assert Inside(a, px, py) && Inside(b, px, py);
    }
    if exists px, py :: Inside(a, px, py) && Inside(b, px, py) {
      var px, py :| Inside(a, px, py) && Inside(b, px, py);
      assert CheckCollision(a, b);
    }
  }

  /** Rectangles that only share an edge (or lie apart) do not collide. */
  lemma EdgeContactIsNoCollision(a: Rect, b: Rect)
    requires a.x + a.width <= b.x || b.x + b.width <= a.x ||
             a.y + a.height <= b.y || b.y + b.height <= a.y
    ensures !CheckCollision(a, b)
  {
  }

  /** `Math.floor` on a real. */
  function Floor(r: real): (n: int)
    ensures n as real <= r < n as real + 1.0
  {
    r.Floor
  }

  /**
   * `randomInt(min, max)`, with the value `Math.random()` returned passed in
   * as `r` (the source draws it from [0, 1)).
   */
  function RandomInt(min: int, max: int, r: real): (n: int)
    requires 0.0 <= r < 1.0
    ensures min <= max ==> min <= n <= max
  {
    var span := max - min + 1;
    ScaledBelow(r, span);
    Floor(r * span as real) + min
  }

  /** r·k lies in [0, k) when r is in [0, 1) and k is positive. */
  lemma ScaledBelow(r: real, k: int)
    requires 0.0 <= r < 1.0
    ensures k >= 1 ==> 0.0 <= r * k as real < k as real
  {
    if k >= 1 {
      assert r * k as real < 1.0 * k as real;
    }
  }

  /**
   * `Math.floor(r * n)`: the index of the one of n equal slots of [0, 1)
   * that holds r, the way the source picks a list entry at random.
   */
  function Pick(r: real, n: int): (k: int)
    requires 0.0 <= r < 1.0 && n >= 1
    ensures 0 <= k < n
    ensures k as real <= r * n as real < k as real + 1.0
  {
    ScaledBelow(r, n);
    Floor(r * n as real)
  }

  /** r·w lies in [0, w] when r is in [0, 1) and w is not negative. */
  lemma ScaledWithin(r: real, w: real)
    requires 0.0 <= r < 1.0 && w >= 0.0
    ensures 0.0 <= r * w <= w
  {
    assert r * w <= 1.0 * w;
  }

  /**
   * The `Math.random` stream: the n-th call returns `draw(n)`. `drawn`
   * counts the calls made so far.
   */
  class Random {
    const draw: nat -> real
    var drawn: nat

    ghost predicate Valid()
    {
      forall n: nat :: 0.0 <= draw(n) < 1.0
    }

    constructor (draw: nat -> real)
      requires forall n: nat :: 0.0 <= draw(n) < 1.0
      ensures Valid() && this.draw == draw && drawn == 0
    {
      this.draw := draw;
      drawn := 0;
    }

    /** One call of `Math.random()`. */
    method Next() returns (r: real)
      requires Valid()
      modifies this`drawn
      ensures r == draw(old(drawn)) && drawn == old(drawn) + 1
      ensures 0.0 <= r < 1.0
    {
      r := draw(drawn);
      drawn := drawn + 1;
    }
  }

  /**
   * The floating-point geometry the source computes with `sqrt`, `cos`,
   * `sin` and `atan2`, taken as given:
   *   toward(x, y, tx, ty, s)  the step of length s from (x, y) toward (tx, ty)
   *                            (`moveTowardTarget`; (0, 0) when the points coincide)
   *   polar(angle, s)          (cos(angle)·s, sin(angle)·s)
   *   aim(x, y, tx, ty)        atan2(ty - y, tx - x)
   *   distance(x, y, tx, ty)   the Euclidean distance
   *   sqrt(v)                  the square root
   *   tau                      2π
   */
  datatype Trig = Trig(
    toward: (real, real, real, real, real) -> (real, real),
    polar: (real, real) -> (real, real),
    aim: (real, real, real, real) -> real,
    distance: (real, real, real, real) -> real,
    sqrt: real -> real,
    tau: real)

  /**
   * What one frame reads from outside the game state: the `Date.now()`
   * reading, the geometry and the random stream.
   */
  datatype Env = Env(now: real, trig: Trig, rng: Random)
}
