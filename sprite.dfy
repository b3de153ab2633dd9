/**
 * The base entity of the game (js/sprite.js): a positioned box with an
 * active flag. Dafny has no class inheritance here, so each entity class of
 * the other modules carries its own copy of these fields and its own
 * `Bounds()`; this class models the base class's own behaviour.
 */
module Sprites {
  import opened Utils

  class Sprite {
    var x: real
    var y: real
    var width: real
    var height: real
    var hasTexture: bool
    var speed: real
    var active: bool

    /** A new sprite is active, has speed 0 and no texture yet. */
    constructor (x: real, y: real, width: real, height: real)
      ensures this.x == x && this.y == y && this.width == width && this.height == height
      ensures active && speed == 0.0 && !hasTexture
    {
      this.x, this.y, this.width, this.height := x, y, width, height;
      hasTexture := false;
      speed := 0.0;
      active := true;
    }

    /** `getBounds`: the sprite's own box. */
    function GetBounds(): (r: Rect)
      reads this
    {
      Rect(x, y, width, height)
    }

    /** `collidesWith`: the overlap test on the two boxes. */
    predicate CollidesWith(other: Sprite)
      reads this, other
    {
      CheckCollision(GetBounds(), other.GetBounds())
    }

    /** The base `update` does nothing. */
    method Update(deltaTime: real)
      ensures unchanged(this)
    {
    }
  }

  /** Collision between sprites is symmetric, and agrees with the position and size fields. */
  lemma CollidesWithSymmetric(a: Sprite, b: Sprite)
    ensures a.CollidesWith(b) == b.CollidesWith(a)
    ensures a.CollidesWith(b) <==> CheckCollision(Rect(a.x, a.y, a.width, a.height), Rect(b.x, b.y, b.width, b.height))
  {
  }
}
