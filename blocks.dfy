/**
 * The static and pick-up entities of a level (js/blocks.js): blocks that
 * can be shot, coins, portals, doors, caged birds and power-up blocks.
 * The block kinds that extend `Block` in the source are separate classes
 * here, each with the fields of `Block` it uses.
 */
module Blocks {
  import opened Utils
  import opened Players

  /** The `type` a Block is built with; only "biochem" changes its behaviour. */
  const BiochemType: string := "biochem"

  class Block {
    const x: real
    const y: real
    const width: real
    const height: real
    const kind: string
    const breakable: bool
    const maxHealth: int
    const destructionScore: int
    var health: int
    var active: bool

    /**
     * A biochem block is always breakable and worth 25 when destroyed;
     * every other block keeps the `breakable` flag it was given (default
     * false) and is worth 10.
     */
    constructor (x: real, y: real, kind: string, width: real := 50.0, height: real := 50.0,
                 breakable: bool := false, health: int := 1)
      ensures this.x == x && this.y == y && this.width == width && this.height == height && this.kind == kind
      ensures this.breakable <==> kind == BiochemType || breakable
      ensures destructionScore == if kind == BiochemType then 25 else 10
      ensures this.health == health && maxHealth == health && active
    {
      this.x, this.y, this.width, this.height, this.kind := x, y, width, height, kind;
      this.breakable := kind == BiochemType || breakable;
      this.health, maxHealth := health, health;
      destructionScore := if kind == BiochemType then 25 else 10;
      active := true;
    }

    function Bounds(): Rect {
      Rect(x, y, width, height)
    }

    /**
     * `takeDamage`: an unbreakable block ignores the hit and reports false;
     * a breakable one loses `damage` health and reports whether it is at or
     * below 0. The block is never deactivated, so a destroyed block goes on
     * reporting destruction on every later hit.
     */
    method TakeDamage(damage: int) returns (destroyed: bool)
      modifies this`health
      ensures breakable ==> health == old(health) - damage && (destroyed <==> health <= 0)
      ensures !breakable ==> health == old(health) && !destroyed
    {
      if breakable {
        health := health - damage;
        return health <= 0;
      }
      return false;
    }
  }

  /** The speed a coin keeps after each `update`. */
  const CoinFriction: real := 0.95

  class Coin {
    var x: real
    var y: real
    const width: real := 15.0
    const height: real := 15.0
    const value: int
    var collected: bool
    var velocityX: real
    var velocityY: real

    /**
     * A coin drops with a random scatter: heading `random()·2π` and speed
     * `2 + random()·3`, in that order.
     */
    constructor (x: real, y: real, rng: Random, trig: Trig, value: int := 5)
      requires rng.Valid()
      modifies rng`drawn
      ensures this.x == x && this.y == y && this.value == value && !collected
      ensures rng.drawn == old(rng.drawn) + 2
      ensures (velocityX, velocityY) == Scatter(trig, rng.draw(old(rng.drawn)), rng.draw(old(rng.drawn) + 1))
    {
      this.x, this.y, this.value := x, y, value;
      collected := false;
      var r1 := rng.Next();
      var r2 := rng.Next();
      var v := Scatter(trig, r1, r2);
      velocityX, velocityY := v.0, v.1;
    }

    function Bounds(): Rect
      reads this`x, this`y
    {
      Rect(x, y, width, height)
    }

    /**
     * `update`: a coin not yet collected moves by its velocity, and friction
     * then shrinks the velocity by 5%, so a coin slides to a stop; a
     * collected coin stays put.
     */
    method Update()
      modifies this`x, this`y, this`velocityX, this`velocityY
      ensures collected ==> x == old(x) && y == old(y) && velocityX == old(velocityX) && velocityY == old(velocityY)
      ensures !collected ==> x == old(x) + old(velocityX) && y == old(y) + old(velocityY) &&
                             velocityX == old(velocityX) * CoinFriction && velocityY == old(velocityY) * CoinFriction
      ensures Abs(velocityX) <= Abs(old(velocityX)) && Abs(velocityY) <= Abs(old(velocityY))
    {
      if !collected {
        x := x + velocityX;
        y := y + velocityY;
        velocityX := velocityX * CoinFriction;
        velocityY := velocityY * CoinFriction;
      }
    }

    /** `collect`: marks the coin collected and hands over its value. */
    method Collect() returns (amount: int)
      modifies this`collected
      ensures collected && amount == value
    {
      collected := true;
      return value;
    }
  }

  /** The drop velocity of a coin from two random draws: heading r1·2π, speed 2 + r2·3. */
  function Scatter(trig: Trig, r1: real, r2: real): (real, real) {
    trig.polar(r1 * trig.tau, 2.0 + r2 * 3.0)
  }

  function Abs(r: real): real { if r < 0.0 then -r else r }

  class Portal {
    const x: real
    const y: real
    const width: real := 50.0
    const height: real := 50.0
    const targetX: real
    const targetY: real
    var active: bool
    var cooldown: real

    constructor (x: real, y: real, targetX: real, targetY: real)
      ensures this.x == x && this.y == y && this.targetX == targetX && this.targetY == targetY
      ensures active && cooldown == 0.0
    {
      this.x, this.y, this.targetX, this.targetY := x, y, targetX, targetY;
      active := true;
      cooldown := 0.0;
    }

    /** `update`: a pending cooldown counts down by the frame time. */
    method Update(deltaTime: real)
      modifies this`cooldown
      ensures cooldown == if old(cooldown) > 0.0 then old(cooldown) - deltaTime else old(cooldown)
    {
      if cooldown > 0.0 {
        cooldown := cooldown - deltaTime;
      }
    }

    /**
     * `teleport`: an active portal whose cooldown has run out moves the
     * entity to its target and starts a 1000 ms cooldown; otherwise nothing
     * changes.
     */
    method Teleport(entity: Player) returns (moved: bool)
      modifies this`cooldown, entity`x, entity`y
      ensures moved <==> active && old(cooldown) <= 0.0
      ensures moved ==> entity.x == targetX && entity.y == targetY && cooldown == 1000.0
      ensures !moved ==> entity.x == old(entity.x) && entity.y == old(entity.y) && cooldown == old(cooldown)
    {
      if active && cooldown <= 0.0 {
        entity.x := targetX;
        entity.y := targetY;
        cooldown := 1000.0;
        return true;
      }
      return false;
    }
  }

  class Door {
    const x: real
    const y: real
    const width: real
    const height: real
    const breakable: bool
    var health: int
    var locked: bool

    /** A door is 60×100 and locked unless told otherwise; it is never breakable. */
    constructor (x: real, y: real, width: real := 60.0, height: real := 100.0, locked: bool := true)
      ensures this.x == x && this.y == y && this.width == width && this.height == height
      ensures this.locked == locked && !breakable && health == 1
    {
      this.x, this.y, this.width, this.height := x, y, width, height;
      this.locked := locked;
      breakable := false;
      health := 1;
    }

    function Bounds(): Rect {
      Rect(x, y, width, height)
    }

    /** `unlock`: afterwards the door reports unlocked, however often it is called. */
    method Unlock()
      modifies this`locked
      ensures !IsLocked()
    {
      locked := false;
    }

    predicate IsLocked()
      reads this`locked
    {
      locked
    }
  }

  /** Birds deactivate once they have flown above y = -50. */
  const BirdEscapeY: real := -50.0

  class Bird {
    var x: real
    var y: real
    const width: real
    const height: real
    const small: bool
    var caged: bool
    var active: bool
    var freedTime: real
    const scoreValue: int := 25
    const flySpeed: real
    const flyAngle: real
    /** `cos(flyAngle)·flySpeed`, the sideways drift of a freed bird. */
    const driftX: real
    var animationTimer: real
    var wingState: int

    ghost predicate Valid()
      reads this`wingState
    {
      flySpeed >= 2.0 && 0 <= wingState < 3
    }

    /**
     * A caged bird, 25 wide if small and 40 otherwise, with fly speed
     * `2 + random()` and heading `random()·2π`, drawn in that order.
     */
    constructor (x: real, y: real, small: bool, rng: Random, trig: Trig)
      requires rng.Valid()
      modifies rng`drawn
      ensures Valid()
      ensures this.x == x && this.y == y && this.small == small
      ensures width == height == (if small then 25.0 else 40.0)
      ensures caged && active && freedTime == 0.0 && wingState == 0 && animationTimer == 0.0
      ensures rng.drawn == old(rng.drawn) + 2 && flySpeed == 2.0 + rng.draw(old(rng.drawn))
      ensures flyAngle == rng.draw(old(rng.drawn) + 1) * trig.tau && driftX == trig.polar(flyAngle, flySpeed).0
    {
      this.x, this.y, this.small := x, y, small;
      var size := if small then 25.0 else 40.0;
      width, height := size, size;
      caged, active := true, true;
      freedTime := 0.0;
      var r1 := rng.Next();
      var r2 := rng.Next();
      flySpeed := 2.0 + r1;
      flyAngle := r2 * trig.tau;
      driftX := trig.polar(r2 * trig.tau, 2.0 + r1).0;
      animationTimer, wingState := 0.0, 0;
    }

    function Bounds(): Rect
      reads this`x, this`y
    {
      Rect(x, y, width, height)
    }

    /**
     * `update`: the wings flap every 200 ms; a caged bird stays where it is,
     * a freed one drifts sideways and climbs by 1.5·flySpeed, and leaves the
     * game once it is above y = -50.
     */
    method Update(deltaTime: real)
      requires Valid()
      modifies this`x, this`y, this`active, this`animationTimer, this`wingState
      ensures Valid()
      ensures caged ==> x == old(x) && y == old(y) && active == old(active)
      ensures !caged ==> x == old(x) + driftX && y == old(y) - flySpeed * 1.5 && y < old(y) &&
                         (active <==> old(active) && y >= BirdEscapeY)
    {
      animationTimer := animationTimer + deltaTime;
      if animationTimer > 200.0 {
        wingState := (wingState + 1) % 3;
        animationTimer := 0.0;
      }
      if !caged {
        x := x + driftX;
        y := y - flySpeed * 1.5;
        if y < BirdEscapeY {
          active := false;
        }
      }
    }

    /** `free`: opens the cage only once; later calls report false and change nothing. */
    method Free(now: real) returns (freed: bool)
      modifies this`caged, this`freedTime
      ensures freed <==> old(caged)
      ensures !caged
      ensures freedTime == if freed then now else old(freedTime)
    {
      if caged {
        caged := false;
        freedTime := now;
        return true;
      }
      return false;
    }
  }

  class PowerUpBlock {
    const x: real
    const y: real
    const width: real := 30.0
    const height: real := 30.0
    const powerUpType: string
    const breakable: bool
    const maxHealth: int
    const destructionScore: int
    var health: int
    var active: bool

    /** A 30×30 breakable block of health 1, worth 5 when destroyed; the type defaults to "health". */
    constructor (x: real, y: real, powerUpType: string := "health")
      ensures this.x == x && this.y == y && this.powerUpType == powerUpType
      ensures breakable && health == 1 && maxHealth == 1 && destructionScore == 5 && active
    {
      this.x, this.y, this.powerUpType := x, y, powerUpType;
      breakable := true;
      health, maxHealth := 1, 1;
      destructionScore := 5;
      active := true;
    }

    function Bounds(): Rect {
      Rect(x, y, width, height)
    }

    /** The inherited `takeDamage`; a power-up block is breakable, so every hit counts. */
    method TakeDamage(damage: int) returns (destroyed: bool)
      modifies this`health
      ensures breakable ==> health == old(health) - damage && (destroyed <==> health <= 0)
      ensures !breakable ==> health == old(health) && !destroyed
    {
      if breakable {
        health := health - damage;
        return health <= 0;
      }
      return false;
    }

    /**
     * The part of `applyPowerUp` that acts on the player's health, weapon
     * and speed, against the values `health0`, `weaponLevel0` and `speed0`
     * they had before: "health" heals 20 + 5·level up to the maximum,
     * "weapon" raises a weapon below level 3 by one, "speed" adds 0.5, and
     * nothing else touches them.
     */
    ghost predicate Applied(player: Player, health0: int, weaponLevel0: int, speed0: real)
      reads player`health, player`maxHealth, player`level, player`weaponLevel, player`speed
    {
      (powerUpType == "health" ==>
         player.health <= player.maxHealth && player.health <= health0 + 20 + 5 * player.level &&
         (player.health == health0 + 20 + 5 * player.level || player.health == player.maxHealth)) &&
      (powerUpType != "health" ==> player.health == health0) &&
      player.weaponLevel == (if powerUpType == "weapon" && weaponLevel0 < 3 then weaponLevel0 + 1 else weaponLevel0) &&
      player.speed == speed0 + (if powerUpType == "speed" then 0.5 else 0.0)
    }

    /**
     * `applyPowerUp`: "health" heals 20 + 5·level; "weapon" upgrades a
     * weapon below level 3 and otherwise gives 25 score; "key" gives a key;
     * "score" gives 50·level score; "speed" adds 0.5 to the player's speed;
     * any other type does nothing.
     */
    method ApplyPowerUp(player: Player)
      modifies player`health, player`weaponLevel, player`score, player`keys, player`speed
      ensures powerUpType == "health" ==>
                player.health <= player.maxHealth && player.health <= old(player.health) + 20 + 5 * player.level &&
                (player.health == old(player.health) + 20 + 5 * player.level || player.health == player.maxHealth)
      ensures powerUpType != "health" ==> player.health == old(player.health)
      ensures player.weaponLevel ==
                if powerUpType == "weapon" && old(player.weaponLevel) < 3 then old(player.weaponLevel) + 1 else old(player.weaponLevel)
      ensures player.score == old(player.score) +
                (if powerUpType == "weapon" && old(player.weaponLevel) >= 3 then 25
                 else if powerUpType == "score" then 50 * player.level else 0)
      ensures player.keys == old(player.keys) + (if powerUpType == "key" then 1 else 0)
      ensures player.speed == old(player.speed) + (if powerUpType == "speed" then 0.5 else 0.0)
    {
      if powerUpType == "health" {
        player.Heal(20 + player.level * 5);
      } else if powerUpType == "weapon" {
        if player.weaponLevel < 3 {
          var _ := player.UpgradeWeapon();
        } else {
          player.AddScore(25);
        }
      } else if powerUpType == "key" {
        player.AddKey();
      } else if powerUpType == "score" {
        player.AddScore(50 * player.level);
      } else if powerUpType == "speed" {
        player.speed := player.speed + 0.5;
      }
    }
  }
}
