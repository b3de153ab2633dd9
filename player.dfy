/**
 * The player and the player's projectiles (js/player.js): health and
 * invulnerability, keys, coins, score, the XP level-up loop, weapon level,
 * the shot pattern, movement with its clamp, and projectile lifetime.
 */
module Players {
  import opened Utils
  import opened Controls

  /** The arguments of `new Projectile({...})`: start, heading, speed and damage. */
  datatype Shot = Shot(x: real, y: real, angle: real, speed: real, damage: int)

  /** The playfield a projectile may fly in: [0, 800] × [0, 600]. */
  const FieldWidth: real := 800.0
  const FieldHeight: real := 600.0

  /** Invulnerability after a hit lasts 1000 ms. */
  const InvulnerabilityTime: real := 1000.0

  /** The part of the player that damage changes: health, life and the invulnerability window. */
  datatype Vitals = Vitals(health: int, active: bool, invulnerable: bool, timer: real)

  /**
   * `takeDamage` on values: ignored while invulnerable; otherwise health
   * drops by `amount`, floored at 0 where the player dies, and 1000 ms of
   * invulnerability start.
   */
  function Hurt(v: Vitals, amount: int): (r: Vitals)
    ensures r.invulnerable
    ensures v.invulnerable ==> r == v
    ensures !v.invulnerable ==>
              r.health == (if v.health - amount <= 0 then 0 else v.health - amount) &&
              (r.active <==> v.active && v.health - amount > 0) && r.timer == InvulnerabilityTime
  {
    if v.invulnerable then v
    else if v.health - amount <= 0 then Vitals(0, false, true, InvulnerabilityTime)
    else Vitals(v.health - amount, v.active, true, InvulnerabilityTime)
  }

  /** A hit leaves the player invulnerable, so any further hit in the same frame changes nothing. */
  lemma HurtOnce(v: Vitals, a: int, b: int)
    ensures Hurt(Hurt(v, a), b) == Hurt(v, a)
  {
  }

  class Projectile {
    var x: real
    var y: real
    const width: real := 10.0
    const height: real := 10.0
    const angle: real
    const speed: real
    const damage: int
    const range: real := 800.0
    var distanceTraveled: real
    const velocityX: real
    const velocityY: real
    var active: bool

    constructor (shot: Shot, trig: Trig)
      ensures x == shot.x && y == shot.y && angle == shot.angle
      ensures speed == shot.speed && damage == shot.damage
      ensures (velocityX, velocityY) == trig.polar(shot.angle, shot.speed)
      ensures distanceTraveled == 0.0 && active
    {
      x, y := shot.x, shot.y;
      angle, speed, damage := shot.angle, shot.speed, shot.damage;
      distanceTraveled := 0.0;
      var v := trig.polar(shot.angle, shot.speed);
      velocityX, velocityY := v.0, v.1;
      active := true;
    }

    function Bounds(): Rect
      reads this`x, this`y
    {
      Rect(x, y, width, height)
    }

    predicate OnField()
      reads this
    {
      0.0 <= x <= FieldWidth && 0.0 <= y <= FieldHeight
    }

    /**
     * The effect of one `update`: one step along the velocity, `speed` more
     * distance travelled, and alive only if it was alive, is within range
     * and is on the playfield.
     */
    twostate predicate Stepped()
      reads this
    {
      x == old(x) + velocityX && y == old(y) + velocityY &&
      distanceTraveled == old(distanceTraveled) + speed &&
      (active <==> old(active) && distanceTraveled <= range && OnField())
    }

    /**
     * One step along the velocity (per call, not scaled by deltaTime). The
     * projectile dies once it has travelled more than its range or left the
     * playfield, and never comes back to life.
     */
    method Update(deltaTime: real)
      modifies this`x, this`y, this`distanceTraveled, this`active
      ensures Stepped()
    {
      x := x + velocityX;
      y := y + velocityY;
      distanceTraveled := distanceTraveled + speed;
      if distanceTraveled > range {
        active := false;
      }
      if x < 0.0 || x > FieldWidth || y < 0.0 || y > FieldHeight {
        active := false;
      }
    }
  }

  /** No object occurs twice in s. */
  ghost predicate Distinct<T>(s: seq<T>) {
    forall i, j :: 0 <= i < j < |s| ==> s[i] != s[j]
  }

  /** The elements of `es` whose flag in `keep` is set, in order. */
  function Select<T>(es: seq<T>, keep: seq<bool>): (r: seq<T>)
    requires |es| == |keep|
    ensures |r| <= |es|
  {
    if es == [] then [] else (if keep[0] then [es[0]] else []) + Select(es[1..], keep[1..])
  }

  /** An element is selected exactly when it sits at a position whose flag is set. */
  lemma {:induction false} SelectMembers<T>(es: seq<T>, keep: seq<bool>)
    requires |es| == |keep|
    ensures forall e :: e in Select(es, keep) ==> exists k :: 0 <= k < |es| && keep[k] && es[k] == e
    ensures forall k :: 0 <= k < |es| && keep[k] ==> es[k] in Select(es, keep)
  {
    if es != [] {
      var rest := Select(es[1..], keep[1..]);
      SelectMembers(es[1..], keep[1..]);
      assert Select(es, keep) == (if keep[0] then [es[0]] else []) + rest;
      forall e | e in Select(es, keep)
        ensures exists k :: 0 <= k < |es| && keep[k] && es[k] == e
      {
        if !(keep[0] && e == es[0]) {
          assert e in rest;
          var k :| 0 <= k < |es| - 1 && keep[1..][k] && es[1..][k] == e;
          assert keep[k + 1] && es[k + 1] == e;
        }
      }
      forall k | 0 <= k < |es| && keep[k]
        ensures es[k] in Select(es, keep)
      {
        if k > 0 {
          assert keep[1..][k - 1] && es[1..][k - 1] == es[k];
        }
      }
    }
  }

  /** Selecting from a list without repeats gives a list without repeats. */
  lemma {:induction false} SelectDistinct<T>(es: seq<T>, keep: seq<bool>)
    requires |es| == |keep| && Distinct(es)
    ensures Distinct(Select(es, keep))
  {
    if es != [] {
      var rest := Select(es[1..], keep[1..]);
      SelectDistinct(es[1..], keep[1..]);
      SelectMembers(es[1..], keep[1..]);
      if keep[0] {
        var r := [es[0]] + rest;
        assert es[0] !in rest;
        forall a, b | 0 <= a < b < |r|
          ensures r[a] != r[b]
        {
          if a > 0 {
            assert r[a] == rest[a - 1] && r[b] == rest[b - 1];
          } else {
            assert r[b] == rest[b - 1] && r[b] in rest;
          }
        }
      } else {
        assert Select(es, keep) == rest;
      }
    }
  }

  /** Selecting from two joined lists selects from the first, then from the second: the order is kept across the join. */
  lemma {:induction false} SelectAppend<T>(a: seq<T>, b: seq<T>, keep: seq<bool>)
    requires |keep| == |a| + |b|
    ensures Select(a + b, keep) == Select(a, keep[..|a|]) + Select(b, keep[|a|..])
  {
    if a == [] {
      assert a + b == b && keep[|a|..] == keep;
    } else {
      SelectAppend(a[1..], b, keep[1..]);
      assert (a + b)[1..] == a[1..] + b && keep[..|a|][1..] == keep[1..][..|a| - 1] && keep[1..][|a| - 1..] == keep[|a|..];
    }
  }

  /**
   * The splice of a backward loop that drops elements: with the selection
   * of `es[i + 1..]` done, removing element i exactly when its flag is
   * clear leaves the selection of `es[i..]` done.
   */
  lemma SelectSplice<T>(es: seq<T>, keep: seq<bool>, i: int, cur: seq<T>)
    requires |es| == |keep| && 0 <= i < |es| && cur == es[..i + 1] + Select(es[i + 1..], keep[i + 1..])
    ensures i < |cur| && cur[i] == es[i]
    ensures keep[i] ==> cur == es[..i] + Select(es[i..], keep[i..])
    ensures !keep[i] ==> cur[..i] + cur[i + 1..] == es[..i] + Select(es[i..], keep[i..])
  {
    assert es[i..][0] == es[i] && es[i..][1..] == es[i + 1..] && keep[i..][0] == keep[i] && keep[i..][1..] == keep[i + 1..];
    var rest := Select(es[i + 1..], keep[i + 1..]);
    assert cur == es[..i] + ([es[i]] + rest);
    assert cur[..i] == es[..i] && cur[i + 1..] == rest;
  }

  /** The state of a backward pruning loop over `es` at index i: the prefix untouched, the rest selected by `keep`. */
  ghost predicate Pruned<T>(es: seq<T>, keep: seq<bool>, cur: seq<T>, i: int) {
    0 <= i <= |es| && |keep| == |es| && cur == es[..i] + Select(es[i..], keep[i..])
  }

  /**
   * One step of that loop, for a loop that learns flag i only at step i:
   * element i is still in place, and setting its flag to `b` (and splicing
   * it out when `b` is false) moves the loop to index i.
   */
  lemma PrunedStep<T>(es: seq<T>, keep: seq<bool>, cur: seq<T>, i: int, b: bool)
    requires 0 <= i && Pruned(es, keep, cur, i + 1)
    ensures i < |cur| && cur[i] == es[i]
    ensures Pruned(es, keep[i := b], if b then cur else cur[..i] + cur[i + 1..], i)
  {
    assert keep[i := b][i + 1..] == keep[i + 1..];
    SelectSplice(es, keep[i := b], i, cur);
  }

  /** What one `update` of a projectile changes. */
  datatype Flight = Flight(x: real, y: real, distance: real, active: bool)

  /** The changing state of each projectile of `ps`, in order. */
  function Flights(ps: seq<Projectile>): (r: seq<Flight>)
    reads set p | p in ps
    ensures |r| == |ps|
    ensures forall k :: 0 <= k < |ps| ==> r[k] == Flight(ps[k].x, ps[k].y, ps[k].distanceTraveled, ps[k].active)
  {
    if ps == [] then [] else [Flight(ps[0].x, ps[0].y, ps[0].distanceTraveled, ps[0].active)] + Flights(ps[1..])
  }

  /** `Stepped`, measured against a recorded state `f` instead of the old heap. */
  ghost predicate SteppedFrom(p: Projectile, f: Flight)
    reads p
  {
    p.x == f.x + p.velocityX && p.y == f.y + p.velocityY &&
    p.distanceTraveled == f.distance + p.speed &&
    (p.active <==> f.active && p.distanceTraveled <= p.range && p.OnField())
  }

  /**
   * The state of the backward loop of `updateProjectiles` at index i, against
   * the states `f0` recorded before it: the projectiles below i are as they
   * were, those from i on have stepped and carry their new active flag in
   * `alive`, and `cur` is the list with the dead ones from i on spliced out.
   */
  ghost predicate Stepping(orig: seq<Projectile>, f0: seq<Flight>, alive: seq<bool>, cur: seq<Projectile>, i: int)
    reads set p | p in orig
  {
    Pruned(orig, alive, cur, i) && Distinct(orig) && |f0| == |orig| &&
    forall k :: 0 <= k < |orig| ==>
      if k < i then Flight(orig[k].x, orig[k].y, orig[k].distanceTraveled, orig[k].active) == f0[k]
      else SteppedFrom(orig[k], f0[k]) && alive[k] == orig[k].active
  }

  /** The `boundaries` object `update` clamps the player to. */
  datatype Boundaries = Boundaries(left: real, top: real, right: real, bottom: real)

  /** The net movement on one axis when the "minus" and "plus" keys are held. */
  function AxisStep(minus: bool, plus: bool, speed: real): real {
    (if plus then speed else 0.0) - (if minus then speed else 0.0)
  }

  /** The clamp of `update` on one axis: first against `lo`, then against `hi`. */
  function Clamp(v: real, size: real, lo: real, hi: real): real {
    var v1 := if v < lo then lo else v;
    if v1 + size > hi then hi - size else v1
  }

  /** The clamp keeps the box inside [lo, hi] when it fits, and moves nothing that is already inside. */
  lemma ClampInside(v: real, size: real, lo: real, hi: real)
    requires hi - lo >= size
    ensures lo <= Clamp(v, size, lo, hi) && Clamp(v, size, lo, hi) + size <= hi
    ensures lo <= v && v + size <= hi ==> Clamp(v, size, lo, hi) == v
  {
  }

  /**
   * The spread pattern both `Weapon.createProjectiles` and `Player.shoot`
   * fire from (x, y) toward `angle`: level 1 one shot at angle, level 2 a
   * second one at angle + 0.2, any other level a third one at angle - 0.2.
   * Every shot of the spread has the same origin, speed and damage.
   */
  function Spread(level: int, x: real, y: real, angle: real, speed: real, damage: int): (shots: seq<Shot>)
    ensures |shots| == if level == 1 then 1 else if level == 2 then 2 else 3
    ensures forall s :: s in shots ==> s.x == x && s.y == y && s.speed == speed && s.damage == damage
    ensures shots[0].angle == angle
    ensures |shots| >= 2 ==> shots[1].angle == angle + 0.2
    ensures |shots| == 3 ==> shots[2].angle == angle - 0.2
  {
    var first := [Shot(x, y, angle, speed, damage)];
    if level == 1 then first
    else if level == 2 then first + [Shot(x, y, angle + 0.2, speed, damage)]
    else first + [Shot(x, y, angle + 0.2, speed, damage), Shot(x, y, angle - 0.2, speed, damage)]
  }

  /** The shots `shoot` fires from the centre (cx, cy) toward the aim point: the spread of the weapon level at speed 10. */
  function PlayerVolley(level: int, cx: real, cy: real, targetX: real, targetY: real, trig: Trig): seq<Shot> {
    Spread(level, cx, cy, trig.aim(cx, cy, targetX, targetY), 10.0, ShotDamage(level))
  }

  /** The damage of the player's own shots: 10 at weapon levels 1 and 2, 15 otherwise. */
  function ShotDamage(weaponLevel: int): int {
    if weaponLevel == 1 || weaponLevel == 2 then 10 else 15
  }

  /** p is a new projectile fired as `shot` describes. */
  ghost predicate Launched(p: Projectile, shot: Shot, trig: Trig)
    reads p
  {
    p.x == shot.x && p.y == shot.y && p.angle == shot.angle &&
    p.speed == shot.speed && p.damage == shot.damage &&
    (p.velocityX, p.velocityY) == trig.polar(shot.angle, shot.speed) &&
    p.distanceTraveled == 0.0 && p.active
  }

  /** p flies with the angle, speed, damage and velocity of `shot`. */
  ghost predicate Aimed(p: Projectile, shot: Shot, trig: Trig)
    reads p
  {
    p.angle == shot.angle && p.speed == shot.speed && p.damage == shot.damage &&
    (p.velocityX, p.velocityY) == trig.polar(shot.angle, shot.speed)
  }

  /** p was fired as `shot` describes and has then taken its first step. */
  ghost predicate Flew(p: Projectile, shot: Shot, trig: Trig)
    reads p
  {
    Aimed(p, shot, trig) && SteppedFrom(p, Flight(shot.x, shot.y, 0.0, true))
  }

  /** `volley` is the projectiles of `shots`, one each and in order, each fired and stepped once. */
  ghost predicate Fired(volley: seq<Projectile>, shots: seq<Shot>, trig: Trig)
    reads volley
  {
    |volley| == |shots| &&
    forall j :: 0 <= j < |volley| ==> Flew(volley[j], shots[j], trig)
  }

  /** The XP-related state `addXP` and `levelUp` change. */
  datatype Progress = Progress(level: int, xp: int, threshold: int, maxHealth: int)

  /** `Math.floor(t * 1.5)` for a non-negative threshold t. */
  function NextThreshold(t: int): (r: int)
    requires t >= 0
    ensures r as real <= t as real * 1.5 < r as real + 1.0
    ensures r >= t
  {
    (3 * t) / 2
  }

  /** One `levelUp`. */
  function LevelUpOnce(p: Progress): Progress
    requires p.threshold >= 0
  {
    Progress(p.level + 1, p.xp - p.threshold, NextThreshold(p.threshold), p.maxHealth + 10)
  }

  /**
   * The `while (xp >= xpToNextLevel) levelUp()` loop of `addXP`: every
   * level-up the XP allows resolves in one call, leaving less XP than the
   * next threshold; each one adds 10 to the maximum health, and thresholds
   * never shrink.
   */
  function LevelUps(p: Progress): (r: Progress)
    requires p.threshold >= 1
    ensures r.threshold >= p.threshold && r.xp < r.threshold
    ensures r.level >= p.level && r.maxHealth == p.maxHealth + 10 * (r.level - p.level)
    ensures r.level == p.level <==> p.xp < p.threshold
    ensures r.xp <= p.xp
    decreases p.xp
  {
    if p.xp < p.threshold then p else LevelUps(LevelUpOnce(p))
  }

  class Player {
    var x: real
    var y: real
    const width: real := 40.0
    const height: real := 40.0
    var active: bool
    var speed: real
    var health: int
    var maxHealth: int
    var weaponLevel: int
    var shootCooldown: real
    var shootDelay: int
    var projectiles: seq<Projectile>
    var score: int
    var keys: int
    var invulnerable: bool
    var invulnerableTimer: real
    var xp: int
    var level: int
    var xpToNextLevel: int
    var coins: int
    var damageMultiplier: real
    var healthRegenRate: int
    var lastRegenTime: real
    var moveSpeedBonus: int

    /** Health, life and the invulnerability window. */
    function Status(): Vitals
      reads this`health, this`active, this`invulnerable, this`invulnerableTimer
    {
      Vitals(health, active, invulnerable, invulnerableTimer)
    }

    /** The threshold stays positive (so `addXP` terminates) and no projectile is listed twice. */
    ghost predicate Valid()
      reads this`xpToNextLevel, this`projectiles
    {
      xpToNextLevel >= 1 && Distinct(projectiles)
    }

    /**
     * The projectile loop has run over `before` followed by the newly fired
     * `volley`: the volley is `shots` fired and stepped once, `alive` flags
     * which entries of the two lists are still active, and the list is the
     * flagged ones in their order, old survivors first.
     */
    ghost predicate Volleyed(before: seq<Projectile>, volley: seq<Projectile>, shots: seq<Shot>, alive: seq<bool>, trig: Trig)
      reads this`projectiles, before, volley
    {
      Fired(volley, shots, trig) &&
      |alive| == |before| + |volley| && (forall k :: 0 <= k < |alive| ==> alive[k] == (before + volley)[k].active) &&
      projectiles == Select(before + volley, alive)
    }

    /**
     * The shot cooldown and the shots of `handleShooting` started from the
     * cooldown `cooldown0`: it counts down, and when the mouse is held and
     * it has run out the weapon fires `shots` from the player's centre
     * toward the mouse and the cooldown restarts at the shot delay.
     */
    ghost predicate Reloaded(cooldown0: real, deltaTime: real, input: Input, trig: Trig, shots: seq<Shot>)
      reads this`shootCooldown, this`shootDelay, this`weaponLevel, this`x, this`y
    {
      var cooled := if cooldown0 > 0.0 then cooldown0 - deltaTime else cooldown0;
      var fired := input.mouseDown && cooled <= 0.0;
      shootCooldown == (if fired then shootDelay as real else cooled) &&
      shots == if fired then PlayerVolley(weaponLevel, x + width / 2.0, y + height / 2.0, input.mouseX, input.mouseY, trig) else []
    }

    constructor (x: real, y: real)
      ensures Valid()
      ensures this.x == x && this.y == y && active && speed == 5.0
      ensures health == 100 && maxHealth == 100 && weaponLevel == 1
      ensures shootCooldown == 0.0 && shootDelay == 300 && projectiles == []
      ensures score == 0 && keys == 0 && !invulnerable && invulnerableTimer == 0.0
      ensures xp == 0 && level == 1 && xpToNextLevel == 100 && coins == 0
      ensures damageMultiplier == 1.0 && healthRegenRate == 0 && lastRegenTime == 0.0 && moveSpeedBonus == 0
    {
      this.x, this.y := x, y;
      active := true;
      speed := 5.0;
      health, maxHealth := 100, 100;
      weaponLevel := 1;
      shootCooldown, shootDelay := 0.0, 300;
      projectiles := [];
      score, keys := 0, 0;
      invulnerable, invulnerableTimer := false, 0.0;
      xp, level, xpToNextLevel := 0, 1, 100;
      coins := 0;
      damageMultiplier := 1.0;
      healthRegenRate, lastRegenTime, moveSpeedBonus := 0, 0.0, 0;
    }

    function Bounds(): Rect
      reads this`x, this`y
    {
      Rect(x, y, width, height)
    }

    /**
     * Movement and clamp of `update`: each held direction adds or subtracts
     * `speed` on its own axis (so a diagonal moves on both), then the box is
     * clamped into the boundaries, if any.
     */
    method Move(input: Input, boundaries: Option<Boundaries>)
      modifies this`x, this`y
      ensures boundaries.None? ==>
                x == old(x) + AxisStep(input.left, input.right, speed) &&
                y == old(y) + AxisStep(input.up, input.down, speed)
      ensures boundaries.Some? ==>
                x == Clamp(old(x) + AxisStep(input.left, input.right, speed), width, boundaries.value.left, boundaries.value.right) &&
                y == Clamp(old(y) + AxisStep(input.up, input.down, speed), height, boundaries.value.top, boundaries.value.bottom)
    {
      var nx, ny := x, y;
      if input.up {
        ny := ny - speed;
      }
      if input.down {
        ny := ny + speed;
      }
      if input.left {
        nx := nx - speed;
      }
      if input.right {
        nx := nx + speed;
      }
      if boundaries.Some? {
        var b := boundaries.value;
        if nx < b.left {
          nx := b.left;
        }
        if nx + width > b.right {
          nx := b.right - width;
        }
        if ny < b.top {
          ny := b.top;
        }
        if ny + height > b.bottom {
          ny := b.bottom - height;
        }
      }
      x, y := nx, ny;
    }

    /** `Move`, seen from outside: boundaries wide enough for the player keep it inside them. */
    method MoveWithin(input: Input, boundaries: Option<Boundaries>)
      modifies this`x, this`y
      ensures boundaries.Some? && boundaries.value.right - boundaries.value.left >= width ==>
                boundaries.value.left <= x && x + width <= boundaries.value.right
      ensures boundaries.Some? && boundaries.value.bottom - boundaries.value.top >= height ==>
                boundaries.value.top <= y && y + height <= boundaries.value.bottom
    {
      Move(input, boundaries);
      if boundaries.Some? {
        var b := boundaries.value;
        if b.right - b.left >= width {
          ClampInside(old(x) + AxisStep(input.left, input.right, speed), width, b.left, b.right);
        }
        if b.bottom - b.top >= height {
          ClampInside(old(y) + AxisStep(input.up, input.down, speed), height, b.top, b.bottom);
        }
      }
    }

    /** `createProjectile`: one new projectile appended to the list. */
    method CreateProjectile(shot: Shot, trig: Trig)
      requires Valid()
      modifies this`projectiles
      ensures Valid()
      ensures |projectiles| == |old(projectiles)| + 1 && projectiles[..|old(projectiles)|] == old(projectiles)
      ensures fresh(projectiles[|old(projectiles)|])
      ensures Launched(projectiles[|old(projectiles)|], shot, trig)
      ensures forall p :: p in projectiles ==> p in old(projectiles) || (fresh(p) && p.active)
    {
      var p := new Projectile(shot, trig);
      projectiles := projectiles + [p];
    }

    /** `shoot`: fires the volley of the current weapon level toward the aim point. */
    method Shoot(targetX: real, targetY: real, trig: Trig)
      requires Valid()
      modifies this`projectiles
      ensures Valid()
      ensures var shots := PlayerVolley(weaponLevel, x + width / 2.0, y + height / 2.0, targetX, targetY, trig);
              |projectiles| == |old(projectiles)| + |shots| &&
              projectiles[..|old(projectiles)|] == old(projectiles) &&
              forall j :: |old(projectiles)| <= j < |projectiles| ==>
                fresh(projectiles[j]) && Launched(projectiles[j], shots[j - |old(projectiles)|], trig)
      ensures forall p :: p in projectiles ==> p in old(projectiles) || (fresh(p) && p.active)
    {
      var cx, cy := x + width / 2.0, y + height / 2.0;
      var angle := trig.aim(cx, cy, targetX, targetY);
      if weaponLevel == 1 {
        CreateProjectile(Shot(cx, cy, angle, 10.0, 10), trig);
      } else if weaponLevel == 2 {
        CreateProjectile(Shot(cx, cy, angle, 10.0, 10), trig);
        CreateProjectile(Shot(cx, cy, angle + 0.2, 10.0, 10), trig);
      } else {
        CreateProjectile(Shot(cx, cy, angle, 10.0, 15), trig);
        CreateProjectile(Shot(cx, cy, angle + 0.2, 10.0, 15), trig);
        CreateProjectile(Shot(cx, cy, angle - 0.2, 10.0, 15), trig);
      }
    }

    /**
     * The projectile loop of `update`: every listed projectile takes one
     * step, and exactly the ones that are then inactive leave the list.
     */
    method UpdateProjectiles(deltaTime: real) returns (ghost alive: seq<bool>)
      requires Valid()
      modifies this`projectiles, set p | p in projectiles
      ensures Valid()
      ensures |alive| == |old(projectiles)| && forall k :: 0 <= k < |alive| ==> alive[k] == old(projectiles)[k].active
      ensures projectiles == Select(old(projectiles), alive)
      ensures forall p :: p in projectiles <==> p in old(projectiles) && p.active
      ensures forall p :: p in old(projectiles) ==> p.Stepped()
      ensures forall k :: 0 <= k < |old(projectiles)| ==> SteppedFrom(old(projectiles)[k], old(Flights(projectiles))[k])
    {
      ghost var orig := projectiles;
      ghost var f0 := Flights(orig);
      alive := seq(|orig|, k => false);
      var ps := projectiles;
      var i := |ps|;
      while i > 0
        invariant Stepping(orig, f0, alive, ps, i)
      {
        i := i - 1;
        alive, ps := StepOne(deltaTime, orig, f0, alive, ps, i);
      }
      assert forall k :: 0 <= k < |orig| ==> old(orig[k].x) == f0[k].x && old(orig[k].y) == f0[k].y && old(orig[k].distanceTraveled) == f0[k].distance && old(orig[k].active) == f0[k].active;
      assert orig[0..] == orig && alive[0..] == alive;
      SelectMembers(orig, alive);
      SelectDistinct(orig, alive);
      projectiles := ps;
    }

    /** One turn of that loop: projectile i steps, and is spliced out if it died. */
    static method StepOne(deltaTime: real, ghost orig: seq<Projectile>, ghost f0: seq<Flight>, ghost alive: seq<bool>,
                          cur: seq<Projectile>, i: int)
      returns (ghost alive': seq<bool>, cur': seq<Projectile>)
      requires 0 <= i && Stepping(orig, f0, alive, cur, i + 1)
      modifies orig[i]
      ensures Stepping(orig, f0, alive', cur', i)
    {
      PrunedStep(orig, alive, cur, i, orig[i].active);
      var p := cur[i];
      p.Update(deltaTime);
      PrunedStep(orig, alive, cur, i, p.active);
      alive' := alive[i := p.active];
      cur' := if p.active then cur else cur[..i] + cur[i + 1..];
    }

    /** `takeDamage`: ignored while invulnerable; otherwise health drops (floored at 0, death at 0) and 1000 ms of invulnerability start. */
    method TakeDamage(amount: int)
      modifies this`health, this`active, this`invulnerable, this`invulnerableTimer
      ensures Status() == Hurt(old(Status()), amount)
    {
      if invulnerable {
        return;
      }
      health := health - amount;
      if health <= 0 {
        health := 0;
        active := false;
      }
      invulnerable := true;
      invulnerableTimer := InvulnerabilityTime;
    }

    /** `heal`: adds `amount` but never beyond `maxHealth`. */
    method Heal(amount: int)
      modifies this`health
      ensures health <= maxHealth && health <= old(health) + amount
      ensures health == old(health) + amount || health == maxHealth
    {
      health := if health + amount < maxHealth then health + amount else maxHealth;
    }

    /** `upgradeWeapon`: raises the weapon level only below 3, and says whether it did. */
    method UpgradeWeapon() returns (upgraded: bool)
      modifies this`weaponLevel
      ensures upgraded <==> old(weaponLevel) < 3
      ensures weaponLevel == if upgraded then old(weaponLevel) + 1 else old(weaponLevel)
    {
      if weaponLevel < 3 {
        weaponLevel := weaponLevel + 1;
        return true;
      }
      return false;
    }

    method AddKey()
      modifies this`keys
      ensures keys == old(keys) + 1
    {
      keys := keys + 1;
    }

    /** `useKey`: succeeds only with a key in hand, and then consumes exactly one. */
    method UseKey() returns (used: bool)
      modifies this`keys
      ensures used <==> old(keys) > 0
      ensures keys == if used then old(keys) - 1 else old(keys)
    {
      if keys > 0 {
        keys := keys - 1;
        return true;
      }
      return false;
    }

    method AddScore(points: int)
      modifies this`score
      ensures score == old(score) + points
    {
      score := score + points;
    }

    /** `levelUp`: one level gained at the cost of the current threshold, which grows by half; full heal. */
    method LevelUp()
      requires xpToNextLevel >= 0
      modifies this`level, this`xp, this`xpToNextLevel, this`maxHealth, this`health, this`damageMultiplier
      ensures Progress(level, xp, xpToNextLevel, maxHealth) == LevelUpOnce(old(Progress(level, xp, xpToNextLevel, maxHealth)))
      ensures health == maxHealth && damageMultiplier == old(damageMultiplier) + 0.1
    {
      level := level + 1;
      xp := xp - xpToNextLevel;
      xpToNextLevel := NextThreshold(xpToNextLevel);
      maxHealth := maxHealth + 10;
      health := maxHealth;
      damageMultiplier := damageMultiplier + 0.1;
    }

    /**
     * `addXP`: adds the XP and resolves every level-up it allows, so that
     * afterwards xp < xpToNextLevel.
     */
    method AddXP(amount: int)
      requires Valid()
      modifies this`xp, this`level, this`xpToNextLevel, this`maxHealth, this`health, this`damageMultiplier
      ensures Valid()
      ensures Progress(level, xp, xpToNextLevel, maxHealth) ==
              LevelUps(Progress(old(level), old(xp) + amount, old(xpToNextLevel), old(maxHealth)))
      ensures xp < xpToNextLevel
      ensures health == if level == old(level) then old(health) else maxHealth
      ensures damageMultiplier == old(damageMultiplier) + 0.1 * (level - old(level)) as real
    {
      xp := xp + amount;
      while xp >= xpToNextLevel
        invariant xpToNextLevel >= 1 && level >= old(level)
        invariant LevelUps(Progress(level, xp, xpToNextLevel, maxHealth)) ==
                  LevelUps(Progress(old(level), old(xp) + amount, old(xpToNextLevel), old(maxHealth)))
        invariant health == if level == old(level) then old(health) else maxHealth
        invariant damageMultiplier == old(damageMultiplier) + 0.1 * (level - old(level)) as real
        decreases xp
      {
        LevelUp();
      }
    }

    method AddCoins(amount: int)
      modifies this`coins
      ensures coins == old(coins) + amount
    {
      coins := coins + amount;
    }

    /** `spendCoins`: succeeds only if the balance covers `amount`; on failure nothing changes. */
    method SpendCoins(amount: int) returns (spent: bool)
      modifies this`coins
      ensures spent <==> old(coins) >= amount
      ensures coins == if spent then old(coins) - amount else old(coins)
    {
      if coins >= amount {
        coins := coins - amount;
        return true;
      }
      return false;
    }

    /** +25 maximum health and health for 50 coins. */
    method PurchaseHealthUpgrade() returns (bought: bool)
      modifies this`coins, this`maxHealth, this`health
      ensures bought <==> old(coins) >= 50
      ensures bought ==> coins == old(coins) - 50 && maxHealth == old(maxHealth) + 25 && health == old(health) + 25
      ensures !bought ==> coins == old(coins) && maxHealth == old(maxHealth) && health == old(health)
    {
      bought := SpendCoins(50);
      if bought {
        maxHealth := maxHealth + 25;
        health := health + 25;
      }
    }

    /** +0.25 damage multiplier for 75 coins. */
    method PurchaseDamageUpgrade() returns (bought: bool)
      modifies this`coins, this`damageMultiplier
      ensures bought <==> old(coins) >= 75
      ensures bought ==> coins == old(coins) - 75 && damageMultiplier == old(damageMultiplier) + 0.25
      ensures !bought ==> coins == old(coins) && damageMultiplier == old(damageMultiplier)
    {
      bought := SpendCoins(75);
      if bought {
        damageMultiplier := damageMultiplier + 0.25;
      }
    }

    /** 50 ms less between shots for 60 coins, never below 100 ms. */
    method PurchaseFireRateUpgrade() returns (bought: bool)
      modifies this`coins, this`shootDelay
      ensures bought <==> old(coins) >= 60
      ensures bought ==> coins == old(coins) - 60 && shootDelay == (if old(shootDelay) - 50 < 100 then 100 else old(shootDelay) - 50)
      ensures !bought ==> coins == old(coins) && shootDelay == old(shootDelay)
      ensures old(shootDelay) >= 100 ==> shootDelay >= 100
    {
      bought := SpendCoins(60);
      if bought {
        shootDelay := if 100 < shootDelay - 50 then shootDelay - 50 else 100;
      }
    }

    /** +5 health regenerated per second for 80 coins. */
    method PurchaseHealthRegenUpgrade() returns (bought: bool)
      modifies this`coins, this`healthRegenRate
      ensures bought <==> old(coins) >= 80
      ensures bought ==> coins == old(coins) - 80 && healthRegenRate == old(healthRegenRate) + 5
      ensures !bought ==> coins == old(coins) && healthRegenRate == old(healthRegenRate)
    {
      bought := SpendCoins(80);
      if bought {
        healthRegenRate := healthRegenRate + 5;
      }
    }

    /** +1 movement speed bonus for 70 coins. */
    method PurchaseSpeedUpgrade() returns (bought: bool)
      modifies this`coins, this`moveSpeedBonus
      ensures bought <==> old(coins) >= 70
      ensures bought ==> coins == old(coins) - 70 && moveSpeedBonus == old(moveSpeedBonus) + 1
      ensures !bought ==> coins == old(coins) && moveSpeedBonus == old(moveSpeedBonus)
    {
      bought := SpendCoins(70);
      if bought {
        moveSpeedBonus := moveSpeedBonus + 1;
      }
    }

    /** The shooting part of `update`: the cooldown counts down, and a held mouse fires once it has run out. */
    method HandleShooting(deltaTime: real, input: Input, trig: Trig) returns (ghost shots: seq<Shot>)
      requires Valid()
      modifies this`shootCooldown, this`projectiles
      ensures Valid()
      ensures var cooled := if old(shootCooldown) > 0.0 then old(shootCooldown) - deltaTime else old(shootCooldown);
              var fired := input.mouseDown && cooled <= 0.0;
              shootCooldown == (if fired then shootDelay as real else cooled) &&
              shots == (if fired then PlayerVolley(weaponLevel, x + width / 2.0, y + height / 2.0, input.mouseX, input.mouseY, trig) else [])
      ensures |projectiles| == |old(projectiles)| + |shots| && projectiles[..|old(projectiles)|] == old(projectiles)
      ensures forall j :: |old(projectiles)| <= j < |projectiles| ==>
                fresh(projectiles[j]) && Launched(projectiles[j], shots[j - |old(projectiles)|], trig)
      ensures forall p :: p in projectiles ==> p in old(projectiles) || (fresh(p) && p.active)
    {
      shots := [];
      if shootCooldown > 0.0 {
        shootCooldown := shootCooldown - deltaTime;
      }
      if input.mouseDown && shootCooldown <= 0.0 {
        Shoot(input.mouseX, input.mouseY, trig);
        shots := PlayerVolley(weaponLevel, x + width / 2.0, y + height / 2.0, input.mouseX, input.mouseY, trig);
        shootCooldown := shootDelay as real;
      }
    }

    /** The invulnerability timer of `update`: it counts down and ends the invulnerability at 0. */
    method TickInvulnerability(deltaTime: real)
      modifies this`invulnerable, this`invulnerableTimer
      ensures old(invulnerable) ==> invulnerableTimer == old(invulnerableTimer) - deltaTime && (invulnerable <==> invulnerableTimer > 0.0)
      ensures !old(invulnerable) ==> !invulnerable && invulnerableTimer == old(invulnerableTimer)
    {
      if invulnerable {
        invulnerableTimer := invulnerableTimer - deltaTime;
        if invulnerableTimer <= 0.0 {
          invulnerable := false;
        }
      }
    }

    /**
     * Health regeneration of `update`: with a bought rate and at least 1000 ms
     * since the last one, health grows by the rate, capped at the maximum.
     */
    method Regenerate(now: real)
      modifies this`health, this`lastRegenTime
      ensures var due := healthRegenRate > 0 && now - old(lastRegenTime) >= 1000.0;
              (due ==> lastRegenTime == now &&
                       health == (if maxHealth < old(health) + healthRegenRate then maxHealth else old(health) + healthRegenRate)) &&
              (!due ==> health == old(health) && lastRegenTime == old(lastRegenTime))
    {
      if healthRegenRate > 0 && now - lastRegenTime >= 1000.0 {
        health := if maxHealth < health + healthRegenRate then maxHealth else health + healthRegenRate;
        lastRegenTime := now;
      }
    }

    /**
     * `update`: move and clamp; count the shot cooldown down and fire when
     * the mouse is held and the cooldown has run out; step the projectiles
     * and drop the dead ones; count invulnerability down; regenerate health
     * once a second when a regeneration rate was bought. Every projectile
     * left in the list is alive.
     */
    method Update(deltaTime: real, input: Input, boundaries: Option<Boundaries>, env: Env) returns (ghost shots: seq<Shot>, ghost volley: seq<Projectile>, ghost alive: seq<bool>)
      requires Valid()
      modifies this`x, this`y, this`shootCooldown, this`projectiles, projectiles
      modifies this`invulnerable, this`invulnerableTimer, this`health, this`lastRegenTime
      ensures Valid()
      ensures boundaries.Some? && boundaries.value.right - boundaries.value.left >= width ==>
                boundaries.value.left <= x && x + width <= boundaries.value.right
      ensures boundaries.Some? && boundaries.value.bottom - boundaries.value.top >= height ==>
                boundaries.value.top <= y && y + height <= boundaries.value.bottom
      ensures forall p :: p in old(projectiles) ==> p.Stepped()
      ensures var cooled := if old(shootCooldown) > 0.0 then old(shootCooldown) - deltaTime else old(shootCooldown);
              var fired := input.mouseDown && cooled <= 0.0;
              shootCooldown == (if fired then shootDelay as real else cooled) &&
              shots == if fired then PlayerVolley(weaponLevel, x + width / 2.0, y + height / 2.0, input.mouseX, input.mouseY, env.trig) else []
      ensures Volleyed(old(projectiles), volley, shots, alive, env.trig)
      ensures forall p :: p in volley ==> fresh(p)
      ensures forall p :: p in projectiles <==> (p in old(projectiles) || p in volley) && p.active
      ensures old(invulnerable) ==> invulnerableTimer == old(invulnerableTimer) - deltaTime && (invulnerable <==> invulnerableTimer > 0.0)
      ensures !old(invulnerable) ==> !invulnerable && invulnerableTimer == old(invulnerableTimer)
      ensures var due := healthRegenRate > 0 && env.now - old(lastRegenTime) >= 1000.0;
              (due ==> lastRegenTime == env.now &&
                       health == (if maxHealth < old(health) + healthRegenRate then maxHealth else old(health) + healthRegenRate)) &&
              (!due ==> health == old(health) && lastRegenTime == old(lastRegenTime))
    {
      ghost var timers := (invulnerable, invulnerableTimer, health, lastRegenTime);
      shots, volley, alive := MoveAndShoot(deltaTime, input, boundaries, env.trig);
      assert (invulnerable, invulnerableTimer, health, lastRegenTime) == timers;
      ghost var shooting := (x, y, weaponLevel, shootCooldown, projectiles);
      TickVitals(deltaTime, env.now);
      assert (x, y, weaponLevel, shootCooldown, projectiles) == shooting;
    }

    /** The first half of `update`: the move, then the shooting and the projectile loop. */
    method MoveAndShoot(deltaTime: real, input: Input, boundaries: Option<Boundaries>, trig: Trig) returns (ghost shots: seq<Shot>, ghost volley: seq<Projectile>, ghost alive: seq<bool>)
      requires Valid()
      modifies this`x, this`y, this`shootCooldown, this`projectiles, projectiles
      ensures Valid()
      ensures boundaries.Some? && boundaries.value.right - boundaries.value.left >= width ==>
                boundaries.value.left <= x && x + width <= boundaries.value.right
      ensures boundaries.Some? && boundaries.value.bottom - boundaries.value.top >= height ==>
                boundaries.value.top <= y && y + height <= boundaries.value.bottom
      ensures forall p :: p in old(projectiles) ==> p.Stepped()
      ensures var cooled := if old(shootCooldown) > 0.0 then old(shootCooldown) - deltaTime else old(shootCooldown);
              var fired := input.mouseDown && cooled <= 0.0;
              shootCooldown == (if fired then shootDelay as real else cooled) &&
              shots == if fired then PlayerVolley(weaponLevel, x + width / 2.0, y + height / 2.0, input.mouseX, input.mouseY, trig) else []
      ensures Volleyed(old(projectiles), volley, shots, alive, trig)
      ensures forall p :: p in volley ==> fresh(p)
      ensures forall p :: p in projectiles <==> (p in old(projectiles) || p in volley) && p.active
    {
      MoveWithin(input, boundaries);
      shots, volley, alive := ShootAndStep(deltaTime, input, trig);
    }

    /** The timers at the end of `update`: the invulnerability countdown, then the health regeneration. */
    method TickVitals(deltaTime: real, now: real)
      modifies this`invulnerable, this`invulnerableTimer, this`health, this`lastRegenTime
      ensures old(invulnerable) ==> invulnerableTimer == old(invulnerableTimer) - deltaTime && (invulnerable <==> invulnerableTimer > 0.0)
      ensures !old(invulnerable) ==> !invulnerable && invulnerableTimer == old(invulnerableTimer)
      ensures var due := healthRegenRate > 0 && now - old(lastRegenTime) >= 1000.0;
              (due ==> lastRegenTime == now &&
                       health == (if maxHealth < old(health) + healthRegenRate then maxHealth else old(health) + healthRegenRate)) &&
              (!due ==> health == old(health) && lastRegenTime == old(lastRegenTime))
    {
      TickInvulnerability(deltaTime);
      Regenerate(now);
    }

    /** The shooting and the projectile loop of `update`, in that order. */
    method ShootAndStep(deltaTime: real, input: Input, trig: Trig)
      returns (ghost shots: seq<Shot>, ghost volley: seq<Projectile>, ghost alive: seq<bool>)
      requires Valid()
      modifies this`shootCooldown, this`projectiles, projectiles
      ensures Valid()
      ensures forall p :: p in old(projectiles) ==> p.Stepped()
      ensures Reloaded(old(shootCooldown), deltaTime, input, trig, shots)
      ensures Volleyed(old(projectiles), volley, shots, alive, trig)
      ensures forall p :: p in volley ==> fresh(p)
      ensures forall p :: p in projectiles <==> (p in old(projectiles) || p in volley) && p.active
    {
      shots := HandleShooting(deltaTime, input, trig);
      assert Reloaded(old(shootCooldown), deltaTime, input, trig, shots);
      ghost var launched := projectiles[|old(projectiles)|..];
      volley, alive := StepVolley(deltaTime, old(projectiles), shots, trig);
      assert volley == launched;
      assert Reloaded(old(shootCooldown), deltaTime, input, trig, shots);
    }

    /**
     * The projectile loop of `update` right after `handleShooting`: the list
     * is `before` followed by the new projectiles of `shots`, and each of
     * those takes its first step with the others.
     */
    method StepVolley(deltaTime: real, ghost before: seq<Projectile>, ghost shots: seq<Shot>, ghost trig: Trig)
      returns (ghost volley: seq<Projectile>, ghost alive: seq<bool>)
      requires Valid()
      requires |projectiles| == |before| + |shots| && projectiles[..|before|] == before
      requires forall j :: |before| <= j < |projectiles| ==> Launched(projectiles[j], shots[j - |before|], trig)
      modifies this`projectiles, projectiles
      ensures Valid()
      ensures volley == old(projectiles)[|before|..]
      ensures forall p :: p in before ==> p.Stepped()
      ensures Volleyed(before, volley, shots, alive, trig)
      ensures forall p :: p in projectiles <==> (p in before || p in volley) && p.active
    {
      volley := projectiles[|before|..];
      assert projectiles == before + volley;
      ghost var f0 := Flights(projectiles);
      alive := UpdateProjectiles(deltaTime);
      assert forall j :: 0 <= j < |volley| ==> SteppedFrom(volley[j], f0[|before| + j]);
    }
  }
}
