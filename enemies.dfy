/**
 * The enemies (js/enemies.js): the five kinds with their stat table, the
 * chase step, the shooter's cooldown, the boss's phase and attack-burst
 * machine, enemy projectiles, and the spawner that keeps the enemy list.
 */
module Enemies {
  import opened Utils
  import opened Players

  datatype EnemyKind = Basic | Fast | Tank | Shooter | Boss

  /** The per-kind numbers the subclass constructors set. */
  datatype Stats = Stats(size: real, health: int, speed: real,
                         scoreValue: int, xpValue: int, coinValue: int, coinDropChance: real)

  /**
   * The stat table. The base class's defaults are score 10, XP 15, coin 5
   * and drop chance 0.3; each kind overrides some of them.
   */
  function StatsOf(kind: EnemyKind): (s: Stats)
    ensures s.size > 0.0 && s.health > 0 && s.speed > 0.0
    ensures 0.0 < s.coinDropChance <= 1.0
  {
    match kind
    case Basic => Stats(30.0, 30, 1.5, 10, 10, 3, 0.3)
    case Fast => Stats(20.0, 15, 3.0, 15, 8, 2, 0.3)
    case Tank => Stats(40.0, 80, 0.8, 30, 25, 7, 0.5)
    case Shooter => Stats(25.0, 40, 1.0, 20, 15, 5, 0.3)
    case Boss => Stats(60.0, 300, 0.5, 100, 100, 25, 1.0)
  }

  /** An enemy projectile lives for 600 units of travel. */
  const EnemyRange: real := 600.0

  /**
   * An enemy projectile, 8×8. The source's projectile objects are reached
   * only through the list of the enemy that fired them, so the model keeps
   * each one as a value in that list and replaces it when it changes.
   */
  datatype EnemyProjectile = EnemyProjectile(x: real, y: real, angle: real, speed: real, damage: int,
                                             distanceTraveled: real, active: bool)
  {
    function Bounds(): Rect {
      Rect(x, y, 8.0, 8.0)
    }

    predicate OnField() {
      0.0 <= x <= FieldWidth && 0.0 <= y <= FieldHeight
    }

    /**
     * `update`: a step of `speed` along `angle`; the projectile stays
     * alive only if it was alive, is within its 600 units of range and is
     * still on the playfield. Heading, speed and damage do not change.
     */
    function Step(trig: Trig): (q: EnemyProjectile)
      ensures q.angle == angle && q.speed == speed && q.damage == damage
      ensures q.x == x + trig.polar(angle, speed).0 && q.y == y + trig.polar(angle, speed).1
      ensures q.distanceTraveled == distanceTraveled + speed
      ensures q.active <==> active && q.distanceTraveled <= EnemyRange && q.OnField()
    {
      var v := trig.polar(angle, speed);
      var moved := this.(x := x + v.0, y := y + v.1, distanceTraveled := distanceTraveled + speed);
      if moved.distanceTraveled > EnemyRange || moved.x < 0.0 || moved.x > FieldWidth ||
         moved.y < 0.0 || moved.y > FieldHeight
      then moved.(active := false)
      else moved
    }
  }

  /** The new projectile a shot describes: active, at the shot's origin, nothing travelled yet. */
  function Fire(shot: Shot): EnemyProjectile {
    EnemyProjectile(shot.x, shot.y, shot.angle, shot.speed, shot.damage, 0.0, true)
  }

  /** One pass of the projectile loop: every projectile steps, and only those still active stay, in order. */
  function Survivors(ps: seq<EnemyProjectile>, trig: Trig): (rs: seq<EnemyProjectile>)
    ensures |rs| <= |ps|
  {
    if ps == [] then []
    else (if ps[0].Step(trig).active then [ps[0].Step(trig)] else []) + Survivors(ps[1..], trig)
  }

  /**
   * What survives one pass: exactly the stepped projectiles that are still
   * active, so every survivor is active, within range and on the field.
   */
  lemma {:induction false} SurvivorsAreTheActiveSteps(ps: seq<EnemyProjectile>, trig: Trig)
    ensures forall q :: q in Survivors(ps, trig) <==> exists k :: 0 <= k < |ps| && ps[k].Step(trig) == q && q.active
    ensures forall q :: q in Survivors(ps, trig) ==> q.active && q.distanceTraveled <= EnemyRange && q.OnField()
  {
    if ps != [] {
      SurvivorsAreTheActiveSteps(ps[1..], trig);
      forall q | (exists k :: 0 <= k < |ps| && ps[k].Step(trig) == q && q.active)
        ensures q in Survivors(ps, trig)
      {
        var k :| 0 <= k < |ps| && ps[k].Step(trig) == q && q.active;
        if k > 0 {
          assert ps[1..][k - 1] == ps[k];
        }
      }
    }
  }

  /**
   * The step of the backward projectile loop: with `ps[i + 1..]` already
   * passed, stepping element i and removing it when it went inactive leaves
   * `ps[i..]` passed.
   */
  lemma SurvivorsSplice(orig: seq<EnemyProjectile>, i: int, ps: seq<EnemyProjectile>, trig: Trig)
    requires 0 <= i < |orig| && ps == orig[..i + 1] + Survivors(orig[i + 1..], trig)
    ensures i < |ps| && ps[i] == orig[i]
    ensures var qs := ps[i := ps[i].Step(trig)];
            if qs[i].active then qs == orig[..i] + Survivors(orig[i..], trig)
            else qs[..i] + qs[i + 1..] == orig[..i] + Survivors(orig[i..], trig)
  {
    assert orig[i..][0] == orig[i] && orig[i..][1..] == orig[i + 1..];
    var rest := Survivors(orig[i + 1..], trig);
    assert Survivors(orig[i..], trig) == (if orig[i].Step(trig).active then [orig[i].Step(trig)] else []) + rest;
    assert ps == orig[..i] + ([orig[i]] + rest);
    var qs := ps[i := ps[i].Step(trig)];
    assert qs[..i] == orig[..i] && qs[i + 1..] == rest;
    if qs[i].active {
      assert qs == orig[..i] + ([qs[i]] + rest);
    }
  }

  /** A pass over a list split in two is the two passes joined. */
  lemma {:induction false} SurvivorsAppend(a: seq<EnemyProjectile>, b: seq<EnemyProjectile>, trig: Trig)
    ensures Survivors(a + b, trig) == Survivors(a, trig) + Survivors(b, trig)
  {
    if a == [] {
      assert a + b == b;
    } else {
      assert (a + b)[1..] == a[1..] + b;
      SurvivorsAppend(a[1..], b, trig);
    }
  }

  /** The new projectiles a list of shots describes, in order. */
  function Volley(shots: seq<Shot>): (ps: seq<EnemyProjectile>)
    ensures |ps| == |shots| && forall k :: 0 <= k < |shots| ==> ps[k] == Fire(shots[k])
  {
    seq(|shots|, k requires 0 <= k < |shots| => Fire(shots[k]))
  }

  /** The projectiles that do not touch box r, in order. */
  function Misses(ps: seq<EnemyProjectile>, r: Rect): (rs: seq<EnemyProjectile>)
    ensures |rs| <= |ps|
  {
    if ps == [] then []
    else (if CheckCollision(ps[0].Bounds(), r) then [] else [ps[0]]) + Misses(ps[1..], r)
  }

  /** What is left is exactly the projectiles that do not touch the box. */
  lemma {:induction false} MissesMembers(ps: seq<EnemyProjectile>, r: Rect)
    ensures forall q :: q in Misses(ps, r) <==> q in ps && !CheckCollision(q.Bounds(), r)
  {
    if ps != [] {
      MissesMembers(ps[1..], r);
      assert ps == [ps[0]] + ps[1..];
    }
  }

  /** Removing the hits leaves the list as it was exactly when nothing hits. */
  lemma {:induction false} MissesShorter(ps: seq<EnemyProjectile>, r: Rect)
    ensures Misses(ps, r) == ps <==> forall q :: q in ps ==> !CheckCollision(q.Bounds(), r)
  {
    if ps != [] {
      MissesShorter(ps[1..], r);
      if CheckCollision(ps[0].Bounds(), r) {
        assert |Misses(ps, r)| < |ps|;
      } else {
        assert Misses(ps, r) == [ps[0]] + Misses(ps[1..], r);
        if Misses(ps, r) == ps {
          assert Misses(ps, r)[1..] == ps[1..];
        }
      }
    }
  }

  /** Removing the hits twice removes nothing more. */
  lemma {:induction false} MissesIdempotent(ps: seq<EnemyProjectile>, r: Rect)
    ensures Misses(Misses(ps, r), r) == Misses(ps, r)
  {
    if ps != [] {
      MissesIdempotent(ps[1..], r);
      var rest := Misses(ps[1..], r);
      if CheckCollision(ps[0].Bounds(), r) {
        assert Misses(ps, r) == [] + rest == rest;
      } else {
        var m := [ps[0]] + rest;
        assert Misses(ps, r) == m;
        assert m[0] == ps[0] && m[1..] == rest;
        assert Misses(m, r) == [ps[0]] + Misses(rest, r);
      }
    }
  }

  /** One step of a loop that removes the hits from the back of a list. */
  lemma MissesStep(ps: seq<EnemyProjectile>, i: int, r: Rect)
    requires 0 <= i < |ps|
    ensures ps[..i + 1] == ps[..i] + [ps[i]]
    ensures Misses(ps[i..], r) ==
              (if CheckCollision(ps[i].Bounds(), r) then [] else [ps[i]]) + Misses(ps[i + 1..], r)
    ensures Misses(ps[i..], r) == ps[i..] <==>
              !CheckCollision(ps[i].Bounds(), r) && Misses(ps[i + 1..], r) == ps[i + 1..]
  {
    assert ps[i..][0] == ps[i] && ps[i..][1..] == ps[i + 1..];
    if !CheckCollision(ps[i].Bounds(), r) && Misses(ps[i..], r) == ps[i..] {
      assert Misses(ps[i..], r)[1..] == ps[i..][1..];
    }
  }

  /**
   * The splice of the backward loop that removes hits: with the hits of
   * `ps[i + 1..]` already gone, removing element i exactly when it hits
   * leaves the hits of `ps[i..]` gone.
   */
  lemma MissesSplice(orig: seq<EnemyProjectile>, i: int, ps: seq<EnemyProjectile>, r: Rect)
    requires 0 <= i < |orig| && ps == orig[..i + 1] + Misses(orig[i + 1..], r)
    ensures i < |ps| && ps[i] == orig[i]
    ensures CheckCollision(orig[i].Bounds(), r) ==> ps[..i] + ps[i + 1..] == orig[..i] + Misses(orig[i..], r)
    ensures !CheckCollision(orig[i].Bounds(), r) ==> ps == orig[..i] + Misses(orig[i..], r)
    ensures Misses(orig[i..], r) == orig[i..] <==>
              !CheckCollision(orig[i].Bounds(), r) && Misses(orig[i + 1..], r) == orig[i + 1..]
  {
    MissesStep(orig, i, r);
    var rest := Misses(orig[i + 1..], r);
    assert ps == orig[..i] + ([orig[i]] + rest);
    assert ps[..i] == orig[..i] && ps[i + 1..] == rest;
  }

  /** A split list loses its hits part by part. */
  lemma {:induction false} MissesAppend(a: seq<EnemyProjectile>, b: seq<EnemyProjectile>, r: Rect)
    ensures Misses(a + b, r) == Misses(a, r) + Misses(b, r)
  {
    if a == [] {
      assert a + b == b;
    } else {
      assert (a + b)[1..] == a[1..] + b;
      MissesAppend(a[1..], b, r);
    }
  }

  /** One projectile against the player's box: on contact the player takes its damage. */
  function Touch(v: Vitals, p: EnemyProjectile, box: Rect): (w: Vitals)
    ensures !CheckCollision(p.Bounds(), box) ==> w == v
  {
    if CheckCollision(p.Bounds(), box) then Hurt(v, p.damage) else v
  }

  /** The player after the projectiles `ps` are checked against its box, last first. */
  function Struck(v: Vitals, ps: seq<EnemyProjectile>, box: Rect): Vitals {
    if ps == [] then v else Touch(Struck(v, ps[1..], box), ps[0], box)
  }

  /** With no projectile touching the player's box, the collision test leaves the player as it was. */
  lemma {:induction false} StruckMiss(v: Vitals, ps: seq<EnemyProjectile>, box: Rect)
    requires forall p :: p in ps ==> !CheckCollision(p.Bounds(), box)
    ensures Struck(v, ps, box) == v
  {
    if ps != [] {
      assert forall p :: p in ps[1..] ==> p in ps;
      StruckMiss(v, ps[1..], box);
    }
  }

  /**
   * At most one projectile hurts the player per check: the last one that
   * touches its box, the first one checked; every later hit meets the
   * invulnerability the first one started.
   */
  lemma {:induction false} StruckLast(v: Vitals, ps: seq<EnemyProjectile>, box: Rect, j: int)
    requires 0 <= j < |ps| && CheckCollision(ps[j].Bounds(), box)
    requires forall k :: j < k < |ps| ==> !CheckCollision(ps[k].Bounds(), box)
    ensures Struck(v, ps, box) == Hurt(v, ps[j].damage)
  {
    var rest := ps[1..];
    if j == 0 {
      forall p | p in rest
        ensures !CheckCollision(p.Bounds(), box)
      {
        var k :| 0 <= k < |rest| && rest[k] == p;
        assert ps[k + 1] == p;
      }
      StruckMiss(v, rest, box);
    } else {
      assert rest[j - 1] == ps[j];
      assert forall k :: j - 1 < k < |rest| ==> rest[k] == ps[k + 1];
      StruckLast(v, rest, box, j - 1);
      HurtOnce(v, ps[j].damage, ps[0].damage);
    }
  }

  /** The player after every list of projectiles is checked in turn, first list first. */
  function StruckAll(v: Vitals, lists: seq<seq<EnemyProjectile>>, box: Rect): Vitals {
    if lists == [] then v else Struck(StruckAll(v, lists[..|lists| - 1], box), lists[|lists| - 1], box)
  }

  /**
   * However many projectiles touch the player in one check, it is hurt at
   * most once: it is unchanged, or it took the damage of one touching
   * projectile; untouched, it is unchanged.
   */
  lemma {:induction false} StruckAllOnce(v: Vitals, lists: seq<seq<EnemyProjectile>>, box: Rect)
    ensures (forall ps, p :: ps in lists && p in ps ==> !CheckCollision(p.Bounds(), box)) ==>
              StruckAll(v, lists, box) == v
    ensures StruckAll(v, lists, box) == v ||
            exists ps, p :: ps in lists && p in ps && CheckCollision(p.Bounds(), box) &&
                            StruckAll(v, lists, box) == Hurt(v, p.damage)
  {
    if lists != [] {
      var init, last := lists[..|lists| - 1], lists[|lists| - 1];
      StruckAllOnce(v, init, box);
      var u := StruckAll(v, init, box);
      if forall p :: p in last ==> !CheckCollision(p.Bounds(), box) {
        StruckMiss(u, last, box);
        assert StruckAll(v, lists, box) == u;
        if u != v {
          var ps, p :| ps in init && p in ps && CheckCollision(p.Bounds(), box) && u == Hurt(v, p.damage);
          assert ps in lists;
        }
      } else {
        var j := LastTouch(last, box);
        StruckLast(u, last, box, j);
        if u == v {
          assert last in lists && last[j] in last;
        } else {
          var ps, p :| ps in init && p in ps && CheckCollision(p.Bounds(), box) && u == Hurt(v, p.damage);
          HurtOnce(v, p.damage, last[j].damage);
          assert ps in lists;
        }
      }
    }
  }

  /**
   * The player is hurt at most once per spawner update: after a contact it
   * has taken exactly the 10 contact damage, otherwise it is unchanged or
   * has taken the damage of one projectile that touched it.
   */
  lemma OneHitPerFrame(v: Vitals, contact: bool, shots: seq<seq<EnemyProjectile>>, box: Rect)
    ensures contact ==> StruckAll(Hurt(v, 10), shots, box) == Hurt(v, 10)
    ensures !contact ==>
              StruckAll(v, shots, box) == v ||
              exists ps, p :: ps in shots && p in ps && CheckCollision(p.Bounds(), box) &&
                              StruckAll(v, shots, box) == Hurt(v, p.damage)
  {
    StruckAllOnce(Hurt(v, 10), shots, box);
    StruckAllOnce(v, shots, box);
  }

  /** The index of the last projectile that touches the box, when one does. */
  function LastTouch(ps: seq<EnemyProjectile>, box: Rect): (j: int)
    requires exists p :: p in ps && CheckCollision(p.Bounds(), box)
    ensures 0 <= j < |ps| && CheckCollision(ps[j].Bounds(), box)
    ensures forall k :: j < k < |ps| ==> !CheckCollision(ps[k].Bounds(), box)
  {
    if CheckCollision(ps[|ps| - 1].Bounds(), box) then |ps| - 1
    else
      assert exists p :: p in ps[..|ps| - 1] && CheckCollision(p.Bounds(), box) by {
        var p :| p in ps && CheckCollision(p.Bounds(), box);
        var k :| 0 <= k < |ps| && ps[k] == p;
        assert ps[..|ps| - 1][k] == p;
      }
      LastTouch(ps[..|ps| - 1], box)
  }

  /** The shooter's single shot: speed 5, damage 10. */
  function ShooterShot(x: real, y: real, angle: real): Shot {
    Shot(x, y, angle, 5.0, 10)
  }

  /** The five-way fan of phase 3: angles angle + i·0.15 for i = -2..2, speed 7, damage 20. */
  function Fan(x: real, y: real, angle: real): (shots: seq<Shot>)
    ensures |shots| == 5
    ensures forall k :: 0 <= k < 5 ==> shots[k] == Shot(x, y, angle + (k - 2) as real * 0.15, 7.0, 20)
  {
    seq(5, k => Shot(x, y, angle + (k - 2) as real * 0.15, 7.0, 20))
  }

  /**
   * The burst of `shootAtPlayer` in each phase: one shot in phase 1, the
   * three-way spread in phase 2 (speed 6, damage 15), the five-way fan
   * otherwise.
   */
  function Burst(phase: int, x: real, y: real, angle: real): (shots: seq<Shot>)
    ensures |shots| == if phase == 1 then 1 else if phase == 2 then 3 else 5
    ensures forall s :: s in shots ==> s.x == x && s.y == y
    ensures phase == 1 || phase == 2 ==> forall s :: s in shots ==> s.speed == 6.0 && s.damage == 15
    ensures phase != 1 && phase != 2 ==> forall s :: s in shots ==> s.speed == 7.0 && s.damage == 20
  {
    if phase == 1 then [Shot(x, y, angle, 6.0, 15)]
    else if phase == 2 then Spread(3, x, y, angle, 6.0, 15)
    else Fan(x, y, angle)
  }

  datatype AttackPattern = Chase | ShootBursts

  /**
   * The boss phase after the check at the top of `update`: phase 1 moves to
   * 2 once health is at most 60% of the maximum; otherwise phase 2 moves to
   * 3 once health is at most 30%.
   */
  function NextPhase(phase: int, health: int, maxHealth: int): int {
    if health as real <= maxHealth as real * 0.6 && phase == 1 then 2
    else if health as real <= maxHealth as real * 0.3 && phase == 2 then 3
    else phase
  }

  /**
   * The boss's speed and attack cooldown once its phase has gone from
   * `from` to `to`: speed 0.8 on entering phase 2; speed 1.2 and a 2 s
   * cooldown on entering phase 3; both unchanged otherwise.
   */
  function Tuning(from: int, to: int, speed: real, cooldown: real): (real, real) {
    if from == 1 && to == 2 then (0.8, cooldown)
    else if from == 2 && to == 3 then (1.2, 2000.0)
    else (speed, cooldown)
  }

  /** The phase never goes back and moves at most one step per update, never beyond 3. */
  lemma PhaseAdvancesByAtMostOne(phase: int, health: int, maxHealth: int)
    requires 1 <= phase <= 3
    ensures NextPhase(phase, health, maxHealth) == phase || NextPhase(phase, health, maxHealth) == phase + 1
    ensures NextPhase(phase, health, maxHealth) <= 3
  {
  }

  /** A boss that keeps losing health passes through every phase: at 30% or less it reaches phase 3 in two updates from phase 1. */
  lemma LowHealthReachesPhase3(health: int, maxHealth: int)
    requires maxHealth >= 0 && health as real <= maxHealth as real * 0.3
    ensures NextPhase(NextPhase(1, health, maxHealth), health, maxHealth) == 3
  {
  }

  /** The pattern `pickAttackPattern` chooses in a phase from its first and second draws. */
  function PickedPattern(phase: int, r1: real, r2: real): AttackPattern {
    if phase >= 3 then (if r2 < 0.7 then ShootBursts else Chase)
    else if Floor(r1 * 2.0) == 0 then Chase else ShootBursts
  }

  /**
   * What a boss's `update` changes besides its phase, speed and cooldown:
   * its position, projectiles, attack timer, pattern and burst count, and
   * how many random numbers have been drawn.
   */
  datatype BossMove = BossMove(x: real, y: real, projectiles: seq<EnemyProjectile>, attackTimer: real,
                               attackPattern: AttackPattern, shotCount: int, drawn: nat)

  /** One step of length `speed` from (x, y) toward the target, if there is one. */
  function StepToward(x: real, y: real, target: Option<(real, real)>, speed: real, trig: Trig): (real, real) {
    if target.None? then (x, y)
    else var step := trig.toward(x, y, target.value.0, target.value.1, speed);
         (x + step.0, y + step.1)
  }

  /**
   * The attack step: in the chase pattern a step toward a present target;
   * in the shoot pattern with fewer than 3 bursts, the phase's burst toward
   * a present target, counted, the third one turning the pattern back to
   * chase with the count reset.
   */
  function AttackStep(m: BossMove, phase: int, speed: real, target: Option<(real, real)>, trig: Trig): BossMove {
    if m.attackPattern == Chase && target.Some? then
      var p := StepToward(m.x, m.y, target, speed, trig);
      m.(x := p.0, y := p.1)
    else if m.attackPattern == ShootBursts && m.shotCount < 3 then
      var ps := if target.None? then m.projectiles
                else m.projectiles + Volley(Burst(phase, m.x, m.y, trig.aim(m.x, m.y, target.value.0, target.value.1)));
      if m.shotCount + 1 >= 3 then m.(projectiles := ps, attackPattern := Chase, shotCount := 0)
      else m.(projectiles := ps, shotCount := m.shotCount + 1)
    else m
  }

  /**
   * An active boss's `update` after the phase check, in the phase, speed and
   * attack cooldown that check left: the attack timer counts up and, on
   * reaching the cooldown, restarts with a freshly picked pattern (one draw,
   * two from phase 3); then the attack step; then the base update, which
   * steps toward the target once more and runs the projectile loop.
   */
  function BossStep(m: BossMove, phase: int, speed: real, cooldown: real, deltaTime: real,
                    target: Option<(real, real)>, trig: Trig, draw: nat -> real): BossMove
  {
    var a := AttackStep(Timed(m, phase, cooldown, deltaTime, draw), phase, speed, target, trig);
    Based(a, speed, target, trig)
  }

  /**
   * The attack timer counts up by `deltaTime`; on reaching the cooldown it
   * restarts at 0 with a pattern picked from the next draws (one, two from
   * phase 3) and the burst count reset.
   */
  function Timed(m: BossMove, phase: int, cooldown: real, deltaTime: real, draw: nat -> real): BossMove {
    if m.attackTimer + deltaTime >= cooldown
    then m.(attackTimer := 0.0, attackPattern := PickedPattern(phase, draw(m.drawn), draw(m.drawn + 1)),
            shotCount := 0, drawn := m.drawn + if phase >= 3 then 2 else 1)
    else m.(attackTimer := m.attackTimer + deltaTime)
  }

  /** The base update: a step toward a present target, then the projectile loop. */
  function Based(m: BossMove, speed: real, target: Option<(real, real)>, trig: Trig): BossMove {
    var p := StepToward(m.x, m.y, target, speed, trig);
    m.(x := p.0, y := p.1, projectiles := Survivors(m.projectiles, trig))
  }

  /**
   * The burst cycle: a boss that starts shooting with no burst fired, and
   * whose timer stays below the cooldown, fires on three updates and is
   * chasing again after the third, with the count back at 0.
   */
  lemma BossBurstsThenChases(m: BossMove, phase: int, speed: real, cooldown: real, deltaTime: real,
                             target: Option<(real, real)>, trig: Trig, draw: nat -> real)
    requires m.attackPattern == ShootBursts && m.shotCount == 0
    requires deltaTime >= 0.0 && m.attackTimer + 3.0 * deltaTime < cooldown
    ensures var m1 := BossStep(m, phase, speed, cooldown, deltaTime, target, trig, draw);
            var m2 := BossStep(m1, phase, speed, cooldown, deltaTime, target, trig, draw);
            var m3 := BossStep(m2, phase, speed, cooldown, deltaTime, target, trig, draw);
            m1.attackPattern == ShootBursts && m1.shotCount == 1 &&
            m2.attackPattern == ShootBursts && m2.shotCount == 2 &&
            m3.attackPattern == Chase && m3.shotCount == 0 &&
            m3.drawn == m.drawn && m3.attackTimer == m.attackTimer + 3.0 * deltaTime
  {
  }

  /**
   * A shooting boss with a target fires the burst of its phase from where it
   * stands; until the next step toward the target it does not move, and the
   * burst then runs the projectile loop with the rest.
   */
  lemma BossFiresBurst(m: BossMove, phase: int, speed: real, cooldown: real, deltaTime: real,
                       target: Option<(real, real)>, trig: Trig, draw: nat -> real)
    requires m.attackPattern == ShootBursts && 0 <= m.shotCount < 3 && m.attackTimer + deltaTime < cooldown
    requires target.Some?
    ensures var r := BossStep(m, phase, speed, cooldown, deltaTime, target, trig, draw);
            var burst := Burst(phase, m.x, m.y, trig.aim(m.x, m.y, target.value.0, target.value.1));
            |burst| == (if phase == 1 then 1 else if phase == 2 then 3 else 5) &&
            r.projectiles == Survivors(m.projectiles + Volley(burst), trig) &&
            (r.x, r.y) == StepToward(m.x, m.y, target, speed, trig)
  {
  }

  /** Without a target the boss neither moves nor fires; only its projectile loop runs. */
  lemma BossWithoutTargetStays(m: BossMove, phase: int, speed: real, cooldown: real, deltaTime: real,
                               trig: Trig, draw: nat -> real)
    ensures var r := BossStep(m, phase, speed, cooldown, deltaTime, None, trig, draw);
            r.x == m.x && r.y == m.y && r.projectiles == Survivors(m.projectiles, trig)
  {
  }

  /**
   * The boss keeps its burst count in 0 to 2, and draws random numbers only
   * when the timer reaches the cooldown: one draw, two from phase 3.
   */
  lemma BossStepKeepsCount(m: BossMove, phase: int, speed: real, cooldown: real, deltaTime: real,
                           target: Option<(real, real)>, trig: Trig, draw: nat -> real)
    requires 0 <= m.shotCount < 3
    ensures var r := BossStep(m, phase, speed, cooldown, deltaTime, target, trig, draw);
            0 <= r.shotCount < 3 &&
            r.drawn == m.drawn + (if m.attackTimer + deltaTime < cooldown then 0 else if phase >= 3 then 2 else 1)
  {
  }

  class Enemy {
    const kind: EnemyKind
    var x: real
    var y: real
    const width: real
    const height: real
    var health: int
    const maxHealth: int
    var speed: real
    const scoreValue: int
    const xpValue: int
    const coinValue: int
    const coinDropChance: real
    var target: Player?
    var projectiles: seq<EnemyProjectile>
    var active: bool
    // ShooterEnemy
    var shootCooldown: real
    const shootDelay: real := 2000.0
    const shootRange: real := 300.0
    // BossEnemy
    var attackPattern: AttackPattern
    var attackTimer: real
    var attackCooldown: real
    var shotCount: int
    var phase: int

    /** The boss is in phase 1 to 3 and has fired fewer than 3 bursts of its current pattern. */
    ghost predicate Valid()
      reads this`phase, this`shotCount
    {
      1 <= phase <= 3 && 0 <= shotCount < 3
    }

    /** An enemy of the given kind at (x, y), with that kind's stats, no target and no projectiles. */
    constructor (kind: EnemyKind, x: real, y: real)
      ensures Valid()
      ensures this.kind == kind && this.x == x && this.y == y
      ensures width == StatsOf(kind).size && height == StatsOf(kind).size
      ensures health == StatsOf(kind).health && maxHealth == health && speed == StatsOf(kind).speed
      ensures scoreValue == StatsOf(kind).scoreValue && xpValue == StatsOf(kind).xpValue
      ensures coinValue == StatsOf(kind).coinValue && coinDropChance == StatsOf(kind).coinDropChance
      ensures target == null && projectiles == [] && active
      ensures shootCooldown == 0.0
      ensures attackPattern == Chase && attackTimer == 0.0 && attackCooldown == 3000.0 && shotCount == 0 && phase == 1
    {
      var s := StatsOf(kind);
      this.kind, this.x, this.y := kind, x, y;
      width, height := s.size, s.size;
      health, maxHealth, speed := s.health, s.health, s.speed;
      scoreValue, xpValue, coinValue, coinDropChance := s.scoreValue, s.xpValue, s.coinValue, s.coinDropChance;
      target := null;
      projectiles := [];
      active := true;
      shootCooldown := 0.0;
      attackPattern, attackTimer, attackCooldown, shotCount, phase := Chase, 0.0, 3000.0, 0, 1;
    }

    function Bounds(): Rect
      reads this`x, this`y
    {
      Rect(x, y, width, height)
    }

    method SetTarget(player: Player)
      modifies this`target
      ensures target == player
    {
      target := player;
    }

    /**
     * `takeDamage`: health drops by `damage`; at or below 0 the enemy is
     * deactivated and the call reports a kill. An enemy already dead reports
     * a kill again.
     */
    method TakeDamage(damage: int) returns (killed: bool)
      modifies this`health, this`active
      ensures health == old(health) - damage
      ensures killed <==> health <= 0
      ensures active == (old(active) && !killed)
    {
      health := health - damage;
      if health <= 0 {
        active := false;
        return true;
      }
      return false;
    }

    /** The parts of this boss and of the random source that the boss `update` changes, besides phase, speed and cooldown. */
    function Moves(rng: Random): BossMove
      reads this`x, this`y, this`projectiles, this`attackTimer, this`attackPattern, this`shotCount, rng`drawn
    {
      BossMove(x, y, projectiles, attackTimer, attackPattern, shotCount, rng.drawn)
    }

    /** Where the target stands, if there is one. */
    function TargetAt(): Option<(real, real)>
      reads this`target, target
    {
      if target == null then None else Some((target.x, target.y))
    }

    /** `moveTowardTarget`: one step of length `speed` toward the target, if there is one. */
    method MoveTowardTarget(trig: Trig)
      modifies this`x, this`y
      ensures target == null ==> x == old(x) && y == old(y)
      ensures target != null ==>
                var step := trig.toward(old(x), old(y), target.x, target.y, speed);
                x == old(x) + step.0 && y == old(y) + step.1
    {
      if target == null {
        return;
      }
      var step := trig.toward(x, y, target.x, target.y, speed);
      x := x + step.0;
      y := y + step.1;
    }

    /** The projectile loop of the base `update`: each projectile steps once and the dead ones leave the list. */
    method UpdateProjectiles(deltaTime: real, trig: Trig)
      modifies this`projectiles
      ensures projectiles == Survivors(old(projectiles), trig)
    {
      ghost var orig := projectiles;
      var ps := projectiles;
      var i := |ps|;
      while i > 0
        invariant 0 <= i <= |orig|
        invariant ps == orig[..i] + Survivors(orig[i..], trig)
      {
        i := i - 1;
        SurvivorsSplice(orig, i, ps, trig);
        ps := ps[i := ps[i].Step(trig)];
        if !ps[i].active {
          ps := ps[..i] + ps[i + 1..];
        }
      }
      assert orig[0..] == orig;
      projectiles := ps;
    }

    /** The base `update`: chase the target if there is one, then run the projectile loop. There is no `active` check. */
    method BaseUpdate(deltaTime: real, trig: Trig)
      modifies this`x, this`y, this`projectiles
      ensures target == null ==> x == old(x) && y == old(y)
      ensures target != null ==>
                var step := trig.toward(old(x), old(y), target.x, target.y, speed);
                x == old(x) + step.0 && y == old(y) + step.1
      ensures projectiles == Survivors(old(projectiles), trig)
    {
      MoveTowardTarget(trig);
      UpdateProjectiles(deltaTime, trig);
    }

    /** Appends one new projectile. */
    method FireProjectile(shot: Shot)
      modifies this`projectiles
      ensures projectiles == old(projectiles) + [Fire(shot)]
    {
      projectiles := projectiles + [Fire(shot)];
    }

    /** `ShooterEnemy.shoot`: one projectile from the enemy's corner toward the target. */
    method ShooterShoot(trig: Trig)
      modifies this`projectiles
      ensures target == null ==> projectiles == old(projectiles)
      ensures target != null ==>
                projectiles == old(projectiles) + [Fire(ShooterShot(x, y, trig.aim(x, y, target.x, target.y)))]
    {
      if target == null {
        return;
      }
      var angle := trig.aim(x, y, target.x, target.y);
      FireProjectile(ShooterShot(x, y, angle));
    }

    /**
     * `ShooterEnemy.update`: nothing while inactive; otherwise the base
     * update, then a shot when the cooldown has run out and the target is
     * closer than 300, which restarts the cooldown at 2000; a running
     * cooldown then counts down in the same frame.
     */
    method ShooterUpdate(deltaTime: real, trig: Trig)
      requires Valid()
      modifies this`x, this`y, this`projectiles, this`shootCooldown
      ensures Valid()
      ensures !old(active) ==> x == old(x) && y == old(y) && projectiles == old(projectiles) && shootCooldown == old(shootCooldown)
      ensures old(active) && target == null ==> x == old(x) && y == old(y)
      ensures old(active) && target != null ==>
                var step := trig.toward(old(x), old(y), target.x, target.y, speed);
                x == old(x) + step.0 && y == old(y) + step.1
      ensures old(active) ==>
                var fired := target != null && old(shootCooldown) <= 0.0 &&
                             trig.distance(x, y, target.x, target.y) < shootRange;
                var cd := if fired then shootDelay else old(shootCooldown);
                shootCooldown == (if cd > 0.0 then cd - deltaTime else cd) &&
                projectiles == Survivors(old(projectiles), trig) +
                               (if fired then [Fire(ShooterShot(x, y, trig.aim(x, y, target.x, target.y)))] else [])
    {
      if !active {
        return;
      }
      BaseUpdate(deltaTime, trig);
      if target != null && shootCooldown <= 0.0 {
        var distance := trig.distance(x, y, target.x, target.y);
        if distance < shootRange {
          ShooterShoot(trig);
          shootCooldown := shootDelay;
        }
      }
      if shootCooldown > 0.0 {
        shootCooldown := shootCooldown - deltaTime;
      }
    }

    /** The phase check at the top of the boss `update`; phase 2 runs at speed 0.8, phase 3 at 1.2 with a 2000 ms attack cooldown. */
    method AdvancePhase()
      requires 1 <= phase <= 3
      modifies this`phase, this`speed, this`attackCooldown
      ensures phase == NextPhase(old(phase), health, maxHealth) && 1 <= phase <= 3
      ensures (speed, attackCooldown) == Tuning(old(phase), phase, old(speed), old(attackCooldown))
    {
      if health as real <= maxHealth as real * 0.6 && phase == 1 {
        phase := 2;
        speed := 0.8;
      } else if health as real <= maxHealth as real * 0.3 && phase == 2 {
        phase := 3;
        speed := 1.2;
        attackCooldown := 2000.0;
      }
    }

    /**
     * `pickAttackPattern`: chase or shoot with even odds, and from phase 3
     * on shoot with probability 0.7 from a second draw; the burst count
     * restarts.
     */
    method PickAttackPattern(rng: Random)
      requires rng.Valid()
      modifies this`attackPattern, this`shotCount, rng`drawn
      ensures shotCount == 0
      ensures var r1 := rng.draw(old(rng.drawn));
              phase < 3 ==> rng.drawn == old(rng.drawn) + 1 &&
                            attackPattern == (if Floor(r1 * 2.0) == 0 then Chase else ShootBursts)
      ensures phase >= 3 ==> rng.drawn == old(rng.drawn) + 2 &&
                             attackPattern == (if rng.draw(old(rng.drawn) + 1) < 0.7 then ShootBursts else Chase)
    {
      var r1 := rng.Next();
      ScaledBelow(r1, 2);
      var patterns := [Chase, ShootBursts];
      attackPattern := patterns[Floor(r1 * 2.0)];
      shotCount := 0;
      if phase >= 3 {
        var r2 := rng.Next();
        attackPattern := if r2 < 0.7 then ShootBursts else Chase;
      }
    }

    /** `shootAtPlayer`: the burst of the current phase toward the target, if there is one. */
    method ShootAtPlayer(trig: Trig)
      modifies this`projectiles
      ensures target == null ==> projectiles == old(projectiles)
      ensures target != null ==>
                projectiles == old(projectiles) + Volley(Burst(phase, x, y, trig.aim(x, y, target.x, target.y)))
    {
      if target == null {
        return;
      }
      var angle := trig.aim(x, y, target.x, target.y);
      ghost var before := projectiles;
      if phase == 1 {
        FireProjectile(Shot(x, y, angle, 6.0, 15));
      } else if phase == 2 {
        FireProjectile(Shot(x, y, angle, 6.0, 15));
        FireProjectile(Shot(x, y, angle + 0.2, 6.0, 15));
        FireProjectile(Shot(x, y, angle - 0.2, 6.0, 15));
        assert Volley(Burst(phase, x, y, angle)) ==
               [Fire(Shot(x, y, angle, 6.0, 15)), Fire(Shot(x, y, angle + 0.2, 6.0, 15)), Fire(Shot(x, y, angle - 0.2, 6.0, 15))];
      } else {
        ghost var fan := Fan(x, y, angle);
        for i := -2 to 3
          invariant projectiles == before + Volley(fan[..i + 2])
        {
          FireProjectile(Shot(x, y, angle + i as real * 0.15, 7.0, 20));
          assert fan[..i + 3] == fan[..i + 2] + [fan[i + 2]];
          assert Volley(fan[..i + 3]) == Volley(fan[..i + 2]) + [Fire(fan[i + 2])];
        }
        assert fan[..5] == fan;
      }
    }

    /**
     * The attack step of the boss `update`: in the chase pattern a step
     * toward the target; in the shoot pattern a burst, and after the third
     * burst the pattern reverts to chase with the count reset.
     */
    method RunAttackPattern(trig: Trig, ghost rng: Random)
      requires Valid()
      modifies this`x, this`y, this`projectiles, this`attackPattern, this`shotCount
      ensures Valid()
      ensures Moves(rng) == AttackStep(old(Moves(rng)), phase, speed, TargetAt(), trig)
      ensures old(attackPattern) == Chase ==> attackPattern == Chase && shotCount == old(shotCount) && projectiles == old(projectiles)
      ensures old(attackPattern) == Chase && target == null ==> x == old(x) && y == old(y)
      ensures old(attackPattern) == Chase && target != null ==>
                var step := trig.toward(old(x), old(y), target.x, target.y, speed);
                x == old(x) + step.0 && y == old(y) + step.1
      ensures old(attackPattern) == ShootBursts ==>
                x == old(x) && y == old(y) && shotCount == (old(shotCount) + 1) % 3 &&
                (attackPattern == Chase <==> old(shotCount) == 2) &&
                (target == null ==> projectiles == old(projectiles)) &&
                (target != null ==>
                   projectiles == old(projectiles) + Volley(Burst(phase, x, y, trig.aim(x, y, target.x, target.y))))
    {
      if attackPattern == Chase && target != null {
        MoveTowardTarget(trig);
      } else if attackPattern == ShootBursts && shotCount < 3 {
        ShootAtPlayer(trig);
        shotCount := shotCount + 1;
        if shotCount >= 3 {
          attackPattern := Chase;
          shotCount := 0;
        }
      }
    }

    /**
     * `BossEnemy.update`: nothing while inactive. Otherwise the phase check;
     * the attack timer, which picks a new pattern when it reaches the attack
     * cooldown; the attack step; and then the base update, which steps
     * toward the target again.
     */
    method BossUpdate(deltaTime: real, trig: Trig, rng: Random)
      requires Valid() && rng.Valid()
      modifies this`x, this`y, this`projectiles, this`phase, this`speed, this`attackCooldown
      modifies this`attackTimer, this`attackPattern, this`shotCount, rng`drawn
      ensures Valid()
      ensures !old(active) ==> Moves(rng) == old(Moves(rng)) && phase == old(phase)
      ensures old(active) ==> phase == NextPhase(old(phase), health, maxHealth)
      ensures (speed, attackCooldown) == Tuning(old(phase), phase, old(speed), old(attackCooldown))
      ensures old(active) ==>
                Moves(rng) == BossStep(old(Moves(rng)), phase, speed, attackCooldown, deltaTime, TargetAt(), trig, rng.draw)
    {
      if !active {
        return;
      }
      AdvancePhase();
      ghost var m := Moves(rng);
      TickAttack(deltaTime, rng);
      RunAttackPattern(trig, rng);
      BossBase(deltaTime, trig, rng);
      assert Moves(rng) == BossStep(m, phase, speed, attackCooldown, deltaTime, TargetAt(), trig, rng.draw);
    }

    /** The attack timer of the boss `update`: it counts up and, on reaching the cooldown, picks a new pattern and restarts. */
    method TickAttack(deltaTime: real, rng: Random)
      requires Valid() && rng.Valid()
      modifies this`attackTimer, this`attackPattern, this`shotCount, rng`drawn
      ensures Valid()
      ensures Moves(rng) == Timed(old(Moves(rng)), phase, attackCooldown, deltaTime, rng.draw)
    {
      attackTimer := attackTimer + deltaTime;
      if attackTimer >= attackCooldown {
        PickAttackPattern(rng);
        attackTimer := 0.0;
      }
    }

    /** `BaseUpdate` run by the boss, as a change of `Moves`. */
    method BossBase(deltaTime: real, trig: Trig, ghost rng: Random)
      modifies this`x, this`y, this`projectiles
      ensures Moves(rng) == Based(old(Moves(rng)), speed, TargetAt(), trig)
    {
      BaseUpdate(deltaTime, trig);
    }

    /** The `update` of the enemy's class. */
    method Update(deltaTime: real, trig: Trig, rng: Random)
      requires Valid() && rng.Valid()
      modifies this, rng`drawn
      ensures Valid()
      ensures health == old(health) && active == old(active) && target == old(target)
      ensures kind != Shooter && kind != Boss ==>
                projectiles == Survivors(old(projectiles), trig) && (target == null ==> x == old(x) && y == old(y))
      ensures kind != Shooter && kind != Boss && target != null ==>
                var step := trig.toward(old(x), old(y), target.x, target.y, speed);
                x == old(x) + step.0 && y == old(y) + step.1
      ensures kind != Boss ==> rng.drawn == old(rng.drawn)
      ensures kind == Shooter && !old(active) ==> x == old(x) && y == old(y) && projectiles == old(projectiles)
      ensures kind == Shooter && old(active) && target == null ==> x == old(x) && y == old(y)
      ensures kind == Shooter && old(active) && target != null ==>
                var step := trig.toward(old(x), old(y), target.x, target.y, speed);
                x == old(x) + step.0 && y == old(y) + step.1
      ensures kind == Shooter && old(active) ==>
                var fired := target != null && old(shootCooldown) <= 0.0 &&
                             trig.distance(x, y, target.x, target.y) < shootRange;
                var cd := if fired then shootDelay else old(shootCooldown);
                shootCooldown == (if cd > 0.0 then cd - deltaTime else cd) &&
                projectiles == Survivors(old(projectiles), trig) +
                               (if fired then [Fire(ShooterShot(x, y, trig.aim(x, y, target.x, target.y)))] else [])
      ensures kind == Boss && !old(active) ==> Moves(rng) == old(Moves(rng)) && phase == old(phase)
      ensures kind == Boss && old(active) ==> phase == NextPhase(old(phase), health, maxHealth)
      ensures kind != Boss ==>
                phase == old(phase) && attackTimer == old(attackTimer) && attackPattern == old(attackPattern) &&
                shotCount == old(shotCount)
      ensures kind != Shooter ==> shootCooldown == old(shootCooldown)
      ensures (speed, attackCooldown) == Tuning(old(phase), phase, old(speed), old(attackCooldown))
      ensures kind == Boss && old(active) ==>
                Moves(rng) == BossStep(old(Moves(rng)), phase, speed, attackCooldown, deltaTime, TargetAt(), trig, rng.draw)
    {
      match kind
      case Basic => BaseUpdate(deltaTime, trig);
      case Fast => BaseUpdate(deltaTime, trig);
      case Tank => BaseUpdate(deltaTime, trig);
      case Shooter => ShooterUpdate(deltaTime, trig);
      case Boss => BossUpdate(deltaTime, trig, rng);
    }
  }

  /** The order in which `getAvailableEnemyTypes` unlocks the normal kinds. */
  const TypeOrder: seq<EnemyKind> := [Basic, Fast, Shooter, Tank]

  /** The normal kinds on offer at a difficulty: basic always, then fast, shooter and tank from difficulty 2, 3 and 4. */
  function AvailableTypes(difficulty: int): (types: seq<EnemyKind>)
    ensures 1 <= |types| <= |TypeOrder|
  {
    TypeOrder[..1 + (if difficulty >= 2 then 1 else 0) + (if difficulty >= 3 then 1 else 0) + (if difficulty >= 4 then 1 else 0)]
  }

  /**
   * What the list offers: never a boss, basic always and first, and each
   * other kind exactly from its threshold difficulty on.
   */
  lemma AvailableTypesByDifficulty(difficulty: int)
    ensures var types := AvailableTypes(difficulty);
            |types| >= 1 && types[0] == Basic && Boss !in types &&
            (Fast in types <==> difficulty >= 2) &&
            (Shooter in types <==> difficulty >= 3) &&
            (Tank in types <==> difficulty >= 4)
  {
    var types := AvailableTypes(difficulty);
    if difficulty < 2 {
      assert types == [Basic];
    } else if difficulty < 3 {
      assert types == [Basic, Fast];
    } else if difficulty < 4 {
      assert types == [Basic, Fast, Shooter];
    } else {
      assert types == TypeOrder;
    }
  }

  /** The boss appears when the difficulty is at least 4, none has been spawned and fewer than 3 enemies are listed. */
  predicate BossDue(difficulty: int, bossSpawned: bool, listed: nat) {
    difficulty >= 4 && !bossSpawned && listed < 3
  }

  /** Every enemy listed is valid. */
  ghost predicate AllValid(es: seq<Enemy>)
    reads (set e | e in es)`phase, (set e | e in es)`shotCount
  {
    forall e :: e in es ==> e.Valid()
  }

  /** At most one boss is listed, and none unless one was spawned. */
  ghost predicate BossRule(es: seq<Enemy>, spawned: bool) {
    (forall e1, e2 :: e1 in es && e2 in es && e1.kind == Boss && e2.kind == Boss ==> e1 == e2) &&
    (!spawned ==> forall e :: e in es ==> e.kind != Boss)
  }

  /** The enemy's box overlaps the player's. */
  predicate Touching(e: Enemy, player: Player)
    reads e`x, e`y, player`x, player`y
  {
    CheckCollision(e.Bounds(), player.Bounds())
  }

  /** Some enemy of `es` touches the player. */
  predicate AnyTouching(es: seq<Enemy>, player: Player)
    reads (set e | e in es)`x, (set e | e in es)`y, player`x, player`y
  {
    exists e :: e in es && Touching(e, player)
  }

  /** Whether each enemy is active, in order. */
  ghost function Actives(es: seq<Enemy>): (a: seq<bool>)
    reads (set e | e in es)`active
    ensures |a| == |es| && forall k :: 0 <= k < |es| ==> a[k] == es[k].active
  {
    if es == [] then [] else Actives(es[..|es| - 1]) + [es[|es| - 1].active]
  }

  /** The health of each enemy, in order. */
  ghost function Healths(es: seq<Enemy>): (h: seq<int>)
    reads (set e | e in es)`health
    ensures |h| == |es| && forall k :: 0 <= k < |es| ==> h[k] == es[k].health
  {
    if es == [] then [] else Healths(es[..|es| - 1]) + [es[|es| - 1].health]
  }

  /**
   * The state of the enemy loop once it has reached index i, against the
   * flags `act` and healths `hp` the enemies `orig` had before it: every
   * enemy from i on that was active has lost 10 health if it touches the
   * player, every other enemy keeps its health and its flag, and the player
   * has been hurt by 10 once exactly when one of them touches it.
   */
  ghost predicate Swept(orig: seq<Enemy>, act: seq<bool>, hp: seq<int>, i: int, player: Player, touched: bool, v: Vitals)
    reads (set e | e in orig)`health, (set e | e in orig)`active, (set e | e in orig)`x, (set e | e in orig)`y
    reads (set e | e in orig)`phase, (set e | e in orig)`shotCount
    reads player`x, player`y, player`health, player`active, player`invulnerable, player`invulnerableTimer
  {
    |act| == |orig| && |hp| == |orig| && 0 <= i <= |orig| &&
    (forall k :: 0 <= k < |orig| ==> orig[k].Valid()) &&
    (forall k :: 0 <= k < |orig| ==>
       orig[k].health == hp[k] - (if i <= k && act[k] && Touching(orig[k], player) then 10 else 0)) &&
    (forall k :: 0 <= k < |orig| && !(i <= k && act[k]) ==> orig[k].active == act[k]) &&
    (touched <==> exists k :: i <= k < |orig| && act[k] && Touching(orig[k], player)) &&
    player.Status() == (if touched then Hurt(v, 10) else v)
  }

  /** The enemy loop run to the front: what `Swept` says about the enemies it keeps. */
  lemma SweptAll(orig: seq<Enemy>, act: seq<bool>, hp: seq<int>, player: Player, touched: bool, v: Vitals)
    requires Distinct(orig) && Swept(orig, act, hp, 0, player, touched, v)
    ensures Distinct(Select(orig, act)) && AllValid(Select(orig, act))
    ensures forall k :: 0 <= k < |orig| ==> (orig[k] in Select(orig, act) <==> act[k])
    ensures forall e :: e in Select(orig, act) ==> exists k :: 0 <= k < |orig| && act[k] && orig[k] == e
    ensures forall k :: 0 <= k < |orig| && !act[k] ==> !orig[k].active
    ensures forall k :: 0 <= k < |orig| && act[k] ==>
              orig[k].health == hp[k] - (if Touching(orig[k], player) then 10 else 0)
    ensures player.Status() ==
              if exists e :: e in Select(orig, act) && Touching(e, player) then Hurt(v, 10) else v
  {
    var es := Select(orig, act);
    SelectMembers(orig, act);
    SelectDistinct(orig, act);
    forall e | e in es
      ensures e.Valid() && exists k :: 0 <= k < |orig| && act[k] && orig[k] == e
    {
      var k :| 0 <= k < |orig| && act[k] && orig[k] == e;
    }
    forall k | 0 <= k < |orig| && orig[k] in es
      ensures act[k]
    {
      var j :| 0 <= j < |orig| && act[j] && orig[j] == orig[k];
    }
  }

  /** The projectile lists of the enemies, in order. */
  ghost function ProjectileLists(es: seq<Enemy>): (ls: seq<seq<EnemyProjectile>>)
    reads (set e | e in es)`projectiles
    ensures |ls| == |es| && forall k :: 0 <= k < |es| ==> ls[k] == es[k].projectiles
  {
    if es == [] then [] else ProjectileLists(es[..|es| - 1]) + [es[|es| - 1].projectiles]
  }

  /** A spawn area: the `SpawnArea(x, y, width, height)` records. */
  type SpawnArea = Rect

  class EnemySpawner {
    const spawnAreas: seq<SpawnArea>
    const maxEnemies: int
    var enemies: seq<Enemy>
    var nextSpawnTime: real
    const spawnDelay: real := 3000.0
    var difficultyLevel: int
    var isActive: bool
    var bossSpawned: bool

    /**
     * Enemies are listed once each and are valid; there are never more than
     * `maxEnemies` of them; there is at most one boss, and none before the
     * boss was spawned.
     */
    ghost predicate Valid()
      reads this`enemies, this`difficultyLevel, this`bossSpawned, (set e | e in enemies)`phase, (set e | e in enemies)`shotCount
    {
      Distinct(enemies) && AllValid(enemies) &&
      (|enemies| <= maxEnemies || enemies == []) && difficultyLevel >= 1 &&
      BossRule(enemies, bossSpawned)
    }

    /** A spawner with no enemies, inactive, at difficulty 1, spawning every 3 s. */
    constructor (spawnAreas: seq<SpawnArea>, maxEnemies: int)
      ensures Valid()
      ensures this.spawnAreas == spawnAreas && this.maxEnemies == maxEnemies
      ensures enemies == [] && nextSpawnTime == 0.0 && difficultyLevel == 1 && !isActive && !bossSpawned
    {
      this.spawnAreas := spawnAreas;
      this.maxEnemies := maxEnemies;
      enemies := [];
      nextSpawnTime := 0.0;
      difficultyLevel := 1;
      isActive := false;
      bossSpawned := false;
    }

    /** The level sets the difficulty to ceil(id / 2), at least 1 for every level. */
    method SetDifficulty(level: int)
      requires Valid() && level >= 1
      modifies this`difficultyLevel
      ensures Valid() && difficultyLevel == level
    {
      difficultyLevel := level;
    }

    /** `startSpawning`: the first spawn is due one delay from now. */
    method StartSpawning(now: real)
      modifies this`isActive, this`nextSpawnTime
      ensures isActive && nextSpawnTime == now + spawnDelay
    {
      isActive := true;
      nextSpawnTime := now + spawnDelay;
    }

    method StopSpawning()
      modifies this`isActive
      ensures !isActive
    {
      isActive := false;
    }

    /** `clearEnemies`: no enemies left and a boss may come again. */
    method ClearEnemies()
      requires Valid()
      modifies this`enemies, this`bossSpawned
      ensures Valid()
      ensures enemies == [] && !bossSpawned
    {
      enemies := [];
      bossSpawned := false;
    }

    /** `getAvailableEnemyTypes`: the list built by pushing each kind whose threshold the difficulty reaches. */
    method GetAvailableEnemyTypes() returns (types: seq<EnemyKind>)
      ensures types == AvailableTypes(difficultyLevel)
    {
      types := [Basic];
      if difficultyLevel >= 2 {
        types := types + [Fast];
      }
      if difficultyLevel >= 3 {
        types := types + [Shooter];
      }
      if difficultyLevel >= 4 {
        types := types + [Tank];
      }
    }

    /**
     * `spawnEnemy`: with no spawn areas nothing happens. Otherwise one draw
     * picks the area, two more the position inside it, and a new enemy is
     * appended: the boss when it is due, otherwise a kind picked from the
     * available ones by a fourth draw.
     */
    method SpawnEnemy(rng: Random)
      requires Valid() && rng.Valid()
      requires |enemies| < maxEnemies
      modifies this`enemies, this`bossSpawned, rng`drawn
      ensures Valid()
      ensures |spawnAreas| == 0 ==> enemies == old(enemies) && bossSpawned == old(bossSpawned) && rng.drawn == old(rng.drawn)
      ensures |spawnAreas| > 0 ==>
                |enemies| == |old(enemies)| + 1 && enemies[..|old(enemies)|] == old(enemies) &&
                var e := enemies[|old(enemies)|];
                var area := spawnAreas[Pick(rng.draw(old(rng.drawn)), |spawnAreas|)];
                fresh(e) && e.target == null && e.projectiles == [] && e.active &&
                e.x == area.x + rng.draw(old(rng.drawn) + 1) * area.width &&
                e.y == area.y + rng.draw(old(rng.drawn) + 2) * area.height &&
                (e.kind == Boss <==> BossDue(difficultyLevel, old(bossSpawned), |old(enemies)|)) &&
                (e.kind != Boss ==>
                   var types := AvailableTypes(difficultyLevel);
                   e.kind == types[Pick(rng.draw(old(rng.drawn) + 3), |types|)]) &&
                bossSpawned == (old(bossSpawned) || e.kind == Boss) &&
                rng.drawn == old(rng.drawn) + (if e.kind == Boss then 3 else 4)
    {
      if |spawnAreas| == 0 {
        return;
      }
      var r1 := rng.Next();
      var spawnIdx := Pick(r1, |spawnAreas|);
      var area := spawnAreas[spawnIdx];
      var r2 := rng.Next();
      var x := area.x + r2 * area.width;
      var r3 := rng.Next();
      var y := area.y + r3 * area.height;
      var kind := ChooseKind(rng);
      var enemy := new Enemy(kind, x, y);
      Push(enemy);
    }

    /**
     * The kind choice of `spawnEnemy`: the boss when it is due, which marks
     * it spawned, otherwise the available kind one draw picks.
     */
    method ChooseKind(rng: Random) returns (kind: EnemyKind)
      requires rng.Valid()
      modifies this`bossSpawned, rng`drawn
      ensures kind == Boss <==> BossDue(difficultyLevel, old(bossSpawned), |enemies|)
      ensures kind == Boss ==> bossSpawned && rng.drawn == old(rng.drawn)
      ensures kind != Boss ==>
                bossSpawned == old(bossSpawned) && rng.drawn == old(rng.drawn) + 1 &&
                var types := AvailableTypes(difficultyLevel);
                kind == types[Pick(rng.draw(old(rng.drawn)), |types|)] && kind in types
    {
      if BossDue(difficultyLevel, bossSpawned, |enemies|) {
        kind := Boss;
        bossSpawned := true;
      } else {
        var types := GetAvailableEnemyTypes();
        AvailableTypesByDifficulty(difficultyLevel);
        var r := rng.Next();
        kind := types[Pick(r, |types|)];
      }
    }

    /** `this.enemies.push(enemy)` for a new enemy that keeps the spawner valid. */
    method Push(enemy: Enemy)
      requires Valid() && enemy.Valid() && enemy !in enemies && |enemies| < maxEnemies
      requires enemy.kind == Boss ==> bossSpawned && forall e :: e in enemies ==> e.kind != Boss
      modifies this`enemies
      ensures Valid() && enemies == old(enemies) + [enemy]
    {
      enemies := enemies + [enemy];
    }

    /**
     * `update`: every enemy (last first) targets the player and updates;
     * the inactive ones leave the list and the others that touch the player
     * trade 10 damage with it. Then every enemy projectile that touches the
     * player hits it and is removed. Then, when spawning is on, due and
     * there is room, one enemy spawns. `contact` says whether a kept enemy
     * touched the player (see `Clash`) and `shots` are the projectile lists
     * the kept enemies had after their update: the player is hurt by the
     * contact first and by those projectiles after (see `OneHitPerFrame`).
     */
    method Update(deltaTime: real, player: Player, env: Env)
      returns (ghost contact: bool, ghost shots: seq<seq<EnemyProjectile>>)
      requires Valid() && env.rng.Valid()
      requires env.trig.sqrt(difficultyLevel as real) >= 1.0
      modifies this`enemies, this`nextSpawnTime, this`bossSpawned, (set e | e in enemies), env.rng`drawn
      modifies player`health, player`active, player`invulnerable, player`invulnerableTimer
      ensures Valid()
      ensures |enemies| <= maxEnemies || enemies == []
      ensures forall e, p :: e in enemies && p in e.projectiles ==> !CheckCollision(p.Bounds(), player.Bounds())
      ensures forall e :: e in old(enemies) && e !in enemies ==> !e.active
      ensures forall e :: e in enemies ==> e in old(enemies) || fresh(e)
      ensures nextSpawnTime == old(nextSpawnTime) ||
              (nextSpawnTime <= env.now + spawnDelay && isActive && env.now >= old(nextSpawnTime))
      ensures forall e :: e in old(enemies) ==> (e in enemies <==> old(e.active))
      ensures |shots| <= |enemies| &&
              forall k :: 0 <= k < |shots| ==> enemies[k].projectiles == Misses(shots[k], player.Bounds())
      ensures contact <==> AnyTouching(enemies[..|shots|], player)
      ensures player.Status() ==
                StruckAll(if contact then Hurt(old(player.Status()), 10) else old(player.Status()), shots, player.Bounds())
    {
      contact, shots := Engage(deltaTime, player, env.trig, env.rng);
      ghost var kept := enemies;
      SpawnIfDue(env);
      assert enemies[..|shots|] == kept;
    }

    /** `update`, seen from the level that owns the spawner: only the spawner's own state and the player's vitals change, and the spawner stays valid. */
    method Advance(deltaTime: real, player: Player, env: Env)
      requires Valid() && env.rng.Valid()
      requires env.trig.sqrt(difficultyLevel as real) >= 1.0
      modifies this`enemies, this`nextSpawnTime, this`bossSpawned, (set e | e in enemies), env.rng`drawn
      modifies player`health, player`active, player`invulnerable, player`invulnerableTimer
      ensures Valid()
      ensures forall e :: e in enemies ==> e in old(enemies) || fresh(e)
    {
      ghost var contact, shots := Update(deltaTime, player, env);
    }

    /**
     * The enemy and projectile loops of `update`: the enemies that were
     * active stay, the player trades contact damage with those it touches
     * and then takes the hits of their projectiles `shots`, which leave.
     */
    method Engage(deltaTime: real, player: Player, trig: Trig, rng: Random)
      returns (ghost contact: bool, ghost shots: seq<seq<EnemyProjectile>>)
      requires Valid() && rng.Valid()
      modifies this`enemies, (set e | e in enemies), rng`drawn
      modifies player`health, player`active, player`invulnerable, player`invulnerableTimer
      ensures Valid()
      ensures forall e :: e in enemies ==> e in old(enemies)
      ensures forall e :: e in old(enemies) ==> (e in enemies <==> old(e.active))
      ensures forall e :: e in old(enemies) && e !in enemies ==> !e.active
      ensures |shots| == |enemies| && forall k :: 0 <= k < |shots| ==> enemies[k].projectiles == Misses(shots[k], player.Bounds())
      ensures forall e, p :: e in enemies && p in e.projectiles ==> !CheckCollision(p.Bounds(), player.Bounds())
      ensures contact <==> AnyTouching(enemies, player)
      ensures player.Status() ==
                StruckAll(if contact then Hurt(old(player.Status()), 10) else old(player.Status()), shots, player.Bounds())
    {
      contact := Clash(deltaTime, player, trig, rng);
      shots := Volleys(player, contact);
    }

    /** The projectile half of `Engage`: the lists `shots` the enemies held meet the player. */
    method Volleys(player: Player, ghost contact: bool) returns (ghost shots: seq<seq<EnemyProjectile>>)
      requires Valid() && (contact <==> AnyTouching(enemies, player))
      modifies (set e | e in enemies)`projectiles
      modifies player`health, player`active, player`invulnerable, player`invulnerableTimer
      ensures Valid() && (contact <==> AnyTouching(enemies, player))
      ensures |shots| == |enemies| && forall k :: 0 <= k < |shots| ==> enemies[k].projectiles == Misses(shots[k], player.Bounds())
      ensures forall e, p :: e in enemies && p in e.projectiles ==> !CheckCollision(p.Bounds(), player.Bounds())
      ensures player.Status() == StruckAll(old(player.Status()), shots, player.Bounds())
    {
      shots := ProjectileLists(enemies);
      HitPlayer(player);
    }

    /** `UpdateEnemies`, seen from `Engage`. */
    method Clash(deltaTime: real, player: Player, trig: Trig, rng: Random) returns (ghost contact: bool)
      requires Valid() && rng.Valid()
      modifies this`enemies, (set e | e in enemies), rng`drawn
      modifies player`health, player`active, player`invulnerable, player`invulnerableTimer
      ensures Valid()
      ensures forall e :: e in enemies ==> e in old(enemies)
      ensures forall e :: e in old(enemies) ==> (e in enemies <==> old(e.active))
      ensures forall e :: e in old(enemies) && e !in enemies ==> !e.active
      ensures contact <==> AnyTouching(enemies, player)
      ensures player.Status() == if contact then Hurt(old(player.Status()), 10) else old(player.Status())
    {
      UpdateEnemies(deltaTime, player, trig, rng);
      contact := AnyTouching(enemies, player);
    }

    /**
     * The spawn step of `update`: when spawning is on, due and there is
     * room, one enemy spawns and the next spawn is due
     * 3000 / sqrt(difficulty) ms later, no later than 3000 ms from now.
     */
    method SpawnIfDue(env: Env)
      requires Valid() && env.rng.Valid()
      requires env.trig.sqrt(difficultyLevel as real) >= 1.0
      modifies this`enemies, this`nextSpawnTime, this`bossSpawned, env.rng`drawn
      ensures Valid()
      ensures forall e :: e in enemies ==> e in old(enemies) || (fresh(e) && e.projectiles == [])
      ensures forall e :: e in old(enemies) ==> e in enemies
      ensures |old(enemies)| <= |enemies| && enemies[..|old(enemies)|] == old(enemies)
      ensures old(isActive) && env.now >= old(nextSpawnTime) && |old(enemies)| < maxEnemies ==>
                (|spawnAreas| > 0 <==> |enemies| == |old(enemies)| + 1) &&
                nextSpawnTime == env.now + spawnDelay / env.trig.sqrt(difficultyLevel as real) &&
                nextSpawnTime <= env.now + spawnDelay
      ensures !(old(isActive) && env.now >= old(nextSpawnTime) && |old(enemies)| < maxEnemies) ==>
                enemies == old(enemies) && nextSpawnTime == old(nextSpawnTime)
    {
      if isActive && env.now >= nextSpawnTime && |enemies| < maxEnemies {
        SpawnEnemy(env.rng);
        var root := env.trig.sqrt(difficultyLevel as real);
        nextSpawnTime := env.now + spawnDelay / root;
        assert spawnDelay / root <= spawnDelay by {
          assert spawnDelay / root * root == spawnDelay;
        }
      }
    }

    /**
     * The enemy loop of `update`: the enemies that were active stay listed,
     * in order, the others leave; each listed enemy that touches the player
     * after its move has lost 10 health, and the player is hurt by 10 once
     * if any did.
     */
    method UpdateEnemies(deltaTime: real, player: Player, trig: Trig, rng: Random)
      requires Distinct(enemies) && AllValid(enemies) && rng.Valid()
      modifies this`enemies, (set e | e in enemies), rng`drawn
      modifies player`health, player`active, player`invulnerable, player`invulnerableTimer
      ensures Distinct(enemies) && AllValid(enemies) && |enemies| <= |old(enemies)|
      ensures forall e :: e in enemies ==> e in old(enemies)
      ensures forall e :: e in old(enemies) ==> (e in enemies <==> old(e.active))
      ensures forall e :: e in old(enemies) && e !in enemies ==> !e.active
      ensures forall e :: e in enemies ==> e.health == old(e.health) - (if Touching(e, player) then 10 else 0)
      ensures player.Status() ==
                if exists e :: e in enemies && Touching(e, player) then Hurt(old(player.Status()), 10) else old(player.Status())
    {
      ghost var act := Actives(enemies);
      ghost var hp := Healths(enemies);
      ghost var v := player.Status();
      ghost var orig := enemies;
      var es, touched := Sweep(deltaTime, player, trig, rng, act, hp, v);
      enemies := es;
      SweptAll(orig, act, hp, player, touched, v);
    }

    /** The loop of `UpdateEnemies`: every enemy, last first, takes its turn; the inactive ones are spliced out. */
    method Sweep(deltaTime: real, player: Player, trig: Trig, rng: Random,
                 ghost act: seq<bool>, ghost hp: seq<int>, ghost v: Vitals)
      returns (es: seq<Enemy>, ghost touched: bool)
      requires Distinct(enemies) && Swept(enemies, act, hp, |enemies|, player, false, v) && rng.Valid()
      modifies (set e | e in enemies), rng`drawn
      modifies player`health, player`active, player`invulnerable, player`invulnerableTimer
      ensures es == Select(enemies, act) && Swept(enemies, act, hp, 0, player, touched, v)
    {
      ghost var orig := enemies;
      touched := false;
      es := enemies;
      var i := |es|;
      while i > 0
        invariant 0 <= i <= |orig| && Distinct(orig)
        invariant es == orig[..i] + Select(orig[i..], act[i..])
        invariant Swept(orig, act, hp, i, player, touched, v) && rng.Valid()
      {
        i := i - 1;
        SelectSplice(orig, act, i, es);
        var enemy := es[i];
        var keep;
        keep, touched := Turn(enemy, deltaTime, player, trig, rng, orig, act, hp, i, touched, v);
        if !keep {
          es := es[..i] + es[i + 1..];
        }
      }
      assert orig[0..] == orig && act[0..] == act;
    }

    /** `UpdateOne` on enemy i, seen from the enemy loop. */
    method Turn(enemy: Enemy, deltaTime: real, player: Player, trig: Trig, rng: Random,
                ghost orig: seq<Enemy>, ghost act: seq<bool>, ghost hp: seq<int>, ghost i: int,
                ghost touched: bool, ghost v: Vitals)
      returns (keep: bool, ghost touched': bool)
      requires 0 <= i < |orig| && orig[i] == enemy && Distinct(orig)
      requires Swept(orig, act, hp, i + 1, player, touched, v) && rng.Valid()
      modifies enemy, rng`drawn
      modifies player`health, player`active, player`invulnerable, player`invulnerableTimer
      ensures Swept(orig, act, hp, i, player, touched', v) && rng.Valid()
      ensures keep == act[i]
    {
      keep := UpdateOne(enemy, deltaTime, player, trig, rng);
      touched' := touched || (keep && Touching(enemy, player));
      if keep && Touching(enemy, player) {
        HurtOnce(v, 10, 10);
      }
    }

    /**
     * One turn of the enemy loop: target the player and update; an enemy
     * left inactive is dropped, one that touches the player trades 10
     * damage with it and stays listed.
     */
    method UpdateOne(enemy: Enemy, deltaTime: real, player: Player, trig: Trig, rng: Random) returns (keep: bool)
      requires enemy.Valid() && rng.Valid()
      modifies enemy, rng`drawn
      modifies player`health, player`active, player`invulnerable, player`invulnerableTimer
      ensures enemy.Valid() && rng.Valid() && enemy.target == player
      ensures keep == old(enemy.active)
      ensures keep && Touching(enemy, player) ==>
                enemy.health == old(enemy.health) - 10 && (enemy.active <==> enemy.health > 0) &&
                player.Status() == Hurt(old(player.Status()), 10)
      ensures !(keep && Touching(enemy, player)) ==>
                enemy.health == old(enemy.health) && enemy.active == keep && player.Status() == old(player.Status())
    {
      enemy.SetTarget(player);
      enemy.Update(deltaTime, trig, rng);
      if !enemy.active {
        return false;
      }
      if Touching(enemy, player) {
        player.TakeDamage(10);
        var _ := enemy.TakeDamage(10);
      }
      return true;
    }

    /**
     * The enemy projectile loop of `update`: each enemy, first to last,
     * loses the projectiles that hit the player, and the player takes their
     * damage in that order.
     */
    method HitPlayer(player: Player)
      requires Distinct(enemies)
      modifies (set e | e in enemies)`projectiles
      modifies player`health, player`active, player`invulnerable, player`invulnerableTimer
      ensures forall e :: e in enemies ==> e.projectiles == Misses(old(e.projectiles), player.Bounds())
      ensures forall e, p :: e in enemies && p in e.projectiles ==> !CheckCollision(p.Bounds(), player.Bounds())
      ensures player.Status() == StruckAll(old(player.Status()), old(ProjectileLists(enemies)), player.Bounds())
    {
      ghost var lists := ProjectileLists(enemies);
      ghost var v := player.Status();
      var n := 0;
      while n < |enemies|
        invariant 0 <= n <= |enemies|
        invariant forall k :: 0 <= k < n ==> enemies[k].projectiles == Misses(old(enemies[k].projectiles), player.Bounds())
        invariant forall k :: n <= k < |enemies| ==> enemies[k].projectiles == old(enemies[k].projectiles)
        invariant player.Status() == StruckAll(v, lists[..n], player.Bounds())
      {
        assert enemies[n].projectiles == lists[n];
        ClearHits(enemies[n], player);
        assert lists[..n + 1][..n] == lists[..n];
        n := n + 1;
      }
      assert lists[..n] == lists;
      forall e | e in enemies
        ensures forall p :: p in e.projectiles ==> !CheckCollision(p.Bounds(), player.Bounds())
      {
        MissesMembers(old(e.projectiles), player.Bounds());
      }
    }

    /** One projectile against the player's box: on contact the player takes its damage. */
    method HitOnce(p: EnemyProjectile, box: Rect, player: Player) returns (hit: bool)
      modifies player`health, player`active, player`invulnerable, player`invulnerableTimer
      ensures hit == CheckCollision(p.Bounds(), box)
      ensures player.Status() == Touch(old(player.Status()), p, box)
    {
      hit := CheckCollision(p.Bounds(), box);
      if hit {
        player.TakeDamage(p.damage);
      }
    }

    /**
     * The inner loop of the projectile check, for one enemy, last projectile
     * first: a projectile that touches the player deals its damage and
     * leaves the list (so the player is hurt at most once, see `StruckLast`).
     */
    method ClearHits(enemy: Enemy, player: Player)
      modifies enemy`projectiles
      modifies player`health, player`active, player`invulnerable, player`invulnerableTimer
      ensures enemy.projectiles == Misses(old(enemy.projectiles), player.Bounds())
      ensures player.Status() == Struck(old(player.Status()), old(enemy.projectiles), player.Bounds())
    {
      ghost var orig := enemy.projectiles;
      ghost var v := player.Status();
      var ps := enemy.projectiles;
      var box := player.Bounds();
      var i := |ps|;
      while i > 0
        invariant 0 <= i <= |orig| && box == player.Bounds()
        invariant ps == orig[..i] + Misses(orig[i..], box)
        invariant player.Status() == Struck(v, orig[i..], box)
      {
        i := i - 1;
        MissesSplice(orig, i, ps, box);
        assert orig[i..][1..] == orig[i + 1..];
        var hit := HitOnce(ps[i], box, player);
        if hit {
          ps := ps[..i] + ps[i + 1..];
        }
      }
      assert orig[0..] == orig;
      enemy.projectiles := ps;
    }
  }
}
