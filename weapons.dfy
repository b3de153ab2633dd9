/**
 * The stand-alone weapon (js/weapons.js): its level fixes damage, cooldown
 * and projectile speed, it upgrades up to level 3, and it fires the same
 * spread pattern as the player.
 */
module Weapons {
  import opened Utils
  import opened Players

  /** The highest weapon level `upgrade` reaches. */
  const MaxWeaponLevel: int := 3

  class Weapon {
    var level: int
    var damage: int
    var cooldown: int
    var projectileSpeed: real

    /** Damage, cooldown and projectile speed are the functions of the level the source recomputes on every change. */
    ghost predicate Valid()
      reads this
    {
      damage == 10 * level && cooldown == 500 - level * 100 && projectileSpeed == 8.0 + level as real
    }

    constructor (level: int := 1)
      ensures Valid() && this.level == level
    {
      this.level := level;
      damage := 10 * level;
      cooldown := 500 - level * 100;
      projectileSpeed := 8.0 + level as real;
    }

    /** `upgrade`: one level up, only below level 3; the stats follow the level. */
    method Upgrade() returns (upgraded: bool)
      requires Valid()
      modifies this
      ensures Valid()
      ensures upgraded <==> old(level) < MaxWeaponLevel
      ensures level == if upgraded then old(level) + 1 else old(level)
    {
      if level < MaxWeaponLevel {
        level := level + 1;
        damage := 10 * level;
        cooldown := 500 - level * 100;
        projectileSpeed := 8.0 + level as real;
        return true;
      }
      return false;
    }

    /**
     * `createProjectiles`: new projectiles, one per shot of the spread of
     * this weapon's level, each flying at the weapon's projectile speed with
     * the weapon's damage.
     */
    method CreateProjectiles(x: real, y: real, angle: real, trig: Trig) returns (ps: seq<Projectile>)
      ensures var shots := Spread(level, x, y, angle, projectileSpeed, damage);
              |ps| == |shots| && forall k :: 0 <= k < |ps| ==> fresh(ps[k]) && Launched(ps[k], shots[k], trig)
    {
      var first := new Projectile(Shot(x, y, angle, projectileSpeed, damage), trig);
      if level == 1 {
        ps := [first];
      } else if level == 2 {
        var second := new Projectile(Shot(x, y, angle + 0.2, projectileSpeed, damage), trig);
        ps := [first, second];
      } else {
        var second := new Projectile(Shot(x, y, angle + 0.2, projectileSpeed, damage), trig);
        var third := new Projectile(Shot(x, y, angle - 0.2, projectileSpeed, damage), trig);
        ps := [first, second, third];
      }
    }
  }

  /**
   * However often a weapon of level 1 to 3 is upgraded, it ends at its
   * level plus the upgrades, capped at 3, so between levels 1 and 3, with
   * damage 10 to 30 and a cooldown of 200 to 400 ms.
   */
  lemma {:induction false} UpgradesStayInRange(level: int, upgrades: nat)
    decreases upgrades
    requires 1 <= level <= MaxWeaponLevel
    ensures 1 <= UpgradedLevel(level, upgrades) <= MaxWeaponLevel
    ensures 10 <= 10 * UpgradedLevel(level, upgrades) <= 30
    ensures 200 <= 500 - UpgradedLevel(level, upgrades) * 100 <= 400
    ensures UpgradedLevel(level, upgrades) == if level + upgrades < MaxWeaponLevel then level + upgrades else MaxWeaponLevel
  {
    if upgrades > 0 {
      UpgradesStayInRange(if level < MaxWeaponLevel then level + 1 else level, upgrades - 1);
    }
  }

  /** The level after `upgrades` calls of `upgrade`. */
  function UpgradedLevel(level: int, upgrades: nat): int
    decreases upgrades
  {
    if upgrades == 0 then level
    else UpgradedLevel(if level < MaxWeaponLevel then level + 1 else level, upgrades - 1)
  }
}
