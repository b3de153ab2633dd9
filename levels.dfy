/**
 * A level and its once-per-frame resolution pass (js/levels.js, `Level`
 * and `LevelFactory`): the timed-level countdown, the player's projectiles
 * against blocks, trains, power-ups and caged birds, coin pickup, the door
 * gate and exit, and the enemy spawner with projectile kills.
 */
module Levels {
  import opened Utils
  import opened Controls
  import opened Players
  import opened Blocks
  import opened Trains
  import opened Enemies

  /** `Math.ceil(id / 2)`: the spawner difficulty of level `id`. */
  function CeilHalf(id: int): (d: int)
    ensures 2 * d - 1 <= id <= 2 * d
  {
    (id + 1) / 2
  }

  /** `list.splice(i, 1)`: removes entry i, and does nothing when i is past the end. */
  function Splice<T>(s: seq<T>, i: nat): (r: seq<T>)
    ensures i < |s| ==> |r| == |s| - 1 && r[..i] == s[..i]
    ensures i >= |s| ==> r == s
    ensures forall x :: x in r ==> x in s
    ensures i < |s| ==> forall x :: x in s && x != s[i] ==> x in r
  {
    if i < |s| then s[..i] + s[i + 1..] else s
  }

  /** The coins of `s` that are not in `taken`, in their order in `s`. */
  function Without(s: seq<Coin>, taken: set<Coin>): (r: seq<Coin>)
    ensures |r| <= |s|
  {
    if s == [] then [] else (if s[0] in taken then [] else [s[0]]) + Without(s[1..], taken)
  }

  /** The total value of the coins of `s`. */
  function Worth(s: seq<Coin>): int {
    if s == [] then 0 else s[0].value + Worth(s[1..])
  }

  /** `Without` and `Worth` taken one coin at a time from position i. */
  lemma WithoutStep(s: seq<Coin>, i: nat, taken: set<Coin>)
    requires i < |s|
    ensures Without(s[i..], taken) == (if s[i] in taken then [] else [s[i]]) + Without(s[i + 1..], taken)
    ensures Worth(s[i..]) == s[i].value + Worth(s[i + 1..])
  {
    assert s[i..][0] == s[i] && s[i..][1..] == s[i + 1..];
  }

  /** The worth of a list with one coin in front. */
  lemma WorthCons(c: Coin, s: seq<Coin>)
    ensures Worth([c] + s) == c.value + Worth(s)
  {
    assert ([c] + s)[1..] == s;
  }

  /** Taking a coin that is not in `s` leaves `Without(s, _)` as it was. */
  lemma {:induction false} WithoutSkips(s: seq<Coin>, taken: set<Coin>, c: Coin)
    requires c !in s
    ensures Without(s, taken + {c}) == Without(s, taken)
  {
    if s != [] {
      WithoutSkips(s[1..], taken, c);
    }
  }

  /** Leaving coins out keeps a list free of repeats. */
  lemma {:induction false} WithoutDistinct(s: seq<Coin>, taken: set<Coin>)
    requires Distinct(s)
    ensures Distinct(Without(s, taken))
  {
    if s != [] {
      WithoutDistinct(s[1..], taken);
      WithoutSubset(s[1..], taken);
      var w := Without(s, taken);
      forall i, j | 0 <= i < j < |w|
        ensures w[i] != w[j]
      {
        if s[0] !in taken && i == 0 {
          assert w[j] in Without(s[1..], taken);
        }
      }
    }
  }

  /** `Without` keeps only coins of s that are not taken. */
  lemma {:induction false} WithoutSubset(s: seq<Coin>, taken: set<Coin>)
    ensures forall c :: c in Without(s, taken) ==> c in s && c !in taken
  {
    if s != [] {
      WithoutSubset(s[1..], taken);
    }
  }

  /** The value of a coin a destroyed block drops: `Math.floor(3 + random() * 5)`. */
  function BlockCoinValue(r: real): (v: int)
    requires 0.0 <= r < 1.0
    ensures 3 <= v <= 7
  {
    Floor(3.0 + r * 5.0)
  }

  /** A destroyed block drops a coin when the draw is below 0.4. */
  const BlockCoinChance: real := 0.4

  /** How far a train throws the player it hits. */
  const KnockbackForce: real := 20.0

  /**
   * The knocked-back position before clamping: `KnockbackForce` against
   * the train's direction on a horizontal or vertical track; on any other
   * path, that far away from the train's centre (cx, cy), with no move when
   * the player's corner is exactly at the centre.
   */
  function Knockback(path: string, direction: int, cx: real, cy: real, px: real, py: real, sqrt: real -> real): (real, real) {
    if path == Horizontal then (px + (if direction > 0 then -KnockbackForce else KnockbackForce), py)
    else if path == Vertical then (px, py + (if direction > 0 then -KnockbackForce else KnockbackForce))
    else
      var dx, dy := px - cx, py - cy;
      var dist := sqrt(dx * dx + dy * dy);
      if dist > 0.0 then (px + dx / dist * KnockbackForce, py + dy / dist * KnockbackForce) else (px, py)
  }

  /** `Math.max(0, Math.min(v, hi))`: the clamp that keeps a knocked-back player on the level. */
  function ClampInto(v: real, hi: real): (r: real)
    ensures 0.0 <= r
    ensures hi >= 0.0 ==> r <= hi
    ensures 0.0 <= v <= hi ==> r == v
    ensures v < 0.0 ==> r == 0.0
  {
    Max(0.0, Min(v, hi))
  }

  /** The entity lists the factory pushes into a new level; their coordinates are not part of this model. */
  datatype Layout = Layout(
    blocks: seq<Block>, powerUps: seq<PowerUpBlock>, doors: seq<Door>,
    birds: seq<Bird>, trains: seq<MovingTrain>, spawnAreas: seq<SpawnArea>)

  /**
   * The `levelTheme` strings the factory sets ("standard", "biochemistry",
   * "birds", "train", "timed", "lasers", "fortress", "garden", "space",
   * "final") and "maze", which `update` also looks at.
   */
  datatype Theme = Standard | Biochemistry | Birds | Train | Maze | Timed | Lasers | Fortress | Garden | Space | Final

  /** A coin's flag, position and velocity at one moment. */
  datatype CoinState = CoinState(collected: bool, x: real, y: real, vx: real, vy: real)

  ghost function StateOf(c: Coin): CoinState
    reads c
  {
    CoinState(c.collected, c.x, c.y, c.velocityX, c.velocityY)
  }

  /** The states of the coins of s, in order. */
  ghost function CoinStates(s: seq<Coin>): (r: seq<CoinState>)
    reads set c | c in s
    ensures |r| == |s| && forall k :: 0 <= k < |s| ==> r[k] == StateOf(s[k])
  {
    if s == [] then [] else [StateOf(s[0])] + CoinStates(s[1..])
  }

  /** A snapshot of what a frame may only move one way: counters, live projectiles, open doors, power-ups and birds. */
  datatype FrameStart = FrameStart(biochem: int, birdsFreed: int, mazeKeys: int, live: set<Projectile>,
                                   open: set<Door>, powerUps: set<PowerUpBlock>, birds: set<Bird>)

  class Level {
    const id: int
    const width: real
    const height: real
    const blocks: seq<Block>
    var powerUps: seq<PowerUpBlock>
    const doors: seq<Door>
    const spawnAreas: seq<SpawnArea>
    const playerStartPosition: (real, real)
    var spawner: EnemySpawner?
    const nextLevelId: Option<int>
    var doorInstructionShown: bool
    var biochemBlocksDestroyed: int
    const biochemTarget: int
    var birdsFreed: int
    const birdTarget: int
    var birds: seq<Bird>
    var mazeKeysCollected: int
    const mazeKeyTarget: int
    const timedLevel: bool
    const timeLimit: real
    var timeRemaining: real
    const levelTheme: Theme
    var coins: seq<Coin>
    const trains: seq<MovingTrain>

    /**
     * The doors and the coins are listed once each, every train and bird is valid, and a
     * spawner, once there is one, is valid.
     */
    ghost predicate Valid()
      reads this`spawner, this`birds, this`coins, (set t | t in trains)`direction, (set t | t in trains)`currentPathIndex
      reads (set b | b in birds)`wingState, spawner
      reads if spawner == null then {} else (set e | e in spawner.enemies)
    {
      Distinct(coins) && Settled()
    }

    /** The doors are listed once each, every train and bird is valid, and so is the spawner, if any. */
    ghost predicate Settled()
      reads this`spawner, this`birds, (set t | t in trains)`direction, (set t | t in trains)`currentPathIndex
      reads (set b | b in birds)`wingState, spawner
      reads if spawner == null then {} else (set e | e in spawner.enemies)
    {
      Distinct(doors) && TrainsValid() && BirdsValid() && SpawnerValid()
    }

    /** Every train is valid. */
    ghost predicate TrainsValid()
      reads (set t | t in trains)`direction, (set t | t in trains)`currentPathIndex
    {
      forall t :: t in trains ==> t.Valid()
    }

    /** Every bird is valid. */
    ghost predicate BirdsValid()
      reads this`birds, (set b | b in birds)`wingState
    {
      forall b :: b in birds ==> b.Valid()
    }

    /** The spawner, once there is one, is valid. */
    ghost predicate SpawnerValid()
      reads this`spawner, spawner, if spawner == null then {} else (set e | e in spawner.enemies)
    {
      spawner != null ==> spawner.Valid()
    }

    /**
     * Every object a frame of this level may change, apart from the player
     * and its projectiles: the level, its entities, its spawner and enemies.
     */
    ghost function Footprint(): (r: set<object>)
      reads this, spawner
      ensures forall o :: o in r ==>
                o is Level || o is Block || o is PowerUpBlock || o is Door || o is Bird || o is Coin ||
                o is MovingTrain || o is EnemySpawner || o is Enemy
    {
      {this as object} + (set b | b in blocks) + (set u | u in powerUps) + (set d | d in doors) + (set b | b in birds) +
      (set c | c in coins) + (set t | t in trains) +
      (if spawner == null then {} else {spawner as object} + set e | e in spawner.enemies)
    }

    /**
     * `new Level(id, width, height)` followed by the factory's settings
     * `s` and its pushes of the layout's entities. The settings are
     * fixed from here on; the start position is `s.start` or, when the
     * factory gives none, the default (50, height / 2). The constructor's
     * own counters start at 0 with 3 biochemical compounds to destroy,
     * the clock at the level's limit, with no spawner before `init` and
     * no coins.
     */
    constructor (s: Settings, width: real, height: real, layout: Layout)
      requires Distinct(layout.doors)
      requires forall t :: t in layout.trains ==> t.Valid()
      requires forall b :: b in layout.birds ==> b.Valid()
      ensures Valid()
      ensures Follows(s) && this.width == width && this.height == height
      ensures blocks == layout.blocks && powerUps == layout.powerUps && doors == layout.doors
      ensures birds == layout.birds && trains == layout.trains && spawnAreas == layout.spawnAreas
      ensures spawner == null && !doorInstructionShown && biochemBlocksDestroyed == 0 && biochemTarget == 3
      ensures birdsFreed == 0 && mazeKeysCollected == 0 && timeRemaining == s.timeLimit && coins == []
    {
      this.id, this.width, this.height := s.id, width, height;
      blocks, powerUps, doors := layout.blocks, layout.powerUps, layout.doors;
      birds, trains, spawnAreas := layout.birds, layout.trains, layout.spawnAreas;
      playerStartPosition := if s.start.Some? then s.start.value else (50.0, height / 2.0);
      spawner := null;
      nextLevelId := s.nextLevelId;
      doorInstructionShown := false;
      biochemBlocksDestroyed, biochemTarget := 0, 3;
      birdsFreed, birdTarget := 0, s.birdTarget;
      mazeKeysCollected, mazeKeyTarget := 0, s.mazeKeyTarget;
      timedLevel, timeLimit, timeRemaining := s.timed, s.timeLimit, s.timeLimit;
      levelTheme := s.theme;
      coins := [];
    }

    /**
     * `init`: a fresh spawner over the level's spawn areas, at most 5
     * enemies, at difficulty ceil(id / 2).
     */
    method Init()
      requires Valid() && id >= 1
      modifies this`spawner
      ensures Valid()
      ensures spawner != null && fresh(spawner)
      ensures spawner.spawnAreas == spawnAreas && spawner.maxEnemies == 5 && spawner.difficultyLevel == CeilHalf(id)
      ensures spawner.enemies == [] && !spawner.isActive && !spawner.bossSpawned
    {
      var s := new EnemySpawner(spawnAreas, 5);
      s.SetDifficulty(CeilHalf(id));
      spawner := s;
    }

    /** `startLevel`: spawning starts now, and a timed level's clock is reset to its limit. */
    method StartLevel(now: real)
      modifies spawner, this`timeRemaining
      ensures spawner != null ==> spawner.isActive && spawner.nextSpawnTime == now + spawner.spawnDelay
      ensures timeRemaining == if timedLevel then timeLimit else old(timeRemaining)
    {
      if spawner != null {
        spawner.StartSpawning(now);
      }
      if timedLevel {
        timeRemaining := timeLimit;
      }
    }

    /** `endLevel`: spawning stops and every enemy is gone. */
    method EndLevel()
      requires Valid()
      modifies spawner
      ensures Valid()
      ensures spawner != null ==> !spawner.isActive && spawner.enemies == [] && !spawner.bossSpawned
    {
      if spawner != null {
        spawner.StopSpawning();
        spawner.ClearEnemies();
      }
    }

    /** The door is held shut by the theme: compounds or birds still short of their target. */
    predicate Gated()
      reads this`biochemBlocksDestroyed, this`birdsFreed
    {
      (levelTheme == Biochemistry && biochemBlocksDestroyed < biochemTarget) ||
      (levelTheme == Birds && birdsFreed < birdTarget)
    }

    /** The theme counts destroyed key power-ups toward `mazeKeyTarget`. */
    predicate CountsKeys()
    {
      levelTheme == Train || levelTheme == Maze
    }

    /**
     * `update`: one frame of the level. On a timed level the clock runs
     * down first; when it reaches 0 the player takes damage equal to its
     * health and nothing else happens. Otherwise the steps run in order:
     * blocks, trains (train theme only), power-ups, birds (birds theme
     * only), coins, doors (an exit returns `nextLevelId`) and, once there
     * is a spawner, the spawner's update and the projectile kills.
     */
    method Update(deltaTime: real, player: Player, input: Input, env: Env) returns (next: Option<int>, ghost unlocked: set<Door>, ghost f: FrameStart)
      requires Valid() && player.Valid() && env.rng.Valid()
      requires spawner != null ==> env.trig.sqrt(spawner.difficultyLevel as real) >= 1.0
      modifies this`timeRemaining, this`powerUps, this`birds, this`coins, this`doorInstructionShown
      modifies this`biochemBlocksDestroyed, this`birdsFreed, this`mazeKeysCollected
      modifies (set b | b in blocks)`health, (set u | u in powerUps)`health, (set d | d in doors)`locked
      modifies (set b | b in birds)
      modifies set c | c in coins
      modifies (set t | t in trains)
      modifies spawner, if spawner == null then {} else set e | e in spawner.enemies
      modifies player
      modifies (set p | p in player.projectiles)`active, env.rng`drawn
      ensures Valid() && player.Valid()
      ensures f == old(Start(player)) && spawner == old(spawner)
      ensures next == if !(timedLevel && timeRemaining <= 0.0) && Exits(f, player) then nextLevelId else None
      ensures DoorsDone(f, player, input, unlocked)
      ensures timeRemaining == if timedLevel then old(timeRemaining) - deltaTime else old(timeRemaining)
      ensures timedLevel && timeRemaining <= 0.0 ==>
                next == None && player.health == (if old(player.invulnerable) then old(player.health) else 0) &&
                !player.active == (!old(player.active) || !old(player.invulnerable))
      ensures KeptFrom(f, player)
    {
      var timeUp;
      timeUp, f := Begin(deltaTime, player, input);
      if timeUp {
        return None, {}, f;
      }
      next, unlocked := Play(deltaTime, player, input, env, f);
    }

    /**
     * `Tick`, seen from the frame: it also takes the snapshot `f` the rest
     * of the frame is measured against, which the clock leaves kept and
     * whose doors it leaves as they were.
     */
    method Begin(deltaTime: real, player: Player, input: Input) returns (timeUp: bool, ghost f: FrameStart)
      requires Valid() && player.Valid()
      modifies this`timeRemaining, player`health, player`active, player`invulnerable, player`invulnerableTimer
      ensures Valid() && player.Valid()
      ensures f == old(Start(player))
      ensures KeptFrom(f, player) && Locked(f) && DoorsDone(f, player, input, {})
      ensures timeRemaining == if timedLevel then old(timeRemaining) - deltaTime else old(timeRemaining)
      ensures timeUp <==> timedLevel && timeRemaining <= 0.0
      ensures timeUp ==> player.health == (if old(player.invulnerable) then old(player.health) else 0) &&
                         !player.active == (!old(player.active) || !old(player.invulnerable))
    {
      f := Start(player);
      timeUp := Tick(deltaTime, player);
    }

    /**
     * The clock of a timed level runs down by `deltaTime`; when it reaches
     * 0 the player takes damage equal to its health, which kills it unless
     * it is invulnerable. The result is whether time is up.
     */
    method Tick(deltaTime: real, player: Player) returns (timeUp: bool)
      requires Valid() && player.Valid()
      modifies this`timeRemaining, player`health, player`active, player`invulnerable, player`invulnerableTimer
      ensures Valid() && player.Valid()
      ensures timeRemaining == if timedLevel then old(timeRemaining) - deltaTime else old(timeRemaining)
      ensures timeUp <==> timedLevel && timeRemaining <= 0.0
      ensures timeUp ==> player.health == (if old(player.invulnerable) then old(player.health) else 0) &&
                         !player.active == (!old(player.active) || !old(player.invulnerable))
      ensures !timeUp ==> player.health == old(player.health) && player.active == old(player.active) &&
                          player.invulnerable == old(player.invulnerable) && player.invulnerableTimer == old(player.invulnerableTimer)
    {
      timeUp := false;
      if timedLevel {
        timeRemaining := timeRemaining - deltaTime;
        if timeRemaining <= 0.0 {
          player.TakeDamage(player.health);
          timeUp := true;
        }
      }
    }

    /**
     * The part of a frame after the clock: hits, coins, doors and, unless
     * the player leaves through a door, the enemies.
     */
    method Play(deltaTime: real, player: Player, input: Input, env: Env, ghost f: FrameStart) returns (next: Option<int>, ghost unlocked: set<Door>)
      requires Valid() && player.Valid() && env.rng.Valid() && KeptFrom(f, player) && Locked(f)
      requires spawner != null ==> env.trig.sqrt(spawner.difficultyLevel as real) >= 1.0
      modifies this`powerUps, this`birds, this`coins, this`doorInstructionShown
      modifies this`biochemBlocksDestroyed, this`birdsFreed, this`mazeKeysCollected
      modifies (set b | b in blocks)`health, (set u | u in powerUps)`health, (set d | d in doors)`locked
      modifies (set b | b in birds)
      modifies (set c | c in coins)`x, (set c | c in coins)`y, (set c | c in coins)`velocityX, (set c | c in coins)`velocityY, (set c | c in coins)`collected
      modifies (set t | t in trains)
      modifies spawner, if spawner == null then {} else set e | e in spawner.enemies
      modifies player
      modifies (set p | p in player.projectiles)`active, env.rng`drawn
      ensures Valid() && player.Valid()
      ensures next == if Exits(f, player) then nextLevelId else None
      ensures DoorsDone(f, player, input, unlocked)
      ensures KeptFrom(f, player)
    {
      HitStep(deltaTime, player, env, f);
      next, unlocked := TouchAndFight(deltaTime, player, input, env, f);
    }

    /**
     * Coins, then the doors and, unless the player leaves through an
     * unlocked door (the result is then the level's `nextLevelId`), the
     * enemies.
     */
    method TouchAndFight(deltaTime: real, player: Player, input: Input, env: Env, ghost f: FrameStart) returns (next: Option<int>, ghost unlocked: set<Door>)
      requires Valid() && player.Valid() && env.rng.Valid() && KeptFrom(f, player) && Locked(f)
      requires spawner != null ==> env.trig.sqrt(spawner.difficultyLevel as real) >= 1.0
      modifies this`coins, this`doorInstructionShown, (set d | d in doors)`locked
      modifies (set c | c in coins)`x, (set c | c in coins)`y, (set c | c in coins)`velocityX, (set c | c in coins)`velocityY, (set c | c in coins)`collected
      modifies spawner, if spawner == null then {} else set e | e in spawner.enemies
      modifies player`health, player`active, player`invulnerable, player`invulnerableTimer
      modifies player`score, player`xp, player`level, player`xpToNextLevel, player`maxHealth, player`damageMultiplier
      modifies player`keys, player`coins, (set p | p in player.projectiles)`active, env.rng`drawn
      ensures Valid() && player.Valid()
      ensures next == if Exits(f, player) then nextLevelId else None
      ensures DoorsDone(f, player, input, unlocked)
      ensures KeptFrom(f, player)
    {
      ghost var picked := CoinStep(player);
      next, unlocked := ExitOrFight(deltaTime, player, input, env, f);
    }

    /**
     * The doors, then, unless the player leaves through an unlocked door,
     * the enemies.
     */
    method ExitOrFight(deltaTime: real, player: Player, input: Input, env: Env, ghost f: FrameStart) returns (next: Option<int>, ghost unlocked: set<Door>)
      requires Valid() && player.Valid() && env.rng.Valid() && KeptFrom(f, player) && Locked(f)
      requires spawner != null ==> env.trig.sqrt(spawner.difficultyLevel as real) >= 1.0
      modifies this`coins, this`doorInstructionShown, (set d | d in doors)`locked
      modifies spawner, if spawner == null then {} else set e | e in spawner.enemies
      modifies player`health, player`active, player`invulnerable, player`invulnerableTimer
      modifies player`score, player`xp, player`level, player`xpToNextLevel, player`maxHealth, player`damageMultiplier
      modifies player`keys, (set p | p in player.projectiles)`active, env.rng`drawn
      ensures Valid() && player.Valid()
      ensures next == if Exits(f, player) then nextLevelId else None
      ensures DoorsDone(f, player, input, unlocked)
      ensures KeptFrom(f, player)
    {
      var exit;
      ghost var reached;
      exit, unlocked, reached := DoorStep(player, input, f);
      if exit {
        return nextLevelId, unlocked;
      }
      if spawner != null {
        FightStep(deltaTime, player, input, env, f, unlocked);
      }
      return None, unlocked;
    }

    /**
     * The steps of a frame in which the player's projectiles meet the
     * level: blocks, then trains on the train theme, then power-ups, then
     * birds on the birds theme.
     */
    method HitStep(deltaTime: real, player: Player, env: Env, ghost f: FrameStart)
      requires Valid() && player.Valid() && env.rng.Valid() && KeptFrom(f, player)
      modifies this`powerUps, this`birds, this`coins, this`biochemBlocksDestroyed, this`birdsFreed, this`mazeKeysCollected
      modifies (set b | b in blocks)`health, (set u | u in powerUps)`health, (set d | d in doors)`locked
      modifies (set b | b in birds), (set t | t in trains)
      modifies player`health, player`active, player`invulnerable, player`invulnerableTimer, player`x, player`y
      modifies player`score, player`xp, player`level, player`xpToNextLevel, player`maxHealth, player`damageMultiplier
      modifies player`weaponLevel, player`keys, player`speed
      modifies (set p | p in player.projectiles)`active, env.rng`drawn
      requires Locked(f)
      ensures Valid() && player.Valid() && KeptFrom(f, player) && Locked(f)
      ensures CoinsGrown()
    {
      BlockHits(player, env, f);
      ThemeHits(deltaTime, player, env, f);
    }

    /** `BlockStep`, seen from the frame. */
    method BlockHits(player: Player, env: Env, ghost f: FrameStart)
      requires Valid() && player.Valid() && env.rng.Valid() && KeptFrom(f, player)
      modifies (set b | b in blocks)`health, (set p | p in player.projectiles)`active
      modifies player`score, this`biochemBlocksDestroyed, this`coins, env.rng`drawn
      ensures Valid() && player.Valid() && KeptFrom(f, player)
      ensures CoinsGrown()
    {
      BlockStep(player, env.rng, env.trig);
    }

    /** Trains on the train theme, then power-ups, then birds on the birds theme. */
    method ThemeHits(deltaTime: real, player: Player, env: Env, ghost f: FrameStart)
      requires Valid() && player.Valid() && KeptFrom(f, player)
      modifies this`powerUps, this`birds, this`birdsFreed, this`mazeKeysCollected
      modifies (set u | u in powerUps)`health, (set d | d in doors)`locked, (set b | b in birds), (set t | t in trains)
      modifies player`health, player`active, player`invulnerable, player`invulnerableTimer, player`x, player`y
      modifies player`score, player`xp, player`level, player`xpToNextLevel, player`maxHealth, player`damageMultiplier
      modifies player`weaponLevel, player`keys, player`speed
      modifies (set p | p in player.projectiles)`active
      requires Locked(f)
      ensures Valid() && player.Valid() && KeptFrom(f, player) && Locked(f)
    {
      if levelTheme == Train && |trains| > 0 {
        TrainHits(deltaTime, player, env, f);
      }
      PowerUpHits(player, f);
      if levelTheme == Birds {
        BirdHits(deltaTime, player, env, f);
      }
    }

    /** `TrainStep`, seen from the frame. */
    method TrainHits(deltaTime: real, player: Player, env: Env, ghost f: FrameStart)
      requires Valid() && player.Valid() && KeptFrom(f, player)
      modifies (set t | t in trains), (set p | p in player.projectiles)`active
      modifies player`health, player`active, player`invulnerable, player`invulnerableTimer, player`x, player`y
      ensures Valid() && player.Valid() && KeptFrom(f, player)
    {
      ghost var ranOver := TrainStep(deltaTime, player, env.trig);
    }

    /** `PowerUpStep`, seen from the frame. */
    method PowerUpHits(player: Player, ghost f: FrameStart)
      requires Valid() && player.Valid() && KeptFrom(f, player)
      modifies this`powerUps, this`mazeKeysCollected, (set u | u in powerUps)`health, (set d | d in doors)`locked
      modifies player`health, player`weaponLevel, player`score, player`keys, player`speed
      modifies (set p | p in player.projectiles)`active
      requires Locked(f)
      ensures Valid() && player.Valid() && KeptFrom(f, player) && Locked(f)
    {
      PowerUpStep(player);
    }

    /** `BirdStep`, seen from the frame. */
    method BirdHits(deltaTime: real, player: Player, env: Env, ghost f: FrameStart)
      requires Valid() && player.Valid() && KeptFrom(f, player)
      modifies this`birds, this`birdsFreed, (set d | d in doors)`locked
      modifies (set b | b in birds)
      modifies player`score, player`xp, player`level, player`xpToNextLevel, player`maxHealth, player`health, player`damageMultiplier
      modifies (set p | p in player.projectiles)`active
      requires Locked(f)
      ensures Valid() && player.Valid() && KeptFrom(f, player) && Locked(f)
    {
      BirdStep(deltaTime, player, env.now);
    }

    /** The enemies' frame: the spawner's update, then the player's projectiles against every enemy. */
    method FightStep(deltaTime: real, player: Player, input: Input, env: Env, ghost f: FrameStart, ghost newly: set<Door>)
      requires Valid() && player.Valid() && Calm(f, player, input, newly)
      requires spawner != null && spawner.Valid() && env.rng.Valid()
      requires env.trig.sqrt(spawner.difficultyLevel as real) >= 1.0
      modifies spawner`enemies, spawner`nextSpawnTime, spawner`bossSpawned, (set e | e in spawner.enemies), this`coins
      modifies player`health, player`active, player`invulnerable, player`invulnerableTimer
      modifies player`score, player`xp, player`level, player`xpToNextLevel, player`maxHealth, player`damageMultiplier
      modifies (set p | p in player.projectiles)`active, env.rng`drawn
      ensures Valid() && player.Valid()
      ensures Calm(f, player, input, newly)
    {
      SpawnerPass(deltaTime, player, input, env, f, newly);
      KillPass(player, input, env, f, newly);
    }

    /** The spawner's update, seen from the level: it keeps `Valid` and `Calm`. */
    method SpawnerPass(deltaTime: real, player: Player, input: Input, env: Env, ghost f: FrameStart, ghost newly: set<Door>)
      requires Valid() && player.Valid() && Calm(f, player, input, newly)
      requires spawner != null && spawner.Valid() && env.rng.Valid()
      requires env.trig.sqrt(spawner.difficultyLevel as real) >= 1.0
      modifies spawner`enemies, spawner`nextSpawnTime, spawner`bossSpawned, (set e | e in spawner.enemies), env.rng`drawn
      modifies player`health, player`active, player`invulnerable, player`invulnerableTimer
      ensures Valid() && player.Valid()
      ensures Calm(f, player, input, newly)
      ensures forall e :: e in spawner.enemies ==> e in old(spawner.enemies) || fresh(e)
    {
      spawner.Advance(deltaTime, player, env);
    }

    /** `KillStep`, seen from the level: it keeps `Valid` and `Calm`. */
    method KillPass(player: Player, input: Input, env: Env, ghost f: FrameStart, ghost newly: set<Door>)
      requires Valid() && player.Valid() && Calm(f, player, input, newly)
      requires spawner != null && env.rng.Valid()
      modifies (set e | e in spawner.enemies)`health, (set e | e in spawner.enemies)`active
      modifies (set p | p in player.projectiles)`active
      modifies player`score, player`xp, player`level, player`xpToNextLevel, player`maxHealth, player`health, player`damageMultiplier
      modifies this`coins, env.rng`drawn
      ensures Valid() && player.Valid()
      ensures Calm(f, player, input, newly)
    {
      KillStep(player, env.rng, env.trig);
    }

    /** The level carries the factory settings `s`: the start position defaults to (50, height / 2). */
    ghost predicate Follows(s: Settings) {
      id == s.id && levelTheme == s.theme && nextLevelId == s.nextLevelId &&
      birdTarget == s.birdTarget && mazeKeyTarget == s.mazeKeyTarget &&
      timedLevel == s.timed && timeLimit == s.timeLimit &&
      playerStartPosition == (if s.start.Some? then s.start.value else (50.0, height / 2.0))
    }

    /** The one-way parts of a level and its player as a frame begins. */
    ghost function Start(player: Player): FrameStart
      reads this`biochemBlocksDestroyed, this`birdsFreed, this`mazeKeysCollected, this`powerUps, this`birds
      reads player`projectiles, player.projectiles, doors
    {
      FrameStart(biochemBlocksDestroyed, birdsFreed, mazeKeysCollected,
                 (set p | p in player.projectiles && p.active), Open(),
                 set u | u in powerUps, set b | b in birds)
    }

    /**
     * What every part of a frame keeps, measured against the snapshot `f`
     * that `Start` took when the frame began: the theme counters never
     * fall, no projectile of the player comes back to life, no door locks
     * again, and no power-up or bird joins its list.
     */
    ghost predicate KeptFrom(f: FrameStart, player: Player)
      reads this`biochemBlocksDestroyed, this`birdsFreed, this`mazeKeysCollected, this`powerUps, this`birds
      reads player`projectiles, (set p | p in player.projectiles)`active, (set d | d in doors)`locked
    {
      CountsFrom(f) && ListsFrom(f, player)
    }

    /** The theme counters are no lower than in `f`. */
    ghost predicate CountsFrom(f: FrameStart)
      reads this`biochemBlocksDestroyed, this`birdsFreed, this`mazeKeysCollected
    {
      biochemBlocksDestroyed >= f.biochem && birdsFreed >= f.birdsFreed && mazeKeysCollected >= f.mazeKeys
    }

    /** Live projectiles, power-ups and birds are among those of `f`, and the doors open in `f` are open. */
    ghost predicate ListsFrom(f: FrameStart, player: Player)
      reads this`powerUps, this`birds, player`projectiles, (set p | p in player.projectiles)`active, (set d | d in doors)`locked
    {
      (forall p :: p in player.projectiles && p.active ==> p in f.live) &&
      (forall d :: d in doors && d in f.open ==> !d.locked) &&
      (forall u :: u in powerUps ==> u in f.powerUps) &&
      (forall b :: b in birds ==> b in f.birds)
    }

    /** Every projectile of the player that is active now was active on entry. */
    twostate predicate OnlyDeactivated(ps: seq<Projectile>)
      reads ps
    {
      forall p :: p in ps && p.active ==> old(p.active)
    }

    /**
     * The block step: every block (last first) against every projectile
     * (last first); an active projectile touching an active block hits it.
     */
    method BlockStep(player: Player, rng: Random, trig: Trig)
      requires rng.Valid()
      modifies (set b | b in blocks)`health, (set p | p in player.projectiles)`active
      modifies player`score, this`biochemBlocksDestroyed, this`coins, rng`drawn
      ensures biochemBlocksDestroyed >= old(biochemBlocksDestroyed)
      ensures OnlyDeactivated(player.projectiles)
      ensures CoinsGrown()
      ensures forall b, p :: b in blocks && b.active && p in player.projectiles && p.active ==> !CheckCollision(b.Bounds(), p.Bounds())
    {
      var ps := player.projectiles;
      var i := |blocks|;
      while i > 0
        invariant 0 <= i <= |blocks| && rng.Valid()
        invariant biochemBlocksDestroyed >= old(biochemBlocksDestroyed)
        invariant OnlyDeactivated(ps)
        invariant CoinsGrown()
        invariant forall k, p :: i <= k < |blocks| && blocks[k].active && p in ps && p.active ==> !CheckCollision(blocks[k].Bounds(), p.Bounds())
      {
        i := i - 1;
        ShootBlock(blocks[i], ps, player, rng, trig);
      }
    }

    /**
     * The projectile loop of the block step for one block: every active
     * projectile touching an active block hits it, so afterwards none does.
     */
    method ShootBlock(block: Block, ps: seq<Projectile>, player: Player, rng: Random, trig: Trig)
      requires rng.Valid()
      modifies block`health, (set p | p in ps)`active
      modifies player`score, this`biochemBlocksDestroyed, this`coins, rng`drawn
      ensures biochemBlocksDestroyed >= old(biochemBlocksDestroyed)
      ensures OnlyDeactivated(ps)
      ensures CoinsGrown()
      ensures block.active ==> forall p :: p in ps && p.active ==> !CheckCollision(block.Bounds(), p.Bounds())
    {
      var j := |ps|;
      while j > 0
        invariant 0 <= j <= |ps| && rng.Valid()
        invariant biochemBlocksDestroyed >= old(biochemBlocksDestroyed)
        invariant OnlyDeactivated(ps)
        invariant CoinsGrown()
        invariant block.active ==> forall k :: j <= k < |ps| && ps[k].active ==> !CheckCollision(block.Bounds(), ps[k].Bounds())
      {
        j := j - 1;
        var p := ps[j];
        if block.active && p.active && CheckCollision(block.Bounds(), p.Bounds()) {
          HitBlock(block, p, player, rng, trig);
        }
      }
    }

    /**
     * One projectile hitting one block: the block takes the projectile's
     * damage; if that destroys it the player scores the block's
     * destruction score, a biochem block counts toward the target, and one
     * draw below 0.4 drops a coin of 3 to 7 at the block's centre. The
     * projectile is spent whether or not the block broke.
     */
    method HitBlock(block: Block, p: Projectile, player: Player, rng: Random, trig: Trig)
      requires rng.Valid()
      modifies block`health, p`active, player`score, this`biochemBlocksDestroyed, this`coins, rng`drawn
      ensures !p.active
      ensures block.health == if block.breakable then old(block.health) - p.damage else old(block.health)
      ensures var destroyed := block.breakable && block.health <= 0;
              player.score == old(player.score) + (if destroyed then block.destructionScore else 0) &&
              biochemBlocksDestroyed == old(biochemBlocksDestroyed) + (if destroyed && block.kind == BiochemType then 1 else 0) &&
              (|coins| == |old(coins)| + 1 <==> destroyed && rng.draw(old(rng.drawn)) < BlockCoinChance) &&
              (!destroyed ==> rng.drawn == old(rng.drawn))
      ensures coins == old(coins) || Dropped(old(coins), block.x + block.width / 2.0, block.y + block.height / 2.0)
      ensures CoinsGrown()
      ensures |coins| == |old(coins)| + 1 ==> 3 <= coins[|old(coins)|].value <= 7
    {
      var destroyed := block.TakeDamage(p.damage);
      if destroyed {
        player.AddScore(block.destructionScore);
        if block.kind == BiochemType {
          biochemBlocksDestroyed := biochemBlocksDestroyed + 1;
        }
        var r := rng.Next();
        if r < BlockCoinChance {
          var r2 := rng.Next();
          AddCoin(block.x + block.width / 2.0, block.y + block.height / 2.0, BlockCoinValue(r2), rng, trig);
        }
      }
      p.active := false;
    }

    /** Every coin listed now was listed before or is new, and coins listed once each stay so. */
    twostate predicate CoinsGrown()
      reads this
    {
      (forall c :: c in coins ==> c in old(coins) || fresh(c)) && (Distinct(old(coins)) ==> Distinct(coins))
    }

    /** `coins` is `before` plus one new, uncollected coin at (x, y). */
    twostate predicate Dropped(before: seq<Coin>, x: real, y: real)
      reads this, coins
    {
      |coins| == |before| + 1 && coins[..|before|] == before &&
      var c := coins[|before|];
      fresh(c) && c.x == x && c.y == y && !c.collected
    }

    /** `this.coins.push(new Coin({x, y, value}))`; the coin's scatter takes two draws. */
    method AddCoin(x: real, y: real, value: int, rng: Random, trig: Trig)
      requires rng.Valid()
      modifies this`coins, rng`drawn
      ensures Dropped(old(coins), x, y) && coins[|old(coins)|].value == value
      ensures CoinsGrown()
      ensures rng.drawn == old(rng.drawn) + 2
    {
      var coin := new Coin(x, y, rng, trig, value);
      coins := coins + [coin];
    }

    /**
     * The train step: each train moves; one that touches the active player
     * damages it and throws it back, clamped onto the level; any active
     * projectile touching a train is spent without harming it. The trains
     * that ran the player over are returned in order as `ranOver`: with
     * none, the player is where it was and no active train touches it;
     * otherwise only the first one's damage counts, since the first hit
     * makes the player invulnerable, and the player ends on the level.
     */
    method TrainStep(deltaTime: real, player: Player, trig: Trig) returns (ghost ranOver: seq<MovingTrain>)
      requires (forall t :: t in trains ==> t.Valid()) && Distinct(player.projectiles)
      modifies (set t | t in trains), (set p | p in player.projectiles)`active
      modifies player`health, player`active, player`invulnerable, player`invulnerableTimer, player`x, player`y
      ensures forall t :: t in trains ==> t.Valid()
      ensures OnlyDeactivated(player.projectiles)
      ensures (player.x == old(player.x) && player.y == old(player.y)) || OnLevel(player)
      ensures player.active ==> old(player.active)
      ensures forall t :: t in ranOver ==> t in trains
      ensures ranOver == [] ==> player.Status() == old(player.Status()) && player.x == old(player.x) && player.y == old(player.y) &&
                                forall t :: t in trains && t.active ==> !(player.active && t.CollidesWith(player.Bounds()))
      ensures ranOver != [] ==> player.Status() == Hurt(old(player.Status()), ranOver[0].damage) && OnLevel(player)
      ensures forall t, p :: t in trains && p in player.projectiles && p.active ==> !t.CollidesWith(p.Bounds())
    {
      var ps := player.projectiles;
      ghost var v0 := player.Status();
      ghost var x0, y0 := player.x, player.y;
      ghost var live := set p | p in ps && p.active;
      ranOver := [];
      var k := 0;
      while k < |trains|
        invariant Railed(ps, k, ranOver, player, v0, x0, y0, live)
      {
        ranOver := TrainTurn(trains[k], k, deltaTime, ps, player, trig, ranOver, v0, x0, y0, live);
        k := k + 1;
      }
      assert forall t :: t in trains ==> exists m :: 0 <= m < |trains| && trains[m] == t;
    }

    /**
     * Where the train step stands once the first `k` trains have had their
     * turn, against the player's vitals `v0` and position (`x0`, `y0`) and
     * the live projectiles `live` it began with: every train is valid, the
     * player is as `RanOver` says, and no train that has had its turn
     * touches an active projectile, none of which was spent before.
     */
    ghost predicate Railed(ps: seq<Projectile>, k: int, ranOver: seq<MovingTrain>, player: Player,
                           v0: Vitals, x0: real, y0: real, live: set<Projectile>)
      reads (set t | t in trains)`x, (set t | t in trains)`y, (set t | t in trains)`direction, (set t | t in trains)`currentPathIndex
      reads (set t | t in trains)`active, (set p | p in ps)`active, (set p | p in ps)`x, (set p | p in ps)`y
      reads player`health, player`active, player`invulnerable, player`invulnerableTimer, player`x, player`y
    {
      0 <= k <= |trains| && (forall t :: t in trains ==> t.Valid()) &&
      RanOver(k, ranOver, player, v0, x0, y0) && Shielded(ps, k, live)
    }

    /**
     * The player after the turns of the first `k` trains: the trains in
     * `ranOver` ran it over; with none, it is as it was and no train that
     * has had its turn and is active touches it; with some, the first
     * one's damage counts and it is on the level.
     */
    ghost predicate RanOver(k: int, ranOver: seq<MovingTrain>, player: Player, v0: Vitals, x0: real, y0: real)
      reads (set t | t in trains)`x, (set t | t in trains)`y, (set t | t in trains)`active
      reads player`health, player`active, player`invulnerable, player`invulnerableTimer, player`x, player`y
    {
      0 <= k <= |trains| && (forall t :: t in ranOver ==> t in trains) &&
      (ranOver == [] ==> player.Status() == v0 && player.x == x0 && player.y == y0 &&
                         forall m :: 0 <= m < k && trains[m].active ==> !(player.active && trains[m].CollidesWith(player.Bounds()))) &&
      (ranOver != [] ==> player.Status() == Hurt(v0, ranOver[0].damage) && OnLevel(player))
    }

    /** No train among the first `k` touches an active projectile, and every active projectile is in `live`. */
    ghost predicate Shielded(ps: seq<Projectile>, k: int, live: set<Projectile>)
      reads (set t | t in trains)`x, (set t | t in trains)`y, (set p | p in ps)`active, (set p | p in ps)`x, (set p | p in ps)`y
    {
      0 <= k <= |trains| && (forall p :: p in ps && p.active ==> p in live) &&
      forall m, p :: 0 <= m < k && p in ps && p.active ==> !trains[m].CollidesWith(p.Bounds())
    }

    /** One train's turn in the train step: it moves, may run the player over, and spends the projectiles it touches. */
    method TrainTurn(train: MovingTrain, k: nat, deltaTime: real, ps: seq<Projectile>, player: Player, trig: Trig,
                     ghost ranOver: seq<MovingTrain>, ghost v0: Vitals, ghost x0: real, ghost y0: real, ghost live: set<Projectile>)
        returns (ghost ranOver': seq<MovingTrain>)
      requires k < |trains| && trains[k] == train && Distinct(ps) && Railed(ps, k, ranOver, player, v0, x0, y0, live)
      modifies train, (set p | p in ps)`active
      modifies player`health, player`active, player`invulnerable, player`invulnerableTimer, player`x, player`y
      ensures Railed(ps, k + 1, ranOver', player, v0, x0, y0, live)
    {
      ranOver' := TrainRun(train, k, deltaTime, player, trig, ranOver, v0, x0, y0);
      ShieldTrain(train, ps);
    }

    /** The first half of a train's turn: it moves and may run the player over. */
    method TrainRun(train: MovingTrain, k: nat, deltaTime: real, player: Player, trig: Trig,
                    ghost ranOver: seq<MovingTrain>, ghost v0: Vitals, ghost x0: real, ghost y0: real)
        returns (ghost ranOver': seq<MovingTrain>)
      requires k < |trains| && trains[k] == train && (forall t :: t in trains ==> t.Valid()) && RanOver(k, ranOver, player, v0, x0, y0)
      modifies train
      modifies player`health, player`active, player`invulnerable, player`invulnerableTimer, player`x, player`y
      ensures (forall t :: t in trains ==> t.Valid()) && RanOver(k + 1, ranOver', player, v0, x0, y0)
    {
      ranOver' := ranOver;
      train.Update(deltaTime, trig);
      if player.active && train.active && train.CollidesWith(player.Bounds()) {
        RunOver(train, player, trig);
        if ranOver != [] {
          HurtOnce(v0, ranOver[0].damage, train.damage);
        }
        ranOver' := ranOver + [train];
      }
    }

    /** The projectile loop of the train step: every active projectile touching the train is spent. */
    method ShieldTrain(train: MovingTrain, ps: seq<Projectile>)
      requires Distinct(ps)
      modifies (set p | p in ps)`active
      ensures OnlyDeactivated(ps)
      ensures forall p :: p in ps ==> (p.active <==> old(p.active) && !train.CollidesWith(p.Bounds()))
    {
      var j := |ps|;
      while j > 0
        invariant 0 <= j <= |ps|
        invariant forall k :: 0 <= k < |ps| ==>
                    if k < j then ps[k].active == old(ps[k].active)
                    else (ps[k].active <==> old(ps[k].active) && !train.CollidesWith(ps[k].Bounds()))
      {
        j := j - 1;
        var p := ps[j];
        if p.active && train.CollidesWith(p.Bounds()) {
          p.active := false;
        }
      }
    }

    /** The player's box lies on the level: at or right of 0 and, when it fits, not past the far edges. */
    predicate OnLevel(player: Player)
      reads player`x, player`y
    {
      0.0 <= player.x && (width >= player.width ==> player.x + player.width <= width) &&
      0.0 <= player.y && (height >= player.height ==> player.y + player.height <= height)
    }

    /** A train hits the player: the train's damage, then the knock-back, clamped onto the level. */
    method RunOver(train: MovingTrain, player: Player, trig: Trig)
      modifies player`health, player`active, player`invulnerable, player`invulnerableTimer, player`x, player`y
      ensures player.Status() == Hurt(old(player.Status()), train.damage)
      ensures var kb := Knockback(train.path, train.direction, train.x + train.width / 2.0, train.y + train.height / 2.0,
                                  old(player.x), old(player.y), trig.sqrt);
              player.x == ClampInto(kb.0, width - player.width) && player.y == ClampInto(kb.1, height - player.height)
      ensures OnLevel(player)
    {
      player.TakeDamage(train.damage);
      var kb := Knockback(train.path, train.direction, train.x + train.width / 2.0, train.y + train.height / 2.0,
                          player.x, player.y, trig.sqrt);
      player.x := ClampInto(kb.0, width - player.width);
      player.y := ClampInto(kb.1, height - player.height);
    }

    /**
     * The power-up step: every power-up (last first) against every
     * projectile (last first). A power-up block is never deactivated, so a
     * second projectile touching one already spliced out hits it again and
     * splices another entry.
     */
    method PowerUpStep(player: Player)
      modifies this`powerUps, this`mazeKeysCollected, (set u | u in powerUps)`health, (set d | d in doors)`locked
      modifies player`health, player`weaponLevel, player`score, player`keys, player`speed
      modifies (set p | p in player.projectiles)`active
      ensures forall u :: u in powerUps ==> u in old(powerUps)
      ensures mazeKeysCollected >= old(mazeKeysCollected)
      ensures !CountsKeys() ==> mazeKeysCollected == old(mazeKeysCollected)
      ensures LocksFrom(old(Open()), KeysOpened(old(mazeKeysCollected)))
      ensures OnlyDeactivated(player.projectiles)
      ensures levelTheme != Train || mazeKeysCollected == old(mazeKeysCollected) ==>
                forall u, p :: u in old(powerUps) && u.active && p in player.projectiles && p.active ==> !CheckCollision(u.Bounds(), p.Bounds())
    {
      var ps := player.projectiles;
      ghost var orig := powerUps;
      var i := |powerUps|;
      while i > 0
        invariant 0 <= i <= |powerUps| && powerUps[..i] == orig[..i]
        invariant forall u :: u in powerUps ==> u in old(powerUps)
        invariant mazeKeysCollected >= old(mazeKeysCollected)
        invariant !CountsKeys() ==> mazeKeysCollected == old(mazeKeysCollected)
        invariant LocksFrom(old(Open()), KeysOpened(old(mazeKeysCollected)))
        invariant OnlyDeactivated(ps)
        invariant levelTheme != Train || mazeKeysCollected == old(mazeKeysCollected) ==>
                    forall m, p :: i <= m < |orig| && orig[m].active && p in ps && p.active ==> !CheckCollision(orig[m].Bounds(), p.Bounds())
      {
        i := i - 1;
        ghost var hits := ShootPowerUp(powerUps[i], i, ps, player);
      }
      assert forall u :: u in old(powerUps) ==> exists m :: 0 <= m < |orig| && orig[m] == u;
    }

    /** The total damage of the projectiles in `hits`. */
    function Damage(hits: seq<Projectile>): int
      reads {}
    {
      if hits == [] then 0 else Damage(hits[..|hits| - 1]) + hits[|hits| - 1].damage
    }

    /**
     * The projectile loop of the power-up step for the power-up at index
     * i, which ends early when a key is collected on the train theme.
     */
    method ShootPowerUp(powerUp: PowerUpBlock, i: nat, ps: seq<Projectile>, player: Player) returns (ghost hits: seq<Projectile>)
      requires i <= |powerUps|
      modifies powerUp`health, (set p | p in ps)`active, this`powerUps, this`mazeKeysCollected, (set d | d in doors)`locked
      modifies player`health, player`weaponLevel, player`score, player`keys, player`speed
      ensures i <= |powerUps|
      ensures forall u :: u in powerUps ==> u in old(powerUps)
      ensures mazeKeysCollected >= old(mazeKeysCollected)
      ensures !CountsKeys() ==> mazeKeysCollected == old(mazeKeysCollected)
      ensures LocksFrom(old(Open()), KeysOpened(old(mazeKeysCollected)))
      ensures OnlyDeactivated(ps)
      ensures powerUps[..i] == old(powerUps)[..i]
      ensures forall p :: p in hits ==> p in ps && old(p.active) && CheckCollision(powerUp.Bounds(), p.Bounds())
      ensures forall p :: p in ps && old(p.active) && !p.active ==> p in hits
      ensures powerUp.health == old(powerUp.health) - (if powerUp.breakable then Damage(hits) else 0)
      ensures powerUp.active && (levelTheme != Train || mazeKeysCollected == old(mazeKeysCollected)) ==>
                forall p :: p in ps && p.active ==> !CheckCollision(powerUp.Bounds(), p.Bounds())
    {
      hits := [];
      ghost var keys0 := mazeKeysCollected;
      ghost var open0 := Open();
      ghost var live := set p | p in ps && p.active;
      ghost var pus0 := powerUps;
      ghost var health0 := powerUp.health;
      var j := |ps|;
      while j > 0
        invariant Shooting(powerUp, i, ps, j, hits, keys0, open0, live, pus0, health0)
      {
        j := j - 1;
        var stop;
        stop, hits := PowerUpTurn(powerUp, i, ps, j, player, hits, keys0, open0, live, pus0, health0);
        if stop {
          break;
        }
      }
    }

    /**
     * Where the projectile loop for the power-up at index `i` stands once
     * the projectiles from index `j` have been checked, against the key
     * count `keys0`, the open doors `open0`, the live projectiles `live`,
     * the power-up list `pus0` and the health `health0` it began with: the
     * list before `i` is as it was and has no newcomer, the key count only
     * grew and only on a theme that counts keys, no open door locked, a
     * counted key reaching the target unlocked every door, no spent
     * projectile came back, `hits` are live projectiles touching the
     * power-up and include every one spent so far, the power-up lost their
     * damage if it is breakable, and, unless a key ended the loop on the
     * train theme, no checked active projectile touches it.
     */
    ghost predicate Shooting(powerUp: PowerUpBlock, i: nat, ps: seq<Projectile>, j: int, hits: seq<Projectile>,
                             keys0: int, open0: set<Door>, live: set<Projectile>, pus0: seq<PowerUpBlock>, health0: int)
      reads this`powerUps, this`mazeKeysCollected, (set d | d in doors)`locked
      reads powerUp`health, powerUp`active, (set p | p in ps)`active, (set p | p in ps)`x, (set p | p in ps)`y
    {
      0 <= j <= |ps| && i <= |powerUps| && i <= |pus0| && powerUps[..i] == pus0[..i] && (forall u :: u in powerUps ==> u in pus0) &&
      mazeKeysCollected >= keys0 && (!CountsKeys() ==> mazeKeysCollected == keys0) &&
      LocksFrom(open0, KeysOpened(keys0)) &&
      (forall p :: p in ps && p.active ==> p in live) &&
      (forall p :: p in hits ==> p in ps && p in live && CheckCollision(powerUp.Bounds(), p.Bounds())) &&
      (forall p :: p in ps && p in live && !p.active ==> p in hits) &&
      powerUp.health == health0 - (if powerUp.breakable then Damage(hits) else 0) &&
      (powerUp.active && (levelTheme != Train || mazeKeysCollected == keys0) ==>
         forall k :: j <= k < |ps| && ps[k].active ==> !CheckCollision(powerUp.Bounds(), ps[k].Bounds()))
    }

    /** One projectile of the power-up loop: an active projectile touching the active power-up hits it. */
    method PowerUpTurn(powerUp: PowerUpBlock, i: nat, ps: seq<Projectile>, j: nat, player: Player, ghost hits: seq<Projectile>,
                       ghost keys0: int, ghost open0: set<Door>, ghost live: set<Projectile>, ghost pus0: seq<PowerUpBlock>, ghost health0: int)
        returns (stop: bool, ghost hits': seq<Projectile>)
      requires j < |ps| && Shooting(powerUp, i, ps, j + 1, hits, keys0, open0, live, pus0, health0)
      modifies powerUp`health, (set p | p in ps)`active, this`powerUps, this`mazeKeysCollected, (set d | d in doors)`locked
      modifies player`health, player`weaponLevel, player`score, player`keys, player`speed
      ensures Shooting(powerUp, i, ps, j, hits', keys0, open0, live, pus0, health0)
      ensures stop ==> levelTheme == Train && mazeKeysCollected > keys0
    {
      hits' := hits;
      stop := false;
      var p := ps[j];
      if powerUp.active && p.active && CheckCollision(powerUp.Bounds(), p.Bounds()) {
        stop := HitPowerUp(powerUp, p, i, player);
        hits' := hits + [p];
      }
    }

    /**
     * One projectile hitting the power-up the loop reached at index i. If
     * the hit destroys it, its effect goes to the player, the player scores
     * its destruction score and entry i is spliced out. A key on a theme
     * that counts keys adds one to `mazeKeysCollected` and, at the target,
     * unlocks every door; on the train theme that ends the projectile loop
     * for this power-up (`stop`) before the projectile is spent, so that
     * projectile stays active. In every other case the projectile is spent.
     */
    method HitPowerUp(powerUp: PowerUpBlock, p: Projectile, i: nat, player: Player) returns (stop: bool)
      modifies powerUp`health, p`active, this`powerUps, this`mazeKeysCollected, (set d | d in doors)`locked
      modifies player`health, player`weaponLevel, player`score, player`keys, player`speed
      ensures powerUp.health == if powerUp.breakable then old(powerUp.health) - p.damage else old(powerUp.health)
      ensures var destroyed := powerUp.breakable && powerUp.health <= 0;
              var key := destroyed && powerUp.powerUpType == "key" && CountsKeys();
              (stop <==> key && levelTheme == Train) &&
              (p.active <==> stop && old(p.active)) &&
              powerUps == (if destroyed then Splice(old(powerUps), i) else old(powerUps)) &&
              mazeKeysCollected == old(mazeKeysCollected) + (if key then 1 else 0) &&
              player.keys == old(player.keys) + (if destroyed && powerUp.powerUpType == "key" then 1 else 0) &&
              (!destroyed ==> player.score == old(player.score) && player.health == old(player.health) &&
                              player.weaponLevel == old(player.weaponLevel) && player.speed == old(player.speed)) &&
              (key && mazeKeysCollected >= mazeKeyTarget ==> forall d :: d in doors ==> !d.locked) &&
              (!(key && mazeKeysCollected >= mazeKeyTarget) ==> forall d :: d in doors ==> d.locked == old(d.locked))
      ensures powerUp.breakable && powerUp.health <= 0 ==>
                powerUp.Applied(player, old(player.health), old(player.weaponLevel), old(player.speed))
      ensures powerUp.breakable && powerUp.health <= 0 ==>
                player.score == old(player.score) + powerUp.destructionScore +
                  (if powerUp.powerUpType == "weapon" && old(player.weaponLevel) >= 3 then 25
                   else if powerUp.powerUpType == "score" then 50 * player.level else 0)
    {
      var destroyed := powerUp.TakeDamage(p.damage);
      if destroyed {
        powerUp.ApplyPowerUp(player);
        player.AddScore(powerUp.destructionScore);
        powerUps := Splice(powerUps, i);
        if powerUp.powerUpType == "key" && levelTheme == Train {
          CountKey();
          return true;
        }
        if powerUp.powerUpType == "key" && levelTheme == Maze {
          CountKey();
        }
      }
      p.active := false;
      return false;
    }

    /** A key counted toward `mazeKeyTarget`; reaching the target unlocks every door. */
    method CountKey()
      modifies this`mazeKeysCollected, (set d | d in doors)`locked
      ensures mazeKeysCollected == old(mazeKeysCollected) + 1
      ensures mazeKeysCollected >= mazeKeyTarget ==> forall d :: d in doors ==> !d.locked
      ensures mazeKeysCollected < mazeKeyTarget ==> forall d :: d in doors ==> d.locked == old(d.locked)
    {
      mazeKeysCollected := mazeKeysCollected + 1;
      if mazeKeysCollected >= mazeKeyTarget {
        UnlockDoors();
      }
    }

    /** `for (const door of this.doors) door.unlock()`. */
    method UnlockDoors()
      modifies (set d | d in doors)`locked
      ensures forall d :: d in doors ==> !d.locked
    {
      for k := 0 to |doors|
        invariant forall m :: 0 <= m < k ==> !doors[m].locked
      {
        doors[k].Unlock();
      }
    }

    /**
     * The bird step: every bird (last first) moves; a bird caged at that
     * point is checked against every projectile (last first), and each
     * active projectile touching it tries to free it and is spent. A bird
     * that has flown away is then removed.
     */
    method BirdStep(deltaTime: real, player: Player, now: real)
      requires (forall b :: b in birds ==> b.Valid()) && player.Valid()
      modifies this`birds, this`birdsFreed, (set d | d in doors)`locked
      modifies (set b | b in birds)
      modifies player`score, player`xp, player`level, player`xpToNextLevel, player`maxHealth, player`health, player`damageMultiplier
      modifies (set p | p in player.projectiles)`active
      ensures (forall b :: b in birds ==> b.Valid()) && player.Valid()
      ensures forall b :: b in birds ==> b in old(birds)
      ensures birdsFreed >= old(birdsFreed)
      ensures LocksFrom(old(Open()), BirdsOpened(old(birdsFreed)))
      ensures OnlyDeactivated(player.projectiles)
      ensures forall b, p :: b in old(birds) && b.caged && p in player.projectiles && p.active ==> !CheckCollision(b.Bounds(), p.Bounds())
    {
      var ps := player.projectiles;
      ghost var orig := birds;
      ghost var freed0 := birdsFreed;
      ghost var open0 := Open();
      ghost var live := set p | p in ps && p.active;
      var bs := birds;
      var i := |bs|;
      while i > 0
        invariant 0 <= i <= |bs| && player.Valid()
        invariant |bs| <= |orig| && bs[..i] == orig[..i]
        invariant forall b :: b in bs ==> b in orig
        invariant Caging(orig, i, ps, freed0, open0, live)
      {
        i := i - 1;
        var bird := bs[i];
        BirdTurn(bird, deltaTime, ps, player, now, orig, i, freed0, open0, live);
        if !bird.active {
          bs := Splice(bs, i);
        }
      }
      birds := bs;
      assert forall b :: b in old(birds) ==> exists m :: 0 <= m < |orig| && orig[m] == b;
    }

    /**
     * Where the bird step stands once the birds from index `i` of `orig`
     * have had their turn, against the birds' count `freed0`, the open
     * doors `open0` and the live projectiles `live` it began with: every
     * bird is valid, the count has not fallen, no open door has locked,
     * reaching the target after a new bird unlocked every door, no spent
     * projectile came back, and no bird that has had its turn and is
     * still caged touches an active projectile.
     */
    ghost predicate Caging(orig: seq<Bird>, i: int, ps: seq<Projectile>, freed0: int, open0: set<Door>, live: set<Projectile>)
      reads this`birdsFreed, (set d | d in doors)`locked
      reads (set b | b in orig)`wingState, (set b | b in orig)`caged, (set b | b in orig)`x, (set b | b in orig)`y
      reads (set p | p in ps)`active, (set p | p in ps)`x, (set p | p in ps)`y
    {
      0 <= i <= |orig| && (forall b :: b in orig ==> b.Valid()) &&
      birdsFreed >= freed0 && LocksFrom(open0, BirdsOpened(freed0)) &&
      (forall p :: p in ps && p.active ==> p in live) &&
      forall m, p :: i <= m < |orig| && orig[m].caged && p in ps && p.active ==> !CheckCollision(orig[m].Bounds(), p.Bounds())
    }

    /** One bird's turn in the bird step: it moves, then, if caged, meets the projectiles. */
    method BirdTurn(bird: Bird, deltaTime: real, ps: seq<Projectile>, player: Player, now: real,
                    ghost orig: seq<Bird>, ghost i: int, ghost freed0: int, ghost open0: set<Door>, ghost live: set<Projectile>)
      requires 0 <= i < |orig| && orig[i] == bird && player.Valid() && Caging(orig, i + 1, ps, freed0, open0, live)
      modifies bird, this`birdsFreed, (set d | d in doors)`locked, (set p | p in ps)`active
      modifies player`score, player`xp, player`level, player`xpToNextLevel, player`maxHealth, player`health, player`damageMultiplier
      ensures player.Valid() && Caging(orig, i, ps, freed0, open0, live)
    {
      bird.Update(deltaTime);
      if bird.caged {
        ShootCage(bird, ps, player, now);
      }
    }

    /**
     * The projectile loop of the bird step for a caged bird: every active
     * projectile touching the bird tries to free it and is spent. The cage
     * is checked only before the loop, so after the first projectile frees
     * the bird the next ones are still spent on it.
     */
    method ShootCage(bird: Bird, ps: seq<Projectile>, player: Player, now: real)
      requires player.Valid()
      modifies bird`caged, bird`freedTime, this`birdsFreed, (set d | d in doors)`locked, (set p | p in ps)`active
      modifies player`score, player`xp, player`level, player`xpToNextLevel, player`maxHealth, player`health, player`damageMultiplier
      ensures player.Valid()
      ensures birdsFreed == old(birdsFreed) || (old(bird.caged) && birdsFreed == old(birdsFreed) + 1)
      ensures LocksFrom(old(Open()), BirdsOpened(old(birdsFreed)))
      ensures OnlyDeactivated(ps)
      ensures bird.caged <==> old(bird.caged) && forall p :: p in ps && old(p.active) ==> !CheckCollision(bird.Bounds(), p.Bounds())
      ensures forall p :: p in ps && CheckCollision(bird.Bounds(), p.Bounds()) ==> !p.active
    {
      var j := |ps|;
      while j > 0
        invariant 0 <= j <= |ps| && player.Valid()
        invariant birdsFreed == old(birdsFreed) || (old(bird.caged) && !bird.caged && birdsFreed == old(birdsFreed) + 1)
        invariant LocksFrom(old(Open()), BirdsOpened(old(birdsFreed)))
        invariant OnlyDeactivated(ps)
        invariant forall p :: p in ps && old(p.active) && !p.active ==> !bird.caged
        invariant bird.caged <==> old(bird.caged) && forall k :: j <= k < |ps| && old(ps[k].active) ==> !CheckCollision(bird.Bounds(), ps[k].Bounds())
        invariant forall k :: j <= k < |ps| && CheckCollision(bird.Bounds(), ps[k].Bounds()) ==> !ps[k].active
      {
        j := j - 1;
        var p := ps[j];
        if p.active && CheckCollision(bird.Bounds(), p.Bounds()) {
          var _ := FreeBird(bird, player, now);
          p.active := false;
        }
      }
    }

    /**
     * A projectile reaches a bird's cage: freeing it works only once. A
     * freed bird adds one to `birdsFreed`, its score value to the player's
     * score and 10 XP; reaching the bird target unlocks every door.
     */
    method FreeBird(bird: Bird, player: Player, now: real) returns (freed: bool)
      requires player.Valid()
      modifies bird`caged, bird`freedTime, this`birdsFreed, (set d | d in doors)`locked
      modifies player`score, player`xp, player`level, player`xpToNextLevel, player`maxHealth, player`health, player`damageMultiplier
      ensures player.Valid()
      ensures freed <==> old(bird.caged)
      ensures !bird.caged
      ensures birdsFreed == old(birdsFreed) + (if freed then 1 else 0)
      ensures player.score == old(player.score) + (if freed then bird.scoreValue else 0)
      ensures freed ==> Progress(player.level, player.xp, player.xpToNextLevel, player.maxHealth) ==
                        LevelUps(Progress(old(player.level), old(player.xp) + 10, old(player.xpToNextLevel), old(player.maxHealth)))
      ensures !freed ==> player.xp == old(player.xp) && player.level == old(player.level) && player.health == old(player.health)
      ensures freed && birdsFreed >= birdTarget ==> forall d :: d in doors ==> !d.locked
      ensures !(freed && birdsFreed >= birdTarget) ==> forall d :: d in doors ==> d.locked == old(d.locked)
    {
      freed := bird.Free(now);
      if freed {
        birdsFreed := birdsFreed + 1;
        player.AddScore(bird.scoreValue);
        player.AddXP(10);
        if birdsFreed >= birdTarget {
          UnlockDoors();
        }
      }
    }

    /**
     * The coin step, over the coins last first: each coin slides (`Coin.Update`),
     * and a coin not yet collected that the player then touches is
     * collected, its value goes to the player and it leaves the list.
     * `picked` is the set of coins so collected; the list keeps its order.
     */
    method CoinStep(player: Player) returns (ghost picked: set<Coin>)
      requires Distinct(coins)
      modifies this`coins, player`coins
      modifies (set c | c in coins)`x, (set c | c in coins)`y, (set c | c in coins)`velocityX, (set c | c in coins)`velocityY, (set c | c in coins)`collected
      ensures Distinct(coins)
      ensures coins == Without(old(coins), picked)
      ensures forall c :: c in picked ==> c in old(coins)
      ensures forall k :: 0 <= k < |old(coins)| ==> Fate(old(coins)[k], old(StateOf(coins[k])), old(coins)[k] in picked, player.Bounds())
      ensures player.coins == old(player.coins) + Worth(old(coins)) - Worth(coins)
    {
      ghost var s, box := coins, player.Bounds();
      ghost var was := CoinStates(s);
      picked := {};
      var cs := coins;
      var i := |cs|;
      while i > 0
        invariant 0 <= i <= |s| && box == player.Bounds()
        invariant cs == s[..i] + Without(s[i..], picked)
        invariant forall c :: c in picked ==> c in s
        invariant forall k :: 0 <= k < |s| ==>
                    if k < i then s[k] !in picked && StateOf(s[k]) == was[k] else Fate(s[k], was[k], s[k] in picked, box)
        invariant player.coins == old(player.coins) + Worth(s[i..]) - Worth(Without(s[i..], picked))
      {
        i := i - 1;
        var coin := cs[i];
        CoinLoopStep(s, i, picked, cs);
        var took := TouchCoin(coin, player);
        if took {
          cs := Splice(cs, i);
          picked := picked + {coin};
        }
      }
      coins := cs;
      WithoutDistinct(s, picked);
    }

    /**
     * The sequence bookkeeping of one turn of the coin loop at index i:
     * the coin there is `s[i]`, no later coin is it, and taking it or not
     * shifts `Without` and `Worth` by that one coin.
     */
    lemma CoinLoopStep(s: seq<Coin>, i: nat, picked: set<Coin>, cs: seq<Coin>)
      requires Distinct(s) && i < |s| && cs == s[..i + 1] + Without(s[i + 1..], picked)
      requires s[i] !in picked
      ensures cs[i] == s[i]
      ensures forall k :: 0 <= k < |s| && k != i ==> s[k] != s[i]
      ensures Splice(cs, i) == s[..i] + Without(s[i..], picked + {s[i]})
      ensures cs == s[..i] + Without(s[i..], picked)
      ensures Worth(s[i..]) - Worth(Without(s[i..], picked + {s[i]})) ==
              s[i].value + Worth(s[i + 1..]) - Worth(Without(s[i + 1..], picked))
      ensures Worth(s[i..]) - Worth(Without(s[i..], picked)) == Worth(s[i + 1..]) - Worth(Without(s[i + 1..], picked))
    {
      var w := Without(s[i + 1..], picked);
      assert cs[i] == s[i];
      WithoutStep(s, i, picked);
      WithoutStep(s, i, picked + {s[i]});
      WithoutSkips(s[i + 1..], picked, s[i]);
      assert Without(s[i..], picked + {s[i]}) == w;
      assert Without(s[i..], picked) == [s[i]] + w;
      CoinSpliceShape(s[..i], s[i], w);
      WorthCons(s[i], w);
    }

    /** Splicing out the coin between two parts leaves the two parts. */
    lemma CoinSpliceShape(a: seq<Coin>, c: Coin, w: seq<Coin>)
      ensures Splice(a + [c] + w, |a|) == a + w
      ensures a + [c] + w == a + ([c] + w)
    {
      assert (a + [c] + w)[..|a|] == a;
      assert (a + [c] + w)[|a| + 1..] == w;
    }

    /**
     * The coin loop's body for one coin: it slides, and a coin not yet
     * collected that the player then touches is collected and its value
     * credited to the player (`took`).
     */
    method TouchCoin(coin: Coin, player: Player) returns (took: bool)
      modifies coin`x, coin`y, coin`velocityX, coin`velocityY, coin`collected, player`coins
      ensures took <==> !old(coin.collected) && CheckCollision(player.Bounds(), coin.Bounds())
      ensures Fate(coin, old(StateOf(coin)), took, player.Bounds())
      ensures player.coins == old(player.coins) + (if took then coin.value else 0)
    {
      coin.Update();
      took := !coin.collected && CheckCollision(player.Bounds(), coin.Bounds());
      if took {
        var amount := coin.Collect();
        player.AddCoins(amount);
      }
    }

    /**
     * What the coin step did to coin c, against a snapshot `was` of it:
     * `taken` exactly when it was free and now touches the box, collected
     * when it was or is taken, and moved by its old velocity unless it was
     * collected.
     */
    ghost predicate Fate(c: Coin, was: CoinState, taken: bool, box: Rect)
      reads c
    {
      (taken <==> !was.collected && CheckCollision(box, c.Bounds())) &&
      (c.collected <==> was.collected || taken) &&
      if was.collected then c.x == was.x && c.y == was.y && c.velocityX == was.vx && c.velocityY == was.vy
      else c.x == was.x + was.vx && c.y == was.y + was.vy && c.velocityX == was.vx * CoinFriction && c.velocityY == was.vy * CoinFriction
    }

    /**
     * The exit a door step takes: the theme does not hold the doors shut
     * and the player touches a door that is unlocked and not in `unlocked`,
     * the doors this frame's door step unlocked.
     */
    predicate ExitOpen(player: Player, newly: set<Door>)
      reads this`biochemBlocksDestroyed, this`birdsFreed
      reads player`x, player`y, (set d | d in doors)`locked
    {
      !Gated() && exists d :: d in doors && d !in newly && !d.locked && CheckCollision(player.Bounds(), d.Bounds())
    }

    /** The doors that are not locked. */
    ghost function Open(): set<Door>
      reads (set d | d in doors)`locked
    {
      set d | d in doors && !d.locked
    }

    /** A door is unlocked exactly when it is in `open` or `all` holds. */
    ghost predicate LocksFrom(open: set<Door>, all: bool)
      reads (set d | d in doors)`locked
    {
      forall d :: d in doors ==> (!d.locked <==> d in open || all)
    }

    /** A key counted since the count stood at `keys0` reached the key target, which unlocks every door. */
    predicate KeysOpened(keys0: int)
      reads this`mazeKeysCollected
    {
      mazeKeysCollected > keys0 && mazeKeysCollected >= mazeKeyTarget
    }

    /** A bird freed since the count stood at `freed0` reached the bird target, which unlocks every door. */
    predicate BirdsOpened(freed0: int)
      reads this`birdsFreed
    {
      birdsFreed > freed0 && birdsFreed >= birdTarget
    }

    /** Since the frame began at `f`, a key or bird target was reached. */
    ghost predicate Opened(f: FrameStart)
      reads this`mazeKeysCollected, this`birdsFreed
    {
      KeysOpened(f.mazeKeys) || BirdsOpened(f.birdsFreed)
    }

    /**
     * The locks since the frame began at `f`: a door is unlocked exactly
     * when it was open then or a target has since unlocked every door.
     */
    ghost predicate Locked(f: FrameStart)
      reads this`mazeKeysCollected, this`birdsFreed, (set d | d in doors)`locked
    {
      LocksFrom(f.open, Opened(f))
    }

    /**
     * The exit of a frame that began at `f`, read off its end: the theme
     * does not hold the doors shut and the player touches a door that was
     * open when the frame began, or any door once a target was reached.
     * A door the frame's door step unlocked with a key is not among them.
     */
    ghost predicate Exits(f: FrameStart, player: Player)
      reads this`biochemBlocksDestroyed, this`mazeKeysCollected, this`birdsFreed
      reads player`x, player`y
    {
      !Gated() && exists d :: d in doors && (d in f.open || Opened(f)) && CheckCollision(player.Bounds(), d.Bounds())
    }

    /** `unlocked` holds exactly the doors that were locked when the door step of a frame begun at `f` ran, and are now open. */
    ghost predicate KeyedOpen(f: FrameStart, unlocked: set<Door>)
      reads this`mazeKeysCollected, this`birdsFreed, (set d | d in doors)`locked
    {
      (forall d :: d in unlocked ==> d in doors) &&
      forall d :: d in doors ==> (d in unlocked <==> d !in f.open && !Opened(f) && !d.locked)
    }

    /**
     * What the door step of a frame begun at `f` leaves behind: `unlocked`
     * is `KeyedOpen`, and each of its doors was unlocked with E held, by an
     * ungated door step, and touches the player.
     */
    ghost predicate DoorsDone(f: FrameStart, player: Player, input: Input, unlocked: set<Door>)
      reads this`biochemBlocksDestroyed, this`mazeKeysCollected, this`birdsFreed
      reads player`x, player`y, (set d | d in doors)`locked
    {
      KeyedOpen(f, unlocked) &&
      forall d :: d in unlocked ==> input.interact && !Gated() && CheckCollision(player.Bounds(), d.Bounds())
    }

    /**
     * What the enemies' part of a frame begun at `f` keeps: `KeptFrom`, no
     * exit, and the door step's outcome `unlocked`.
     */
    ghost predicate Calm(f: FrameStart, player: Player, input: Input, unlocked: set<Door>)
      reads this`biochemBlocksDestroyed, this`mazeKeysCollected, this`birdsFreed
      reads this`powerUps, this`birds, player`x, player`y, player`projectiles, (set p | p in player.projectiles)`active
      reads (set d | d in doors)`locked
    {
      KeptFrom(f, player) && !Exits(f, player) && DoorsDone(f, player, input, unlocked)
    }

    /**
     * The door step, over the doors last first; `TouchDoor` handles each
     * door, and the step ends at the first exit, `doors[reached]`. There
     * is an exit exactly when the player touches an ungated door that was
     * unlocked when the step began, so a door unlocked in this step is
     * not left through before the next frame. `unlocked` collects the
     * doors this step unlocked, each at the cost of one key; every locked,
     * ungated door the player touches with E held among those the step
     * reached is unlocked, unless the keys ran out.
     */
    method DoorStep(player: Player, input: Input, ghost f: FrameStart) returns (exit: bool, ghost unlocked: set<Door>, ghost reached: nat)
      requires Valid() && KeptFrom(f, player) && Locked(f)
      modifies this`doorInstructionShown, (set d | d in doors)`locked, player`keys
      ensures Valid() && KeptFrom(f, player)
      ensures exit <==> ExitOpen(player, unlocked)
      ensures exit <==> old(ExitOpen(player, {}))
      ensures exit <==> Exits(f, player)
      ensures DoorsDone(f, player, input, unlocked)
      ensures reached <= |doors| && (exit ==> reached < |doors|) && (!exit ==> reached == 0)
      ensures exit ==> !old(doors[reached].locked) && CheckCollision(player.Bounds(), doors[reached].Bounds())
      ensures forall d :: d in doors ==> (d in unlocked <==> old(d.locked) && !d.locked) && (d.locked ==> old(d.locked))
      ensures forall d :: d in unlocked ==> d in doors && input.interact && !Gated() && CheckCollision(player.Bounds(), d.Bounds())
      ensures forall k :: reached <= k < |doors| && old(doors[k].locked) && input.interact && !Gated() &&
                           CheckCollision(player.Bounds(), doors[k].Bounds()) ==>
                           doors[k] in unlocked || player.keys <= 0
      ensures forall k :: 0 <= k < reached ==> doors[k].locked == old(doors[k].locked)
      ensures player.keys == old(player.keys) - |unlocked|
    {
      ghost var was := map d | d in doors :: d.locked;
      ghost var box, gated := player.Bounds(), Gated();
      exit, unlocked, reached := DoorPass(player, input, was, box, gated);
      if !exit {
        forall d | d in doors && d !in unlocked && !d.locked
          ensures gated || !CheckCollision(box, d.Bounds())
        {
          var k :| 0 <= k < |doors| && doors[k] == d;
        }
        assert !old(ExitOpen(player, {}));
      } else {
        assert old(ExitOpen(player, {})) by {
          assert old(doors[reached] in doors && !doors[reached].locked && CheckCollision(player.Bounds(), doors[reached].Bounds()));
        }
      }
      forall k | reached <= k < |doors| && old(doors[k].locked) && input.interact && !Gated() &&
                 CheckCollision(player.Bounds(), doors[k].Bounds())
        ensures doors[k] in unlocked || player.keys <= 0
      {
        assert was[doors[k]];
      }
    }

    /**
     * The loop of the door step, against the locks `was`, the player's
     * box and the gate as they stood when the step began.
     */
    method DoorPass(player: Player, input: Input, ghost was: map<Door, bool>, ghost box: Rect, ghost gated: bool)
      returns (exit: bool, ghost unlocked: set<Door>, ghost reached: nat)
      requires Distinct(doors) && box == player.Bounds() && gated == Gated()
      requires forall d :: d in doors ==> d in was && d.locked == was[d]
      modifies this`doorInstructionShown, (set d | d in doors)`locked, player`keys
      ensures box == player.Bounds() && gated == Gated()
      ensures DoorLedger(was, unlocked, player, input, old(player.keys))
      ensures reached <= |doors| && (exit ==> reached < |doors|) && (!exit ==> reached == 0)
      ensures exit ==> doors[reached] !in unlocked && !doors[reached].locked && !gated && CheckCollision(box, doors[reached].Bounds())
      ensures !exit ==> forall k :: 0 <= k < |doors| ==> gated || was[doors[k]] || !CheckCollision(box, doors[k].Bounds())
      ensures forall k :: reached <= k < |doors| && was[doors[k]] && input.interact && !gated && CheckCollision(box, doors[k].Bounds()) ==>
                            doors[k] in unlocked || player.keys <= 0
      ensures forall k :: 0 <= k < reached ==> doors[k] !in unlocked && doors[k].locked == was[doors[k]]
    {
      ghost var spent := false;
      ghost var keys0 := player.keys;
      exit, unlocked, reached := false, {}, 0;
      var i := |doors|;
      while i > 0
        invariant Unlocking(player, input, was, box, gated, keys0, i, unlocked, spent, false)
      {
        i := i - 1;
        var leave;
        leave, unlocked, spent := DoorTurn(doors[i], player, input, was, box, gated, keys0, i, unlocked, spent);
        if leave {
          return true, unlocked, i;
        }
      }
    }

    /**
     * The state of the door loop at index i (`exit` when door i is the
     * exit): the doors below i are as they were, the books are kept, every
     * door passed over is gated, was locked or is not touched, and every
     * locked door passed over that E opens was unlocked unless the keys ran
     * out (`spent`).
     */
    ghost predicate Unlocking(player: Player, input: Input, was: map<Door, bool>, box: Rect, gated: bool, keys0: int,
                              i: int, unlocked: set<Door>, spent: bool, exit: bool)
      reads this, player, set d | d in doors
    {
      Distinct(doors) && 0 <= i <= |doors| && box == player.Bounds() && gated == Gated() &&
      DoorLedger(was, unlocked, player, input, keys0) &&
      (forall k :: 0 <= k < i ==> doors[k] !in unlocked && doors[k].locked == was[doors[k]]) &&
      (spent ==> player.keys <= 0) &&
      (forall k :: i <= k < |doors| && was[doors[k]] && input.interact && !gated && CheckCollision(box, doors[k].Bounds()) ==>
                     doors[k] in unlocked || spent) &&
      (!exit ==> forall k :: i <= k < |doors| ==> gated || was[doors[k]] || !CheckCollision(box, doors[k].Bounds())) &&
      (exit ==> i < |doors| && doors[i] !in unlocked && !doors[i].locked && !gated && CheckCollision(box, doors[i].Bounds()))
    }

    /** Door i's turn in the door loop. */
    method DoorTurn(door: Door, player: Player, input: Input, ghost was: map<Door, bool>, ghost box: Rect, ghost gated: bool, ghost keys0: int,
                    i: int, ghost unlocked: set<Door>, ghost spent: bool)
      returns (leave: bool, ghost unlocked': set<Door>, ghost spent': bool)
      requires 0 <= i && Unlocking(player, input, was, box, gated, keys0, i + 1, unlocked, spent, false) && door == doors[i]
      modifies this`doorInstructionShown, door`locked, player`keys
      ensures Unlocking(player, input, was, box, gated, keys0, i, unlocked', spent', leave)
    {
      leave, unlocked' := TouchDoorBooked(door, player, input, was, keys0, unlocked);
      spent' := spent || player.keys <= 0;
    }

    /**
     * The door step's books: against the locks `was` at the start of the
     * step, a door is in `unlocked` exactly when this step unlocked it,
     * no door was locked again, every unlocked door was unlocked with E
     * held, ungated and touched, and each cost one of the `keys0` keys.
     */
    ghost predicate DoorLedger(was: map<Door, bool>, unlocked: set<Door>, player: Player, input: Input, keys0: int)
      reads this, player, set d | d in doors
    {
      (forall d :: d in doors ==> d in was && (d in unlocked <==> was[d] && !d.locked) && (d.locked ==> was[d])) &&
      (forall d :: d in unlocked ==> d in doors && input.interact && !Gated() && CheckCollision(player.Bounds(), d.Bounds())) &&
      player.keys == keys0 - |unlocked|
    }

    /**
     * One door of the door step, keeping the step's books: `after` is
     * `before` with the door added when `TouchDoor` unlocked it.
     */
    method TouchDoorBooked(door: Door, player: Player, input: Input, ghost was: map<Door, bool>, ghost keys0: int, ghost before: set<Door>)
      returns (leave: bool, ghost after: set<Door>)
      requires door in doors && door !in before && DoorLedger(was, before, player, input, keys0)
      requires door.locked == was[door]
      modifies this`doorInstructionShown, door`locked, player`keys
      ensures DoorLedger(was, after, player, input, keys0)
      ensures after == before || after == before + {door}
      ensures leave <==> !Gated() && CheckCollision(player.Bounds(), door.Bounds()) && !was[door]
      ensures was[door] && input.interact && !Gated() && CheckCollision(player.Bounds(), door.Bounds()) ==>
                door in after || player.keys <= 0
      ensures player.keys <= old(player.keys)
    {
      var used;
      leave, used := TouchDoor(door, player, input);
      after := if used then before + {door} else before;
    }

    /**
     * One door of the door step. Away from the door the instruction flag
     * resets. At the door on a gated theme only the instruction shows.
     * Otherwise a locked door shows the instruction, and with a key in
     * hand and E held one key unlocks it (`used`); an unlocked door is the
     * exit (`leave`).
     */
    method TouchDoor(door: Door, player: Player, input: Input) returns (leave: bool, used: bool)
      modifies this`doorInstructionShown, door`locked, player`keys
      ensures leave <==> CheckCollision(player.Bounds(), door.Bounds()) && !Gated() && !old(door.locked)
      ensures used <==> CheckCollision(player.Bounds(), door.Bounds()) && !Gated() && old(door.locked) &&
                        input.interact && old(player.keys) > 0
      ensures door.locked <==> old(door.locked) && !used
      ensures player.keys == old(player.keys) - (if used then 1 else 0)
    {
      leave, used := false, false;
      if CheckCollision(player.Bounds(), door.Bounds()) {
        if Gated() {
          if !doorInstructionShown {
            doorInstructionShown := true;
          }
          return;
        }
        if door.IsLocked() && player.keys > 0 && !doorInstructionShown {
          doorInstructionShown := true;
        } else if door.IsLocked() && player.keys == 0 && !doorInstructionShown {
          doorInstructionShown := true;
        }
        if door.IsLocked() && player.keys > 0 {
          if input.interact {
            used := player.UseKey();
            if used {
              door.Unlock();
            }
          }
        } else if !door.IsLocked() {
          leave := true;
        }
      } else {
        doorInstructionShown := false;
      }
    }

    /**
     * The kill step, after the spawner's update: every enemy active at
     * that point (first to last) against every projectile (last first); an
     * active projectile touching it hits it and is spent. The `active`
     * check is made once per enemy, so an enemy killed by one projectile is
     * hit, and rewarded, again by the next.
     */
    method KillStep(player: Player, rng: Random, trig: Trig)
      requires spawner != null && spawner.Valid() && player.Valid() && rng.Valid()
      modifies (set e | e in spawner.enemies)`health, (set e | e in spawner.enemies)`active
      modifies (set p | p in player.projectiles)`active
      modifies player`score, player`xp, player`level, player`xpToNextLevel, player`maxHealth, player`health, player`damageMultiplier
      modifies this`coins, rng`drawn
      ensures spawner.Valid() && player.Valid()
      ensures OnlyDeactivated(player.projectiles)
      ensures CoinsGrown()
      ensures forall m, p :: 0 <= m < |spawner.enemies| && old(spawner.enemies[m].active) && p in player.projectiles && p.active ==>
        !CheckCollision(spawner.enemies[m].Bounds(), p.Bounds())
    {
      var es := spawner.enemies;
      var ps := player.projectiles;
      var k := 0;
      while k < |es|
        invariant 0 <= k <= |es| && player.Valid() && rng.Valid()
        invariant AllValid(es)
        invariant OnlyDeactivated(ps)
        invariant CoinsGrown()
        invariant forall m :: k <= m < |es| ==> es[m].active == old(es[m].active)
        invariant forall m, p :: 0 <= m < k && old(es[m].active) && p in ps && p.active ==> !CheckCollision(es[m].Bounds(), p.Bounds())
      {
        var enemy := es[k];
        if enemy.active {
          ShootEnemy(enemy, ps, player, rng, trig);
        }
        k := k + 1;
      }
    }

    /** The projectile loop of the kill step for one enemy, which was active when the loop began. */
    method ShootEnemy(enemy: Enemy, ps: seq<Projectile>, player: Player, rng: Random, trig: Trig)
      requires player.Valid() && rng.Valid()
      modifies enemy`health, enemy`active, (set p | p in ps)`active
      modifies player`score, player`xp, player`level, player`xpToNextLevel, player`maxHealth, player`health, player`damageMultiplier
      modifies this`coins, rng`drawn
      ensures player.Valid()
      ensures OnlyDeactivated(ps)
      ensures CoinsGrown()
      ensures forall p :: p in ps && p.active ==> !CheckCollision(enemy.Bounds(), p.Bounds())
    {
      var j := |ps|;
      while j > 0
        invariant 0 <= j <= |ps| && player.Valid() && rng.Valid()
        invariant OnlyDeactivated(ps)
        invariant CoinsGrown()
        invariant forall k :: j <= k < |ps| && ps[k].active ==> !CheckCollision(enemy.Bounds(), ps[k].Bounds())
      {
        j := j - 1;
        var p := ps[j];
        if p.active && CheckCollision(enemy.Bounds(), p.Bounds()) {
          HitEnemy(enemy, p, player, rng, trig);
        }
      }
    }

    /**
     * One projectile hitting one enemy: the enemy takes the projectile's
     * damage and the projectile is spent. A kill gives the player the
     * enemy's score and XP values, and one draw below the enemy's coin-drop
     * chance drops a coin of the enemy's coin value at its corner.
     */
    method HitEnemy(enemy: Enemy, p: Projectile, player: Player, rng: Random, trig: Trig)
      requires player.Valid() && rng.Valid()
      modifies enemy`health, enemy`active, p`active
      modifies player`score, player`xp, player`level, player`xpToNextLevel, player`maxHealth, player`health, player`damageMultiplier
      modifies this`coins, rng`drawn
      ensures player.Valid()
      ensures !p.active
      ensures enemy.health == old(enemy.health) - p.damage
      ensures enemy.active == (old(enemy.active) && enemy.health > 0)
      ensures var killed := enemy.health <= 0;
              player.score == old(player.score) + (if killed then enemy.scoreValue else 0) &&
              (killed ==> Progress(player.level, player.xp, player.xpToNextLevel, player.maxHealth) ==
                          LevelUps(Progress(old(player.level), old(player.xp) + enemy.xpValue, old(player.xpToNextLevel), old(player.maxHealth)))) &&
              (!killed ==> player.xp == old(player.xp) && player.level == old(player.level) && rng.drawn == old(rng.drawn)) &&
              (|coins| == |old(coins)| + 1 <==> killed && rng.draw(old(rng.drawn)) < enemy.coinDropChance)
      ensures coins == old(coins) || (Dropped(old(coins), enemy.x, enemy.y) && coins[|old(coins)|].value == enemy.coinValue)
      ensures CoinsGrown()
    {
      var killed := enemy.TakeDamage(p.damage);
      p.active := false;
      if killed {
        player.AddScore(enemy.scoreValue);
        player.AddXP(enemy.xpValue);
        var r := rng.Next();
        if r < enemy.coinDropChance {
          AddCoin(enemy.x, enemy.y, enemy.coinValue, rng, trig);
        }
      }
    }
  }

  /**
   * The per-level settings of `LevelFactory`: the id the level is built
   * with, its theme, where its door leads, its bird and key targets, its
   * clock and where the player starts.
   */
  datatype Settings = Settings(
    id: int, theme: Theme, nextLevelId: Option<int>, birdTarget: int, mazeKeyTarget: int,
    timed: bool, timeLimit: real, start: Option<(real, real)>)

  /** The number of levels the factory knows. */
  const LevelCount: int := 11

  /** The settings of `createLevel1`, also used for an id the factory does not know. */
  const FirstLevelSettings: Settings := Settings(1, Standard, Some(2), 5, 3, false, 60000.0, None)

  /**
   * `getLevel(levelId)`: the settings of `createLevelN` for N in 1..11 and
   * of `createLevel1` for any other id. Levels 5 and 11 are final: their
   * door leads nowhere. Level 4 needs 5 birds, level 5 needs 3 keys,
   * level 6 runs on a 45 s clock and level 5 starts the player at
   * (50, 150); every other level keeps the defaults.
   */
  function SettingsFor(levelId: int): (s: Settings)
    ensures 1 <= levelId <= LevelCount ==> s.id == levelId
    ensures !(1 <= levelId <= LevelCount) ==> s == FirstLevelSettings
    ensures s.nextLevelId.Some? <==> s.id != 5 && s.id != LevelCount
    ensures s.nextLevelId.Some? ==> s.nextLevelId.value == s.id + 1
    ensures s.timed <==> s.id == 6
  {
    match levelId
    case 1 => FirstLevelSettings
    case 2 => Settings(2, Standard, Some(3), 5, 3, false, 60000.0, None)
    case 3 => Settings(3, Biochemistry, Some(4), 5, 3, false, 60000.0, None)
    case 4 => Settings(4, Birds, Some(5), 5, 3, false, 60000.0, None)
    case 5 => Settings(5, Train, None, 5, 3, false, 60000.0, Some((50.0, 150.0)))
    case 6 => Settings(6, Timed, Some(7), 5, 3, true, 45000.0, None)
    case 7 => Settings(7, Lasers, Some(8), 5, 3, false, 60000.0, None)
    case 8 => Settings(8, Fortress, Some(9), 5, 3, false, 60000.0, None)
    case 9 => Settings(9, Garden, Some(10), 5, 3, false, 60000.0, None)
    case 10 => Settings(10, Space, Some(11), 5, 3, false, 60000.0, None)
    case 11 => Settings(11, Final, None, 5, 3, false, 60000.0, None)
    case _ => FirstLevelSettings
  }

  /** The level a door of level `id` leads to, following the factory's settings. */
  function NextLevel(id: int): Option<int> {
    SettingsFor(id).nextLevelId
  }

  /** The level reached from `id` after `n` doors, if the chain of doors goes that far. */
  function Walk(id: int, n: nat): Option<int>
    decreases n
  {
    if n == 0 then Some(id)
    else match NextLevel(id)
      case None => None
      case Some(next) => Walk(next, n - 1)
  }

  /**
   * Starting from level 1, the doors lead through levels 2 to 5 and stop
   * there: no chain of doors from level 1 reaches levels 6 to 11.
   */
  lemma {:induction false} DoorsFromFirstLevelStopAtFive(n: nat)
    ensures Walk(1, n) == if n <= 4 then Some(n + 1) else None
  {
    var k := 0;
    while k < n
      invariant k <= n
      invariant Walk(1, k) == if k <= 4 then Some(k + 1) else None
    {
      WalkStep(1, k);
      k := k + 1;
    }
  }

  /** One more door: the walk of n + 1 doors is the walk of n doors followed by one. */
  lemma {:induction false} WalkStep(id: int, n: nat)
    ensures Walk(id, n + 1) == match Walk(id, n) case None => None case Some(l) => NextLevel(l)
    decreases n
  {
    if n > 0 {
      match NextLevel(id)
      case None =>
      case Some(next) => WalkStep(next, n - 1);
    }
  }

  /**
   * `createLevelN` for the id `getLevel` resolves `levelId` to: the level
   * with that id, the layout's entities and the factory's settings.
   */
  method CreateLevel(levelId: int, width: real, height: real, layout: Layout) returns (level: Level)
    requires Distinct(layout.doors)
    requires forall t :: t in layout.trains ==> t.Valid()
    requires forall b :: b in layout.birds ==> b.Valid()
    ensures fresh(level) && level.Valid()
    ensures level.Follows(SettingsFor(levelId)) && level.timeRemaining == SettingsFor(levelId).timeLimit && level.height == height
    ensures level.id >= 1 && level.spawner == null && level.coins == []
    ensures level.blocks == layout.blocks && level.powerUps == layout.powerUps && level.doors == layout.doors
    ensures level.birds == layout.birds && level.trains == layout.trains && level.spawnAreas == layout.spawnAreas
  {
    level := new Level(SettingsFor(levelId), width, height, layout);
  }
}
