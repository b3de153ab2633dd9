# Power Shooter, modelled in Dafny

A model of the game logic of Power Shooter, a browser arcade shooter written
in JavaScript. The player walks a box around an 800×600 field, shoots toward
the mouse, and works through eleven levels. Each level has its own theme:
breakable blocks, biochem blocks, caged birds, moving trains, a maze, a timed
level, lasers, a fortress, a garden, space and a final level. Along the way
the player collects coins, keys and power-ups, unlocks doors, fights enemies
from a spawner (one of them a boss) and spends coins in a shop.

One Dafny module models each core source file:

| module | file | source |
|---|---|---|
| `Utils` | utils.dfy | js/utils.js |
| `Controls` | controls.dfy | the input snapshot the game reads |
| `Sprites` | sprite.dfy | js/sprite.js |
| `Players` | player.dfy | js/player.js |
| `Weapons` | weapons.dfy | js/weapons.js |
| `Blocks` | blocks.dfy | js/blocks.js |
| `Trains` | trains.dfy | js/levels.js, `MovingTrain` |
| `Enemies` | enemies.dfy | js/enemies.js |
| `Levels` | levels.dfy | js/levels.js, `Level` and the level table |
| `Shops` | shop.dfy | js/shop.js |
| `Games` | game.dfy | js/game.js |

Entities whose fields the source updates in place are classes with
`modifies` frames: the player, projectiles, blocks, coins, portals, doors,
birds, power-up blocks, trains, enemies, the spawner, the shop, a level and
the game. Each per-frame `update` is a method. Its contract states the new
state, either outright or through a specification function:
- `Survivors` and `Misses` for enemy projectiles;
- `BossStep` for a boss's update;
- `Exits` and `DoorsDone` for a level frame's exit and doors, measured against the snapshot `Start` takes as the frame begins;
- `LevelUps` for XP;
- `Bounce` and `Travel` for trains;
- `PauseToggled`, `ShopOpened`, `ShopClosed`, `KeyPressed` and `Settled` for the game's screen state.

Lemmas then prove what the source promises about those functions:
- projectiles never outlive their range;
- XP always ends below the threshold;
- trains stay between their walls;
- the boss phase only moves forward, and a boss fires at most three bursts before it chases again;
- pausing twice is the identity;
- a shop round trip returns to play.

Other specification functions carry the rules the frame methods are proved against:
- `Hurt` is what `takeDamage` does to the player's vitals, and `HurtOnce` shows why at most one hit lands per frame.
- `Select` is the list a backward splice loop leaves.
- `Struck` and `StruckAll` are the enemy projectiles' hits on the player.
- `Without` and `Worth` are the coins left after a coin step and the value they carry.

The things the model takes as given rather than computes are parameters:
- `Math.random` is a `Random` stream of draws in [0, 1), and every method that draws says how many draws it used.
- `Math.cos`, `Math.sin`, `Math.atan2` and `Math.sqrt` are the total functions of a `Trig` value.
- `Date.now()` is a `now` parameter.

Positions, sizes, speeds and times are `real`. Health, score, XP, coins and
keys are unbounded `int`.

The model keeps the source's behaviour where it is surprising:
- A block is never deactivated. A destroyed block keeps reporting destruction on every later hit, so it awards its score again and, on a biochem level, counts again.
- Only a block of type `biochem` is made breakable. A block of type `breakable` without the flag cannot be destroyed.
- Unlocking a door and walking through it take two frames.
- A new train heads in direction 1 whatever it was given.
- A chasing boss steps toward its target twice per update: once in its attack step and again in the base update it runs afterwards.
- A power-up spliced out of the list can still be hit by a later projectile in the same loop. The effect then applies again and another power-up is spliced.
- On the train level, a counted key power-up ends the projectile loop before the projectile is deactivated, so that projectile flies on.
- The last levels' doors lead to no next level. Going through them is not distinguished from carrying on, so a frame never completes the game.

## Model

| member | source | states |
|---|---|---|
| Utils.CollisionIffCommonInteriorPoint | js/utils.js:11-16 | for rectangles of positive size, `checkCollision` holds exactly when some point lies strictly inside both, in both directions |
| Utils.EdgeContactIsNoCollision | js/utils.js:12-15 | rectangles that only touch along an edge, or lie apart, do not collide (the comparisons are strict) |
| Utils.Floor | js/utils.js:7 | `Math.floor`: the largest integer not above its argument |
| Utils.RandomInt | js/utils.js:6-8 | `randomInt(min, max)` lies in [min, max] whenever min <= max, for every draw in [0, 1) |
| Utils.ScaledBelow | js/utils.js:7 | a draw scaled by k >= 1 lies in [0, k), so the floor of it indexes one of k slots |
| Utils.Pick | js/enemies.js:494 | `Math.floor(random() * n)` is a valid index below n, the one slot of [0, 1) that holds the draw |
| Utils.ScaledWithin | js/enemies.js:481-482 | a draw scaled by a non-negative width lies within [0, width], so a random position stays inside its spawn area |
| Utils.Random.constructor | js/utils.js:7 | the stream starts with no draws taken, and every draw lies in [0, 1) |
| Utils.Random.Next | js/utils.js:7 | one `Math.random()` call: it returns the next draw of the stream, which lies in [0, 1), and advances the count by one |
| Sprites.Sprite.constructor | js/sprite.js:6-16 | a new sprite has the given position and size, is active, has speed 0 and no texture |
| Sprites.Sprite.Update | js/sprite.js:39-41 | the base update changes nothing |
| Sprites.CollidesWithSymmetric | js/sprite.js:69-80 | `collidesWith` is symmetric and is the overlap test on the sprites' position and size fields |
| Players.Projectile.constructor | js/player.js:289-305 | a projectile starts at the shot's origin with its heading, speed and damage, has velocity (cos·speed, sin·speed), no distance travelled, and is active |
| Players.Projectile.Update | js/player.js:307-321 | one step along the velocity and `speed` more distance travelled; afterwards it is alive only if it was alive, is within its range and is on the 800×600 field, so a dead projectile never comes back |
| Players.ClampInside | js/player.js:61-66 | the two-sided clamp puts a box that fits between the bounds inside them, and leaves a box that is already inside where it is |
| Players.Spread | js/player.js:126-146 | the volley of a weapon level: 1, 2 or 3 shots from the same origin with the same speed and damage, at the aim angle, then +0.2, then -0.2 |
| Players.NextThreshold | js/player.js:213-227 | `Math.floor(t * 1.5)`: the new XP threshold is the floor of 1.5 times the old one, and is never smaller than it |
| Players.LevelUps | js/player.js:204-211 | the `while (xp >= xpToNextLevel) levelUp()` loop resolves every level-up: afterwards the XP is below the threshold; each level gained adds 10 to maximum health; thresholds and levels never shrink; no level is gained exactly when the XP was below the threshold |
| Players.Hurt | js/player.js:162-174 | the effect of `takeDamage` on the player's vitals: an invulnerable player is unchanged; otherwise health drops by the amount, floored at 0, the player dies exactly when it reaches 0, and 1000 ms of invulnerability start |
| Players.HurtOnce | js/player.js:162-174 | a second hit straight after a first changes nothing, because the first leaves the player invulnerable |
| Players.Select | js/player.js:79-87 | the list a backward splice loop leaves: the elements whose flag is set, in order, never more than there were |
| Players.SelectMembers | js/player.js:79-87 | an element is in the selection exactly when it stands at a position whose flag is set, in both directions |
| Players.SelectDistinct | js/player.js:79-87 | selecting from a list without repeats gives a list without repeats |
| Players.SelectAppend | js/player.js:79-87 | selecting from two joined lists is selecting from the first, then from the second, so the splice loop keeps the old projectiles' survivors ahead of the new ones' |
| Players.SelectSplice | js/player.js:79-87 | one step of the splice loop: with the tail past i already selected, keeping element i when its flag is set, or splicing it out otherwise, leaves the tail from i selected |
| Players.PrunedStep | js/player.js:79-87 | the same step when flag i is learnt only at step i: element i is in place, and setting its flag and splicing it out when the flag is false moves the loop from i + 1 to i |
| Players.Player.constructor | js/player.js:6-43 | the starting player: health 100 of 100, speed 5, weapon level 1, shot delay 300, no projectiles, score, keys, coins or XP, level 1 with threshold 100, damage multiplier 1 and no upgrades |
| Players.Player.Move | js/player.js:47-66 | each held direction moves `speed` on its own axis (a diagonal moves on both); with boundaries the box is then clamped into them |
| Players.Player.MoveWithin | js/player.js:47-66 | boundaries wide and tall enough for the player leave it inside them after the move |
| Players.Player.CreateProjectile | js/player.js:148-160 | exactly one new, active projectile, launched as the shot describes, is appended to the list, and the old ones stay in front |
| Players.Player.Shoot | js/player.js:126-146 | fires `PlayerVolley`, the `Spread` of the current weapon level from the player's centre toward the aim point at speed 10, with damage 10 at weapon levels 1 and 2 and 15 above: one new active projectile per shot, appended in order after the old list |
| Players.Player.UpdateProjectiles | js/player.js:79-87 | every listed projectile takes exactly one step; the flags `alive` record which are still active, and the list afterwards is `Select` of the old list by those flags, so exactly the old projectiles still active remain, in their old order |
| Players.Player.TakeDamage | js/player.js:162-174 | the player's vitals become `Hurt` of the old ones: ignored while invulnerable; otherwise health drops by the amount, is floored at 0, the player dies exactly at 0, and 1000 ms of invulnerability start |
| Players.Player.Heal | js/player.js:176-178 | health grows by the amount but never beyond the maximum |
| Players.Player.UpgradeWeapon | js/player.js:180-186 | the weapon level rises by one exactly when it was below 3, and the result says whether it did |
| Players.Player.AddKey | js/player.js:188-190 | one more key |
| Players.Player.UseKey | js/player.js:192-198 | succeeds exactly when a key is held, and then uses exactly one |
| Players.Player.AddScore | js/player.js:200-202 | the score grows by the points |
| Players.Player.LevelUp | js/player.js:213-227 | one `LevelUpOnce`: a level gained for the current threshold, which grows by half; +10 maximum health, full heal, +0.1 damage multiplier |
| Players.Player.AddXP | js/player.js:204-211 | the XP state afterwards is `LevelUps` of the old one plus the amount, so the XP ends below the threshold; health is full exactly when a level was gained; +0.1 damage multiplier per level gained |
| Players.Player.AddCoins | js/player.js:229-231 | the balance grows by the amount |
| Players.Player.SpendCoins | js/player.js:233-239 | succeeds exactly when the balance covers the amount, and then takes exactly that; on failure nothing changes |
| Players.Player.PurchaseHealthUpgrade | js/player.js:241-249 | bought exactly when 50 coins are there: -50 coins, +25 maximum health and health; otherwise nothing changes |
| Players.Player.PurchaseDamageUpgrade | js/player.js:251-258 | bought exactly when 75 coins are there: -75 coins, +0.25 damage multiplier; otherwise nothing changes |
| Players.Player.PurchaseFireRateUpgrade | js/player.js:260-267 | bought exactly when 60 coins are there: -60 coins, shot delay 50 ms shorter but never below 100 ms; otherwise nothing changes |
| Players.Player.PurchaseHealthRegenUpgrade | js/player.js:269-276 | bought exactly when 80 coins are there: -80 coins, +5 health regenerated per second; otherwise nothing changes |
| Players.Player.PurchaseSpeedUpgrade | js/player.js:278-285 | bought exactly when 70 coins are there: -70 coins, +1 speed bonus; otherwise nothing changes |
| Players.Player.HandleShooting | js/player.js:69-77 | the cooldown counts down by the frame time; a held mouse fires once the cooldown has run out, which restarts it at the shot delay; the returned `shots` are then `PlayerVolley` of the weapon level from the player's centre toward the mouse, otherwise empty, and the list gains exactly one new projectile launched as each shot, in order |
| Players.Player.TickInvulnerability | js/player.js:89-95 | a running invulnerability loses the frame time from its timer and stays on exactly while the timer is above 0; without it, nothing changes and it does not start |
| Players.Player.Regenerate | js/player.js:97-101 | with a bought rate and at least 1000 ms since the last regeneration, health grows by the rate, capped at the maximum, and the time is recorded; otherwise nothing changes |
| Players.Player.Update | js/player.js:45-102 | a frame of the player: boundaries that fit keep it inside them; the cooldown counts down by the frame time and a held mouse fires once it has run out, restarting it at the shot delay; `shots` is then `PlayerVolley` from the moved centre toward the mouse (otherwise empty) and `volley` is one new projectile per shot, each launched and stepped once; every old projectile steps once; the flags `alive` record which of the old list followed by the volley are still active, and the list afterwards is `Select` of that joined list by those flags (`Volleyed`): the surviving old projectiles in their order, then the surviving new ones in theirs; so it holds exactly the old and new projectiles that are still active; a running invulnerability loses the frame time and stays on exactly while its timer is above 0, and never starts; with a bought rate and 1000 ms since the last regeneration health grows by the rate up to the maximum, otherwise it is unchanged |
| Players.Player.ShootAndStep | js/player.js:69-87 | the shooting and projectile part of a frame: the cooldown and `shots` as in `HandleShooting` (`Reloaded`); `volley` is one new projectile per shot, each launched and stepped once; every old projectile steps once; the list afterwards is `Select` of the old list followed by the volley by the flags `alive` of which are still active, so in order (`Volleyed`), and holds exactly the old and new projectiles that are still active |
| Players.Player.StepVolley | js/player.js:79-87 | the projectile loop right after a shot: every projectile of the list before the shot steps once, each new one is its shot launched and stepped once, and the list becomes `Select` of the old list followed by the new projectiles by their active flags, in order (`Volleyed`), so exactly the still-active old and new ones stay listed |
| Players.Player.MoveAndShoot | js/player.js:45-87 | the move, the shooting and the projectile loop of a frame, with the bounds of `MoveWithin` and the cooldown, shots, volley and ordered list (`Volleyed`) of `ShootAndStep` |
| Players.Player.TickVitals | js/player.js:89-101 | the invulnerability countdown of `TickInvulnerability`, then the regeneration of `Regenerate` |
| Players.Player.StepOne | js/player.js:80-86 | projectile i's turn in the projectile loop: it steps, is spliced out if it died, and the loop's record `Stepping` (projectiles below i as recorded, those from i stepped, the list their `Select`) moves from i + 1 to i |
| Weapons.Weapon.constructor | js/weapons.js:6-12 | damage 10·level, cooldown 500 - 100·level and projectile speed 8 + level |
| Weapons.Weapon.Upgrade | js/weapons.js:15-26 | one level up exactly when below level 3, with the stats recomputed from the new level, and the result says whether it happened |
| Weapons.Weapon.CreateProjectiles | js/weapons.js:28-79 | one new projectile per shot of the `Spread` of the weapon's level, each at the weapon's projectile speed and damage |
| Weapons.UpgradesStayInRange | js/weapons.js:15-26 | however many upgrades a weapon between levels 1 and 3 receives, it ends at min(level + upgrades, 3), with damage 10 to 30 and cooldown 200 to 400 ms |
| Blocks.Block.constructor | js/blocks.js:6-21 | a block is breakable exactly when it is a biochem block or was built breakable; it is worth 25 when biochem and 10 otherwise; it starts active at full health |
| Blocks.Block.TakeDamage | js/blocks.js:23-30 | a breakable block loses the damage and reports destruction exactly when its health is at or below 0; an unbreakable one ignores the hit and reports false |
| Blocks.Coin.constructor | js/blocks.js:34-56 | a coin starts uncollected, with the drop velocity `Scatter` of two consecutive draws: heading random·2π, speed 2 + random·3 |
| Blocks.Coin.Update | js/blocks.js:58-73 | an uncollected coin moves by its velocity and then slows by 5%, so its speed never grows on either axis; a collected coin stays put |
| Blocks.Coin.Collect | js/blocks.js:90-93 | the coin is collected and hands over exactly its value |
| Blocks.Portal.constructor | js/blocks.js:138-149 | a portal starts active, with its target and no cooldown |
| Blocks.Portal.Update | js/blocks.js:151-155 | a pending cooldown counts down by the frame time; otherwise it stays as it is |
| Blocks.Portal.Teleport | js/blocks.js:170-178 | the entity moves exactly when the portal is active and its cooldown has run out; it then lands on the target and a 1000 ms cooldown starts; otherwise nothing changes |
| Blocks.Door.constructor | js/blocks.js:182-190 | a door is 60×100 and locked by default, and is never breakable |
| Blocks.Door.Unlock | js/blocks.js:210-216 | afterwards `isLocked` is false, whatever the door's state was |
| Blocks.Bird.constructor | js/blocks.js:220-240 | a caged, active bird, 25 wide if small and 40 otherwise, with fly speed 2 + random and heading random·2π from two consecutive draws |
| Blocks.Bird.Update | js/blocks.js:242-262 | a caged bird does not move; a freed one drifts sideways, climbs by 1.5·flySpeed, so it always rises, and stays active exactly while it is not above y = -50; the wing state stays in 0..2 |
| Blocks.Bird.Free | js/blocks.js:329-336 | opens the cage only once: it reports true exactly when the bird was caged, records the time only then, and leaves the bird free |
| Blocks.PowerUpBlock.constructor | js/blocks.js:340-366 | a 30×30 breakable block with 1 health, worth 5 when destroyed, of the given power-up type |
| Blocks.PowerUpBlock.TakeDamage | js/blocks.js:23-30 | the inherited `takeDamage`: the block loses the damage and reports destruction exactly when its health reaches 0 or below |
| Blocks.PowerUpBlock.ApplyPowerUp | js/blocks.js:454-485 | "health" heals 20 + 5·level up to the maximum; "weapon" raises a weapon below level 3 and otherwise gives 25 score; "key" gives one key; "score" gives 50·level; "speed" adds 0.5 speed; every other field, and every other type, leaves the player unchanged |
| Trains.OrDefault | js/levels.js:8-22 | `params.f \|\| default` on a number: the given value unless it is missing or 0, in which case the default |
| Trains.OrDefaultInt | js/levels.js:16 | the same for the integer damage |
| Trains.OrDefaultString | js/levels.js:14 | the same for the path name: a missing or empty name takes the default |
| Trains.MovingTrain.constructor | js/levels.js:7-38 | every parameter takes its default when missing or 0 (position 0, 100×30, speed 2, damage 50, walls 0/800/0/600, horizontal path, no waypoints); the train starts active at waypoint 0 heading +1 |
| Trains.MovingTrain.Update | js/levels.js:54-102 | an inactive train stays put; on a track the train takes one `Bounce` step on its axis and keeps the other; on a custom path of two or more waypoints it steps toward the current one, or lands on it and aims at the next, cyclically; a track wide enough for the train keeps it between the walls |
| Trains.MovingTrain.StepAxis | js/levels.js:59-67 | one track step: `speed·direction`, then the bounce off a wall that was reached |
| Trains.MovingTrain.StepCustom | js/levels.js:81-97 | closer than one step to the current waypoint, the train lands on it and the index moves on modulo the number of waypoints; otherwise it moves one step of length `speed` toward it |
| Trains.BounceStaysInside | js/levels.js:59-79 | the bounce keeps a box that fits between the walls inside them, heads it +1 after it reached the low wall and -1 after the high wall, and otherwise leaves it where the step put it, heading as before |
| Trains.TravelStaysInside | js/levels.js:54-80 | however many frames a train on a track wide enough for it runs, it stays between the walls with a direction of ±1 |
| Enemies.StatsOf | js/enemies.js:6-228 | the stat table of the five kinds: every kind has positive size, health and speed, and a coin-drop chance in (0, 1] |
| Enemies.EnemyProjectile.Step | js/enemies.js:383-394 | one step of `speed` along the heading and `speed` more distance; heading, speed and damage do not change; the projectile is alive afterwards exactly when it was alive, is within its 600 units of range and is on the 800×600 field |
| Enemies.Survivors | js/enemies.js:29-35 | one pass of the projectile loop never lengthens the list |
| Enemies.SurvivorsAreTheActiveSteps | js/enemies.js:29-35 | the survivors of a pass are exactly the stepped projectiles that are still active, so every survivor is alive, within range and on the field |
| Enemies.SurvivorsSplice | js/enemies.js:29-35 | one iteration of the backward splice loop: stepping element i and removing it when it went inactive extends the processed suffix by one |
| Enemies.SurvivorsAppend | js/enemies.js:29-35 | a pass over two joined lists is the two passes joined, so the loop's order of visiting does not matter |
| Enemies.Volley | js/enemies.js:280-316 | the new projectiles a list of shots fires: one per shot, in order, each as the shot describes |
| Enemies.Misses | js/enemies.js:452-461 | removing the projectiles that hit the player never lengthens a list |
| Enemies.MissesMembers | js/enemies.js:452-461 | what is left is exactly the projectiles that do not touch the player's box |
| Enemies.MissesShorter | js/enemies.js:452-461 | the list is unchanged exactly when no projectile touches the box |
| Enemies.MissesIdempotent | js/enemies.js:452-461 | removing the hits a second time removes nothing more |
| Enemies.MissesStep | js/enemies.js:453-460 | one backward step of the removal loop: the processed suffix grows by element i, kept exactly when it misses |
| Enemies.MissesSplice | js/enemies.js:453-460 | the splice of the removal loop: with the hits of `ps[i + 1..]` gone, removing element i exactly when it hits leaves the hits of `ps[i..]` gone |
| Enemies.MissesAppend | js/enemies.js:452-461 | a list split in two loses its hits part by part |
| Enemies.Touch | js/enemies.js:455-459 | one enemy projectile against the player: one that does not touch the player's box leaves the vitals unchanged (on contact it applies `Hurt` with its damage, as `HitOnce` states) |
| Enemies.StruckMiss | js/enemies.js:452-461 | a list none of whose projectiles touches the player leaves the player unchanged |
| Enemies.StruckLast | js/enemies.js:452-461 | checked last first, a list whose last touching projectile is j hurts the player exactly by projectile j's damage, since invulnerability then blocks the rest |
| Enemies.StruckAllOnce | js/enemies.js:450-462 | the projectile pass over every enemy's list: with no touching projectile the player is unchanged, and otherwise it is unchanged or has taken the damage of exactly one touching projectile |
| Enemies.OneHitPerFrame | js/enemies.js:432-462 | the player is hurt at most once per spawner update: after a contact it has taken exactly the 10 contact damage and no projectile adds to it; without one it is unchanged or has taken one touching projectile's damage |
| Enemies.LastTouch | js/enemies.js:453-459 | in a list with a touching projectile, the index of the last one: it touches and none after it does |
| Enemies.Fan | js/enemies.js:298-301 | the phase-3 fan is five shots at angle + i·0.15 for i = -2..2, speed 7, damage 20 |
| Enemies.Burst | js/enemies.js:280-302 | a boss burst is 1 shot in phase 1, 3 in phase 2 (speed 6, damage 15) and 5 otherwise (speed 7, damage 20), all from the boss's position |
| Enemies.PhaseAdvancesByAtMostOne | js/enemies.js:233-243 | the boss phase never goes back, moves at most one step per update, and never passes 3 |
| Enemies.LowHealthReachesPhase3 | js/enemies.js:233-243 | a boss at or below 30% of its health goes from phase 1 to phase 3 in exactly two updates, one phase at a time |
| Enemies.BossBurstsThenChases | js/enemies.js:252-262 | a boss that starts shooting with no burst fired, its timer staying below the cooldown, fires on three updates and is chasing again after the third with the count at 0, drawing nothing |
| Enemies.BossFiresBurst | js/enemies.js:254-265 | a shooting boss with a target fires the burst of its phase, 1, 3 or 5 shots, from where it stands; the burst joins the projectile loop, and the only move is the base update's step toward the target |
| Enemies.BossWithoutTargetStays | js/enemies.js:252-265 | without a target the boss neither moves nor fires; only its projectile loop runs |
| Enemies.BossStepKeepsCount | js/enemies.js:246-262 | the burst count stays in 0 to 2, and random numbers are drawn only when the timer reaches the cooldown: one, two from phase 3 |
| Enemies.Enemy.constructor | js/enemies.js:6-228 | a new enemy has its kind's size, health, speed and rewards, full health, no target and no projectiles; the boss starts in phase 1, chasing, with a 3000 ms attack cooldown |
| Enemies.Enemy.SetTarget | js/enemies.js:19-21 | the target is the player given |
| Enemies.Enemy.TakeDamage | js/enemies.js:54-63 | health drops by the damage; the call reports a kill exactly when health is at or below 0, and the enemy is then deactivated; an already dead enemy reports a kill again |
| Enemies.Enemy.MoveTowardTarget | js/enemies.js:38-52 | with a target, one step of length `speed` toward it; without one, no move |
| Enemies.Enemy.UpdateProjectiles | js/enemies.js:29-35 | the projectile list becomes `Survivors` of the old one |
| Enemies.Enemy.BaseUpdate | js/enemies.js:23-36 | a step toward the target if there is one, then the projectile list becomes `Survivors` of the old one; there is no `active` check |
| Enemies.Enemy.FireProjectile | js/enemies.js:305-316 | exactly one new projectile, as the shot describes, is appended |
| Enemies.Enemy.ShooterShoot | js/enemies.js:187-203 | with a target, one shot from the enemy's corner aimed at it, speed 5, damage 10, is appended; without one, nothing |
| Enemies.Enemy.ShooterUpdate | js/enemies.js:165-185 | an inactive shooter does nothing; otherwise the base update's step toward the target (none without one) and its projectile loop, then, from the moved position, a shot exactly when there is a target, the cooldown has run out and the target is closer than 300; the shot restarts the 2000 ms cooldown, and a running cooldown counts down in the same frame |
| Enemies.Enemy.AdvancePhase | js/enemies.js:233-243 | the phase becomes `NextPhase`, and speed and attack cooldown become `Tuning` of the old ones for that change: entering phase 2 sets speed 0.8, entering phase 3 sets speed 1.2 and a 2000 ms attack cooldown, and no change keeps both |
| Enemies.Enemy.PickAttackPattern | js/enemies.js:268-278 | one draw picks chase or shoot with even odds; from phase 3 a second draw chooses shoot with probability 0.7; the burst count restarts at 0 |
| Enemies.Enemy.ShootAtPlayer | js/enemies.js:280-303 | with a target, the `Burst` of the current phase aimed at it is appended; without one, nothing |
| Enemies.Enemy.RunAttackPattern | js/enemies.js:252-262 | the chase pattern takes one step of length `speed` toward the target (none without a target) and does not fire; the shoot pattern stays in place, fires the `Burst` of the phase at the target, and advances the count modulo 3, going back to chase exactly after the third burst; together, `Moves` becomes `AttackStep` of the old one |
| Enemies.Enemy.BossUpdate | js/enemies.js:230-266 | an inactive boss does nothing: its phase, position, projectiles, attack timer, pattern, burst count and draws (`Moves`) stay as they were; otherwise the phase becomes `NextPhase`, speed and attack cooldown follow `Tuning` for that phase change, and the position, projectiles, attack timer, pattern, burst count and draws (`Moves`) become `BossStep` of the old ones in the new phase, speed and cooldown: the timer counts up and, on reaching the cooldown, restarts with a picked pattern; then the chase step or burst; then the base update's second step toward the target and its projectile loop |
| Enemies.Enemy.TickAttack | js/enemies.js:246-250 | `Moves` becomes `Timed` of the old one: the timer counts up and, on reaching the cooldown, restarts at 0 with the pattern `PickedPattern` gives for the next one or two draws, the burst count reset |
| Enemies.Enemy.BossBase | js/enemies.js:264-265 | `Moves` becomes `Based` of the old one: a step toward a present target and the projectile loop |
| Enemies.Enemy.Update | js/enemies.js:23-266 | no kind's update changes health, the active flag or the target; basic, fast and tank enemies step toward the target (if any) and their list becomes `Survivors` of the old one; an active shooter steps toward the target in the same way and then fires exactly when a target is within 300 of its new position and the cooldown has run out, with the cooldown counting down; an inactive shooter keeps its position and projectiles, and an inactive boss its phase and all of `Moves`; an active boss moves to `NextPhase` and its `Moves` become `BossStep` of the old ones; only the boss draws random numbers; only the boss changes its phase, attack timer, pattern, burst count, speed or attack cooldown, its speed and cooldown following `Tuning` for its phase change; only the shooter changes its shot cooldown |
| Enemies.AvailableTypes | js/enemies.js:517-526 | the list of kinds on offer has between 1 and 4 entries |
| Enemies.AvailableTypesByDifficulty | js/enemies.js:517-526 | basic is always first, the boss never appears, and fast, shooter and tank are on offer exactly from difficulty 2, 3 and 4 |
| Enemies.EnemySpawner.constructor | js/enemies.js:405-414 | a new spawner is inactive at difficulty 1 with no enemies, no boss spawned and no spawn due |
| Enemies.EnemySpawner.SetDifficulty | js/levels.js:227 | the difficulty becomes the level's value, and the spawner stays valid |
| Enemies.EnemySpawner.StartSpawning | js/enemies.js:416-419 | spawning is on and the first spawn is due one delay (3000 ms) from now |
| Enemies.EnemySpawner.StopSpawning | js/enemies.js:421-423 | spawning is off |
| Enemies.EnemySpawner.ClearEnemies | js/enemies.js:425-430 | no enemies are left and a boss may spawn again |
| Enemies.EnemySpawner.GetAvailableEnemyTypes | js/enemies.js:517-526 | the list built by the pushes is `AvailableTypes` of the difficulty |
| Enemies.EnemySpawner.SpawnEnemy | js/enemies.js:473-515 | with no spawn areas nothing happens; otherwise exactly one fresh, active enemy is appended, in the area the first draw picks, at the position the next two draws give; it is the boss exactly when the boss is due, otherwise the available kind a fourth draw picks |
| Enemies.EnemySpawner.ChooseKind | js/enemies.js:487-512 | the kind is the boss exactly when difficulty is at least 4, no boss has spawned and fewer than 3 enemies are listed; the boss is then marked spawned and no draw is taken; otherwise one draw picks from `AvailableTypes` |
| Enemies.EnemySpawner.Push | js/enemies.js:514 | the enemy is appended and the spawner's invariant (no duplicates, at most `maxEnemies`, at most one boss) still holds |
| Enemies.EnemySpawner.Update | js/enemies.js:432-470 | the invariant holds afterwards; an old enemy stays listed exactly when it was alive, every listed enemy is old or new; `contact` holds exactly when a kept enemy touches the player; each kept enemy's projectiles become `Misses` of its entry in `shots`, so none still touches the player; the player's vitals are `StruckAll` of `shots` applied after the 10-point hit taken exactly on `contact`; the next spawn time moves only when a spawn was due, and then to at most one delay from now |
| Enemies.EnemySpawner.Advance | js/enemies.js:432-470 | `update` as the level sees it: the spawner stays valid and every listed enemy is old or new |
| Enemies.EnemySpawner.SpawnIfDue | js/enemies.js:464-470 | when spawning is on, due and there is room, one enemy spawns (if there are spawn areas) and the next spawn is due `3000 / sqrt(difficulty)` later, never more than 3000 ms; otherwise nothing changes |
| Enemies.EnemySpawner.UpdateEnemies | js/enemies.js:434-448 | an old enemy stays listed exactly when it was alive before its update, so only dead ones go; every kept enemy that touches the player has lost 10 health; the player takes one 10-point `Hurt` exactly when a kept enemy touches it; the list stays duplicate-free and valid |
| Enemies.EnemySpawner.UpdateOne | js/enemies.js:435-447 | the enemy targets the player and updates; it is kept exactly when it was alive; a kept enemy touching the player loses 10 health (dying at 0) and the player takes `Hurt` of 10; otherwise neither changes |
| Enemies.SweptAll | js/enemies.js:434-448 | the enemy loop, read off at its end: the kept list is duplicate-free and valid; enemy k is kept exactly when it was alive before its update, and one dropped is dead; each kept enemy lost 10 health exactly when it touches the player; the player took one 10-point `Hurt` exactly when a kept enemy touches it |
| Enemies.EnemySpawner.Sweep | js/enemies.js:434-448 | the backward loop over the enemies: the list it leaves is `Select` of the old one by the flags of which enemies are alive, and the loop's record `Swept` holds at index 0 |
| Enemies.EnemySpawner.Turn | js/enemies.js:435-447 | enemy i's turn in that loop: it is kept exactly when its flag says so, and the loop's record moves from i + 1 to i |
| Enemies.EnemySpawner.Clash | js/enemies.js:434-448 | the enemy loop as the spawner runs it: an old enemy stays exactly when it was alive, and only dead ones leave; `contact` holds exactly when a kept enemy touches the player, and the player takes one 10-point `Hurt` exactly then |
| Enemies.EnemySpawner.Engage | js/enemies.js:434-462 | the enemy loop, then the projectile pass: an old enemy stays exactly when it was alive; `contact` holds exactly when a kept enemy touches the player; each enemy's list becomes `Misses` of its entry in `shots`, none touches the player, and the player's vitals are `StruckAll` of `shots` after the 10-point hit taken exactly on `contact` |
| Enemies.EnemySpawner.Volleys | js/enemies.js:450-462 | the projectile pass: `shots` are the enemies' lists before it; each list becomes `Misses` of its entry, none touches the player, the player's vitals become `StruckAll` of `shots`, and `contact` keeps its meaning |
| Enemies.EnemySpawner.HitPlayer | js/enemies.js:450-462 | every enemy's projectile list becomes `Misses` of the old one against the player's box, so no remaining projectile touches the player, and the player's vitals become `StruckAll` of the old lists |
| Enemies.EnemySpawner.HitOnce | js/enemies.js:455-459 | reports a hit exactly when the projectile touches the box, and the player's vitals become `Touch` of the old ones: `Hurt` by the projectile's damage on a hit, unchanged on a miss |
| Enemies.EnemySpawner.ClearHits | js/enemies.js:453-460 | the enemy's list becomes `Misses` of the old one, and the player's vitals become `Struck` of the old list: each touching projectile, last first, applies its damage through `Hurt` |
| Levels.CeilHalf | js/levels.js:227 | `Math.ceil(id / 2)`: the least d with id <= 2·d |
| Levels.Splice | js/levels.js:352 | `list.splice(i, 1)` on a valid index removes exactly entry i: one entry shorter, the prefix kept, no entry added, every other entry kept; past the end it changes nothing |
| Levels.BlockCoinValue | js/levels.js:278 | `Math.floor(3 + random() * 5)` is a coin value from 3 to 7 |
| Levels.ClampInto | js/levels.js:322-323 | `Math.max(0, Math.min(v, hi))` is never negative, is at most hi when hi >= 0, leaves a value already in [0, hi] alone and sends a negative one to 0 |
| Levels.Level.Footprint | js/levels.js:169-206 | the objects a frame of a level may change: the level and its entities, spawner and enemies, and nothing of any other kind |
| Levels.Level.constructor | js/levels.js:169-206 | a new level carrying the factory's settings `s` (`Follows`): its id, theme, next level, bird and key targets, timed flag and clock limit, and the start position `s.start` or, when there is none, (50, height / 2); the layout's entities, 3 compounds to destroy, every counter at 0, the clock at its limit, no spawner and no coins |
| Levels.Level.Init | js/levels.js:208-235 | a fresh spawner over the level's spawn areas with room for 5 enemies, at difficulty ceil(id / 2), idle and empty |
| Levels.Level.StartLevel | js/levels.js:630-639 | spawning is on with the first spawn one delay from now, and a timed level's clock is back at its limit |
| Levels.Level.EndLevel | js/levels.js:641-646 | spawning is off, no enemy is left, and a boss may spawn again |
| Levels.Level.Update | js/levels.js:237-542 | one frame of the level, measured against the snapshot `f` taken as it began (`Start`): a timed level's clock runs down, and at 0 the player takes damage equal to its health and the frame ends with no exit; otherwise the result is the level's `nextLevelId` exactly when `Exits` holds for the snapshot `f` the frame began with: the theme does not hold the doors shut and the player touches a door that was unlocked when the frame began, or any door once this frame's hits brought the key or bird count up to its target, and none otherwise; the doors unlocked with E (`unlocked`) are exactly those that were locked at the start, were not opened by a target and are unlocked now, each touched with E held and no gate (`DoorsDone`); the counters never go down, no door locks again, no power-up or bird is added and no projectile comes back to life (`KeptFrom`); the level's settings are constants, and its spawner stays the same object |
| Levels.Level.Tick | js/levels.js:238-246 | the clock of a timed level runs down by the frame time; time is up exactly on a timed level at or below 0, and then the player loses all its health unless it is invulnerable; otherwise the player is untouched |
| Levels.Level.Begin | js/levels.js:237-246 | the clock step as the frame starts: `f` is the level's snapshot as the frame began; the clock leaves it kept, leaves every door as the snapshot has it (`Locked`) and unlocks none with E; the clock runs down by the frame time, time is up exactly on a timed level at or below 0, and then the player loses all its health unless it is invulnerable |
| Levels.Level.Play | js/levels.js:248-542 | the frame after the clock: the result is `nextLevelId` exactly when `Exits` holds for the snapshot `f` the frame began with: the theme does not hold the doors shut and the player touches a door that was unlocked when the frame began, or any door once this frame's hits brought the key or bird count up to its target, none otherwise; the doors unlocked with E (`unlocked`) are exactly those that were locked at the start, were not opened by a target and are unlocked now, each touched with E held and no gate (`DoorsDone`); `KeptFrom` the frame's start holds |
| Levels.Level.ExitOrFight | js/levels.js:443-541 | the doors, then, unless the player leaves, the enemies: the result is `nextLevelId` exactly when `Exits` holds for the frame's snapshot, none otherwise; the door books `DoorsDone` and `KeptFrom` hold |
| Levels.Level.TouchAndFight | js/levels.js:431-541 | coins, then doors, then the enemies unless the player leaves: the result is `nextLevelId` exactly when `Exits` holds for the frame's snapshot, none otherwise; the door books `DoorsDone` and `KeptFrom` hold |
| Levels.Level.HitStep | js/levels.js:248-429 | blocks, then trains on the train theme, then power-ups, then birds on the birds theme: `KeptFrom` the frame's start holds afterwards (counters only grow, doors only unlock, power-ups and birds are only removed, projectiles only die), and coins are old or new |
| Levels.Level.BlockHits | js/levels.js:248-291 | the block step inside a frame: `KeptFrom` the frame's start holds afterwards, and coins are old or new |
| Levels.Level.ThemeHits | js/levels.js:293-429 | the theme steps (trains, power-ups, birds) inside a frame: `KeptFrom` the frame's start holds afterwards |
| Levels.Level.TrainHits | js/levels.js:293-335 | the train step inside a frame: `KeptFrom` holds afterwards |
| Levels.Level.PowerUpHits | js/levels.js:337-386 | the power-up step inside a frame: `KeptFrom` holds afterwards |
| Levels.Level.BirdHits | js/levels.js:388-429 | the bird step inside a frame: `KeptFrom` holds afterwards |
| Levels.Level.FightStep | js/levels.js:504-538 | the spawner's update, then the kill pass: the level and player invariants hold afterwards and `Calm` is kept: `KeptFrom` the frame's start, no exit (`Exits` stays false) and the door books `DoorsDone` |
| Levels.Level.SpawnerPass | js/levels.js:505-507 | the spawner's update inside a frame: the invariants hold afterwards, `Calm` is kept: `KeptFrom` the frame's start, no exit (`Exits` stays false) and the door books `DoorsDone`, and every listed enemy is old or new |
| Levels.Level.KillPass | js/levels.js:509-537 | the kill step inside a frame: the invariants hold afterwards and `Calm` is kept: `KeptFrom` the frame's start, no exit (`Exits` stays false) and the door books `DoorsDone` |
| Levels.Level.BlockStep | js/levels.js:248-291 | afterwards no active projectile touches an active block, projectiles only die, and coins are old or new |
| Levels.Level.ShootBlock | js/levels.js:253-290 | for one block: afterwards, if the block is active, no active projectile touches it |
| Levels.Level.HitBlock | js/levels.js:256-289 | the block takes the damage and the projectile is spent; exactly when the block is destroyed the player scores its destruction score and a biochem block counts one compound; a coin of 3 to 7 drops at its centre exactly when it is destroyed and the draw is below 0.4; a surviving block takes no draw |
| Levels.Level.AddCoin | js/levels.js:279-283 | one new, uncollected coin of the given value at the given point is appended, taking two draws |
| Levels.Level.TrainStep | js/levels.js:293-335 | every train stays valid and projectiles only die; afterwards no active projectile touches any train; with no train running the player over (`ranOver` empty) the player is unchanged and no active train touches a live player; otherwise the player has taken the first such train's damage through `Hurt` (later hits do nothing while invulnerable) and is on the level |
| Levels.Level.ShieldTrain | js/levels.js:326-333 | a projectile is alive afterwards exactly when it was alive and does not touch the train |
| Levels.Level.TrainTurn | js/levels.js:294-334 | train k's turn in the train loop: the loop's record `Railed` (run-over books and shielded projectiles) moves from k to k + 1 |
| Levels.Level.TrainRun | js/levels.js:295-324 | the train moves and, if it touches the live player, runs it over: the run-over record `RanOver` moves from k to k + 1 and every train stays valid |
| Levels.Level.RunOver | js/levels.js:299-324 | the player's vitals become `Hurt` by the train's damage, and the player is thrown back 20 against the train's direction, or away from its centre on a custom path, clamped onto the level |
| Levels.Level.PowerUpStep | js/levels.js:337-386 | power-ups are only removed; on a theme that does not count keys the key counter stays; a door is unlocked afterwards exactly when it was unlocked before or a key counted in this step brought the count to the target (`LocksFrom`); projectiles only die; unless a key was counted on the train theme, no active projectile touches an old active power-up afterwards |
| Levels.Level.ShootPowerUp | js/levels.js:342-385 | the projectile loop for one power-up: `hits` are projectiles that were active and touch it, every projectile the loop spent is among them, and a breakable power-up loses exactly their total `Damage`; unless a key was counted on the train theme, afterwards an active power-up touches no active projectile; a door is unlocked afterwards exactly when it was before or a key counted here reached the target; counters and lists as in `PowerUpStep` |
| Levels.Level.PowerUpTurn | js/levels.js:344-384 | projectile j's turn in that loop: the loop's record `Shooting` moves from j + 1 to j, and the loop stops only after a key counted on the train theme |
| Levels.Level.HitPowerUp | js/levels.js:345-384 | the power-up takes the damage; exactly when destroyed its effect applies: "health" heals 20 + 5·level up to the maximum, "weapon" raises a weapon below 3 by one, "speed" adds 0.5 (`Applied`), "weapon" at level 3 scores 25, "score" scores 50·level and "key" gives a key; the player also scores the destruction score 5 and the power-up is spliced out; a power-up that survives changes nothing of the player; a key on the train or maze theme counts once and, at the target, unlocks every door; the loop stops exactly on a counted key on the train theme, and only then does the projectile stay alive |
| Levels.Level.CountKey | js/levels.js:356-378 | one more key counted; at the target every door is unlocked, below it no lock changes |
| Levels.Level.UnlockDoors | js/levels.js:362-364 | every door is unlocked |
| Levels.Level.BirdStep | js/levels.js:388-429 | birds are only removed; the freed count only grows; a door is unlocked afterwards exactly when it was unlocked before or a bird freed in this step brought the count to the target (`LocksFrom`); projectiles only die; afterwards no active projectile touches an old bird that is still caged |
| Levels.Level.ShootCage | js/levels.js:396-422 | the bird stays caged exactly when it was caged and no projectile active at the start touches it; every projectile touching the bird is spent; the freed count grows by at most one, and only when the bird was caged; a door is unlocked afterwards exactly when it was before or this bird brought the count to the target; projectiles only die |
| Levels.Level.BirdTurn | js/levels.js:391-427 | bird i's turn in the bird loop: it moves and, while caged, meets the projectiles; the loop's record `Caging` moves from i + 1 to i |
| Levels.Level.FreeBird | js/levels.js:400-420 | the bird is free afterwards; exactly when it was caged the freed count grows by one, the player scores the bird's value and gains 10 XP through the level-up loop; reaching the target unlocks every door, otherwise no lock changes |
| Levels.Level.CoinStep | js/levels.js:431-441 | the list becomes `Without` the coins `picked`; each old coin moves as `Fate` says and is picked exactly when it was uncollected and touches the player; the player's coins grow by exactly the `Worth` of the coins removed |
| Levels.Without | js/levels.js:431-441 | the coins left after the picked ones are spliced out, in order; never more than there were |
| Levels.WithoutStep | js/levels.js:431-441 | one step from the back: the list from i keeps coin i exactly when it was not picked, and its `Worth` is coin i's value plus that of the rest |
| Levels.WorthCons | js/levels.js:437-438 | the value of a list with one more coin in front is that coin's value plus the rest |
| Levels.WithoutSkips | js/levels.js:431-441 | picking a coin that is not in the list changes nothing |
| Levels.WithoutDistinct | js/levels.js:431-441 | removing coins from a list without repeats gives a list without repeats |
| Levels.WithoutSubset | js/levels.js:431-441 | every coin left was in the list and was not picked |
| Levels.Level.CoinLoopStep | js/levels.js:432-440 | one step of the backward coin loop: coin i is in place and occurs once; picking it, the splice leaves the tail from i as `Without` with it picked, and the value taken from the tail grows by exactly its value; not picking it, the tail is as `Without` says and the value taken is that of the tail past i |
| Levels.Level.CoinSpliceShape | js/levels.js:439 | splicing out the coin that stands between two runs leaves the two runs joined |
| Levels.Level.TouchCoin | js/levels.js:433-440 | one coin: it moves (unless collected), and is taken exactly when it was uncollected and touches the player; a taken coin is collected and its value is credited, otherwise the balance stays |
| Levels.Level.DoorStep | js/levels.js:443-502 | the player leaves exactly when, as the step began, an ungated, unlocked door touched it (`ExitOpen`), which is exactly `Exits` of the frame's snapshot; a door becomes unlocked exactly when it is in `unlocked`, each of which had E held, no gate and contact, and cost one key, and these are the doors `DoorsDone` names; every locked, touched, ungated door the loop reached with E held is unlocked unless the keys ran out; no door locks again |
| Levels.Level.DoorPass | js/levels.js:444-501 | the door loop against the locks, the box and the gate as the step began: the books (`DoorLedger`) are kept; it stops at door `reached` exactly when that door is ungated, touched and was unlocked; with no exit no such door exists; doors below `reached` are as they were |
| Levels.Level.DoorTurn | js/levels.js:444-501 | door i's turn in the door loop: the loop's record `Unlocking` (books kept, doors below i untouched, passed doors not open to the player) moves from i + 1 to i, and when the player leaves, door i is ungated, touched and was unlocked |
| Levels.Level.TouchDoorBooked | js/levels.js:444-502 | one door of the door step keeps the step's books (`DoorLedger`): the door joins the set of doors unlocked this frame only when it was unlocked now; the player leaves through it exactly when it is ungated, touched and was unlocked before |
| Levels.Level.TouchDoor | js/levels.js:450-501 | one door: the player leaves exactly when it touches the door, no gate holds and the door was unlocked; a key is used exactly when it touches a locked door with no gate, E held and a key in hand, and the door then unlocks; nothing else locks or unlocks it |
| Levels.Level.KillStep | js/levels.js:509-537 | the spawner stays valid, projectiles only die, and coins are old or new; afterwards no active projectile touches an enemy that was active when the pass began |
| Levels.Level.ShootEnemy | js/levels.js:512-536 | for one enemy: afterwards no active projectile touches it |
| Levels.Level.HitEnemy | js/levels.js:515-535 | the enemy takes the damage and the projectile is spent; exactly on a kill the player scores the enemy's value and gains its XP through the level-up loop, and a coin of the enemy's coin value drops at its corner exactly when the draw is below its drop chance; no kill, no draw |
| Levels.SettingsFor | js/levels.js:651-2070 | `getLevel`: ids 1 to 11 build that level, any other id builds level 1; only levels 5 and 11 have no next level, and every other level leads to the next id; only level 6 is timed |
| Levels.DoorsFromFirstLevelStopAtFive | js/levels.js:719-1406 | following the factory's next-level settings from level 1 visits levels 2, 3, 4 and 5 and then stops, so no chain of doors from level 1 leads to levels 6 to 11 |
| Levels.WalkStep | js/levels.js:2056-2070 | a walk of n + 1 doors is the walk of n doors followed by one more |
| Levels.CreateLevel | js/levels.js:651-2070 | a fresh, valid level that `Follows` `SettingsFor(levelId)`: its id, theme, next level, targets, timed flag, clock and start position; the layout's entities, no spawner and no coins |
| Shops.BandsMeetOnlyAtEdges | js/shop.js:48-51 | two different item bands are hovered together only on the edge that two neighbouring bands share, and there the scan picks the earlier item |
| Shops.Coordinate | js/shop.js:38-39 | `mouseX \|\| fallback`: a given coordinate is used unless it is 0, which falls back to the input's own position |
| Shops.ShopSystem.constructor | js/shop.js:6-17 | a closed shop for the player with nothing selected and the five items: health 30, damage 40, speed 35, key 50, weapon 75 |
| Shops.ShopSystem.Open | js/shop.js:19-21 | the shop is open |
| Shops.ShopSystem.Close | js/shop.js:23-26 | the shop is closed and nothing is selected |
| Shops.ShopSystem.PurchaseItem | js/shop.js:154-193 | a purchase succeeds exactly when the index is in the list, the player can afford the item and its action succeeds; then exactly the cost is taken and the item's effect applies; otherwise nothing changes |
| Shops.ShopSystem.RunAction | js/shop.js:195-222 | the item's action: +20 maximum health and health, +0.15 damage multiplier, nothing tracked for speed, +1 key, or +1 weapon level; only the weapon upgrade can fail, at level 5, and then changes nothing |
| Shops.ShopSystem.Update | js/shop.js:28-74 | a closed shop does nothing; Escape closes it with nothing bought; otherwise the selection is the first item whose band the mouse is over, none exactly when the mouse is over no band, and a click or held button buys the selected item exactly when it is affordable and its action succeeds; a purchase takes exactly the price and applies that item's effect (maximum health and health, damage multiplier, keys or weapon level), and without one the player is unchanged |
| Games.PauseToggled | js/game.js:537-541 | the pause flag flips exactly while in play, and the state never changes |
| Games.ShopOpened | js/game.js:543-548 | the screen changes exactly from an unpaused game in play, and then to the shop; the pause flag stays |
| Games.ShopClosed | js/game.js:550-555 | the screen changes exactly from the shop, and then to play; the pause flag stays |
| Games.PauseTwice | js/game.js:537-541 | toggling the pause twice is no change on every screen |
| Games.ShopRoundTrip | js/game.js:543-555 | opening the shop from an unpaused game and closing it again returns to the same screen; a paused game does not open it |
| Games.KeyPressed | js/game.js:80-96 | other keys change nothing; in the shop, Escape and 'b' both return to play with the pause flag kept; in play, Escape toggles the pause; on every other screen nothing changes |
| Games.Settled | js/game.js:232-262 | what a frame's outcome does to the screen: a dead player ends the game; otherwise a level result completes the level; with neither, a 'b' press opens the shop from an unpaused game; the pause flag is kept, and the game is never completed by a frame |
| Games.Clicked | js/game.js:400-450 | a held button on the menu starts play, a held button or a click on the level-complete screen returns to play, and every other screen ignores the mouse; the pause flag stays |
| Games.DoorThenClickResumesPlay | js/game.js:234-262 | a door taken in an unpaused game by a live player completes the level, even with 'b' pressed, and a click then returns the game to play |
| Games.RunLevel | js/game.js:232-234 | the level's frame as the game calls it: it changes only the level's objects, the player, its projectiles and the random source; the level and player stay valid; the result is the level's `nextLevelId` exactly when its time is not up and `Exits` holds for the snapshot `f` of the frame, none otherwise, and the door books `DoorsDone` hold (`LevelOutcome`); `f` has the open doors and the key and bird counts the level had before the frame (`SameStart`), and the level keeps its spawner |
| Games.BuildLevels | js/game.js:71-74 | exactly the ids 1 to 11 are built, each a fresh, valid level without a spawner, `BuiltFrom` its layout: it `Follows` the factory's settings for its id, its clock is full, it has no coins, and it holds the layout's entities |
| Games.Game.constructor | js/game.js:20-77 | the game is `Initial`: on the menu, unpaused; levels 1 to 11 each `BuiltFrom` their layout, with only level 1 given a spawner, which is empty at difficulty 1; level 1 is current; the player has the starting stats (`Starting`: health 100 of 100, weapon level 1, alive, no projectiles, score, coins or XP, level 1 with threshold 100) and stands at level 1's start (50, height / 2) |
| Games.Game.LoadFirstLevel | js/game.js:75-76 | the `loadLevel(1)` that ends `init`, with no level loaded yet: afterwards the game is `Initial`, level 1 having got its spawner and the player having moved to its start while its stats stay as they were |
| Games.Game.TogglePause | js/game.js:537-541 | the screen becomes `PauseToggled` of the old one |
| Games.Game.OpenShop | js/game.js:543-548 | the screen becomes `ShopOpened` of the old one, and the shop is opened exactly when the screen moved to it |
| Games.Game.CloseShop | js/game.js:550-555 | the screen becomes `ShopClosed` of the old one; leaving the shop closes it with nothing selected, and otherwise the shop is untouched |
| Games.Game.KeyDown | js/game.js:80-96 | the screen becomes `KeyPressed` of the old one and the key |
| Games.Game.GameOver | js/game.js:557-559 | the state is game over |
| Games.Game.CompleteLevel | js/game.js:561-564 | the state is level complete and the current id is the next level's |
| Games.Game.CompleteGame | js/game.js:566-568 | the state is game complete |
| Games.Game.Click | js/game.js:400-450 | the screen becomes `Clicked` of the old one; continuing from a completed level loads the recorded level and puts the player at its start, and nothing else reloads a level |
| Games.Game.LoadLevel | js/game.js:99-150 | the old level's spawner is stopped and emptied; the level with that id becomes current, or a fresh level 1 when there is none; it gets a fresh, empty spawner at difficulty ceil(id / 2); the player is at the level's start position |
| Games.Game.Leave | js/game.js:100-103 | the current level, if any, ends: its spawner is stopped and has no enemies |
| Games.Game.Enter | js/game.js:105-131 | the current id is the one given, the picked level is current and initialised with a fresh, empty spawner, and the player is at its start position with its stats (`Standing`) unchanged |
| Games.Game.Select | js/game.js:105-120 | the current id is the one given; the level with that id, or else a fresh level 1, is current and valid, with a fresh, empty spawner at difficulty ceil(id / 2) |
| Games.Game.Place | js/game.js:122-126 | the player stands at the current level's start position |
| Games.Game.PickLevel | js/game.js:109-115 | the level with that id, or a fresh level 1 with next level 2 when the id is missing |
| Games.Game.Update | js/game.js:212-263 | the screen becomes `Settled` of the old one, the frame's level result, whether the player is still alive and the 'b' press; with a current level, the result is the level's `nextLevelId` exactly when its time is not up and `Exits` holds for the snapshot `f` of the frame, none otherwise, and the door books `DoorsDone` hold (`LevelOutcome`), and `f` has the open doors and the key and bird counts the level had before the frame (`SameStart`), and the level keeps its spawner; without one there is no result; a result becomes the current id; the shop opens exactly when the screen moved to it |
| Games.Game.Frame | js/game.js:219-251 | the player, then the level, move; the game's own fields and the shop are untouched; with a current level, the result is the level's `nextLevelId` exactly when its time is not up and `Exits` holds for the snapshot `f` of the frame, none otherwise, and the door books `DoorsDone` hold (`LevelOutcome`), and `f` has the open doors and the key and bird counts the level had before the frame (`SameStart`), and the level keeps its spawner; without one there is no result |
| Games.Game.MovePlayer | js/game.js:220-229 | the player moves within the 0..width × 0..height canvas (when it fits); the game, the shop and the level's objects are untouched, and every projectile is old or new |
| Games.Game.PlayLevel | js/game.js:231-251 | the current level, if any, runs its frame: the result is the level's `nextLevelId` exactly when its time is not up and `Exits` holds for the snapshot `f` of the frame, none otherwise, and the door books `DoorsDone` hold (`LevelOutcome`), and `f` has the open doors and the key and bird counts the level had before the frame (`SameStart`), and the level keeps its spawner; without a level there is no result |
| Games.Game.Settle | js/game.js:236-262 | the screen becomes `Settled` of the frame's outcome, a result becomes the current id, and the shop opens exactly when the screen moved to it |

## Left out

- Drawing: every `draw`, `drawLevelUI`, the menu, game-over, level-complete and completion screens, `Sprite.init`, `createPixelArtTexture` and `showMessage`. They paint the canvas and change no game state. The mouse handling inside the menu and level-complete screens is kept as `Games.Clicked`.
- js/input.js is not part of this model. Key, mouse and touch listeners, click expiry and virtual buttons become one `Controls.Input` value per frame: the held keys, the mouse button, a click flag and the mouse position. `input.reset` is not modelled.
- `gameLoop` and `requestAnimationFrame`: the model has no frame scheduler. `Games.Game.Update` is one frame; the loop that calls `update` only while playing and unpaused, and `shop.update` while in the shop, is not modelled.
- The `setTimeout` in `loadLevel` that starts the level 2000 ms later is not modelled. `Levels.Level.StartLevel` exists, but `Games.Game.LoadLevel` does not call it.
- `localStorage`, the high score and the game's own `score` field are left out (browser storage).
- `resetGame` and the restart clicks of the game-over and game-complete screens are left out. They rebuild the whole game the way the constructor does.
- `console.log`, sounds (`window.playSound`) and messages are left out (output only).
- `Math.random` is a `Random` stream of given draws in [0, 1). `Math.cos`, `Math.sin`, `Math.atan2` and `Math.sqrt` are the given functions of a `Trig` value. `Date.now()` is a `now` parameter. Their real values are not modelled.
- The coordinate layouts inside `LevelFactory.createLevelN` are `Layout` parameters. The factory's theme, targets, timing and `nextLevelId` for each level are kept in `Levels.SettingsFor`.
- `DestructibleBlock` and `BouncingBlock` are never constructed by the game and are not modelled.
- Colours, textures, animation timers and wheels, a train's `trainType`, a power-up's `hoverOffset` and a bird's wing animation are left out, as drawing state.
- Sprite inheritance is flattened: each class holds its own position and size, and each tests collisions with `Utils.CheckCollision` on its own bounds.
- The `levelTheme` strings are the `Levels.Theme` enumeration.
- The shop's `resetMouse` after a purchase only clears input state, which the model does not keep between frames.
- `Paused` is a declared game state that the source never enters. It is in `Games.GameState` but no transition reaches it.
- `Shops.ShopSystem.PurchaseItem`: the source returns `undefined` for an index out of range. The model returns false, and nothing changes in either case.
- `Shops.ShopSystem.RunAction`: `purchaseSpeedBoost` adds to `speedMultiplier`, which is never initialised and never read. The model tracks no effect for it.
- `Enemies.EnemySpawner.Update` requires that the square root of the difficulty is at least 1, as it is for every difficulty the game builds (1 to 6). Below that, the spawn delay would grow instead of shrink.
- `Enemies.EnemySpawner.SpawnEnemy` requires room below `maxEnemies`, which its only caller checks first.
- `Levels.Level.Init` requires an id of at least 1, as every level the game builds has.
- `Games.Game.Click` requires the recorded level to be valid, as every level built by the constructor is.
- `Levels.Level.Update` and its step methods state the invariants, the counters, the exit (both ways, as `Exits` of the frame's snapshot) and the door books of a frame, not every object's new position.
- `Enemies.EnemySpawner.Update` states which enemies stay, what `contact` means, the enemy projectile lists, the player's damage, the spawning guard, the count bound and the timing. It does not state each enemy's new position or the enemy a spawn adds, which `SpawnEnemy` states. Its `shots` are the kept enemies' lists after their own update; the contract does not relate them to the lists before the frame, which each enemy's `Enemies.Enemy.Update` states.
- `Enemies.EnemySpawner.Engage`: as for `Update`, its `shots` are not related to the enemies' lists before the frame.
- `Games.Game.Update` and `Games.Game.Frame` state the screen transition and the level result, not the new state of the player and the level objects.
- Play: states the exit both ways (`Exits`), the door books and `KeptFrom`. The per-pass facts (coin credit, hits on trains, power-ups, birds and enemies) are stated on `CoinStep`, `TrainStep`, `PowerUpStep`, `BirdStep` and `KillStep` and are not restated here.
- TouchAndFight: states the exit both ways (`Exits`), the door books and `KeptFrom`. The per-pass facts (coin credit, hits on trains, power-ups, birds and enemies) are stated on `CoinStep`, `TrainStep`, `PowerUpStep`, `BirdStep` and `KillStep` and are not restated here.
- ExitOrFight: states the exit both ways (`Exits`), the door books and `KeptFrom`. The per-pass facts (coin credit, hits on trains, power-ups, birds and enemies) are stated on `CoinStep`, `TrainStep`, `PowerUpStep`, `BirdStep` and `KillStep` and are not restated here.
- HitStep: states `KeptFrom` (and, where coins can drop, that coins are old or new). What the pass does to its targets is stated on `BlockStep`, `TrainStep`, `PowerUpStep` and `BirdStep` and is not restated here.
- BlockHits: states `KeptFrom` (and, where coins can drop, that coins are old or new). What the pass does to its targets is stated on `BlockStep`, `TrainStep`, `PowerUpStep` and `BirdStep` and is not restated here.
- ThemeHits: states `KeptFrom` (and, where coins can drop, that coins are old or new). What the pass does to its targets is stated on `BlockStep`, `TrainStep`, `PowerUpStep` and `BirdStep` and is not restated here.
- TrainHits: states `KeptFrom` (and, where coins can drop, that coins are old or new). What the pass does to its targets is stated on `BlockStep`, `TrainStep`, `PowerUpStep` and `BirdStep` and is not restated here.
- PowerUpHits: states `KeptFrom` (and, where coins can drop, that coins are old or new). What the pass does to its targets is stated on `BlockStep`, `TrainStep`, `PowerUpStep` and `BirdStep` and is not restated here.
- BirdHits: states `KeptFrom` (and, where coins can drop, that coins are old or new). What the pass does to its targets is stated on `BlockStep`, `TrainStep`, `PowerUpStep` and `BirdStep` and is not restated here.
- FightStep: states the invariants and `Calm` (`KeptFrom`, no exit, the door books). The spawner's effects are stated on `EnemySpawner.Update` and the kills on `KillStep`, and are not restated here.
- KillPass: states the invariants and `Calm` (`KeptFrom`, no exit, the door books). The spawner's effects are stated on `EnemySpawner.Update` and the kills on `KillStep`, and are not restated here.
- SpawnerPass: states the invariants, `Calm` and that enemies are old or new. The spawner's effects are stated on `EnemySpawner.Update` and are not restated here.
- `Enemies.EnemySpawner.Advance`: states that the spawner stays valid and that enemies are old or new. The rest of `update` is stated on `EnemySpawner.Update` and is not restated here.
- RunLevel: states the level result both ways and the door books (`LevelOutcome`). The level's own effects are stated on `Levels.Level.Update` and its steps and are not restated here.
- PlayLevel: states the level result both ways and the door books (`LevelOutcome`). The level's own effects are stated on `Levels.Level.Update` and its steps and are not restated here.
- TrainStep: states the first run-over and that later contacts in the same frame do nothing. It does not name the trains that touched the player, since whether a later train touches depends on where the earlier ones threw it. It also does not restate the clamped knock-back position, which `RunOver` states.
- PowerUpStep: the no-touch guarantee is stated only when no key was counted on the train theme, because on that theme a counted key ends the projectile loop early (see above). The damage each power-up took is stated per power-up on `ShootPowerUp` and is not summed over the list.
- BirdStep: states that no live projectile touches a caged bird afterwards. It does not state that every bird freed this frame was touched by a projectile: the level's invariant does not record that its bird list holds each bird once (the factory builds each bird fresh), and without that the loop cannot tell a bird's own turn from another entry's.
- KillStep: states that no live projectile touches an enemy that was active when the pass began. The damage, score, XP and coin of each hit are stated per hit on `HitEnemy`.
- BlockStep: states that afterwards no live projectile touches an active block, that projectiles only die and that coins are old or new. The damage, score, compound count and coin of each hit are stated per hit on `HitBlock` and are not summed over the blocks or the projectiles.
- ShootBlock: states, for one block, that afterwards no live projectile touches it while it is active, that projectiles only die and that coins are old or new. The effects of each hit are stated per hit on `HitBlock` and are not summed over the projectiles.
- ShootEnemy: states, for one enemy, that afterwards no live projectile touches it, that projectiles only die and that coins are old or new. The damage, score, XP and coin of each hit are stated per hit on `HitEnemy` and are not summed over the projectiles.
- Levels.Level.constructor: the source constructor sets defaults (standard theme, no next level, targets of 5 birds and 3 keys, untimed with a 60 s limit, start at (50, height / 2)) that the factory then overwrites. The model hands the factory's settings to the constructor, so the settings are constants. A level that keeps only the constructor's defaults never occurs in the game and is not modelled.
- Levels.Level.HitStep: that a player projectile damages at most one target per frame is not stated as one clause over the frame. It holds hit by hit: every hit needs an active projectile, and `HitBlock`, `ShieldTrain`, `ShootCage` and `HitEnemy` state that the projectile is spent. The source breaks it on one path, which `HitPowerUp` states (`p.active <==> stop && old(p.active)`): on the train theme a counted key leaves the loop (js/levels.js:366) before the projectile is spent (js/levels.js:383). That projectile stays active, so in the same frame it can destroy the next power-ups in the list or hit an enemy in the kill pass.
