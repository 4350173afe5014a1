# Space Rogue gameplay core in Dafny

This project models the gameplay rules of `milk.py`, a pygame arcade shooter. Every frame
the game session spawns enemies on a level-dependent cadence and checks the score against
the next wave threshold. It then moves every sprite and moves and fires the player's ship.
Collisions come next: player bullets against enemies, then enemy bullets, enemies and
power-up pickups against the ship. Last, it ends the game once the player has run out of
lives.

The model follows the source's own split between state that changes in place and values:

- `Players.Player`, `Enemies.Enemy` and `Session.Game` are classes with the fields of the
  source's classes. Their methods update those fields in place. `Enemy` keeps the level it
  was created at where the source keeps `base_speed = 2 + 0.1 * level`, and the player's
  constant `speed` and `max_health` are the constants `PLAYER_SPEED` and `PLAYER_MAX_HEALTH`.
- Each class has a `State()` value (`PlayerState`, `EnemyState`, `GameState`). Every
  method's postcondition says that the new state is a specification function of the old
  state: `Hurt`, `Collected`, `Advanced`, `Fired`, `Stepped`, `Damaged`, `WithSpawn`,
  `LeveledUp`, `Moved`, `Collided` and `Tick`.
- The source's promises are proved about those functions, as postconditions and lemmas.
- Bullets and pickups are value records, because their only state is a rect moved by a
  constant step. The groups are sequences kept in pygame's group order.
- The loops of the source are methods with loop invariants:
  - the sprite loop over the enemies, `StepEnemies`;
  - the enemy loop of phase 1 of the collisions, `HitAll`;
  - the pickup loop, `Game.CollectPickups`;
  - the spread volley, `Player.Shoot`.

  Each is proved equal to its specification function.

Modules:

| module | contents |
|---|---|
| `Config` | the constants |
| `Helpers` | `clamp`, filter and map |
| `Geometry` | integer rects |
| `Projectiles` | the bullets and pickups |
| `Players` | the ship |
| `Enemies` | the enemies |
| `Collisions` | the four phases of `handle_collisions`, as values |
| `Session` | the game session |

What comes from outside the program is a parameter:

- the time `now`;
- the held keys, as `Keys`;
- the random draws: the enemy type and position as `SpawnChoice`, and the power-up drop per dying enemy as `Roll`;
- the float motion of enemies and of deflected player bullets, as `Motion` and `Drift`;
- pygame's rect-overlap test, as `Overlap`.

## Model

| member | source | states |
|---|---|---|
| Helpers.Clamp | milk.py:52-53 | the result lies in [lo, hi], equals v inside the range, and is the nearer bound outside it |
| Geometry.Centered | milk.py:176 | a w x h rect whose center is exactly (cx, cy) |
| Projectiles.NewPlayerBullet | milk.py:157 | a 4 x 12 bullet whose bottom-center is the muzzle point |
| Projectiles.Flown | milk.py:162-164 | a straight bullet rises exactly 10 pixels and keeps its column; every bullet keeps its size and aim |
| Projectiles.Fly | milk.py:162-166 | no more bullets than before; every bullet kept still reaches the screen; every moved bullet that still reaches the screen is kept |
| Projectiles.FlyFrom | milk.py:162-166 | every bullet after the update is one of the bullets before it, moved |
| Projectiles.NewEnemyBullet | milk.py:221 | a 4 x 10 bullet whose top-center is the muzzle point |
| Projectiles.Fallen | milk.py:224-225 | an enemy bullet falls exactly 6 pixels |
| Projectiles.Descend | milk.py:224-227 | enemy bullets kept are exactly the fallen ones whose top is not below the screen |
| Projectiles.DescendFrom | milk.py:224-227 | every enemy bullet left is one of the old ones, 6 pixels lower |
| Projectiles.NewPickup | milk.py:231-236 | a 20 x 20 pickup of the given type centered at the given point |
| Projectiles.Dropped | milk.py:239-240 | a pickup falls exactly 2 pixels and keeps its type |
| Projectiles.Sink | milk.py:239-242 | pickups kept are exactly the fallen ones whose top is not below the screen |
| Projectiles.SinkFrom | milk.py:239-242 | every pickup left is one of the old ones, 2 pixels lower |
| Players.SpawnBox | milk.py:64 | the ship's 40 x 40 rect centered at (480, 470), inside the play area |
| Players.InitialPlayer | milk.py:59-77 | a new ship is at the spawn point with health 100, 3 lives, last shot at 0, no power-up with end time 0, not invincible with end time 0; it is on screen and alive |
| Players.Dx | milk.py:80-84 | opposite horizontal keys cancel; one key alone moves exactly 5 pixels that way |
| Players.Dy | milk.py:85-88 | opposite vertical keys cancel; one key alone moves exactly 5 pixels that way |
| Players.Advanced | milk.py:79-101 | the ship ends inside the play area; on each axis it moves by the key step unless that would leave the area, in which case it stops at the edge; the power-up and invincibility end only when now is strictly past their end times, the power-up type clearing with them; nothing else changes |
| Players.Cooldown | milk.py:110 | 250 ms, or 250 // 1.5 = 166 ms with the rapid power-up |
| Players.Volley | milk.py:115-124 | exactly three bullets aimed -10, 0 and +10 degrees with spread, otherwise one straight bullet, all at the ship's nose |
| Players.Fired | milk.py:109-124 | before the cooldown has passed, a shot changes nothing and fires nothing; otherwise it stamps the time once and fires one volley |
| Players.CooldownAfterShot | milk.py:109-113 | after a shot, every try within the cooldown window fires nothing |
| Players.Respawned | milk.py:130-135 | one life fewer, full health, invincible for 2000 ms, back at the spawn point, weapon power-up untouched |
| Players.Hurt | milk.py:126-135 | no change while invincible; otherwise health drops by the amount, and exactly when that empties it the ship loses one life and respawns; health stays in 1..100 for positive amounts and the ship stays on screen |
| Players.GraceAfterRespawn | milk.py:126-135 | after losing a life, damage is ignored for the next 2000 ms, including after a movement update in between |
| Players.PlayerState.IsDead | milk.py:148-149 | the ship is dead exactly when lives < 0, so it survives at 0 lives; `LastLife` shows the only hit that kills is one taken at 0 lives, and `Tick` ends the game exactly when the ship is dead |
| Players.LastLife | milk.py:148-149 | the hit that kills the player is taken at 0 lives, not invincible, and empties its health |
| Players.TwoVolleys | milk.py:126-135 | at 20 health two enemy volleys in different ticks leave 5 health, then cost a life: 2 lives, 100 health, invincible until 2000 ms later, back at (480, 470) |
| Players.Collected | milk.py:137-146 | heal adds 40 health up to 100 and nothing else; shield makes the ship invincible until now + 6000; any other type replaces the weapon power-up until now + 6000; lives and position never change |
| Players.Player.constructor | milk.py:59-77 | the fields of a new ship |
| Players.Player.Update | milk.py:79-101 | the fields become Advanced of the old ones |
| Players.Player.Shoot | milk.py:109-124 | the fields and the bullets fired are those of Fired |
| Players.Player.TakeDamage | milk.py:126-135 | the fields become Hurt of the old ones |
| Players.Player.ApplyPowerup | milk.py:137-146 | the fields become Collected of the old ones |
| Enemies.Spawned | milk.py:170-182 | a chaser is 30 x 30 with 30 + 5 level health and worth 20; the others are 35 x 35 with 40 + 7 level health and worth 35; centered where asked; it keeps its level (the source keeps base_speed = 2 + 0.1 level); timer 0, heading right |
| Enemies.Damaged | milk.py:211-213 | health drops by exactly the amount; the answer is true exactly when the health reached zero or below |
| Enemies.DamageAccumulates | milk.py:211-213 | two hits leave the same enemy and verdict as one hit of their sum |
| Enemies.KillThreshold | milk.py:211-213 | n player bullets kill an enemy exactly when n reaches ceil(health / 20) |
| Enemies.FirstLevelChaser | milk.py:179 | a level-1 chaser (35 health) takes two bullets to kill |
| Enemies.ShooterHeading | milk.py:194 | the shooter's heading is +1 or -1 |
| Enemies.HeadingFlips | milk.py:194 | the shooter's heading reverses every 700 ms |
| Enemies.HeadingSteady | milk.py:194 | within each window [700 k, 700 k + 700) the heading is right for even k and left for odd k |
| Enemies.Heading | milk.py:192-206 | a shooter follows the time rule, a zigzag its own direction, a chaser none |
| Enemies.Stepped | milk.py:184-209 | the enemy moves where its motion puts it; it fires, and stamps its timer, exactly when it is a shooter and strictly more than 1800 ms have passed; the bullet starts at its bottom-center; a zigzag at a wall reverses; it escapes exactly when its top is below the screen; type, level, size and score never change |
| Enemies.ShotSpacing | milk.py:196-197 | a shooter never fires twice within 1800 ms |
| Enemies.Enemy.constructor | milk.py:170-182 | the fields of a new enemy are those of Spawned |
| Enemies.Enemy.Damage | milk.py:211-213 | the fields and the answer are those of Damaged |
| Enemies.Enemy.Update | milk.py:184-209 | the fields, the bullet fired and the escape are those of Stepped |
| Collisions.Loot | milk.py:302-307 | a pickup drops exactly when the roll gives a type: one pickup of that type at the dead enemy's center, and none when the roll gives nothing |
| Collisions.Resolve | milk.py:344-349 | an enemy takes all n remaining bullets that overlap it, and they are removed; when they destroy it, its score is added once, it joins the destroyed and rolls for a drop; otherwise it stays, 20 n health lower |
| Collisions.BulletPass | milk.py:343-349 | every enemy either stays or is destroyed; at most one drop per destroyed enemy; every bullet is either left or spent |
| Collisions.TwoBulletKill | milk.py:343-349 | an enemy with 30 health hit by two bullets in one tick is destroyed, both bullets are spent, its score is added once and one drop roll is made |
| Collisions.PassGain | milk.py:344-346 | the score gained is exactly the sum of the score values of the destroyed enemies, each counted once |
| Collisions.PassBullets | milk.py:343 | the bullets left are those that each enemy in turn did not take |
| Collisions.PassKeepsOnlyUnhit | milk.py:343 | every bullet left is an original bullet that overlaps no enemy |
| Collisions.PassKeepsAllUnhit | milk.py:343 | every original bullet that overlaps no enemy is left |
| Collisions.PassKilledSpent | milk.py:345-348 | every destroyed enemy has no health left |
| Collisions.Stayed | milk.py:345 | an enemy that stays is untouched or has health left |
| Collisions.PassSurvivorsAlive | milk.py:343-348 | every enemy left in the group is an untouched original or still has health |
| Collisions.PassSurvivorsFit | milk.py:343-348 | enemies with health and their type's size and score keep both after phase 1 |
| Collisions.PassKilledWellFormed | milk.py:343-348 | destroyed enemies keep their type's size and score |
| Collisions.BountyFloor | milk.py:180 | every destroyed enemy is worth at least 20 |
| Collisions.Struck | milk.py:351-352 | any number of overlapping enemy bullets cost the ship a single 15-damage hit; exactly the overlapping bullets are removed |
| Collisions.Rammed | milk.py:354-355 | any number of overlapping enemies cost the ship a single 35-damage hit, without score; exactly the overlapping enemies are removed |
| Collisions.RammedFit | milk.py:354-355 | ramming keeps a group of well-formed enemies with health left that way |
| Collisions.ApplyAll | milk.py:357-358 | applying pickups never changes lives, position or the last-shot time, and keeps health in range |
| Collisions.ShieldHolds | milk.py:357-358 | a shield among the pickups leaves the ship invincible until now + 6000 |
| Collisions.Collect | milk.py:357-358 | exactly the overlapping pickups are removed, and all of them are applied in group order |
| Session.ThresholdClosedForm | milk.py:319-321 | the threshold at level L is 75 L^2 + 325 L - 200 |
| Session.Initial | milk.py:267-288 | a new session: score 0, level 1, threshold 200, no spawn yet, a new ship with 3 lives, empty groups, not paused or over, and consistent |
| Session.Toggled | milk.py:411-412 | the pause key flips the pause flag unless the game is over; nothing else changes |
| Session.SpawnInterval | milk.py:316 | max(450, 1200 - 40 level): never below 450, and exactly 450 from level 19 on |
| Session.SpawnIntervalShrinks | milk.py:316 | a higher level never spawns more slowly |
| Session.WithSpawn | milk.py:293-300 | one new enemy of the current level joins the end of the group and the spawn time is stamped; nothing else changes |
| Session.LeveledUp | milk.py:319-321 | once the score reaches the threshold the level rises by exactly one and the threshold by 250 + 150 times the new level; otherwise nothing changes |
| Session.StepAll | milk.py:324-327 | no enemy is added, at most one shot per enemy, no enemy kept has its top below the screen, and fit enemies stay fit |
| Session.KeepsStayers | milk.py:324-327 | every enemy that the loop updates and whose top is not below the screen is kept, as its updated value |
| Session.KeptStayers | milk.py:324-327 | every enemy kept is the updated value of an enemy whose top is not below the screen |
| Session.ShotsOfDue | milk.py:324-327 | every shooter due to fire has its bullet among the enemy bullets fired |
| Session.ShotsFromDue | milk.py:324-327 | every enemy bullet fired is the bullet of a shooter that was due to fire |
| Session.ShooterSwings | milk.py:192-194 | when the motion steers by the heading, a shooter moves right while now // 700 is even, left while it is odd, and always down |
| Session.ZigzagSwings | milk.py:202-206 | when the motion steers by the heading, a zigzag moves the way its direction points and down, and after touching a wall its next step goes the other way |
| Session.Moved | milk.py:323-329 | the sprite loop changes only the enemies, the bullets and the pickups |
| Session.MovedFit | milk.py:323-329 | the sprite loop never adds enemies, adds at most one enemy bullet per enemy and keeps the group fit |
| Session.Piloted | milk.py:331-335 | the ship moves by the keys and, with fire held, its volley joins the end of the bullets; lives are unchanged and the ship stays on screen |
| Session.ShipCollisions | milk.py:351-358 | phases 2 to 4 cost the ship at most one life and never add to a group |
| Session.EnemiesHit | milk.py:343-349 | phase 1 changes only the enemies, the player bullets, the pickups and the score, and adds at most one pickup per destroyed enemy |
| Session.EnemiesHitFit | milk.py:343-349 | phase 1 keeps the enemy group fit and never lowers the score |
| Session.Collided | milk.py:342-358 | a tick's collisions change only the groups, the ship and the score, cost at most one life, keep the ship healthy and on screen, never add enemies, and, for a fit group, keep it fit and never lower the score |
| Session.CollidedScore | milk.py:343-349 | the score rises by exactly the score values of the enemies that player bullets destroyed |
| Session.Tick | milk.py:309-340 | nothing while paused or over; otherwise the spawn time is stamped exactly when a spawn is due, the level and threshold follow the level-up rule, the game is over exactly when the player is dead, and at most one life is lost |
| Session.TickKeepsConsistent | milk.py:309-340 | every tick keeps the session consistent |
| Session.TickProgress | milk.py:319-321 | the level never goes down, the threshold never shrinks, and a level-up always raises the threshold |
| Session.StepEnemies | milk.py:324-327 | the loop over the enemy group gives exactly StepAll's enemies and shots |
| Session.MoveAll | milk.py:323-329 | the sprite loop gives exactly Moved |
| Session.HitAll | milk.py:343-349 | the loop over the hit enemies gives exactly the bullet pass |
| Session.ResolveHits | milk.py:343-349 | phase 1 on the session gives exactly EnemiesHit |
| Session.Game.constructor | milk.py:267-288 | a new session is Initial |
| Session.Game.Reset | milk.py:290-291 | after a reset the session is Initial, with a new ship |
| Session.Game.TogglePause | milk.py:411-412 | the session becomes Toggled |
| Session.Game.SpawnEnemy | milk.py:293-300 | the session becomes WithSpawn |
| Session.Game.UpdateSprites | milk.py:323-329 | the session becomes Moved |
| Session.Game.HitEnemies | milk.py:343-349 | the session becomes EnemiesHit |
| Session.Game.HitShip | milk.py:351-352 | the ship and the enemy bullets become Struck; nothing else changes |
| Session.Game.RamShip | milk.py:354-355 | the ship and the enemies become Rammed; nothing else changes |
| Session.Game.CollectPickups | milk.py:357-358 | the ship and the pickups become Collect; nothing else changes |
| Session.Game.HandleCollisions | milk.py:342-358 | the session becomes Collided |
| Session.Game.SpawnAndLevel | milk.py:316-321 | the session gets a spawn when one is due, then the level-up check |
| Session.Game.Pilot | milk.py:331-335 | the session becomes Piloted |
| Session.Game.Update | milk.py:309-340 | the session becomes Tick of the old session |
| Session.Game.EndIfDead | milk.py:339-340 | the game becomes over exactly when the player is dead |

Notes on the code's behaviour, which the model follows:

- Several enemy bullets touching the ship in one tick cost a single 15-damage hit (milk.py:351-352), not one hit per bullet. Ramming enemies work the same way, with 35.
- The rapid cooldown is `250 // 1.5`, which is 166.0 (milk.py:110), not 250 / 1.5. With integer times the test `now - last_shot < 166.0` is the same as with 166.
- Heal uses `clamp(health + 40, 0, max_health)` (milk.py:139). For a ship with health in range this is `min(health + 40, 100)`.
- Expiry tests are strict (`now > end`, milk.py:96-101). So are the spawn test (milk.py:316) and the shooter's fire test (milk.py:196). The fire cooldown test is not strict (milk.py:110).
- At most one level is gained per tick, however far the score is past the threshold (milk.py:319-321).
- Pickups dropped in phase 1 can be collected in phase 4 of the same tick.
- Bullets fired during the sprite loop do not move until the next tick, because the loop goes over a copy of the group.

## Left out

- Rendering, the HUD, the pause and game-over screens, fonts, and the ship's image tint (milk.py:103-107, 360-394): presentation only.
- The main loop, the `running` flag, quitting, and the frame clock (milk.py:399-425). The pause key and the reset are modelled as `Game.TogglePause` and `Game.Reset`. The main loop's guard that resets only once the game is over is not modelled.
- `update`'s `dt` argument is unused in the source and is not modelled.
- The `Star` background sprites (milk.py:245-261): random and purely visual.
- The float motion:
  - the chaser's pursuit with `math.hypot`;
  - the speed `base_speed = 2 + 0.1 * level` with the 0.6, 0.85 and 1.5 multipliers;
  - the deflected player bullets' sine and cosine velocity;
  - pygame's conversion to integer rects.

  These are the parameters `Motion` and `Drift`. `Motion` sees the enemy's whole state, its level included, so it can move enemies of different levels differently. The predicate `Steers` states what the source's motion guarantees of shooters and zigzags: the horizontal step has the sign of the heading and the vertical step goes down. `ShooterSwings` and `ZigzagSwings` assume it. The model proves nothing about where a chaser goes, nor about step sizes.
- Randomness is not modelled:
  - the weighted type choice and the spawn position ranges (milk.py:294-296) become an arbitrary `SpawnChoice`;
  - the 12 % drop chance and the uniform pickup type (milk.py:303-304) become an arbitrary `Roll`.
- pygame's `colliderect`, `groupcollide` and `spritecollide` internals are not modelled. Overlap is the parameter `Overlap`. Groups are taken to iterate in insertion order.
- The game holds each enemy by value, not as a shared sprite object. The model therefore does not capture aliasing of enemy sprites between `all_sprites` and `enemies`. `Enemy.Update` and `Enemy.Damage` are proved on the class, and the session applies their specifications `Stepped` and `Damaged` to its values.
- Session.Moved: its postcondition states only which fields change. What the sprite loop computes is stated by `MoveAll`, `KeepsStayers`, `KeptStayers`, `ShotsOfDue`, `ShotsFromDue`, `Fly`, `Descend` and `Sink`.
- Session.EnemiesHit: its postcondition states only which fields change and the bound on drops. The score and bullets are stated by `CollidedScore`, `PassGain` and `PassBullets`.
