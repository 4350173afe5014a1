/**
 * The game session (milk.py, class Game): the pause and game-over gate, the enemy-spawn
 * cadence, level-ups against a growing score threshold, one tick of every sprite, the
 * collision consequences and game-over detection.
 *
 * GameState is the value of the session's fields; Tick gives the state after one call of
 * Game.update, and class Game below updates its fields in place exactly as Tick says.
 */
module Session {
  import opened Config
  import opened Helpers
  import opened Geometry
  import opened Projectiles
  import opened Players
  import opened Enemies
  import opened Collisions

  /** The session's fields; each group is a sequence in pygame's group order. */
  datatype GameState = GameState(
    paused: bool, gameOver: bool,
    player: PlayerState,
    enemies: seq<EnemyState>,
    playerBullets: seq<PlayerBullet>,
    enemyBullets: seq<EnemyBullet>,
    powerups: seq<Pickup>,
    score: int, level: int, lastEnemySpawn: int, nextWaveThreshold: int)

  /** The score at which the given level ends: 200 for level 1, then 250 + 150 * (level) more per level. */
  function Threshold(level: int): int
    decreases level
  {
    if level <= 1 then FIRST_WAVE_THRESHOLD
    else Threshold(level - 1) + WAVE_THRESHOLD_BASE + WAVE_THRESHOLD_STEP * level
  }

  /** The threshold in closed form: 75 level^2 + 325 level - 200. */
  lemma {:induction false} ThresholdClosedForm(level: int)
    requires level >= 1
    ensures 2 * Threshold(level) == 150 * level * level + 650 * level - 400
    decreases level
  {
    if level > 1 {
      ThresholdClosedForm(level - 1);
    }
  }

  /**
   * What holds of the session between ticks: the ship is healthy and on screen, the level
   * is at least 1 and its threshold is the one the level-ups so far have built, the score
   * is not negative, the game is over exactly when the player is dead, and every enemy is
   * well formed with health left.
   */
  ghost predicate Consistent(g: GameState) {
    && g.player.Healthy() && g.player.InBounds()
    && g.level >= 1 && g.nextWaveThreshold == Threshold(g.level)
    && g.score >= 0
    && (g.gameOver <==> g.player.IsDead())
    && Fit(g.enemies)
  }

  /** Game.__init__ (and so Game.reset): score 0, level 1, threshold 200, empty groups, a new ship. */
  function Initial(): (g: GameState)
    ensures Consistent(g)
    ensures !g.paused && !g.gameOver
    ensures g.score == 0 && g.level == 1 && g.lastEnemySpawn == 0 && g.nextWaveThreshold == 200
    ensures g.player == InitialPlayer() && g.player.lives == 3
    ensures g.enemies == [] && g.playerBullets == [] && g.enemyBullets == [] && g.powerups == []
  {
    GameState(false, false, InitialPlayer(), [], [], [], [], 0, 1, 0, FIRST_WAVE_THRESHOLD)
  }

  /** The pause key: it flips the pause flag, except once the game is over. */
  function Toggled(g: GameState): (r: GameState)
    ensures g.gameOver ==> r == g
    ensures !g.gameOver ==> r.paused == !g.paused
    ensures r == g.(paused := r.paused)
    ensures Consistent(g) ==> Consistent(r)
  {
    if g.gameOver then g else g.(paused := !g.paused)
  }

  /** Milliseconds between spawns at a level: 1200 - 40 level, but never below 450. */
  function SpawnInterval(level: int): (ms: int)
    ensures ms >= MIN_SPAWN_INTERVAL
    ensures level >= 19 ==> ms == MIN_SPAWN_INTERVAL
    ensures level <= 18 ==> ms == ENEMY_SPAWN_INTERVAL - SPAWN_INTERVAL_STEP * level
  {
    var stepped := ENEMY_SPAWN_INTERVAL - level * SPAWN_INTERVAL_STEP;
    if MIN_SPAWN_INTERVAL > stepped then MIN_SPAWN_INTERVAL else stepped
  }

  /** Spawns never come slower at a higher level. */
  lemma SpawnIntervalShrinks(lower: int, higher: int)
    requires lower <= higher
    ensures SpawnInterval(higher) <= SpawnInterval(lower)
  {
  }

  /** The random draws of spawn_enemy: the type, and the center of the new enemy. */
  datatype SpawnChoice = SpawnChoice(kind: EnemyKind, x: int, y: int)

  /** Everything a tick takes from outside the model: keys, random draws, float motion, overlap. */
  datatype Env = Env(keys: Keys, spawn: SpawnChoice, motion: Motion, drift: Drift,
                     overlap: Overlap, roll: Roll)

  /** An enemy is due when strictly more than the level's spawn interval has passed. */
  predicate SpawnDue(g: GameState, now: int) {
    now - g.lastEnemySpawn > SpawnInterval(g.level)
  }

  /** Game.spawn_enemy: a new enemy of the current level joins the end of the group; the time is stamped. */
  function WithSpawn(g: GameState, now: int, c: SpawnChoice): (r: GameState)
    ensures |r.enemies| == |g.enemies| + 1 && r.enemies[..|g.enemies|] == g.enemies
    ensures r.enemies[|g.enemies|] == Spawned(c.kind, c.x, c.y, g.level)
    ensures r.lastEnemySpawn == now
    ensures r == g.(enemies := r.enemies, lastEnemySpawn := now)
    ensures g.level >= 1 && Fit(g.enemies) ==> Fit(r.enemies)
  {
    var e := Spawned(c.kind, c.x, c.y, g.level);
    assert g.level >= 1 ==> Fit([e]);
    FitAppend(g.enemies, [e]);
    g.(enemies := g.enemies + [e], lastEnemySpawn := now)
  }

  /**
   * The level-up check: once the score reaches the threshold the level goes up by one
   * (one per tick, however far the score is past it) and the threshold grows by
   * 250 + 150 * (the new level).
   */
  function LeveledUp(g: GameState): (r: GameState)
    ensures g.score >= g.nextWaveThreshold ==>
      r.level == g.level + 1 &&
      r.nextWaveThreshold == g.nextWaveThreshold + WAVE_THRESHOLD_BASE + WAVE_THRESHOLD_STEP * r.level
    ensures g.score < g.nextWaveThreshold ==> r == g
    ensures r == g.(level := r.level, nextWaveThreshold := r.nextWaveThreshold)
    ensures g.level >= 1 && g.nextWaveThreshold == Threshold(g.level) ==>
      r.nextWaveThreshold == Threshold(r.level) && r.nextWaveThreshold >= g.nextWaveThreshold
  {
    if g.score >= g.nextWaveThreshold then
      var level := g.level + 1;
      g.(level := level,
         nextWaveThreshold := g.nextWaveThreshold + WAVE_THRESHOLD_BASE + level * WAVE_THRESHOLD_STEP)
    else g
  }

  /** The bullet an enemy fired this tick, as a sequence of at most one. */
  function Shots(o: StepOutcome): (bs: seq<EnemyBullet>)
    ensures |bs| <= 1 && (|bs| == 1 <==> o.shot.Some?)
  {
    match o.shot
    case None => []
    case Some(b) => [b]
  }

  /** The enemy after this tick's update, unless it escaped through the bottom. */
  function Kept(o: StepOutcome): (es: seq<EnemyState>)
    ensures |es| <= 1 && (|es| == 1 <==> !o.escaped)
  {
    if o.escaped then [] else [o.enemy]
  }

  /** Enemy.update for one enemy: its motion is the float step for its heading towards target. */
  function StepOf(e: EnemyState, now: int, target: Rect, motion: Motion): StepOutcome {
    Stepped(e, now, motion(e, target, Heading(e, now)))
  }

  /**
   * Under a motion that steers by its heading, a shooter moves right while (now // 700) is
   * even and left while it is odd, and always moves down.
   */
  lemma ShooterSwings(e: EnemyState, now: int, target: Rect, motion: Motion)
    requires Steers(motion) && e.kind == Shooter && e.level >= 0
    ensures var r := StepOf(e, now, target, motion).enemy;
      ((now / SHOOTER_SWING_PERIOD) % 2 == 0 ==> r.rect.x > e.rect.x) &&
      ((now / SHOOTER_SWING_PERIOD) % 2 != 0 ==> r.rect.x < e.rect.x) &&
      r.rect.y > e.rect.y
  {
    var h := Heading(e, now);
    assert h * (motion(e, target, h).0 - e.rect.x) > 0 && motion(e, target, h).1 > e.rect.y;
  }

  /**
   * Under a motion that steers by its heading, a well-formed zigzag moves the way its
   * direction points and down; once it reaches a wall its direction reverses, so its next
   * step goes the other way.
   */
  lemma ZigzagSwings(e: EnemyState, now: int, later: int, target: Rect, motion: Motion)
    requires Steers(motion) && e.kind == Zigzag && e.level >= 0 && WellFormed(e)
    ensures var r := StepOf(e, now, target, motion).enemy;
      e.zigzagDir * (r.rect.x - e.rect.x) > 0 && r.rect.y > e.rect.y &&
      (AtWall(r.rect) ==> e.zigzagDir * (StepOf(r, later, target, motion).enemy.rect.x - r.rect.x) < 0)
  {
    var h := Heading(e, now);
    assert h * (motion(e, target, h).0 - e.rect.x) > 0 && motion(e, target, h).1 > e.rect.y;
    var r := StepOf(e, now, target, motion).enemy;
    var h2 := Heading(r, later);
    assert h2 * (motion(r, target, h2).0 - r.rect.x) > 0;
  }

  /**
   * Every enemy's update, in group order: the enemies that did not escape, and the bullets
   * the shooters fired, in the order they fired.
   */
  function StepAll(es: seq<EnemyState>, now: int, target: Rect, motion: Motion): (r: (seq<EnemyState>, seq<EnemyBullet>))
    ensures |r.0| <= |es| && |r.1| <= |es|
    ensures forall k :: 0 <= k < |r.0| ==> r.0[k].rect.Top() <= HEIGHT
    ensures Fit(es) ==> Fit(r.0)
    decreases |es|
  {
    if |es| == 0 then ([], [])
    else
      var last := |es| - 1;
      var prev := StepAll(es[..last], now, target, motion);
      var o := StepOf(es[last], now, target, motion);
      assert Fit(es) ==> Fit(es[..last]) && Fit(Kept(o)) by {
        if Fit(es) {
          forall k | 0 <= k < last ensures WellFormed(es[..last][k]) && es[..last][k].health > 0 {
            assert es[..last][k] == es[k];
          }
        }
      }
      FitAppend(prev.0, Kept(o));
      (prev.0 + Kept(o), prev.1 + Shots(o))
  }

  /** Every enemy that the sprite loop updates and that does not escape is kept. */
  lemma {:induction false} KeepsStayers(es: seq<EnemyState>, now: int, target: Rect, motion: Motion)
    ensures forall i :: 0 <= i < |es| && !StepOf(es[i], now, target, motion).escaped ==>
      StepOf(es[i], now, target, motion).enemy in StepAll(es, now, target, motion).0
    decreases |es|
  {
    if |es| > 0 {
      var last := |es| - 1;
      KeepsStayers(es[..last], now, target, motion);
      var prev := StepAll(es[..last], now, target, motion).0;
      var o := StepOf(es[last], now, target, motion);
      var r := StepAll(es, now, target, motion).0;
      assert r == prev + Kept(o);
      forall i | 0 <= i < |es| && !StepOf(es[i], now, target, motion).escaped
        ensures StepOf(es[i], now, target, motion).enemy in r
      {
        if i < last {
          assert es[..last][i] == es[i];
        } else {
          assert r[|prev|] == o.enemy;
        }
      }
    }
  }

  /** Every enemy the sprite loop keeps is an updated enemy that did not escape. */
  lemma {:induction false} KeptStayers(es: seq<EnemyState>, now: int, target: Rect, motion: Motion)
    ensures forall k :: 0 <= k < |StepAll(es, now, target, motion).0| ==>
      exists i :: 0 <= i < |es| && !StepOf(es[i], now, target, motion).escaped &&
        StepAll(es, now, target, motion).0[k] == StepOf(es[i], now, target, motion).enemy
    decreases |es|
  {
    if |es| > 0 {
      var last := |es| - 1;
      KeptStayers(es[..last], now, target, motion);
      var prev := StepAll(es[..last], now, target, motion).0;
      var o := StepOf(es[last], now, target, motion);
      var r := StepAll(es, now, target, motion).0;
      assert r == prev + Kept(o);
      forall k | 0 <= k < |StepAll(es, now, target, motion).0|
        ensures exists i ::
                  0 <= i < |es| && !StepOf(es[i], now, target, motion).escaped &&
                  StepAll(es, now, target, motion).0[k] == StepOf(es[i], now, target, motion).enemy
      {
        if k < |prev| {
          assert r[k] == prev[k];
          var i :| 0 <= i < last && !StepOf(es[..last][i], now, target, motion).escaped &&
            prev[k] == StepOf(es[..last][i], now, target, motion).enemy;
          assert es[..last][i] == es[i];
          assert !StepOf(es[i], now, target, motion).escaped && r[k] == StepOf(es[i], now, target, motion).enemy;
        } else {
          assert r[k] == o.enemy && !o.escaped;
          assert !StepOf(es[last], now, target, motion).escaped && r[k] == StepOf(es[last], now, target, motion).enemy;
        }
      }
    } else {
      assert StepAll(es, now, target, motion).0 == [];
    }
  }

  /** Every shooter due to fire in the sprite loop has its bullet among the shots. */
  lemma {:induction false} ShotsOfDue(es: seq<EnemyState>, now: int, target: Rect, motion: Motion)
    ensures forall i :: 0 <= i < |es| && ShooterDue(es[i], now) ==>
      StepOf(es[i], now, target, motion).shot.Some? &&
      StepOf(es[i], now, target, motion).shot.value in StepAll(es, now, target, motion).1
    decreases |es|
  {
    if |es| > 0 {
      var last := |es| - 1;
      ShotsOfDue(es[..last], now, target, motion);
      var prev := StepAll(es[..last], now, target, motion).1;
      var o := StepOf(es[last], now, target, motion);
      var r := StepAll(es, now, target, motion).1;
      assert r == prev + Shots(o);
      forall i | 0 <= i < |es| && ShooterDue(es[i], now)
        ensures StepOf(es[i], now, target, motion).shot.Some? &&
          StepOf(es[i], now, target, motion).shot.value in r
      {
        if i < last {
          assert es[..last][i] == es[i];
        } else {
          assert r[|prev|] == o.shot.value;
        }
      }
    }
  }

  /** Every bullet fired in the sprite loop is the bullet of a shooter that was due. */
  lemma {:induction false} ShotsFromDue(es: seq<EnemyState>, now: int, target: Rect, motion: Motion)
    ensures forall k :: 0 <= k < |StepAll(es, now, target, motion).1| ==>
      exists i :: 0 <= i < |es| && ShooterDue(es[i], now) &&
        StepOf(es[i], now, target, motion).shot == Some(StepAll(es, now, target, motion).1[k])
    decreases |es|
  {
    if |es| > 0 {
      var last := |es| - 1;
      ShotsFromDue(es[..last], now, target, motion);
      var prev := StepAll(es[..last], now, target, motion).1;
      var o := StepOf(es[last], now, target, motion);
      var r := StepAll(es, now, target, motion).1;
      assert r == prev + Shots(o);
      forall k | 0 <= k < |StepAll(es, now, target, motion).1|
        ensures exists i ::
                  0 <= i < |es| && ShooterDue(es[i], now) &&
                  StepOf(es[i], now, target, motion).shot == Some(StepAll(es, now, target, motion).1[k])
      {
        if k < |prev| {
          assert r[k] == prev[k];
          var i :| 0 <= i < last && ShooterDue(es[..last][i], now) &&
            StepOf(es[..last][i], now, target, motion).shot == Some(prev[k]);
          assert es[..last][i] == es[i];
          assert ShooterDue(es[i], now) && StepOf(es[i], now, target, motion).shot == Some(r[k]);
        } else {
          assert r[k] == o.shot.value && ShooterDue(es[last], now);
          assert StepOf(es[last], now, target, motion).shot == Some(r[k]);
        }
      }
    } else {
      assert StepAll(es, now, target, motion).1 == [];
    }
  }

  /**
   * The sprite loop of Game.update (every sprite but the ship): enemies step towards the
   * ship's current rect and shooters fire; bullets and pickups move; whatever left the
   * screen is removed. New enemy bullets follow the old ones, in the order they were fired.
   */
  function Moved(g: GameState, now: int, motion: Motion, drift: Drift): (r: GameState)
    ensures r == g.(enemies := r.enemies, enemyBullets := r.enemyBullets,
                    playerBullets := r.playerBullets, powerups := r.powerups)
  {
    var (kept, shots) := StepAll(g.enemies, now, g.player.Box(), motion);
    g.(enemies := kept, enemyBullets := Descend(g.enemyBullets) + shots,
       playerBullets := Fly(g.playerBullets, drift), powerups := Sink(g.powerups))
  }

  /**
   * The sprite loop never adds enemies, adds at most one enemy bullet per enemy, and keeps a
   * fit enemy group fit.
   */
  lemma MovedFit(g: GameState, now: int, motion: Motion, drift: Drift)
    ensures var r := Moved(g, now, motion, drift);
      |r.enemies| <= |g.enemies| && |r.enemyBullets| <= |g.enemyBullets| + |g.enemies| &&
      (Fit(g.enemies) ==> Fit(r.enemies))
  {
  }

  /**
   * The ship's part of Game.update: Player.update with the held keys, then Player.shoot
   * when fire is held, its bullets joining the end of the group.
   */
  function Piloted(g: GameState, now: int, keys: Keys): (r: GameState)
    ensures r == g.(player := r.player, playerBullets := r.playerBullets)
    ensures |r.playerBullets| >= |g.playerBullets| && r.playerBullets[..|g.playerBullets|] == g.playerBullets
    ensures !keys.fire ==> r.player == Advanced(g.player, keys, now) && r.playerBullets == g.playerBullets
    ensures keys.fire ==>
      (r.player, r.playerBullets[|g.playerBullets|..]) == Fired(Advanced(g.player, keys, now), now)
    ensures r.player.InBounds() && r.player.lives == g.player.lives
    ensures g.player.Healthy() ==> r.player.Healthy()
  {
    var moved := Advanced(g.player, keys, now);
    if keys.fire then
      var (shooter, volley) := Fired(moved, now);
      assert (g.playerBullets + volley)[|g.playerBullets|..] == volley;
      g.(player := shooter, playerBullets := g.playerBullets + volley)
    else
      g.(player := moved)
  }

  /**
   * Phases 2 to 4 of Game.handle_collisions, all against the ship: the enemy bullets, the
   * enemies left by phase 1, and the pickups. The ship loses at most one life, since the
   * respawn after a lost life makes it ignore the next hit.
   */
  function ShipCollisions(p: PlayerState, bullets: seq<EnemyBullet>, es: seq<EnemyState>,
                          pickups: seq<Pickup>, overlap: Overlap, now: int)
    : (r: (PlayerState, seq<EnemyBullet>, seq<EnemyState>, seq<Pickup>))
    ensures p.lives - 1 <= r.0.lives <= p.lives
    ensures p.Healthy() ==> r.0.Healthy()
    ensures p.InBounds() ==> r.0.InBounds()
    ensures |r.1| <= |bullets| && |r.2| <= |es| && |r.3| <= |pickups|
    ensures Fit(es) ==> Fit(r.2)
  {
    var (struck, bullets') := Struck(p, bullets, overlap, now);
    var (rammed, es') := Rammed(struck, es, overlap, now);
    var (collected, pickups') := Collect(rammed, pickups, overlap, now);
    assert Fit(es) ==> Fit(es') by {
      if Fit(es) {
        RammedFit(struck, es, overlap, now);
      }
    }
    (collected, bullets', es', pickups')
  }

  /**
   * Phase 1 of Game.handle_collisions on the session: the enemies that stay, the bullets
   * left, the pickups dropped by the destroyed enemies joining the end of the group, and
   * their score values added to the score.
   */
  function EnemiesHit(g: GameState, overlap: Overlap, roll: Roll): (r: GameState)
    ensures r == g.(enemies := r.enemies, playerBullets := r.playerBullets,
                    powerups := r.powerups, score := r.score)
    ensures |r.powerups| <= |g.powerups| + |g.enemies| - |r.enemies|
  {
    var pass := BulletPass(g.enemies, g.playerBullets, overlap, roll);
    g.(enemies := pass.survivors, playerBullets := pass.bullets,
       powerups := g.powerups + pass.drops, score := g.score + pass.gain)
  }

  /** Phase 1 keeps every enemy in the group fit and never lowers the score. */
  lemma EnemiesHitFit(g: GameState, overlap: Overlap, roll: Roll)
    requires Fit(g.enemies)
    ensures Fit(EnemiesHit(g, overlap, roll).enemies) && EnemiesHit(g, overlap, roll).score >= g.score
  {
    var pass := BulletPass(g.enemies, g.playerBullets, overlap, roll);
    PassSurvivorsFit(g.enemies, g.playerBullets, overlap, roll);
    PassKilledWellFormed(g.enemies, g.playerBullets, overlap, roll);
    BountyFloor(pass.killed);
    PassGain(g.enemies, g.playerBullets, overlap, roll);
  }

  /**
   * Game.handle_collisions: phase 1 against the enemies, then phases 2 to 4 against the
   * ship, the pickups dropped in phase 1 included. The score grows by exactly the score
   * values of the enemies phase 1 destroyed.
   */
  function Collided(g: GameState, now: int, overlap: Overlap, roll: Roll): (r: GameState)
    ensures r == g.(player := r.player, enemies := r.enemies, playerBullets := r.playerBullets,
                    enemyBullets := r.enemyBullets, powerups := r.powerups, score := r.score)
    ensures g.player.lives - 1 <= r.player.lives <= g.player.lives
    ensures g.player.Healthy() ==> r.player.Healthy()
    ensures g.player.InBounds() ==> r.player.InBounds()
    ensures |r.enemies| <= |g.enemies|
    ensures Fit(g.enemies) ==> Fit(r.enemies) && r.score >= g.score
  {
    var hit := EnemiesHit(g, overlap, roll);
    assert Fit(g.enemies) ==> Fit(hit.enemies) && hit.score >= g.score by {
      if Fit(g.enemies) {
        EnemiesHitFit(g, overlap, roll);
      }
    }
    var (player, enemyBullets, enemies, powerups) :=
      ShipCollisions(hit.player, hit.enemyBullets, hit.enemies, hit.powerups, overlap, now);
    hit.(player := player, enemyBullets := enemyBullets, enemies := enemies, powerups := powerups)
  }

  /**
   * handle_collisions scores each enemy destroyed by player bullets exactly once, and only
   * those, and the player bullets left are exactly those no enemy in turn took.
   */
  lemma CollidedScore(g: GameState, now: int, overlap: Overlap, roll: Roll)
    ensures var r := Collided(g, now, overlap, roll);
      && r.score == g.score + Bounty(BulletPass(g.enemies, g.playerBullets, overlap, roll).killed)
      && r.playerBullets == Remaining(g.enemies, g.playerBullets, overlap)
  {
    PassGain(g.enemies, g.playerBullets, overlap, roll);
    PassBullets(g.enemies, g.playerBullets, overlap, roll);
  }

  /** Collided in terms of the states its phases leave behind. */
  lemma CollidedPhases(g: GameState, now: int, overlap: Overlap, roll: Roll, h: GameState,
                       p1: PlayerState, b1: seq<EnemyBullet>, p2: PlayerState, e2: seq<EnemyState>,
                       p3: PlayerState, w3: seq<Pickup>)
    requires h == EnemiesHit(g, overlap, roll)
    requires (p1, b1) == Struck(h.player, h.enemyBullets, overlap, now)
    requires (p2, e2) == Rammed(p1, h.enemies, overlap, now)
    requires (p3, w3) == Collect(p2, h.powerups, overlap, now)
    ensures Collided(g, now, overlap, roll) == h.(player := p3, enemyBullets := b1, enemies := e2, powerups := w3)
  {
  }

  /**
   * Game.update: nothing while paused or over; otherwise spawn when due, check the level,
   * move every sprite, move the ship and fire, resolve collisions, and end the game once
   * the player is dead.
   */
  function Tick(g: GameState, now: int, env: Env): (r: GameState)
    ensures g.paused || g.gameOver ==> r == g
    ensures !g.paused && !g.gameOver ==>
      && r.lastEnemySpawn == (if SpawnDue(g, now) then now else g.lastEnemySpawn)
      && r.level == (if g.score >= g.nextWaveThreshold then g.level + 1 else g.level)
      && r.nextWaveThreshold == (if g.score >= g.nextWaveThreshold
                                 then g.nextWaveThreshold + WAVE_THRESHOLD_BASE + WAVE_THRESHOLD_STEP * (g.level + 1)
                                 else g.nextWaveThreshold)
      && (r.gameOver <==> r.player.IsDead())
      && !r.paused
      && g.player.lives - 1 <= r.player.lives <= g.player.lives
  {
    if g.paused || g.gameOver then g
    else
      var spawned := if SpawnDue(g, now) then WithSpawn(g, now, env.spawn) else g;
      var leveled := LeveledUp(spawned);
      var moved := Moved(leveled, now, env.motion, env.drift);
      var piloted := Piloted(moved, now, env.keys);
      var collided := Collided(piloted, now, env.overlap, env.roll);
      assert collided.level == piloted.level == moved.level == leveled.level;
      assert collided.nextWaveThreshold == piloted.nextWaveThreshold == moved.nextWaveThreshold;
      if collided.player.IsDead() then collided.(gameOver := true) else collided
  }

  /** Tick in terms of the states its steps leave behind. */
  lemma TickPhases(g: GameState, now: int, env: Env, leveled: GameState,
                   moved: GameState, piloted: GameState, collided: GameState)
    requires !g.paused && !g.gameOver
    requires leveled == LeveledUp(if SpawnDue(g, now) then WithSpawn(g, now, env.spawn) else g)
    requires moved == Moved(leveled, now, env.motion, env.drift)
    requires piloted == Piloted(moved, now, env.keys)
    requires collided == Collided(piloted, now, env.overlap, env.roll)
    ensures Tick(g, now, env) == if collided.player.IsDead() then collided.(gameOver := true) else collided
  {
  }

  /** Every tick keeps the session consistent. */
  lemma TickKeepsConsistent(g: GameState, now: int, env: Env)
    requires Consistent(g)
    ensures Consistent(Tick(g, now, env))
  {
  }

  /**
   * The level never goes down and the threshold never shrinks; a level-up always raises the
   * threshold.
   */
  lemma TickProgress(g: GameState, now: int, env: Env)
    requires g.level >= 1
    ensures Tick(g, now, env).level >= g.level
    ensures Tick(g, now, env).nextWaveThreshold >= g.nextWaveThreshold
    ensures Tick(g, now, env).level > g.level ==> Tick(g, now, env).nextWaveThreshold > g.nextWaveThreshold
  {
  }

  /**
   * The sprite loop of Game.update over the enemy group: each enemy in group order takes
   * its step towards target; the escaped ones leave the group and the shots are collected
   * in the order they were fired.
   */
  method StepEnemies(es: seq<EnemyState>, now: int, target: Rect, motion: Motion)
    returns (kept: seq<EnemyState>, shots: seq<EnemyBullet>)
    ensures (kept, shots) == StepAll(es, now, target, motion)
  {
    kept, shots := [], [];
    for i := 0 to |es|
      invariant (kept, shots) == StepAll(es[..i], now, target, motion)
    {
      StepAllSnoc(es, i, now, target, motion);
      var o := StepOf(es[i], now, target, motion);
      kept, shots := kept + Kept(o), shots + Shots(o);
    }
    assert es[..|es|] == es;
  }

  /** The sprite loop on the whole session: every sprite but the ship moved, in group order. */
  method MoveAll(g: GameState, now: int, motion: Motion, drift: Drift) returns (r: GameState)
    ensures r == Moved(g, now, motion, drift)
  {
    var kept, shots := StepEnemies(g.enemies, now, g.player.Box(), motion);
    MovedFields(g, now, motion, drift, kept, shots);
    r := g.(enemies := kept, enemyBullets := Descend(g.enemyBullets) + shots,
            playerBullets := Fly(g.playerBullets, drift), powerups := Sink(g.powerups));
  }

  /** Moved in terms of the result of the enemies' steps. */
  lemma MovedFields(g: GameState, now: int, motion: Motion, drift: Drift, kept: seq<EnemyState>, shots: seq<EnemyBullet>)
    requires (kept, shots) == StepAll(g.enemies, now, g.player.Box(), motion)
    ensures Moved(g, now, motion, drift) == g.(enemies := kept, enemyBullets := Descend(g.enemyBullets) + shots,
      playerBullets := Fly(g.playerBullets, drift), powerups := Sink(g.powerups))
  {
  }

  /** StepAll over one more enemy is StepAll so far and that enemy's own step. */
  lemma StepAllSnoc(es: seq<EnemyState>, i: nat, now: int, target: Rect, motion: Motion)
    requires i < |es|
    ensures StepAll(es[..i + 1], now, target, motion) ==
      (StepAll(es[..i], now, target, motion).0 + Kept(StepOf(es[i], now, target, motion)),
       StepAll(es[..i], now, target, motion).1 + Shots(StepOf(es[i], now, target, motion)))
  {
    assert es[..i + 1][..i] == es[..i];
  }

  /**
   * Phase 1 of Game.handle_collisions as a loop over the enemy group: each enemy takes the
   * bullets still flying that overlap it; a destroyed one adds its score value and rolls for
   * a drop at its center, the others stay in the group.
   */
  method HitAll(es: seq<EnemyState>, bullets: seq<PlayerBullet>, overlap: Overlap, roll: Roll)
    returns (pass: BulletOutcome)
    ensures pass == BulletPass(es, bullets, overlap, roll)
  {
    pass := BulletOutcome([], bullets, 0, [], [], 0);
    for i := 0 to |es|
      invariant pass == BulletPass(es[..i], bullets, overlap, roll)
    {
      BulletPassSnoc(es, i, bullets, overlap, roll);
      pass := Resolve(pass, es[i], i, overlap, roll);
    }
    assert es[..|es|] == es;
  }

  /** Phase 1 on the whole session: the loop's results written back into its fields. */
  method ResolveHits(g: GameState, overlap: Overlap, roll: Roll) returns (r: GameState)
    ensures r == EnemiesHit(g, overlap, roll)
  {
    var pass := HitAll(g.enemies, g.playerBullets, overlap, roll);
    r := g.(enemies := pass.survivors, playerBullets := pass.bullets, score := g.score + pass.gain,
            powerups := g.powerups + pass.drops);
  }

  /** BulletPass over one more enemy is that enemy resolved against the pass so far. */
  lemma BulletPassSnoc(es: seq<EnemyState>, i: nat, bullets: seq<PlayerBullet>, overlap: Overlap, roll: Roll)
    requires i < |es|
    ensures BulletPass(es[..i + 1], bullets, overlap, roll) ==
      Resolve(BulletPass(es[..i], bullets, overlap, roll), es[i], i, overlap, roll)
  {
    assert es[..i + 1][..i] == es[..i];
  }

  /** The game session (milk.py, class Game); the star field and the running flag are not modelled. */
  class Game {
    var paused: bool
    var gameOver: bool
    var player: Player
    var enemies: seq<EnemyState>
    var playerBullets: seq<PlayerBullet>
    var enemyBullets: seq<EnemyBullet>
    var powerups: seq<Pickup>
    var score: int
    var level: int
    var lastEnemySpawn: int
    var nextWaveThreshold: int

    function State(): GameState
      reads this, player
    {
      GameState(paused, gameOver, player.State(), enemies, playerBullets, enemyBullets,
                powerups, score, level, lastEnemySpawn, nextWaveThreshold)
    }

    constructor ()
      ensures State() == Initial()
    {
      paused, gameOver := false, false;
      player := new Player();
      enemies := [];
      playerBullets, enemyBullets, powerups := [], [], [];
      score, level, lastEnemySpawn, nextWaveThreshold := 0, 1, 0, FIRST_WAVE_THRESHOLD;
    }

    /** Game.reset: a whole new session with a new ship. */
    method Reset()
      modifies this
      ensures State() == Initial()
    {
      paused, gameOver := false, false;
      player := new Player();
      enemies := [];
      playerBullets, enemyBullets, powerups := [], [], [];
      score, level, lastEnemySpawn, nextWaveThreshold := 0, 1, 0, FIRST_WAVE_THRESHOLD;
    }

    /** The pause key of the main loop: ignored once the game is over. */
    method TogglePause()
      modifies this
      ensures State() == Toggled(old(State()))
    {
      if !gameOver {
        paused := !paused;
      }
    }

    /** Game.spawn_enemy with the random draws supplied. */
    method SpawnEnemy(now: int, c: SpawnChoice)
      modifies this
      ensures State() == WithSpawn(old(State()), now, c) && player == old(player)
    {
      var e := new Enemy(c.x, c.y, c.kind, level);
      enemies := enemies + [e.State()];
      lastEnemySpawn := now;
    }

    /**
     * The sprite loop of Game.update: every enemy, in group order, steps towards the ship
     * and may fire; escaped enemies leave the group; bullets and pickups move.
     */
    method UpdateSprites(now: int, motion: Motion, drift: Drift)
      modifies this
      ensures State() == Moved(old(State()), now, motion, drift) && player == old(player)
    {
      var g := State();
      var r := MoveAll(g, now, motion, drift);
      enemies, enemyBullets, playerBullets, powerups := r.enemies, r.enemyBullets, r.playerBullets, r.powerups;
      assert State() == r;
    }

    /** Phase 1 of Game.handle_collisions: player bullets against the enemy group. */
    method HitEnemies(overlap: Overlap, roll: Roll)
      modifies this
      ensures State() == EnemiesHit(old(State()), overlap, roll) && player == old(player)
    {
      ghost var g := State();
      var r := ResolveHits(State(), overlap, roll);
      enemies, playerBullets, score, powerups := r.enemies, r.playerBullets, r.score, r.powerups;
      assert player.State() == g.player;
    }

    /** Phase 2: enemy bullets against the ship. */
    method HitShip(now: int, overlap: Overlap)
      modifies this, player
      ensures (player.State(), enemyBullets) == Struck(old(player.State()), old(enemyBullets), overlap, now)
      ensures player == old(player) && unchanged(this`enemies, this`powerups, this`playerBullets)
      ensures unchanged(this`paused, this`gameOver, this`score, this`level)
      ensures unchanged(this`lastEnemySpawn, this`nextWaveThreshold)
    {
      var box := player.Box();
      var hits := BulletsOn(box, enemyBullets, overlap);
      enemyBullets := BulletsClear(box, enemyBullets, overlap);
      if |hits| > 0 {
        player.TakeDamage(ENEMY_BULLET_DAMAGE, now);
      }
    }

    /** Phase 3: enemies against the ship; the ones touching it are destroyed without score. */
    method RamShip(now: int, overlap: Overlap)
      modifies this, player
      ensures (player.State(), enemies) == Rammed(old(player.State()), old(enemies), overlap, now)
      ensures player == old(player) && unchanged(this`enemyBullets, this`powerups, this`playerBullets)
      ensures unchanged(this`paused, this`gameOver, this`score, this`level)
      ensures unchanged(this`lastEnemySpawn, this`nextWaveThreshold)
    {
      var box := player.Box();
      var rammers := Rammers(box, enemies, overlap);
      enemies := Bystanders(box, enemies, overlap);
      if |rammers| > 0 {
        player.TakeDamage(RAM_DAMAGE, now);
      }
    }

    /** Phase 4: every pickup touching the ship is removed and applied, in group order. */
    method CollectPickups(now: int, overlap: Overlap)
      modifies this, player
      ensures (player.State(), powerups) == Collect(old(player.State()), old(powerups), overlap, now)
      ensures player == old(player) && unchanged(this`enemyBullets, this`enemies, this`playerBullets)
      ensures unchanged(this`paused, this`gameOver, this`score, this`level)
      ensures unchanged(this`lastEnemySpawn, this`nextWaveThreshold)
    {
      ghost var p0 := player.State();
      var box := player.Box();
      var got := PickupsOn(box, powerups, overlap);
      powerups := PickupsClear(box, powerups, overlap);
      for i := 0 to |got|
        invariant player.State() == ApplyAll(p0, got[..i], now)
        modifies player
      {
        assert got[..i + 1][..i] == got[..i];
        player.ApplyPowerup(got[i].kind, now);
      }
      assert got[..|got|] == got;
    }

    /** Game.handle_collisions, its four phases in order. */
    method HandleCollisions(now: int, overlap: Overlap, roll: Roll)
      modifies this, player
      ensures State() == Collided(old(State()), now, overlap, roll) && player == old(player)
    {
      ghost var g := State();
      HitEnemies(overlap, roll);
      ghost var h := State();
      HitShip(now, overlap);
      ghost var p1, b1 := player.State(), enemyBullets;
      RamShip(now, overlap);
      ghost var p2, e2 := player.State(), enemies;
      CollectPickups(now, overlap);
      CollidedPhases(g, now, overlap, roll, h, p1, b1, p2, e2, player.State(), powerups);
      assert State() == h.(player := player.State(), enemyBullets := b1, enemies := e2, powerups := powerups);
    }

    /** The start of Game.update: spawn an enemy when one is due, then check for a new level. */
    method SpawnAndLevel(now: int, c: SpawnChoice)
      modifies this
      ensures State() == LeveledUp(if SpawnDue(old(State()), now) then WithSpawn(old(State()), now, c) else old(State()))
      ensures player == old(player)
    {
      if now - lastEnemySpawn > SpawnInterval(level) {
        SpawnEnemy(now, c);
      }
      ghost var spawned := State();
      if score >= nextWaveThreshold {
        level := level + 1;
        nextWaveThreshold := nextWaveThreshold + WAVE_THRESHOLD_BASE + level * WAVE_THRESHOLD_STEP;
      }
      assert player.State() == spawned.player;
    }

    /** The ship's part of Game.update: Player.update, then Player.shoot while fire is held. */
    method Pilot(now: int, keys: Keys)
      modifies this, player
      ensures State() == Piloted(old(State()), now, keys) && player == old(player)
    {
      player.Update(keys, now);
      if keys.fire {
        var volley := player.Shoot(now);
        playerBullets := playerBullets + volley;
      }
    }

    /**
     * Game.update for one frame at time now, with the held keys, the random draws and the
     * float motion of the frame supplied by env.
     */
    method Update(now: int, env: Env)
      modifies this, player
      ensures State() == Tick(old(State()), now, env) && player == old(player)
    {
      if paused || gameOver {
        return;
      }
      ghost var g := State();
      SpawnAndLevel(now, env.spawn);
      ghost var leveled := State();
      UpdateSprites(now, env.motion, env.drift);
      ghost var moved := State();
      Pilot(now, env.keys);
      ghost var piloted := State();
      HandleCollisions(now, env.overlap, env.roll);
      ghost var collided := State();
      TickPhases(g, now, env, leveled, moved, piloted, collided);
      EndIfDead();
    }

    /** The end of Game.update: the game is over once the player is dead. */
    method EndIfDead()
      modifies this
      ensures State() == if old(State()).player.IsDead() then old(State()).(gameOver := true) else old(State())
      ensures player == old(player)
    {
      ghost var g := State();
      if player.IsDead() {
        gameOver := true;
      }
      assert player.State() == g.player;
    }
  }
}
