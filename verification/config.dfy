/** The tuning constants of the game (milk.py, CONFIG section and the literals of the sprites). */
module Config {
  /** The play area, in pixels. */
  const WIDTH := 960
  const HEIGHT := 540

  const PLAYER_SPEED := 5
  const PLAYER_MAX_HEALTH := 100
  const PLAYER_LIVES := 3
  const PLAYER_FIRE_COOLDOWN := 250
  /** The player's ship is a 40 x 40 surface. */
  const PLAYER_SIZE := 40
  /** On (re)spawn the ship's center is at (WIDTH / 2, HEIGHT - 70). */
  const PLAYER_SPAWN_CENTER_X := WIDTH / 2
  const PLAYER_SPAWN_CENTER_Y := HEIGHT - 70
  /** Invincibility granted after losing a life, in milliseconds. */
  const RESPAWN_GRACE := 2000
  const HEAL_AMOUNT := 40

  const ENEMY_SPAWN_INTERVAL := 1200
  const MIN_SPAWN_INTERVAL := 450
  const SPAWN_INTERVAL_STEP := 40
  const ENEMY_BULLET_INTERVAL := 1800
  /** A shooter flips its horizontal heading every 700 ms of game time. */
  const SHOOTER_SWING_PERIOD := 700

  const POWERUP_DURATION := 6000

  /** Damage dealt by one player bullet, by a volley of enemy bullets, by ramming an enemy. */
  const PLAYER_BULLET_DAMAGE := 20
  const ENEMY_BULLET_DAMAGE := 15
  const RAM_DAMAGE := 35

  /** Per-tick vertical speeds of the straight player bullet, enemy bullets and power-ups. */
  const PLAYER_BULLET_SPEED := 10
  const ENEMY_BULLET_SPEED := 6
  const POWERUP_FALL_SPEED := 2

  const FIRST_WAVE_THRESHOLD := 200
  const WAVE_THRESHOLD_BASE := 250
  const WAVE_THRESHOLD_STEP := 150
}
