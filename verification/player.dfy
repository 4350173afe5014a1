/**
 * The player's ship (milk.py, class Player): clamped movement, timed power-ups and
 * invincibility, a cooldown-gated gun, damage with lives and respawn, and pickups.
 *
 * PlayerState is the value of the ship's fields; the specification functions below
 * give the new value after each operation, and class Player updates its fields in
 * place exactly as they say.
 */
module Players {
  import opened Config
  import opened Helpers
  import opened Geometry
  import opened Projectiles

  /** The keys held this tick: A/Left, D/Right, W/Up, S/Down, Space. */
  datatype Keys = Keys(left: bool, right: bool, up: bool, down: bool, fire: bool)

  /** The ship's mutable fields; (x, y) is the top-left corner of its 40 x 40 rect. */
  datatype PlayerState = PlayerState(
    x: int, y: int,
    health: int, lives: int, lastShot: int,
    poweredUp: bool, powerupType: Option<PowerKind>, powerupEnd: int,
    invincible: bool, invincibleEnd: int)
  {
    function Box(): Rect { Rect(x, y, PLAYER_SIZE, PLAYER_SIZE) }

    /** milk.py's is_dead: the player survives at zero lives and is dead below that. */
    predicate IsDead() { lives < 0 }

    /** The whole ship lies inside the play area. */
    predicate InBounds() { 0 <= x <= WIDTH - PLAYER_SIZE && 0 <= y <= HEIGHT - PLAYER_SIZE }

    /** Health is positive and at most the maximum. */
    predicate Healthy() { 1 <= health <= PLAYER_MAX_HEALTH }
  }

  /** The top-left corner that puts the ship's center at the spawn point. */
  function SpawnBox(): (r: Rect)
    ensures r.CenterX() == PLAYER_SPAWN_CENTER_X && r.CenterY() == PLAYER_SPAWN_CENTER_Y
    ensures r.w == PLAYER_SIZE && r.h == PLAYER_SIZE
    ensures 0 <= r.x <= WIDTH - PLAYER_SIZE && 0 <= r.y <= HEIGHT - PLAYER_SIZE
  {
    Centered(PLAYER_SPAWN_CENTER_X, PLAYER_SPAWN_CENTER_Y, PLAYER_SIZE, PLAYER_SIZE)
  }

  /** A new ship: full health, three lives, no power-up, not invincible, at the spawn point. */
  function InitialPlayer(): (p: PlayerState)
    ensures p.InBounds() && p.Healthy() && !p.IsDead()
    ensures p.Box() == SpawnBox()
    ensures p.health == PLAYER_MAX_HEALTH && p.lives == PLAYER_LIVES && p.lastShot == 0
    ensures !p.poweredUp && p.powerupType == None && p.powerupEnd == 0
    ensures !p.invincible && p.invincibleEnd == 0
  {
    PlayerState(SpawnBox().x, SpawnBox().y, PLAYER_MAX_HEALTH, PLAYER_LIVES, 0,
                false, None, 0, false, 0)
  }

  /** Horizontal step for the held keys: opposite keys cancel. */
  function Dx(k: Keys): (d: int)
    ensures d == 0 <==> k.left == k.right
    ensures d == -PLAYER_SPEED <==> k.left && !k.right
    ensures d == PLAYER_SPEED <==> k.right && !k.left
  {
    (if k.right then PLAYER_SPEED else 0) - (if k.left then PLAYER_SPEED else 0)
  }

  /** Vertical step for the held keys: opposite keys cancel. */
  function Dy(k: Keys): (d: int)
    ensures d == 0 <==> k.up == k.down
    ensures d == -PLAYER_SPEED <==> k.up && !k.down
    ensures d == PLAYER_SPEED <==> k.down && !k.up
  {
    (if k.down then PLAYER_SPEED else 0) - (if k.up then PLAYER_SPEED else 0)
  }

  /**
   * Player.update without the image work: step by the keys, clamp the rect into the
   * play area, then end the power-up and the invincibility whose time is strictly past.
   */
  function Advanced(s: PlayerState, k: Keys, now: int): (r: PlayerState)
    ensures r.InBounds()
    ensures 0 <= s.x + Dx(k) <= WIDTH - PLAYER_SIZE ==> r.x == s.x + Dx(k)
    ensures s.x + Dx(k) < 0 ==> r.x == 0
    ensures s.x + Dx(k) > WIDTH - PLAYER_SIZE ==> r.x == WIDTH - PLAYER_SIZE
    ensures 0 <= s.y + Dy(k) <= HEIGHT - PLAYER_SIZE ==> r.y == s.y + Dy(k)
    ensures s.y + Dy(k) < 0 ==> r.y == 0
    ensures s.y + Dy(k) > HEIGHT - PLAYER_SIZE ==> r.y == HEIGHT - PLAYER_SIZE
    ensures r.poweredUp <==> s.poweredUp && now <= s.powerupEnd
    ensures r.powerupType == if s.poweredUp && now > s.powerupEnd then None else s.powerupType
    ensures r.invincible <==> s.invincible && now <= s.invincibleEnd
    ensures r == s.(x := r.x, y := r.y, poweredUp := r.poweredUp,
                    powerupType := r.powerupType, invincible := r.invincible)
  {
    var x := Clamp(s.x + Dx(k), 0, WIDTH - PLAYER_SIZE);
    var y := Clamp(s.y + Dy(k), 0, HEIGHT - PLAYER_SIZE);
    var expired := s.poweredUp && now > s.powerupEnd;
    s.(x := x, y := y,
       poweredUp := if expired then false else s.poweredUp,
       powerupType := if expired then None else s.powerupType,
       invincible := if s.invincible && now > s.invincibleEnd then false else s.invincible)
  }

  /**
   * Milliseconds that must pass between shots: 250, or 250 // 1.5 with the rapid power-up.
   * The source compares an integer time difference against the float 166.0, which is the
   * same test as against the integer 166.
   */
  function Cooldown(t: Option<PowerKind>): (c: int)
    ensures t == Some(Rapid) ==> 3 * c <= 2 * PLAYER_FIRE_COOLDOWN < 3 * (c + 1)
    ensures t != Some(Rapid) ==> c == PLAYER_FIRE_COOLDOWN
  {
    if t == Some(Rapid) then (2 * PLAYER_FIRE_COOLDOWN) / 3 else PLAYER_FIRE_COOLDOWN
  }

  /** The gun is ready: at least a cooldown has passed since the last shot. */
  predicate Ready(s: PlayerState, now: int) {
    now - s.lastShot >= Cooldown(s.powerupType)
  }

  /** The bullets one shot fires from the ship's nose: three fanned for spread, else one. */
  function Volley(s: PlayerState): (bs: seq<PlayerBullet>)
    ensures |bs| == if s.powerupType == Some(Spread) then 3 else 1
    ensures forall i :: 0 <= i < |bs| ==>
      bs[i].rect.CenterX() == s.Box().CenterX() && bs[i].rect.Bottom() == s.Box().Top()
    ensures s.powerupType == Some(Spread) ==> bs[0].aim == AimLeft && bs[1].aim == Straight && bs[2].aim == AimRight
    ensures s.powerupType != Some(Spread) ==> bs[0].aim == Straight
  {
    var cx, top := s.Box().CenterX(), s.Box().Top();
    if s.powerupType == Some(Spread) then
      [NewPlayerBullet(cx, top, AimLeft), NewPlayerBullet(cx, top, Straight), NewPlayerBullet(cx, top, AimRight)]
    else
      [NewPlayerBullet(cx, top, Straight)]
  }

  /** Player.shoot: nothing unless the gun is ready; otherwise stamp the time once and fire a volley. */
  function Fired(s: PlayerState, now: int): (r: (PlayerState, seq<PlayerBullet>))
    ensures !Ready(s, now) ==> r == (s, [])
    ensures Ready(s, now) ==> r.0 == s.(lastShot := now) && r.1 == Volley(s)
  {
    if now - s.lastShot < Cooldown(s.powerupType) then (s, [])
    else (s.(lastShot := now), Volley(s))
  }

  /** The ship after losing a life at time now. */
  function Respawned(s: PlayerState, now: int): (r: PlayerState)
    ensures r.lives == s.lives - 1 && r.health == PLAYER_MAX_HEALTH
    ensures r.invincible && r.invincibleEnd == now + RESPAWN_GRACE
    ensures r.Box() == SpawnBox() && r.InBounds()
    ensures r.lastShot == s.lastShot && r.poweredUp == s.poweredUp
    ensures r.powerupType == s.powerupType && r.powerupEnd == s.powerupEnd
  {
    s.(lives := s.lives - 1, health := PLAYER_MAX_HEALTH, invincible := true,
       invincibleEnd := now + RESPAWN_GRACE, x := SpawnBox().x, y := SpawnBox().y)
  }

  /**
   * Player.take_damage: ignored while invincible; otherwise health drops by amount and,
   * once it reaches zero, one life is lost and the ship respawns.
   */
  function Hurt(s: PlayerState, amount: int, now: int): (r: PlayerState)
    ensures s.invincible ==> r == s
    ensures r.lives == s.lives - 1 <==> !s.invincible && s.health <= amount
    ensures r.lives == s.lives || r.lives == s.lives - 1
    ensures r.lives == s.lives && !s.invincible ==> r == s.(health := s.health - amount)
    ensures r.lives < s.lives ==> r == Respawned(s, now)
    ensures amount > 0 && s.Healthy() ==> r.Healthy()
    ensures s.InBounds() ==> r.InBounds()
  {
    if s.invincible then s
    else if s.health - amount <= 0 then Respawned(s, now)
    else s.(health := s.health - amount)
  }

  /**
   * Player.apply_powerup: heal adds 40 health up to the maximum; shield makes the ship
   * invincible for six seconds; any other type replaces the weapon power-up for six seconds.
   */
  function Collected(s: PlayerState, kind: PowerKind, now: int): (r: PlayerState)
    ensures kind == Heal ==> r == s.(health := Clamp(s.health + HEAL_AMOUNT, 0, PLAYER_MAX_HEALTH))
    ensures kind == Heal && 0 <= s.health <= PLAYER_MAX_HEALTH ==>
      r.health == if s.health + HEAL_AMOUNT <= PLAYER_MAX_HEALTH then s.health + HEAL_AMOUNT else PLAYER_MAX_HEALTH
    ensures kind == Shield ==> r == s.(invincible := true, invincibleEnd := now + POWERUP_DURATION)
    ensures kind != Heal && kind != Shield ==>
      r == s.(poweredUp := true, powerupType := Some(kind), powerupEnd := now + POWERUP_DURATION)
    ensures s.Healthy() ==> r.Healthy()
    ensures r.lives == s.lives && r.x == s.x && r.y == s.y
  {
    match kind
    case Heal => s.(health := Clamp(s.health + HEAL_AMOUNT, 0, PLAYER_MAX_HEALTH))
    case Shield => s.(invincible := true, invincibleEnd := now + POWERUP_DURATION)
    case _ => s.(poweredUp := true, powerupType := Some(kind), powerupEnd := now + POWERUP_DURATION)
  }

  /** After a shot, the gun stays closed for a whole cooldown. */
  lemma CooldownAfterShot(s: PlayerState, now: int, later: int)
    requires Ready(s, now)
    requires now <= later < now + Cooldown(s.powerupType)
    ensures !Ready(Fired(s, now).0, later)
    ensures Fired(Fired(s, now).0, later) == (Fired(s, now).0, [])
  {
  }

  /**
   * After losing a life at time now, further damage is ignored until the grace window
   * ends, even when the ship is updated in between.
   */
  lemma GraceAfterRespawn(s: PlayerState, amount: int, now: int, k: Keys, later: int, hit: int)
    requires !s.invincible && s.health <= amount
    requires later <= now + RESPAWN_GRACE
    ensures Advanced(Hurt(s, amount, now), k, later).invincible
    ensures var a := Advanced(Hurt(s, amount, now), k, later);
            Hurt(a, hit, later) == a
  {
  }

  /** The hit that kills the player is one taken at zero lives that empties its health. */
  lemma LastLife(s: PlayerState, amount: int, now: int)
    requires !s.IsDead() && Hurt(s, amount, now).IsDead()
    ensures s.lives == 0 && !s.invincible && s.health <= amount
  {
  }

  /**
   * A ship at 20 health hit by an enemy volley (15) is left at 5; a second volley in a
   * later tick, while not invincible, costs a life: health back to 100, invincible for
   * two seconds, back at the spawn point.
   */
  lemma TwoVolleys(s: PlayerState, t1: int, t2: int)
    requires s.health == 20 && s.lives == 3 && !s.invincible
    ensures Hurt(s, ENEMY_BULLET_DAMAGE, t1).health == 5
    ensures var r := Hurt(Hurt(s, ENEMY_BULLET_DAMAGE, t1), ENEMY_BULLET_DAMAGE, t2);
            r.lives == 2 && r.health == 100 && r.invincible && r.invincibleEnd == t2 + 2000 &&
            r.Box().CenterX() == 480 && r.Box().CenterY() == 470
  {
  }

  /** The ship (milk.py, class Player); speed and max_health never change. */
  class Player {
    const speed := PLAYER_SPEED
    const maxHealth := PLAYER_MAX_HEALTH
    var x: int
    var y: int
    var health: int
    var lives: int
    var lastShot: int
    var poweredUp: bool
    var powerupType: Option<PowerKind>
    var powerupEnd: int
    var invincible: bool
    var invincibleEnd: int

    function State(): PlayerState
      reads this
    {
      PlayerState(x, y, health, lives, lastShot, poweredUp, powerupType, powerupEnd,
                  invincible, invincibleEnd)
    }

    constructor ()
      ensures State() == InitialPlayer()
    {
      var r := Centered(WIDTH / 2, HEIGHT - 70, PLAYER_SIZE, PLAYER_SIZE);
      x, y := r.x, r.y;
      health := PLAYER_MAX_HEALTH;
      lives := PLAYER_LIVES;
      lastShot := 0;
      poweredUp, powerupType, powerupEnd := false, None, 0;
      invincible, invincibleEnd := false, 0;
    }

    predicate IsDead()
      reads this
    {
      State().IsDead()
    }

    function Box(): Rect
      reads this
    {
      State().Box()
    }

    method Update(k: Keys, now: int)
      modifies this
      ensures State() == Advanced(old(State()), k, now)
    {
      ghost var s := State();
      var dx, dy := 0, 0;
      if k.left { dx := dx - speed; }
      if k.right { dx := dx + speed; }
      if k.up { dy := dy - speed; }
      if k.down { dy := dy + speed; }
      assert dx == Dx(k) && dy == Dy(k);
      x, y := Clamp(x + dx, 0, WIDTH - PLAYER_SIZE), Clamp(y + dy, 0, HEIGHT - PLAYER_SIZE);
      if poweredUp && now > powerupEnd {
        poweredUp := false;
        powerupType := None;
      }
      if invincible && now > invincibleEnd {
        invincible := false;
      }
    }

    method Shoot(now: int) returns (bullets: seq<PlayerBullet>)
      modifies this
      ensures (State(), bullets) == Fired(old(State()), now)
    {
      ghost var s := State();
      if now - lastShot < Cooldown(powerupType) {
        return [];
      }
      lastShot := now;
      var cx, top := x + PLAYER_SIZE / 2, y;
      if powerupType == Some(Spread) {
        bullets := [];
        var aims := [AimLeft, Straight, AimRight];
        for i := 0 to |aims|
          invariant |bullets| == i
          invariant forall j :: 0 <= j < i ==> bullets[j] == NewPlayerBullet(cx, top, aims[j])
        {
          bullets := bullets + [NewPlayerBullet(cx, top, aims[i])];
        }
        assert bullets == Volley(s);
      } else {
        bullets := [NewPlayerBullet(cx, top, Straight)];
      }
    }

    method TakeDamage(amount: int, now: int)
      modifies this
      ensures State() == Hurt(old(State()), amount, now)
    {
      if invincible {
        return;
      }
      health := health - amount;
      if health <= 0 {
        lives := lives - 1;
        health := maxHealth;
        invincible := true;
        invincibleEnd := now + RESPAWN_GRACE;
        var r := Centered(WIDTH / 2, HEIGHT - 70, PLAYER_SIZE, PLAYER_SIZE);
        x, y := r.x, r.y;
      }
    }

    method ApplyPowerup(kind: PowerKind, now: int)
      modifies this
      ensures State() == Collected(old(State()), kind, now)
    {
      if kind == Heal {
        health := Clamp(health + HEAL_AMOUNT, 0, maxHealth);
      } else if kind == Shield {
        invincible := true;
        invincibleEnd := now + POWERUP_DURATION;
      } else {
        poweredUp := true;
        powerupType := Some(kind);
        powerupEnd := now + POWERUP_DURATION;
      }
    }
  }
}
