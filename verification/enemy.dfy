/**
 * Enemies (milk.py, class Enemy): stats by type and level, damage, and the integer
 * bookkeeping of a tick — the shooter's fire timer, the shooter's heading rule, the
 * zigzag bounce and escape through the bottom of the screen. The float motion itself
 * (pursuit, the speed 2 + 0.1 * level) is supplied from outside as a Motion, which sees
 * the level the enemy was created at.
 */
module Enemies {
  import opened Config
  import opened Helpers
  import opened Geometry
  import opened Projectiles

  datatype EnemyKind = Chaser | Shooter | Zigzag

  /**
   * An enemy's fields; kind, level and scoreValue never change after creation. The
   * source keeps base_speed = 2 + 0.1 * level; the model keeps the level it comes from.
   */
  datatype EnemyState = EnemyState(
    kind: EnemyKind, level: int, rect: Rect, health: int, scoreValue: int,
    shootTimer: int, zigzagDir: int)

  /** A chaser is a 30 x 30 square, the others 35 x 35. */
  function Size(kind: EnemyKind): int { if kind == Chaser then 30 else 35 }

  function StartHealth(kind: EnemyKind, level: int): int {
    if kind == Chaser then 30 + level * 5 else 40 + level * 7
  }

  function ScoreValue(kind: EnemyKind): int { if kind == Chaser then 20 else 35 }

  /** What every enemy keeps true: its size and score match its type and its heading is a sign. */
  predicate WellFormed(e: EnemyState) {
    e.rect.w == Size(e.kind) && e.rect.h == Size(e.kind) &&
    e.scoreValue == ScoreValue(e.kind) &&
    (e.zigzagDir == 1 || e.zigzagDir == -1)
  }

  /** Enemy.__init__: a new enemy of the given type, centered at (x, y), for the given level. */
  function Spawned(kind: EnemyKind, x: int, y: int, level: int): (e: EnemyState)
    ensures WellFormed(e) && e.kind == kind && e.level == level
    ensures e.rect.CenterX() == x && e.rect.CenterY() == y
    ensures kind == Chaser ==> e.health == 30 + 5 * level && e.scoreValue == 20 && e.rect.w == 30
    ensures kind != Chaser ==> e.health == 40 + 7 * level && e.scoreValue == 35 && e.rect.w == 35
    ensures e.shootTimer == 0 && e.zigzagDir == 1
  {
    EnemyState(kind, level, Centered(x, y, Size(kind), Size(kind)), StartHealth(kind, level),
               ScoreValue(kind), 0, 1)
  }

  /** Enemy.damage: health drops by exactly amount; the answer is whether it reached zero. */
  function Damaged(e: EnemyState, amount: int): (r: (EnemyState, bool))
    ensures r.0 == e.(health := e.health - amount)
    ensures r.1 <==> amount >= e.health
  {
    var hurt := e.(health := e.health - amount);
    (hurt, hurt.health <= 0)
  }

  /** Damage adds up: two hits leave the same enemy, and the same verdict, as one hit of their sum. */
  lemma DamageAccumulates(e: EnemyState, a: int, b: int)
    ensures Damaged(Damaged(e, a).0, b) == Damaged(e, a + b)
  {
  }

  /** The number of player bullets an enemy with positive health can take before it dies. */
  function BulletsToKill(e: EnemyState): nat {
    if e.health <= 0 then 0 else (e.health + PLAYER_BULLET_DAMAGE - 1) / PLAYER_BULLET_DAMAGE
  }

  /** n player bullets (20 damage each) kill an enemy exactly when n reaches BulletsToKill. */
  lemma KillThreshold(e: EnemyState, n: nat)
    ensures Damaged(e, PLAYER_BULLET_DAMAGE * n).1 <==> n >= BulletsToKill(e)
  {
  }

  /** A level-1 chaser (35 health) survives one bullet and dies to two. */
  lemma FirstLevelChaser(x: int, y: int)
    ensures BulletsToKill(Spawned(Chaser, x, y, 1)) == 2
  {
  }

  /**
   * The shooter's horizontal heading: right while (now // 700) is even, left while it is odd.
   * Python's // and % with a positive divisor agree with Dafny's / and %.
   */
  function ShooterHeading(now: int): (d: int)
    ensures d == 1 || d == -1
  {
    if (now / SHOOTER_SWING_PERIOD) % 2 == 0 then 1 else -1
  }

  /** The shooter's heading reverses every 700 ms... */
  lemma HeadingFlips(now: int)
    ensures ShooterHeading(now + SHOOTER_SWING_PERIOD) == -ShooterHeading(now)
  {
  }

  /** ...and holds steady within each 700 ms window [700 k, 700 k + 700). */
  lemma HeadingSteady(k: int, now: int)
    requires SHOOTER_SWING_PERIOD * k <= now < SHOOTER_SWING_PERIOD * (k + 1)
    ensures ShooterHeading(now) == if k % 2 == 0 then 1 else -1
  {
  }

  /**
   * The horizontal sign the enemy's motion uses this tick: the shooter's time-based
   * heading, the zigzag's current direction; a chaser steers toward the player instead (0).
   */
  function Heading(e: EnemyState, now: int): (d: int)
    ensures e.kind == Shooter ==> d == ShooterHeading(now)
    ensures e.kind == Zigzag ==> d == e.zigzagDir
    ensures e.kind == Chaser ==> d == 0
  {
    match e.kind
    case Chaser => 0
    case Shooter => ShooterHeading(now)
    case Zigzag => e.zigzagDir
  }

  /**
   * The float motion of one enemy for one tick: given its state, the player's rect (which
   * a chaser pursues) and its heading, the new top-left corner of its rect. Pursuit, the
   * speed 2 + 0.1 * level and pygame's conversion to integer coordinates are outside the model.
   */
  type Motion = (EnemyState, Rect, int) -> (int, int)

  /**
   * What the source's float motion guarantees of a shooter or a zigzag created at a level
   * of at least 0: its horizontal step (base_speed, or 1.5 base_speed, at least 2 pixels)
   * has the sign of its heading, and its vertical step (0.6 base_speed or base_speed, at
   * least 1.2 pixels) takes it down the screen.
   */
  ghost predicate Steers(motion: Motion) {
    forall e: EnemyState, target: Rect, h: int ::
      e.kind != Chaser && e.level >= 0 && (h == 1 || h == -1) ==>
        h * (motion(e, target, h).0 - e.rect.x) > 0 && motion(e, target, h).1 > e.rect.y
  }

  /** The result of one Enemy.update: the enemy, the bullet it fired if any, whether it escaped. */
  datatype StepOutcome = StepOutcome(enemy: EnemyState, shot: Option<EnemyBullet>, escaped: bool)

  /** A shooter fires when strictly more than 1800 ms have passed since its last shot. */
  predicate ShooterDue(e: EnemyState, now: int) {
    e.kind == Shooter && now - e.shootTimer > ENEMY_BULLET_INTERVAL
  }

  /** The rect touches or crosses the left or right edge of the play area. */
  predicate AtWall(r: Rect) { r.Left() <= 0 || r.Right() >= WIDTH }

  /**
   * Enemy.update after its float motion has placed it at pos: a due shooter stamps its
   * timer and fires from its bottom-center, a zigzag at a wall reverses, and an enemy
   * whose top edge is below the screen escapes.
   */
  function Stepped(e: EnemyState, now: int, pos: (int, int)): (r: StepOutcome)
    ensures r.enemy.kind == e.kind && r.enemy.level == e.level && r.enemy.health == e.health && r.enemy.scoreValue == e.scoreValue
    ensures r.enemy.rect == e.rect.(x := pos.0, y := pos.1)
    ensures r.shot.Some? <==> ShooterDue(e, now)
    ensures r.enemy.shootTimer == if ShooterDue(e, now) then now else e.shootTimer
    ensures r.shot.Some? ==> r.shot.value.rect.CenterX() == r.enemy.rect.CenterX() &&
                             r.shot.value.rect.Top() == r.enemy.rect.Bottom()
    ensures r.enemy.zigzagDir == if e.kind == Zigzag && AtWall(r.enemy.rect) then -e.zigzagDir else e.zigzagDir
    ensures r.escaped <==> r.enemy.rect.Top() > HEIGHT
    ensures WellFormed(e) ==> WellFormed(r.enemy)
  {
    var moved := e.(rect := e.rect.(x := pos.0, y := pos.1));
    var (fired, shot) :=
      if ShooterDue(moved, now)
      then (moved.(shootTimer := now), Some(NewEnemyBullet(moved.rect.CenterX(), moved.rect.Bottom())))
      else (moved, None);
    var bounced :=
      if fired.kind == Zigzag && AtWall(fired.rect) then fired.(zigzagDir := -fired.zigzagDir) else fired;
    StepOutcome(bounced, shot, bounced.rect.Top() > HEIGHT)
  }

  /** Two shots of one shooter are always more than 1800 ms apart. */
  lemma ShotSpacing(e: EnemyState, now: int, pos: (int, int), later: int, pos2: (int, int))
    requires Stepped(e, now, pos).shot.Some?
    requires later - now <= ENEMY_BULLET_INTERVAL
    ensures Stepped(Stepped(e, now, pos).enemy, later, pos2).shot.None?
  {
  }

  /** An enemy (milk.py, class Enemy). */
  class Enemy {
    const kind: EnemyKind
    const level: int
    var rect: Rect
    var health: int
    const scoreValue: int
    var shootTimer: int
    var zigzagDir: int

    function State(): EnemyState
      reads this
    {
      EnemyState(kind, level, rect, health, scoreValue, shootTimer, zigzagDir)
    }

    constructor (x: int, y: int, etype: EnemyKind, level: int)
      ensures State() == Spawned(etype, x, y, level)
    {
      kind := etype;
      this.level := level;
      var size := if etype == Chaser then 30 else 35;
      rect := Centered(x, y, size, size);
      health := if etype == Chaser then 30 + level * 5 else 40 + level * 7;
      scoreValue := if etype == Chaser then 20 else 35;
      shootTimer := 0;
      zigzagDir := 1;
    }

    method Damage(amount: int) returns (dead: bool)
      modifies this
      ensures (State(), dead) == Damaged(old(State()), amount)
    {
      health := health - amount;
      return health <= 0;
    }

    /** One tick after the float motion has produced pos. */
    method Update(now: int, pos: (int, int)) returns (shot: Option<EnemyBullet>, escaped: bool)
      modifies this
      ensures StepOutcome(State(), shot, escaped) == Stepped(old(State()), now, pos)
    {
      rect := rect.(x := pos.0, y := pos.1);
      shot := None;
      if kind == Shooter && now - shootTimer > ENEMY_BULLET_INTERVAL {
        shootTimer := now;
        shot := Some(NewEnemyBullet(rect.CenterX(), rect.Bottom()));
      }
      if kind == Zigzag && (rect.Left() <= 0 || rect.Right() >= WIDTH) {
        zigzagDir := -zigzagDir;
      }
      escaped := rect.Top() > HEIGHT;
    }
  }
}
