/**
 * Bullets and power-up pickups (milk.py: PlayerBullet, EnemyBullet, Powerup). Their only
 * state is a rect that moves by a fixed step every tick, so they are values here, kept in
 * the game's sequences in group order.
 */
module Projectiles {
  import opened Config
  import opened Helpers
  import opened Geometry

  /** The type a power-up pickup carries. */
  datatype PowerKind = Heal | Shield | Rapid | Spread

  /** The deflection a player bullet is fired with: -10, 0 or +10 degrees from straight up. */
  datatype Aim = AimLeft | Straight | AimRight

  datatype PlayerBullet = PlayerBullet(rect: Rect, aim: Aim)
  datatype EnemyBullet = EnemyBullet(rect: Rect)
  datatype Pickup = Pickup(rect: Rect, kind: PowerKind)

  /**
   * Where a deflected player bullet's rect lands after one tick. Its velocity is a sine and
   * a cosine of the angle, truncated by pygame into the integer rect; that arithmetic is
   * not modelled and is supplied from outside.
   */
  type Drift = PlayerBullet -> (int, int)

  /** A player bullet is a 4 x 12 rect whose bottom-center is the muzzle (x, y). */
  function NewPlayerBullet(x: int, y: int, aim: Aim): (b: PlayerBullet)
    ensures b.rect.CenterX() == x && b.rect.Bottom() == y
    ensures b.rect.w == 4 && b.rect.h == 12 && b.aim == aim
  {
    PlayerBullet(Rect(x - 2, y - 12, 4, 12), aim)
  }

  /** One tick of a player bullet: a straight one rises exactly 10 pixels, a deflected one drifts. */
  function Flown(b: PlayerBullet, drift: Drift): (r: PlayerBullet)
    ensures b.aim == Straight ==> r.rect == b.rect.(y := b.rect.y - PLAYER_BULLET_SPEED)
    ensures r.aim == b.aim && r.rect.w == b.rect.w && r.rect.h == b.rect.h
  {
    match b.aim
    case Straight => b.(rect := b.rect.(y := b.rect.y - PLAYER_BULLET_SPEED))
    case _ =>
      var (x, y) := drift(b);
      b.(rect := b.rect.(x := x, y := y))
  }

  /** A player bullet is killed once its bottom edge is above the top of the screen. */
  predicate InFlight(b: PlayerBullet) { b.rect.Bottom() >= 0 }

  /** Every player bullet's update: move, then drop those that left through the top. */
  function Fly(bs: seq<PlayerBullet>, drift: Drift): (r: seq<PlayerBullet>)
    ensures |r| <= |bs|
    ensures forall i :: 0 <= i < |r| ==> InFlight(r[i])
    ensures forall i :: 0 <= i < |bs| && InFlight(Flown(bs[i], drift)) ==> Flown(bs[i], drift) in r
  {
    var moved := Map(bs, b => Flown(b, drift));
    assert forall i :: 0 <= i < |bs| ==> moved[i] == Flown(bs[i], drift);
    FilterMembers(moved, InFlight);
    Filter(moved, InFlight)
  }

  /** An enemy bullet is a 4 x 10 rect whose top-center is the muzzle (x, y). */
  function NewEnemyBullet(x: int, y: int): (b: EnemyBullet)
    ensures b.rect.CenterX() == x && b.rect.Top() == y
    ensures b.rect.w == 4 && b.rect.h == 10
  {
    EnemyBullet(Rect(x - 2, y, 4, 10))
  }

  function Fallen(b: EnemyBullet): (r: EnemyBullet)
    ensures r.rect == b.rect.(y := b.rect.y + ENEMY_BULLET_SPEED)
  {
    b.(rect := b.rect.(y := b.rect.y + ENEMY_BULLET_SPEED))
  }

  /** Enemy bullets and pickups are killed once their top edge is below the screen. */
  predicate BulletOnScreen(b: EnemyBullet) { b.rect.Top() <= HEIGHT }

  /** Every enemy bullet's update: fall 6 pixels, then drop those below the screen. */
  function Descend(bs: seq<EnemyBullet>): (r: seq<EnemyBullet>)
    ensures |r| <= |bs|
    ensures forall i :: 0 <= i < |r| ==> BulletOnScreen(r[i])
    ensures forall i :: 0 <= i < |bs| && BulletOnScreen(Fallen(bs[i])) ==> Fallen(bs[i]) in r
  {
    FilterMembers(Map(bs, Fallen), BulletOnScreen);
    Filter(Map(bs, Fallen), BulletOnScreen)
  }

  /** A pickup is a 20 x 20 rect centered where the enemy died. */
  function NewPickup(x: int, y: int, kind: PowerKind): (p: Pickup)
    ensures p.rect.CenterX() == x && p.rect.CenterY() == y
    ensures p.rect.w == 20 && p.rect.h == 20 && p.kind == kind
  {
    Pickup(Centered(x, y, 20, 20), kind)
  }

  function Dropped(p: Pickup): (r: Pickup)
    ensures r.rect == p.rect.(y := p.rect.y + POWERUP_FALL_SPEED) && r.kind == p.kind
  {
    p.(rect := p.rect.(y := p.rect.y + POWERUP_FALL_SPEED))
  }

  predicate PickupOnScreen(p: Pickup) { p.rect.Top() <= HEIGHT }

  /** Every pickup's update: fall 2 pixels, then drop those below the screen. */
  function Sink(ps: seq<Pickup>): (r: seq<Pickup>)
    ensures |r| <= |ps|
    ensures forall i :: 0 <= i < |r| ==> PickupOnScreen(r[i])
    ensures forall i :: 0 <= i < |ps| && PickupOnScreen(Dropped(ps[i])) ==> Dropped(ps[i]) in r
  {
    FilterMembers(Map(ps, Dropped), PickupOnScreen);
    Filter(Map(ps, Dropped), PickupOnScreen)
  }

  /** Every player bullet still flying after the tick is one of the bullets before it, moved. */
  lemma FlyFrom(bs: seq<PlayerBullet>, drift: Drift)
    ensures forall i :: 0 <= i < |Fly(bs, drift)| ==> exists j :: 0 <= j < |bs| && Fly(bs, drift)[i] == Flown(bs[j], drift)
  {
    var moved := Map(bs, b => Flown(b, drift));
    assert Fly(bs, drift) == Filter(moved, InFlight);
    FilterMembers(moved, InFlight);
    forall i | 0 <= i < |Fly(bs, drift)| ensures exists j :: 0 <= j < |bs| && Fly(bs, drift)[i] == Flown(bs[j], drift) {
      var j :| 0 <= j < |moved| && moved[j] == Fly(bs, drift)[i];
    }
  }

  /** Every enemy bullet left after the tick is one of the bullets before it, 6 pixels lower. */
  lemma DescendFrom(bs: seq<EnemyBullet>)
    ensures forall i :: 0 <= i < |Descend(bs)| ==> exists j :: 0 <= j < |bs| && Descend(bs)[i] == Fallen(bs[j])
  {
    var moved := Map(bs, Fallen);
    assert Descend(bs) == Filter(moved, BulletOnScreen);
    FilterMembers(moved, BulletOnScreen);
    forall i | 0 <= i < |Descend(bs)| ensures exists j :: 0 <= j < |bs| && Descend(bs)[i] == Fallen(bs[j]) {
      assert Descend(bs)[i] in moved;
      var j :| 0 <= j < |moved| && moved[j] == Descend(bs)[i];
    }
  }

  /** Every pickup left after the tick is one of the pickups before it, 2 pixels lower. */
  lemma SinkFrom(ps: seq<Pickup>)
    ensures forall i :: 0 <= i < |Sink(ps)| ==> exists j :: 0 <= j < |ps| && Sink(ps)[i] == Dropped(ps[j])
  {
    var moved := Map(ps, Dropped);
    assert Sink(ps) == Filter(moved, PickupOnScreen);
    FilterMembers(moved, PickupOnScreen);
    forall i | 0 <= i < |Sink(ps)| ensures exists j :: 0 <= j < |ps| && Sink(ps)[i] == Dropped(ps[j]) {
      assert Sink(ps)[i] in moved;
      var j :| 0 <= j < |moved| && moved[j] == Sink(ps)[i];
    }
  }
}
