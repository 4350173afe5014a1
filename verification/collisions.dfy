/**
 * The consequences of Game.handle_collisions, phase by phase, on values:
 *   1. enemies x player bullets: each enemy, in group order, takes every remaining bullet
 *      that overlaps it, loses 20 per bullet, and on death awards its score once and rolls
 *      for a power-up drop;
 *   2. player x enemy bullets: every overlapping bullet is removed, one 15-damage hit;
 *   3. player x enemies: every overlapping enemy is removed, one 35-damage hit, no score;
 *   4. player x pickups: every overlapping pickup is removed and applied, in order.
 */
module Collisions {
  import opened Config
  import opened Helpers
  import opened Geometry
  import opened Projectiles
  import opened Players
  import opened Enemies

  /**
   * The power-up roll made when the enemy at position i of the enemy group dies: the type
   * of the pickup it drops, or None. The 12 % chance and the uniform choice are outside
   * the model.
   */
  type Roll = nat -> Option<PowerKind>

  /** The player bullets that overlap the target rect (removed on contact). */
  function Touching(target: Rect, bs: seq<PlayerBullet>, overlap: Overlap): seq<PlayerBullet> {
    Filter(bs, (b: PlayerBullet) => overlap(target, b.rect))
  }

  /** The player bullets that do not overlap the target rect. */
  function Missing(target: Rect, bs: seq<PlayerBullet>, overlap: Overlap): seq<PlayerBullet> {
    Filter(bs, (b: PlayerBullet) => !overlap(target, b.rect))
  }

  /** The bullet overlaps none of the enemies. */
  ghost predicate Unhit(es: seq<EnemyState>, b: PlayerBullet, overlap: Overlap) {
    forall j :: 0 <= j < |es| ==> !overlap(es[j].rect, b.rect)
  }

  /** The sum of the score values of the enemies. */
  function Bounty(es: seq<EnemyState>): int
    decreases |es|
  {
    if |es| == 0 then 0 else Bounty(es[..|es| - 1]) + es[|es| - 1].scoreValue
  }

  /** The pickup an enemy dying at rect leaves at its center, if the roll produced one. */
  function Loot(roll: Option<PowerKind>, at: Rect): (ps: seq<Pickup>)
    ensures |ps| <= 1
    ensures roll.Some? ==> ps == [NewPickup(at.CenterX(), at.CenterY(), roll.value)]
    ensures roll.None? ==> ps == []
  {
    match roll
    case None => []
    case Some(kind) => [NewPickup(at.CenterX(), at.CenterY(), kind)]
  }

  /**
   * Phase 1 so far: the enemies still alive (damaged or not), the bullets not yet spent,
   * the score gained, the enemies destroyed (with their final health), the pickups they
   * dropped, and the number of bullets spent.
   */
  datatype BulletOutcome = BulletOutcome(
    survivors: seq<EnemyState>, bullets: seq<PlayerBullet>, gain: int,
    killed: seq<EnemyState>, drops: seq<Pickup>, spent: nat)

  /** The number of remaining player bullets that overlap the enemy. */
  function HitCount(e: EnemyState, bs: seq<PlayerBullet>, overlap: Overlap): nat {
    |Touching(e.rect, bs, overlap)|
  }

  /** The enemy after n player bullets. */
  function AfterHits(e: EnemyState, n: nat): EnemyState {
    Damaged(e, PLAYER_BULLET_DAMAGE * n).0
  }

  /** n > 0 bullets this tick destroy the enemy: their damage empties its health. */
  predicate Destroys(e: EnemyState, n: nat) {
    n > 0 && Damaged(e, PLAYER_BULLET_DAMAGE * n).1
  }

  /**
   * Phase 1 for the enemy at position i of the group: it takes all n remaining bullets
   * that overlap it; if n > 0 it loses 20 n health and, if that empties it, it is
   * destroyed, awards its score once and rolls for a drop; otherwise it stays.
   */
  function Resolve(acc: BulletOutcome, e: EnemyState, i: nat, overlap: Overlap, roll: Roll): (r: BulletOutcome)
    ensures r.bullets == Missing(e.rect, acc.bullets, overlap)
    ensures |r.bullets| + HitCount(e, acc.bullets, overlap) == |acc.bullets|
    ensures r.spent == acc.spent + HitCount(e, acc.bullets, overlap)
    ensures Destroys(e, HitCount(e, acc.bullets, overlap)) ==>
      && r.killed == acc.killed + [AfterHits(e, HitCount(e, acc.bullets, overlap))]
      && r.gain == acc.gain + e.scoreValue
      && r.survivors == acc.survivors
      && r.drops == acc.drops + Loot(roll(i), e.rect)
    ensures !Destroys(e, HitCount(e, acc.bullets, overlap)) ==>
      && r.survivors == acc.survivors + [AfterHits(e, HitCount(e, acc.bullets, overlap))]
      && r.killed == acc.killed
      && r.gain == acc.gain
      && r.drops == acc.drops
  {
    var n := HitCount(e, acc.bullets, overlap);
    FilterPartition(acc.bullets, (b: PlayerBullet) => overlap(e.rect, b.rect),
                    (b: PlayerBullet) => !overlap(e.rect, b.rect));
    if n == 0 then
      FilterEmpty(acc.bullets, (b: PlayerBullet) => overlap(e.rect, b.rect));
      FilterAll(acc.bullets, (b: PlayerBullet) => !overlap(e.rect, b.rect));
      acc.(survivors := acc.survivors + [e])
    else
      var (hurt, dead) := Damaged(e, PLAYER_BULLET_DAMAGE * n);
      var rest := Missing(e.rect, acc.bullets, overlap);
      if dead then
        acc.(bullets := rest, gain := acc.gain + hurt.scoreValue, killed := acc.killed + [hurt],
             drops := acc.drops + Loot(roll(i), hurt.rect), spent := acc.spent + n)
      else
        acc.(survivors := acc.survivors + [hurt], bullets := rest, spent := acc.spent + n)
  }

  /** The bullets left once each enemy in turn has taken those that overlap it. */
  function Remaining(es: seq<EnemyState>, bullets: seq<PlayerBullet>, overlap: Overlap): seq<PlayerBullet>
    decreases |es|
  {
    if |es| == 0 then bullets
    else Missing(es[|es| - 1].rect, Remaining(es[..|es| - 1], bullets, overlap), overlap)
  }

  /** Phase 1 over the whole enemy group, in group order. */
  function BulletPass(es: seq<EnemyState>, bullets: seq<PlayerBullet>, overlap: Overlap, roll: Roll): (r: BulletOutcome)
    ensures |r.survivors| + |r.killed| == |es|
    ensures |r.drops| <= |r.killed|
    ensures |r.bullets| + r.spent == |bullets|
    decreases |es|
  {
    if |es| == 0 then BulletOutcome([], bullets, 0, [], [], 0)
    else Resolve(BulletPass(es[..|es| - 1], bullets, overlap, roll), es[|es| - 1], |es| - 1, overlap, roll)
  }

  /**
   * An enemy with 30 health touched by two bullets in one tick takes 40 damage, is destroyed
   * with both bullets spent, awards its score value once, and rolls once for a drop.
   */
  lemma TwoBulletKill(e: EnemyState, b1: PlayerBullet, b2: PlayerBullet, overlap: Overlap, roll: Roll)
    requires e.health == 30
    requires overlap(e.rect, b1.rect) && overlap(e.rect, b2.rect)
    ensures var r := BulletPass([e], [b1, b2], overlap, roll);
      && r.survivors == [] && r.bullets == []
      && r.killed == [e.(health := -10)] && r.gain == e.scoreValue
      && r.drops == Loot(roll(0), e.rect) && r.spent == 2
  {
    var bs := [b1, b2];
    var hit := (b: PlayerBullet) => overlap(e.rect, b.rect);
    var miss := (b: PlayerBullet) => !overlap(e.rect, b.rect);
    assert bs[..1] == [b1] && [b1][..0] == [];
    assert Filter([b1], hit) == [b1] && Filter([b1], miss) == [];
    assert Touching(e.rect, bs, overlap) == Filter(bs, hit) == [b1, b2];
    assert Missing(e.rect, bs, overlap) == Filter(bs, miss) == [];
    assert [e][..0] == [];
  }

  /** The score gained in phase 1 is the sum of the score values of the enemies it destroyed. */
  lemma {:induction false} PassGain(es: seq<EnemyState>, bullets: seq<PlayerBullet>, overlap: Overlap, roll: Roll)
    ensures BulletPass(es, bullets, overlap, roll).gain == Bounty(BulletPass(es, bullets, overlap, roll).killed)
    decreases |es|
  {
    if |es| > 0 {
      var last := |es| - 1;
      PassGain(es[..last], bullets, overlap, roll);
      PassGainStep(es, bullets, overlap, roll);
    }
  }

  /** The gain stays the bounty of the destroyed enemies when the pass takes one more enemy. */
  lemma PassGainStep(es: seq<EnemyState>, bullets: seq<PlayerBullet>, overlap: Overlap, roll: Roll)
    requires |es| > 0
    requires BulletPass(es[..|es| - 1], bullets, overlap, roll).gain ==
      Bounty(BulletPass(es[..|es| - 1], bullets, overlap, roll).killed)
    ensures BulletPass(es, bullets, overlap, roll).gain == Bounty(BulletPass(es, bullets, overlap, roll).killed)
  {
    ResolveGain(BulletPass(es[..|es| - 1], bullets, overlap, roll), es[|es| - 1], |es| - 1, overlap, roll);
  }

  /** One enemy resolved keeps the gain equal to the bounty of the destroyed enemies. */
  lemma ResolveGain(acc: BulletOutcome, e: EnemyState, i: nat, overlap: Overlap, roll: Roll)
    requires acc.gain == Bounty(acc.killed)
    ensures Resolve(acc, e, i, overlap, roll).gain == Bounty(Resolve(acc, e, i, overlap, roll).killed)
  {
    var r := Resolve(acc, e, i, overlap, roll);
    if Destroys(e, HitCount(e, acc.bullets, overlap)) {
      assert r.killed[..|r.killed| - 1] == acc.killed;
    }
  }

  /** The bullets left after phase 1 are those that each enemy in turn did not take. */
  lemma {:induction false} PassBullets(es: seq<EnemyState>, bullets: seq<PlayerBullet>, overlap: Overlap, roll: Roll)
    ensures BulletPass(es, bullets, overlap, roll).bullets == Remaining(es, bullets, overlap)
    decreases |es|
  {
    if |es| > 0 {
      var last := |es| - 1;
      PassBullets(es[..last], bullets, overlap, roll);
      PassBulletsStep(es, bullets, overlap, roll);
    }
  }

  /** The last enemy of the group takes its overlapping bullets from those the others left. */
  lemma PassBulletsStep(es: seq<EnemyState>, bullets: seq<PlayerBullet>, overlap: Overlap, roll: Roll)
    requires |es| > 0
    ensures BulletPass(es, bullets, overlap, roll).bullets ==
      Missing(es[|es| - 1].rect, BulletPass(es[..|es| - 1], bullets, overlap, roll).bullets, overlap)
    ensures Remaining(es, bullets, overlap) ==
      Missing(es[|es| - 1].rect, Remaining(es[..|es| - 1], bullets, overlap), overlap)
  {
  }

  /** None of the enemies has health left. */
  ghost predicate NoHealthLeft(ks: seq<EnemyState>) {
    forall k :: 0 <= k < |ks| ==> ks[k].health <= 0
  }

  /** Each enemy is one of the originals, untouched, or has health left. */
  ghost predicate UntouchedOrAlive(ss: seq<EnemyState>, es: seq<EnemyState>) {
    forall k :: 0 <= k < |ss| ==> ss[k] in es || ss[k].health > 0
  }

  /** UntouchedOrAlive survives growing the group of originals and adding a qualifying enemy. */
  lemma UntouchedOrAliveGrow(ss: seq<EnemyState>, es: seq<EnemyState>, extra: seq<EnemyState>)
    requires |es| > 0 && UntouchedOrAlive(ss, es[..|es| - 1])
    requires forall k :: 0 <= k < |extra| ==> extra[k] == es[|es| - 1] || extra[k].health > 0
    ensures UntouchedOrAlive(ss + extra, es)
  {
  }

  /** Every enemy destroyed in phase 1 has no health left. */
  lemma {:induction false} PassKilledSpent(es: seq<EnemyState>, bullets: seq<PlayerBullet>, overlap: Overlap, roll: Roll)
    ensures NoHealthLeft(BulletPass(es, bullets, overlap, roll).killed)
    decreases |es|
  {
    if |es| > 0 {
      var last := |es| - 1;
      PassKilledSpent(es[..last], bullets, overlap, roll);
      var prev := BulletPass(es[..last], bullets, overlap, roll);
      var r := BulletPass(es, bullets, overlap, roll);
      var e := es[last];
      assert r == Resolve(prev, e, last, overlap, roll);
      var n := HitCount(e, prev.bullets, overlap);
      if Destroys(e, n) {
        assert r.killed == prev.killed + [AfterHits(e, n)];
      }
    }
  }

  /** The enemy, if any, that stays in the group after taking n bullets in phase 1. */
  function Stayed(e: EnemyState, n: nat): (ss: seq<EnemyState>)
    ensures |ss| <= 1
    ensures forall k :: 0 <= k < |ss| ==> ss[k] == e || ss[k].health > 0
    ensures WellFormed(e) ==> forall k :: 0 <= k < |ss| ==> WellFormed(ss[k])
  {
    if Destroys(e, n) then [] else [AfterHits(e, n)]
  }

  /** Every enemy that stays after phase 1 is either untouched or still has health. */
  lemma {:induction false} PassSurvivorsAlive(es: seq<EnemyState>, bullets: seq<PlayerBullet>, overlap: Overlap, roll: Roll)
    ensures UntouchedOrAlive(BulletPass(es, bullets, overlap, roll).survivors, es)
    decreases |es|
  {
    if |es| > 0 {
      var last := |es| - 1;
      PassSurvivorsAlive(es[..last], bullets, overlap, roll);
      var prev := BulletPass(es[..last], bullets, overlap, roll);
      var e := es[last];
      var n := HitCount(e, prev.bullets, overlap);
      assert BulletPass(es, bullets, overlap, roll) == Resolve(prev, e, last, overlap, roll);
      assert BulletPass(es, bullets, overlap, roll).survivors == prev.survivors + Stayed(e, n);
      UntouchedOrAliveGrow(prev.survivors, es, Stayed(e, n));
    }
  }

  /** Every enemy is well formed and has health left: what holds of the enemy group between ticks. */
  ghost predicate Fit(es: seq<EnemyState>) {
    forall k :: 0 <= k < |es| ==> WellFormed(es[k]) && es[k].health > 0
  }

  /** Every enemy is well formed. */
  ghost predicate AllWellFormed(es: seq<EnemyState>) {
    forall k :: 0 <= k < |es| ==> WellFormed(es[k])
  }

  /** A fit group stays a group of well-formed enemies with health left after phase 1. */
  lemma {:induction false} PassSurvivorsFit(es: seq<EnemyState>, bullets: seq<PlayerBullet>, overlap: Overlap, roll: Roll)
    requires Fit(es)
    ensures Fit(BulletPass(es, bullets, overlap, roll).survivors)
    decreases |es|
  {
    if |es| > 0 {
      var last := |es| - 1;
      assert Fit(es[..last]) by {
        forall k | 0 <= k < last ensures WellFormed(es[..last][k]) && es[..last][k].health > 0 {
          assert es[..last][k] == es[k];
        }
      }
      PassSurvivorsFit(es[..last], bullets, overlap, roll);
      var prev := BulletPass(es[..last], bullets, overlap, roll);
      var e := es[last];
      var n := HitCount(e, prev.bullets, overlap);
      assert BulletPass(es, bullets, overlap, roll).survivors == prev.survivors + Stayed(e, n);
      assert Fit(Stayed(e, n));
      FitAppend(prev.survivors, Stayed(e, n));
    }
  }

  /** Two fit groups together are fit. */
  lemma FitAppend(ss: seq<EnemyState>, extra: seq<EnemyState>)
    ensures Fit(ss) && Fit(extra) ==> Fit(ss + extra)
  {
  }

  /** The enemies destroyed in phase 1 keep their type's size and score. */
  lemma {:induction false} PassKilledWellFormed(es: seq<EnemyState>, bullets: seq<PlayerBullet>, overlap: Overlap, roll: Roll)
    requires AllWellFormed(es)
    ensures AllWellFormed(BulletPass(es, bullets, overlap, roll).killed)
    decreases |es|
  {
    if |es| > 0 {
      var last := |es| - 1;
      assert AllWellFormed(es[..last]) by {
        forall k | 0 <= k < last ensures WellFormed(es[..last][k]) {
          assert es[..last][k] == es[k];
        }
      }
      PassKilledWellFormed(es[..last], bullets, overlap, roll);
      var prev := BulletPass(es[..last], bullets, overlap, roll);
      var e := es[last];
      var n := HitCount(e, prev.bullets, overlap);
      var r := BulletPass(es, bullets, overlap, roll);
      assert r == Resolve(prev, e, last, overlap, roll);
      if Destroys(e, n) {
        assert r.killed == prev.killed + [AfterHits(e, n)];
      }
    }
  }

  /** Well-formed enemies are worth at least 20 each. */
  lemma {:induction false} BountyFloor(ks: seq<EnemyState>)
    requires AllWellFormed(ks)
    ensures Bounty(ks) >= PLAYER_BULLET_DAMAGE * |ks|
    decreases |ks|
  {
    if |ks| > 0 {
      var last := |ks| - 1;
      assert AllWellFormed(ks[..last]) by {
        forall k | 0 <= k < last ensures WellFormed(ks[..last][k]) {
          assert ks[..last][k] == ks[k];
        }
      }
      BountyFloor(ks[..last]);
      assert WellFormed(ks[last]);
    }
  }

  /** Missing every enemy of a group is missing all but the last and missing the last. */
  lemma UnhitSplit(es: seq<EnemyState>, b: PlayerBullet, overlap: Overlap)
    requires |es| > 0
    ensures Unhit(es, b, overlap) <==>
            Unhit(es[..|es| - 1], b, overlap) && !overlap(es[|es| - 1].rect, b.rect)
  {
  }

  /** Every kept bullet is one of the originals and overlaps none of the enemies. */
  ghost predicate OnlyUnhit(kept: seq<PlayerBullet>, bullets: seq<PlayerBullet>, es: seq<EnemyState>, overlap: Overlap) {
    forall k :: 0 <= k < |kept| ==> kept[k] in bullets && Unhit(es, kept[k], overlap)
  }

  /** Every original bullet that overlaps none of the enemies is kept. */
  ghost predicate AllUnhit(kept: seq<PlayerBullet>, bullets: seq<PlayerBullet>, es: seq<EnemyState>, overlap: Overlap) {
    forall k :: 0 <= k < |bullets| && Unhit(es, bullets[k], overlap) ==> bullets[k] in kept
  }

  /** A bullet left after phase 1 is one of the input bullets and overlaps no enemy. */
  lemma {:induction false} PassKeepsOnlyUnhit(es: seq<EnemyState>, bullets: seq<PlayerBullet>, overlap: Overlap)
    ensures OnlyUnhit(Remaining(es, bullets, overlap), bullets, es, overlap)
    decreases |es|
  {
    if |es| > 0 {
      var last := |es| - 1;
      PassKeepsOnlyUnhit(es[..last], bullets, overlap);
      var prev := Remaining(es[..last], bullets, overlap);
      var kept := Remaining(es, bullets, overlap);
      FilterMembers(prev, (b: PlayerBullet) => !overlap(es[last].rect, b.rect));
      forall k | 0 <= k < |kept|
        ensures kept[k] in bullets && Unhit(es, kept[k], overlap)
      {
        var b := kept[k];
        assert b in prev && !overlap(es[last].rect, b.rect);
        var m :| 0 <= m < |prev| && prev[m] == b;
        UnhitSplit(es, b, overlap);
      }
    }
  }

  /**
   * Every input bullet that overlaps no enemy survives phase 1: only bullets that touch an
   * enemy are spent.
   */
  lemma {:induction false} PassKeepsAllUnhit(es: seq<EnemyState>, bullets: seq<PlayerBullet>, overlap: Overlap)
    ensures AllUnhit(Remaining(es, bullets, overlap), bullets, es, overlap)
    decreases |es|
  {
    if |es| > 0 {
      var last := |es| - 1;
      PassKeepsAllUnhit(es[..last], bullets, overlap);
      var prev := Remaining(es[..last], bullets, overlap);
      FilterMembers(prev, (b: PlayerBullet) => !overlap(es[last].rect, b.rect));
      forall k | 0 <= k < |bullets| && Unhit(es, bullets[k], overlap)
        ensures bullets[k] in Remaining(es, bullets, overlap)
      {
        UnhitSplit(es, bullets[k], overlap);
        assert bullets[k] in prev;
        var m :| 0 <= m < |prev| && prev[m] == bullets[k];
      }
    }
  }

  /** The enemy bullets that overlap the player's rect. */
  function BulletsOn(box: Rect, bs: seq<EnemyBullet>, overlap: Overlap): seq<EnemyBullet> {
    Filter(bs, (b: EnemyBullet) => overlap(box, b.rect))
  }

  /** The enemy bullets that do not overlap the player's rect. */
  function BulletsClear(box: Rect, bs: seq<EnemyBullet>, overlap: Overlap): seq<EnemyBullet> {
    Filter(bs, (b: EnemyBullet) => !overlap(box, b.rect))
  }

  /**
   * Phase 2: all enemy bullets overlapping the player are removed and, however many there
   * are, the player takes a single 15-damage hit.
   */
  function Struck(p: PlayerState, bs: seq<EnemyBullet>, overlap: Overlap, now: int): (r: (PlayerState, seq<EnemyBullet>))
    ensures r.0 == if exists k :: 0 <= k < |bs| && overlap(p.Box(), bs[k].rect)
                   then Hurt(p, ENEMY_BULLET_DAMAGE, now) else p
    ensures |r.1| <= |bs|
    ensures forall k :: 0 <= k < |r.1| ==> r.1[k] in bs && !overlap(p.Box(), r.1[k].rect)
    ensures forall k :: 0 <= k < |bs| && !overlap(p.Box(), bs[k].rect) ==> bs[k] in r.1
  {
    var hits := BulletsOn(p.Box(), bs, overlap);
    FilterEmpty(bs, (b: EnemyBullet) => overlap(p.Box(), b.rect));
    FilterMembers(bs, (b: EnemyBullet) => !overlap(p.Box(), b.rect));
    (if |hits| > 0 then Hurt(p, ENEMY_BULLET_DAMAGE, now) else p, BulletsClear(p.Box(), bs, overlap))
  }

  /** The enemies that overlap the player's rect. */
  function Rammers(box: Rect, es: seq<EnemyState>, overlap: Overlap): seq<EnemyState> {
    Filter(es, (e: EnemyState) => overlap(box, e.rect))
  }

  /** The enemies that do not overlap the player's rect. */
  function Bystanders(box: Rect, es: seq<EnemyState>, overlap: Overlap): seq<EnemyState> {
    Filter(es, (e: EnemyState) => !overlap(box, e.rect))
  }

  /**
   * Phase 3: all enemies overlapping the player are destroyed, without score, and however
   * many there are, the player takes a single 35-damage hit.
   */
  function Rammed(p: PlayerState, es: seq<EnemyState>, overlap: Overlap, now: int): (r: (PlayerState, seq<EnemyState>))
    ensures r.0 == if exists k :: 0 <= k < |es| && overlap(p.Box(), es[k].rect)
                   then Hurt(p, RAM_DAMAGE, now) else p
    ensures |r.1| <= |es|
    ensures forall k :: 0 <= k < |r.1| ==> r.1[k] in es && !overlap(p.Box(), r.1[k].rect)
    ensures forall k :: 0 <= k < |es| && !overlap(p.Box(), es[k].rect) ==> es[k] in r.1
  {
    var hits := Rammers(p.Box(), es, overlap);
    FilterEmpty(es, (e: EnemyState) => overlap(p.Box(), e.rect));
    FilterMembers(es, (e: EnemyState) => !overlap(p.Box(), e.rect));
    (if |hits| > 0 then Hurt(p, RAM_DAMAGE, now) else p, Bystanders(p.Box(), es, overlap))
  }

  /** The enemies phase 3 leaves are fit when the group was. */
  lemma RammedFit(p: PlayerState, es: seq<EnemyState>, overlap: Overlap, now: int)
    requires Fit(es)
    ensures Fit(Rammed(p, es, overlap, now).1)
  {
  }

  /** The pickups that overlap the player's rect. */
  function PickupsOn(box: Rect, ps: seq<Pickup>, overlap: Overlap): seq<Pickup> {
    Filter(ps, (q: Pickup) => overlap(box, q.rect))
  }

  /** The pickups that do not overlap the player's rect. */
  function PickupsClear(box: Rect, ps: seq<Pickup>, overlap: Overlap): seq<Pickup> {
    Filter(ps, (q: Pickup) => !overlap(box, q.rect))
  }

  /** Each pickup applied to the player in turn. */
  function ApplyAll(p: PlayerState, ps: seq<Pickup>, now: int): (r: PlayerState)
    ensures r.lives == p.lives && r.x == p.x && r.y == p.y
    ensures p.Healthy() ==> r.Healthy()
    ensures r.lastShot == p.lastShot
    decreases |ps|
  {
    if |ps| == 0 then p
    else Collected(ApplyAll(p, ps[..|ps| - 1], now), ps[|ps| - 1].kind, now)
  }

  /**
   * A shield anywhere among the pickups leaves the player invincible until six seconds
   * from now, since nothing else applied in the same tick clears it.
   */
  lemma {:induction false} ShieldHolds(p: PlayerState, ps: seq<Pickup>, now: int, k: nat)
    requires k < |ps| && ps[k].kind == Shield
    ensures ApplyAll(p, ps, now).invincible
    ensures ApplyAll(p, ps, now).invincibleEnd == now + POWERUP_DURATION
    decreases |ps|
  {
    if k < |ps| - 1 {
      ShieldHolds(p, ps[..|ps| - 1], now, k);
    }
  }

  /** Phase 4: every pickup overlapping the player is removed and applied, in group order. */
  function Collect(p: PlayerState, ps: seq<Pickup>, overlap: Overlap, now: int): (r: (PlayerState, seq<Pickup>))
    ensures r.0 == ApplyAll(p, PickupsOn(p.Box(), ps, overlap), now)
    ensures |PickupsOn(p.Box(), ps, overlap)| + |r.1| == |ps|
    ensures forall k :: 0 <= k < |r.1| ==> r.1[k] in ps && !overlap(p.Box(), r.1[k].rect)
    ensures forall k :: 0 <= k < |ps| && !overlap(p.Box(), ps[k].rect) ==> ps[k] in r.1
  {
    FilterPartition(ps, (q: Pickup) => overlap(p.Box(), q.rect), (q: Pickup) => !overlap(p.Box(), q.rect));
    FilterMembers(ps, (q: Pickup) => !overlap(p.Box(), q.rect));
    (ApplyAll(p, PickupsOn(p.Box(), ps, overlap), now), PickupsClear(p.Box(), ps, overlap))
  }
}
