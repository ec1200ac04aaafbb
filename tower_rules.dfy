/**
 * The rules a tower follows, on values (tower/Tower.java and its five
 * subclasses): effective damage, range and fire rate under the powerup
 * multipliers, the fire cooldown, nearest-in-range targeting, the three kinds
 * of attack, upgrading, and the multiplier changes powerups make.
 *
 * Distances are compared squared, on whole tiles, which is exact: the source
 * takes square roots of whole numbers and compares them with ranges that are
 * whole tiles times 1.0 or 1.5. Multipliers are percentages (100 = 1.0) and
 * game time is whole milliseconds.
 */
module TowerRules {
  import opened Wrappers
  import opened Tiles
  import opened Directions
  import opened Pathfinding
  import opened Enemies
  import opened TowerTypes
  import opened Powerups

  /** SlowTower.SLOW_FACTOR (0.75) and SLOW_DURATION (ms). */
  const SlowFactorPct: int := 75
  const SlowDurationMs: int := 2000

  /** Everything a tower holds except its list of powerups. */
  datatype TowerData = TowerData(
    towerType: TowerType,
    position: Point,
    level: int,
    lastShotTime: int,
    damagePct: int,
    fireRatePct: int,
    rangePct: int)

  /** A new tower: level 1, never fired, every multiplier 1.0. */
  function NewTower(k: TowerType, position: Point): (t: TowerData)
    ensures ValidLevel(t.level) && t.towerType == k && t.position == position
  {
    TowerData(k, position, 1, 0, DefaultPct, DefaultPct, DefaultPct)
  }

  // ---------------------------------------------------------------- upgrades

  /** upgrade: one level up while below the cap; the flag says whether it happened. */
  function Upgraded(t: TowerData): (TowerData, bool)
  {
    if t.level < MaxLevel then (t.(level := t.level + 1), true) else (t, false)
  }

  /**
   * An upgrade succeeds exactly below the cap, then raises the level by one
   * and changes nothing else; a refused upgrade changes nothing at all.
   */
  lemma UpgradeSpec(t: TowerData)
    requires ValidLevel(t.level)
    ensures var (t', ok) := Upgraded(t);
      ValidLevel(t'.level) && (ok <==> t.level < MaxLevel) &&
      (ok ==> t' == t.(level := t.level + 1)) && (!ok ==> t' == t)
  {
  }

  /** The tower after `n` upgrade requests. */
  function UpgradedTimes(t: TowerData, n: nat): TowerData
  {
    if n == 0 then t else Upgraded(UpgradedTimes(t, n - 1)).0
  }

  /** Upgrades saturate: `n` requests from level `l` reach level min(l + n, 3). */
  lemma {:induction false} UpgradesSaturate(t: TowerData, n: nat)
    requires ValidLevel(t.level)
    ensures ValidLevel(UpgradedTimes(t, n).level)
    ensures UpgradedTimes(t, n).level == if t.level + n < MaxLevel then t.level + n else MaxLevel
    ensures UpgradedTimes(t, n) == t.(level := UpgradedTimes(t, n).level)
  {
    if n > 0 {
      UpgradesSaturate(t, n - 1);
    }
  }

  // ------------------------------------------------------------- multipliers

  /** The multiplier a tower currently has on attribute `a`. */
  function Multiplier(t: TowerData, a: Attribute): int
  {
    match a
    case Damage => t.damagePct
    case FireRate => t.fireRatePct
    case Range => t.rangePct
  }

  /** apply*Multiplier (and, with DefaultPct, reset*Multiplier): overwrite one attribute. */
  function WithMultiplier(t: TowerData, a: Attribute, pct: int): TowerData
  {
    match a
    case Damage => t.(damagePct := pct)
    case FireRate => t.(fireRatePct := pct)
    case Range => t.(rangePct := pct)
  }

  /**
   * Setting a multiplier overwrites it rather than compounding, touches no
   * other attribute, and resetting restores 1.0 whatever was set before.
   */
  lemma WithMultiplierSpec(t: TowerData, a: Attribute, x: int, y: int)
    ensures forall b :: Multiplier(WithMultiplier(t, a, x), b) == if a == b then x else Multiplier(t, b)
    ensures WithMultiplier(WithMultiplier(t, a, x), a, y) == WithMultiplier(t, a, y)
    ensures WithMultiplier(t, a, x).(damagePct := t.damagePct, fireRatePct := t.fireRatePct, rangePct := t.rangePct) == t
    ensures Multiplier(WithMultiplier(WithMultiplier(t, a, x), a, DefaultPct), a) == DefaultPct
  {
  }

  /** The tower right after a new powerup of kind `p` applied its effect. */
  function Boosted(t: TowerData, p: PowerupType): TowerData
  {
    WithMultiplier(t, AttributeOf(p), MultiplierPct(p))
  }

  /**
   * updatePowerups, on the tower: every powerup is asked isExpired in list
   * order, and each one that reverts resets its attribute to 1.0.
   */
  function RevertAll(t: TowerData, ps: seq<PowerupData>, now: int): TowerData
    decreases |ps|
  {
    if ps == [] then t
    else
      var p := ps[|ps| - 1];
      var t' := RevertAll(t, ps[..|ps| - 1], now);
      if Observe(p, now).1 then WithMultiplier(t', p.attribute, DefaultPct) else t'
  }

  /** updatePowerups, on the list: removeIf keeps the powerups that have not expired, in order. */
  function Unexpired(ps: seq<PowerupData>, now: int): seq<PowerupData>
    decreases |ps|
  {
    if ps == [] then []
    else Unexpired(ps[..|ps| - 1], now) + (if Expired(ps[|ps| - 1], now) then [] else [ps[|ps| - 1]])
  }

  /** Whether some active powerup on attribute `a` has run out. */
  predicate RunsOut(ps: seq<PowerupData>, a: Attribute, now: int)
  {
    exists k :: 0 <= k < |ps| && ps[k].attribute == a && ps[k].effectActive && Expired(ps[k], now)
  }

  /**
   * The order of the list does not matter: an attribute goes back to 1.0
   * exactly when some active powerup on it has run out, and otherwise keeps
   * its multiplier, even one another expired powerup had set.
   */
  lemma {:induction false} RevertAllSpec(t: TowerData, ps: seq<PowerupData>, now: int)
    ensures forall a :: Multiplier(RevertAll(t, ps, now), a) == if RunsOut(ps, a, now) then DefaultPct else Multiplier(t, a)
    ensures RevertAll(t, ps, now).(damagePct := t.damagePct, fireRatePct := t.fireRatePct, rangePct := t.rangePct) == t
    decreases |ps|
  {
    if ps != [] {
      var n := |ps| - 1;
      RevertAllSpec(t, ps[..n], now);
      forall a
        ensures RunsOut(ps, a, now) <==> RunsOut(ps[..n], a, now) || (ps[n].attribute == a && Observe(ps[n], now).1)
      {
        if RunsOut(ps, a, now) && !(ps[n].attribute == a && Observe(ps[n], now).1) {
          var k :| 0 <= k < |ps| && ps[k].attribute == a && ps[k].effectActive && Expired(ps[k], now);
          assert ps[..n][k] == ps[k];
        }
        if RunsOut(ps[..n], a, now) {
          var k :| 0 <= k < n && ps[..n][k].attribute == a && ps[..n][k].effectActive && Expired(ps[..n][k], now);
          assert ps[k] == ps[..n][k];
        }
      }
    }
  }

  /** The list after removeIf holds exactly the unexpired powerups, in their old order. */
  lemma {:induction false} UnexpiredSpec(ps: seq<PowerupData>, now: int)
    ensures forall p :: p in Unexpired(ps, now) <==> p in ps && !Expired(p, now)
    ensures |Unexpired(ps, now)| <= |ps|
    decreases |ps|
  {
    if ps != [] {
      var n := |ps| - 1;
      UnexpiredSpec(ps[..n], now);
      assert ps == ps[..n] + [ps[n]];
    }
  }

  /**
   * removeIf keeps the list's order: filtering two lists one after the other
   * is filtering their concatenation, so each kept powerup stays where it
   * was relative to the others.
   */
  lemma {:induction false} UnexpiredKeepsOrder(a: seq<PowerupData>, b: seq<PowerupData>, now: int)
    ensures Unexpired(a + b, now) == Unexpired(a, now) + Unexpired(b, now)
    decreases |b|
  {
    if b == [] {
      assert a + b == a;
    } else {
      var n := |b| - 1;
      UnexpiredKeepsOrder(a, b[..n], now);
      assert (a + b)[..|a + b| - 1] == a + b[..n];
      assert (a + b)[|a + b| - 1] == b[n];
    }
  }

  // ------------------------------------------------------ effective statistics

  /** getDamage: the base damage times the multiplier, truncated toward zero by the cast to int. */
  function EffectiveDamage(t: TowerData): int
    requires ValidLevel(t.level)
  {
    var scaled := BaseDamage(t.towerType, t.level) * t.damagePct;
    if scaled >= 0 then scaled / 100 else -((-scaled) / 100)
  }

  /** Double damage doubles exactly; without a boost the base damage applies. */
  lemma EffectiveDamageSpec(t: TowerData)
    requires ValidLevel(t.level)
    ensures t.damagePct == DefaultPct ==> EffectiveDamage(t) == BaseDamage(t.towerType, t.level)
    ensures t.damagePct == MultiplierPct(DoubleDamage) ==> EffectiveDamage(t) == 2 * BaseDamage(t.towerType, t.level)
    ensures t.damagePct >= 0 ==> EffectiveDamage(t) >= 0
  {
  }

  /** The squared Euclidean distance between two grid points. */
  function Dist2(a: Point, b: Point): nat
  {
    (a.x - b.x) * (a.x - b.x) + (a.y - b.y) * (a.y - b.y)
  }

  /** getDistanceTo, squared: from the tower's tile to the enemy's nearest tile. */
  function DistanceTo(t: TowerData, e: EnemyData): nat
  {
    Dist2(t.position, GridPosition(e))
  }

  /**
   * distance <= getRange(), with getRange() = base range times the range
   * multiplier: the range is not negative and, both sides squared and scaled
   * by 100^2, the distance does not exceed it.
   */
  predicate InRange(t: TowerData, e: EnemyData)
    requires ValidLevel(t.level)
  {
    var r := BaseRange(t.towerType, t.level) * t.rangePct;
    r >= 0 && DistanceTo(t, e) * (100 * 100) <= r * r
  }

  /**
   * Without a boost the range is the table's whole number of tiles, and a
   * larger range multiplier never takes an enemy out of range.
   */
  lemma InRangeSpec(t: TowerData, e: EnemyData, pct: int)
    requires ValidLevel(t.level) && 0 <= t.rangePct <= pct
    ensures t.rangePct == DefaultPct ==>
              (InRange(t, e) <==> DistanceTo(t, e) <= BaseRange(t.towerType, t.level) * BaseRange(t.towerType, t.level))
    ensures InRange(t, e) ==> InRange(t.(rangePct := pct), e)
  {
    var b := BaseRange(t.towerType, t.level);
    var d := DistanceTo(t, e);
    if t.rangePct == DefaultPct {
      assert (b * 100) * (b * 100) == b * b * (100 * 100);
    }
    assert b * t.rangePct <= b * pct;
    assert (b * t.rangePct) * (b * t.rangePct) <= (b * pct) * (b * pct) by {
      MulMono(b * t.rangePct, b * pct);
    }
  }

  lemma MulMono(x: int, y: int)
    requires 0 <= x <= y
    ensures x * x <= y * y
  {
    assert x * x <= x * y;
  }

  /**
   * canShoot: at least 1 / fireRate seconds since the last shot. The fire
   * rate is `f / 1000` shots a second, with `f` the tenths of the table times
   * the percentage, so the wait is 10^6 / f ms; a rate of zero makes it
   * infinite and a negative rate negative, as floating-point division does.
   */
  predicate CanShoot(t: TowerData, clock: int)
    requires ValidLevel(t.level)
  {
    var f := FireRateTenths(t.towerType, t.level) * t.fireRatePct;
    var elapsed := clock - t.lastShotTime;
    if f > 0 then elapsed * f >= 1000 * 1000
    else if f == 0 then false
    else elapsed * f <= 1000 * 1000
  }

  /**
   * Once a tower may fire it may fire at every later time, it may not fire
   * again at the time of its last shot, and doubling the fire rate exactly
   * halves the wait.
   */
  lemma CanShootSpec(t: TowerData, c1: int, c2: int)
    requires ValidLevel(t.level) && t.fireRatePct > 0
    ensures CanShoot(t, c1) && c1 <= c2 ==> CanShoot(t, c2)
    ensures !CanShoot(t, t.lastShotTime)
    ensures t.fireRatePct == DefaultPct ==>
              (CanShoot(t, t.lastShotTime + 2 * (c1 - t.lastShotTime)) <==>
               CanShoot(t.(fireRatePct := MultiplierPct(DoubleFireRate)), c1))
  {
    var base := FireRateTenths(t.towerType, t.level);
    var f := base * t.fireRatePct;
    assert f > 0;
    if c1 <= c2 {
      MulMonoLeft(c1 - t.lastShotTime, c2 - t.lastShotTime, f);
    }
    if t.fireRatePct == DefaultPct {
      var e := c1 - t.lastShotTime;
      assert (2 * e) * (base * 100) == e * (base * 200);
    }
  }

  lemma MulMonoLeft(x: int, y: int, f: int)
    requires x <= y && f > 0
    ensures x * f <= y * f
  {
  }

  // ---------------------------------------------------------------- targeting

  /**
   * Enemy `i` is the one findTarget picks: in range, no farther than any
   * enemy in range, and strictly nearer than every in-range enemy before it.
   */
  predicate IsNearest(t: TowerData, es: seq<EnemyData>, i: int)
    requires ValidLevel(t.level)
  {
    0 <= i < |es| && InRange(t, es[i]) &&
    (forall j :: 0 <= j < |es| && InRange(t, es[j]) ==> DistanceTo(t, es[i]) <= DistanceTo(t, es[j])) &&
    (forall j :: 0 <= j < i && InRange(t, es[j]) ==> DistanceTo(t, es[i]) < DistanceTo(t, es[j]))
  }

  /**
   * findTarget, by the index of the enemy it returns: the scan keeps an enemy
   * when it is in range and strictly nearer than the best so far.
   */
  function Closest(t: TowerData, es: seq<EnemyData>): (r: Option<nat>)
    requires ValidLevel(t.level)
    ensures r.None? <==> forall j :: 0 <= j < |es| ==> !InRange(t, es[j])
    ensures r.Some? ==> IsNearest(t, es, r.value)
    decreases |es|
  {
    if es == [] then None
    else
      var n := |es| - 1;
      var c := Closest(t, es[..n]);
      assert forall j :: 0 <= j < n ==> es[..n][j] == es[j];
      if InRange(t, es[n]) && (c.None? || DistanceTo(t, es[n]) < DistanceTo(t, es[c.value])) then Some(n)
      else c
  }

  /** There is only one such enemy, so findTarget picks every enemy that is nearest in this sense. */
  lemma NearestIsTarget(t: TowerData, es: seq<EnemyData>, i: int)
    requires ValidLevel(t.level) && IsNearest(t, es, i)
    ensures Closest(t, es) == Some(i)
  {
  }

  /** The indices of the enemies in range, in list order (findEnemiesInRange). */
  function InRangeIndices(t: TowerData, es: seq<EnemyData>): (idx: seq<nat>)
    requires ValidLevel(t.level)
    ensures forall k :: 0 <= k < |idx| ==> idx[k] < |es| && InRange(t, es[idx[k]])
    ensures forall k, l :: 0 <= k < l < |idx| ==> idx[k] < idx[l]
    ensures forall j :: 0 <= j < |es| && InRange(t, es[j]) ==> j in idx
    decreases |es|
  {
    if es == [] then []
    else
      var n := |es| - 1;
      assert forall j :: 0 <= j < n ==> es[..n][j] == es[j];
      InRangeIndices(t, es[..n]) + (if InRange(t, es[n]) then [n] else [])
  }

  // ------------------------------------------------------------------ attacks

  /** The splash radius in half tiles: SplashTower 0.5, BomberTower 1. */
  function SplashRadiusHalves(k: TowerType): int
  {
    match k
    case Splash => 1
    case Bomber => 2
    case _ => 0
  }

  /** Whether a splash centred on `centre` reaches the tile `p`. */
  predicate SplashHit(centre: Point, p: Point, radiusHalves: int)
  {
    Dist2(centre, p) * 4 <= radiusHalves * radiusHalves
  }

  /**
   * On whole tiles a 0.5 splash reaches only the target's own tile, and a
   * radius-1 splash that tile and its four orthogonal neighbours.
   */
  lemma SplashReach(centre: Point, p: Point)
    ensures SplashHit(centre, p, SplashRadiusHalves(Splash)) <==> p == centre
    ensures SplashHit(centre, p, SplashRadiusHalves(Bomber)) <==> p == centre || Adjacent(centre, p)
  {
    var dx := centre.x - p.x;
    var dy := centre.y - p.y;
    SquareAtLeastAbs(dx);
    SquareAtLeastAbs(dy);
  }

  lemma SquareAtLeastAbs(n: int)
    ensures n * n >= Abs(n) && (n * n == 0 <==> n == 0) && (n * n == 1 <==> Abs(n) == 1)
  {
    if n > 1 {
      assert n * n >= 2 * n;
    } else if n < -1 {
      assert n * n >= -2 * n;
    }
  }

  /**
   * performSplashAttack: every enemy in the tower's range whose tile is within
   * the radius of the centre takes the tower's damage; the list of enemies in
   * range is fixed before any damage is dealt.
   */
  function Splashed(t: TowerData, es: seq<EnemyData>, centre: Point, radiusHalves: int): (r: seq<EnemyData>)
    requires ValidLevel(t.level)
    ensures |r| == |es|
  {
    seq(|es|, j requires 0 <= j < |es| =>
      if InRange(t, es[j]) && SplashHit(centre, GridPosition(es[j]), radiusHalves)
      then Damaged(es[j], EffectiveDamage(t)) else es[j])
  }

  /**
   * performAttack on the target `i`: BASIC and SNIPER damage it, SLOW damages
   * it and then slows it to 75% for two seconds from `now`, SPLASH and BOMBER
   * splash around its tile.
   */
  function Attack(t: TowerData, es: seq<EnemyData>, i: nat, now: int): seq<EnemyData>
    requires ValidLevel(t.level) && i < |es|
  {
    match t.towerType
    case Basic => es[i := Damaged(es[i], EffectiveDamage(t))]
    case Sniper => es[i := Damaged(es[i], EffectiveDamage(t))]
    case Slow => es[i := SpeedModified(Damaged(es[i], EffectiveDamage(t)), SlowFactorPct, SlowDurationMs, now)]
    case Splash => Splashed(t, es, GridPosition(es[i]), SplashRadiusHalves(Splash))
    case Bomber => Splashed(t, es, GridPosition(es[i]), SplashRadiusHalves(Bomber))
  }

  /**
   * processAttack, after the cooldown check: find the target; if there is
   * one, an explosion is shown where it stands, it is attacked, and the shot
   * time becomes `clock`. Without a target nothing changes.
   */
  function Fire(t: TowerData, es: seq<EnemyData>, clock: int, now: int): (TowerData, seq<EnemyData>, Option<Point>)
    requires ValidLevel(t.level)
  {
    match Closest(t, es)
    case None => (t, es, None)
    case Some(i) => (t.(lastShotTime := clock), Attack(t, es, i, now), Some(PixelPosition(es[i])))
  }

  /** The two outcomes of Fire, spelled out for callers. */
  lemma FireCases(t: TowerData, es: seq<EnemyData>, clock: int, now: int)
    requires ValidLevel(t.level)
    ensures Closest(t, es).None? ==> Fire(t, es, clock, now) == (t, es, None)
    ensures Closest(t, es).Some? ==>
              var i := Closest(t, es).value;
              i < |es| &&
              Fire(t, es, clock, now) == (t.(lastShotTime := clock), Attack(t, es, i, now), Some(PixelPosition(es[i])))
  {
  }

  /**
   * An attack only hurts and slows: every enemy keeps its kind, path and
   * progress, and its invariant; no enemy gains health.
   */
  lemma {:induction false} AttackOnlyHurts(m: TileMap, t: TowerData, es: seq<EnemyData>, i: nat, now: int)
    requires ValidLevel(t.level) && i < |es|
    requires forall j :: 0 <= j < |es| ==> EnemyInv(m, es[j])
    ensures |Attack(t, es, i, now)| == |es|
    ensures forall j :: 0 <= j < |es| ==>
              var e' := Attack(t, es, i, now)[j];
              EnemyInv(m, e') && e'.enemyType == es[j].enemyType && e'.path == es[j].path &&
              e'.progress == es[j].progress && (t.damagePct >= 0 ==> e'.health <= es[j].health)
  {
    EffectiveDamageSpec(t);
    var d := EffectiveDamage(t);
    if t.towerType == Slow {
      SpeedModifiedKeepsInv(m, Damaged(es[i], d), SlowFactorPct, SlowDurationMs, now);
    }
  }

  /**
   * BASIC and SNIPER: the target loses exactly the tower's damage and no
   * other enemy is touched.
   */
  lemma SingleTargetAttack(t: TowerData, es: seq<EnemyData>, i: nat, now: int)
    requires ValidLevel(t.level) && i < |es| && (t.towerType == Basic || t.towerType == Sniper)
    ensures |Attack(t, es, i, now)| == |es|
    ensures Attack(t, es, i, now)[i] == es[i].(health := es[i].health - EffectiveDamage(t))
    ensures forall j :: 0 <= j < |es| && j != i ==> Attack(t, es, i, now)[j] == es[j]
  {
  }

  /**
   * SLOW: the target loses the tower's damage and ends at the stronger of its
   * slow-down and 75%; a target already at 75% keeps its old end time, so a
   * repeat hit does not extend the slow-down. No other enemy is touched.
   */
  lemma SlowAttack(t: TowerData, es: seq<EnemyData>, i: nat, now: int)
    requires ValidLevel(t.level) && i < |es| && t.towerType == Slow
    ensures |Attack(t, es, i, now)| == |es|
    ensures var e' := Attack(t, es, i, now)[i];
      e'.health == es[i].health - EffectiveDamage(t) &&
      e'.speedModifier == (if es[i].speedModifier < SlowFactorPct then es[i].speedModifier else SlowFactorPct) &&
      (es[i].speedModifier <= SlowFactorPct ==> e'.speedModifierEndTime == es[i].speedModifierEndTime) &&
      (es[i].speedModifier > SlowFactorPct ==> e'.speedModifierEndTime == now + SlowDurationMs)
    ensures forall j :: 0 <= j < |es| && j != i ==> Attack(t, es, i, now)[j] == es[j]
  {
  }

  /**
   * SPLASH and BOMBER: an enemy loses the tower's damage exactly when it is
   * in range and its tile is within the radius of the target's tile; every
   * other enemy is untouched. The target itself is hit whenever it is in
   * range, as findTarget guarantees.
   */
  lemma SplashAttack(t: TowerData, es: seq<EnemyData>, i: nat, now: int)
    requires ValidLevel(t.level) && i < |es| && (t.towerType == Splash || t.towerType == Bomber)
    ensures |Attack(t, es, i, now)| == |es|
    ensures forall j :: 0 <= j < |es| ==>
              Attack(t, es, i, now)[j] ==
                if InRange(t, es[j]) && SplashHit(GridPosition(es[i]), GridPosition(es[j]), SplashRadiusHalves(t.towerType))
                then es[j].(health := es[j].health - EffectiveDamage(t)) else es[j]
    ensures InRange(t, es[i]) ==> Attack(t, es, i, now)[i].health == es[i].health - EffectiveDamage(t)
  {
  }

  /**
   * A shot fires exactly when some enemy is in range; it then hits the nearest
   * one, shows the explosion where that enemy stands and restarts the cooldown.
   */
  lemma FireSpec(t: TowerData, es: seq<EnemyData>, clock: int, now: int)
    requires ValidLevel(t.level)
    ensures var (t', es', x) := Fire(t, es, clock, now);
      (x.None? <==> forall j :: 0 <= j < |es| ==> !InRange(t, es[j])) &&
      (x.None? ==> t' == t && es' == es) &&
      (x.Some? ==> exists i :: IsNearest(t, es, i) && x.value == PixelPosition(es[i]) &&
                               es' == Attack(t, es, i, now)) &&
      (x.Some? ==> t' == t.(lastShotTime := clock))
  {
  }
}
