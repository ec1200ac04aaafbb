/**
 * Towers and their powerups as objects (tower/Tower.java, the five tower
 * subclasses, powerup/Powerup.java, powerup/MultiplierPowerup.java,
 * powerup/PowerupFactory.java). A tower owns its list of powerups and each
 * powerup points back at its tower, whose multiplier it sets on creation and
 * resets once when it expires. Each method is proved against the value-level
 * rules in `TowerRules` and `Powerups`.
 *
 * The enemies a tower attacks are the roster's list, passed in; targets are
 * reported by their index in it.
 */
module Towers {
  import opened Wrappers
  import opened Tiles
  import opened Enemies
  import opened EnemyRoster
  import opened TowerTypes
  import opened Powerups
  import opened TowerRules

  /** The state of each powerup object in a list. */
  function PowerupDataOf(ps: seq<Powerup>): (ds: seq<PowerupData>)
    reads ps
    ensures |ds| == |ps| && forall i {:trigger ds[i]} :: 0 <= i < |ps| ==> ds[i] == ps[i].Data()
  {
    if ps == [] then [] else PowerupDataOf(ps[..|ps| - 1]) + [ps[|ps| - 1].Data()]
  }

  /** A MultiplierPowerup: a timed overwrite of one multiplier of one tower. */
  class Powerup {
    const tower: Tower
    const powerupType: PowerupType
    const attribute: Attribute
    const multiplierPct: int
    const startTime: int
    const duration: int
    var effectActive: bool

    function Data(): PowerupData
      reads this
    {
      PowerupData(powerupType, attribute, multiplierPct, startTime, duration, effectActive)
    }

    /** Starts the powerup at `now`, with its effect on, and applies the effect at once. */
    constructor(tower: Tower, duration: int, t: PowerupType, multiplierPct: int, attribute: Attribute, now: int)
      modifies tower
      ensures this.tower == tower
      ensures Data() == PowerupData(t, attribute, multiplierPct, now, duration, true)
      ensures tower.Data() == WithMultiplier(old(tower.Data()), attribute, multiplierPct)
      ensures tower.activePowerups == old(tower.activePowerups)
    {
      this.tower := tower;
      this.powerupType := t;
      this.attribute := attribute;
      this.multiplierPct := multiplierPct;
      this.startTime := now;
      this.duration := duration;
      this.effectActive := true;
      new;
      ApplyEffect();
    }

    method ApplyEffect()
      modifies tower
      ensures tower.Data() == WithMultiplier(old(tower.Data()), attribute, multiplierPct)
      ensures tower.activePowerups == old(tower.activePowerups)
    {
      match attribute
      case Damage => tower.ApplyDamageMultiplier(multiplierPct);
      case FireRate => tower.ApplyFireRateMultiplier(multiplierPct);
      case Range => tower.ApplyRangeMultiplier(multiplierPct);
    }

    method RemoveEffect()
      modifies tower
      ensures tower.Data() == WithMultiplier(old(tower.Data()), attribute, DefaultPct)
      ensures tower.activePowerups == old(tower.activePowerups)
    {
      match attribute
      case Damage => tower.ResetDamageMultiplier();
      case FireRate => tower.ResetFireRateMultiplier();
      case Range => tower.ResetRangeMultiplier();
    }

    /**
     * isExpired at wall-clock time `now`: the first call that sees the
     * powerup expired while its effect is on resets the tower's attribute and
     * turns the effect off; every other call changes nothing.
     */
    method IsExpired(now: int) returns (expired: bool)
      modifies this, tower
      ensures expired == Expired(old(Data()), now)
      ensures Data() == Observe(old(Data()), now).0
      ensures tower.Data() == if Observe(old(Data()), now).1
                              then WithMultiplier(old(tower.Data()), attribute, DefaultPct)
                              else old(tower.Data())
      ensures tower.activePowerups == old(tower.activePowerups)
    {
      expired := now - startTime >= duration;
      if expired && effectActive {
        RemoveEffect();
        effectActive := false;
      }
    }

    /** getRemainingTime at wall-clock time `now`. */
    function GetRemainingTime(now: int): int
      reads this
    {
      RemainingTime(Data(), now)
    }
  }

  /** MultiplierPowerup.createDoubleDamage: damage times 2.0. */
  method CreateDoubleDamage(tower: Tower, duration: int, now: int) returns (p: Powerup)
    modifies tower
    ensures fresh(p) && p.tower == tower && p.Data() == Created(DoubleDamage, duration, now)
    ensures tower.Data() == Boosted(old(tower.Data()), DoubleDamage)
    ensures tower.activePowerups == old(tower.activePowerups)
  {
    p := new Powerup(tower, duration, DoubleDamage, MultiplierPct(DoubleDamage), Damage, now);
  }

  /** MultiplierPowerup.createDoubleFireRate: fire rate times 2.0. */
  method CreateDoubleFireRate(tower: Tower, duration: int, now: int) returns (p: Powerup)
    modifies tower
    ensures fresh(p) && p.tower == tower && p.Data() == Created(DoubleFireRate, duration, now)
    ensures tower.Data() == Boosted(old(tower.Data()), DoubleFireRate)
    ensures tower.activePowerups == old(tower.activePowerups)
  {
    p := new Powerup(tower, duration, DoubleFireRate, MultiplierPct(DoubleFireRate), FireRate, now);
  }

  /** MultiplierPowerup.createRangeBoost: range times 1.5. */
  method CreateRangeBoost(tower: Tower, duration: int, now: int) returns (p: Powerup)
    modifies tower
    ensures fresh(p) && p.tower == tower && p.Data() == Created(RangeBoost, duration, now)
    ensures tower.Data() == Boosted(old(tower.Data()), RangeBoost)
    ensures tower.activePowerups == old(tower.activePowerups)
  {
    p := new Powerup(tower, duration, RangeBoost, MultiplierPct(RangeBoost), Range, now);
  }

  /** PowerupFactory.createPowerup: one factory per kind, so every kind is covered. */
  method CreatePowerup(t: PowerupType, tower: Tower, duration: int, now: int) returns (p: Powerup)
    modifies tower
    ensures fresh(p) && p.tower == tower && p.Data() == Created(t, duration, now)
    ensures tower.Data() == Boosted(old(tower.Data()), t)
    ensures tower.activePowerups == old(tower.activePowerups)
  {
    match t
    case DoubleDamage => p := CreateDoubleDamage(tower, duration, now);
    case DoubleFireRate => p := CreateDoubleFireRate(tower, duration, now);
    case RangeBoost => p := CreateRangeBoost(tower, duration, now);
  }

  /**
   * A tower of one of the five kinds. Every powerup in its list is a distinct
   * object whose effect is still on and which points back at this tower.
   */
  class Tower {
    const towerType: TowerType
    const position: Point
    var level: int
    var lastShotTime: int
    var damagePct: int
    var fireRatePct: int
    var rangePct: int
    var activePowerups: seq<Powerup>

    function Data(): TowerData
      reads this
    {
      TowerData(towerType, position, level, lastShotTime, damagePct, fireRatePct, rangePct)
    }

    function Powerups(): seq<PowerupData>
      reads this, activePowerups
    {
      PowerupDataOf(activePowerups)
    }

    ghost predicate Valid()
      reads this, activePowerups
    {
      ValidLevel(level) &&
      (forall i :: 0 <= i < |activePowerups| ==> activePowerups[i].tower == this && activePowerups[i].effectActive) &&
      (forall i, j :: 0 <= i < j < |activePowerups| ==> activePowerups[i] != activePowerups[j])
    }

    /** A tower of kind `k` at `position`: level 1, never fired, no powerups. */
    constructor(k: TowerType, position: Point)
      ensures Data() == NewTower(k, position) && activePowerups == [] && Valid()
    {
      towerType := k;
      this.position := position;
      level := 1;
      lastShotTime := 0;
      damagePct := DefaultPct;
      fireRatePct := DefaultPct;
      rangePct := DefaultPct;
      activePowerups := [];
    }

    method Upgrade() returns (ok: bool)
      requires Valid()
      modifies this
      ensures Valid() && activePowerups == old(activePowerups)
      ensures (Data(), ok) == Upgraded(old(Data()))
    {
      if level < MaxLevel {
        level := level + 1;
        ok := true;
      } else {
        ok := false;
      }
    }

    method ApplyDamageMultiplier(pct: int)
      modifies this
      ensures Data() == WithMultiplier(old(Data()), Damage, pct) && activePowerups == old(activePowerups)
    {
      damagePct := pct;
    }

    method ApplyFireRateMultiplier(pct: int)
      modifies this
      ensures Data() == WithMultiplier(old(Data()), FireRate, pct) && activePowerups == old(activePowerups)
    {
      fireRatePct := pct;
    }

    method ApplyRangeMultiplier(pct: int)
      modifies this
      ensures Data() == WithMultiplier(old(Data()), Range, pct) && activePowerups == old(activePowerups)
    {
      rangePct := pct;
    }

    method ResetDamageMultiplier()
      modifies this
      ensures Data() == WithMultiplier(old(Data()), Damage, DefaultPct) && activePowerups == old(activePowerups)
    {
      damagePct := DefaultPct;
    }

    method ResetFireRateMultiplier()
      modifies this
      ensures Data() == WithMultiplier(old(Data()), FireRate, DefaultPct) && activePowerups == old(activePowerups)
    {
      fireRatePct := DefaultPct;
    }

    method ResetRangeMultiplier()
      modifies this
      ensures Data() == WithMultiplier(old(Data()), Range, DefaultPct) && activePowerups == old(activePowerups)
    {
      rangePct := DefaultPct;
    }

    /** applyPowerup: the powerup applies its effect and joins the end of the list. */
    method ApplyPowerup(t: PowerupType, duration: int, now: int)
      requires Valid()
      modifies this
      ensures Valid()
      ensures Data() == Boosted(old(Data()), t)
      ensures Powerups() == old(Powerups()) + [Created(t, duration, now)]
    {
      var p := CreatePowerup(t, this, duration, now);
      activePowerups := activePowerups + [p];
    }

    /** hasActivePowerupOfType: some powerup in the list is of kind `t`. */
    method HasActivePowerupOfType(t: PowerupType) returns (found: bool)
      ensures found <==> exists i :: 0 <= i < |activePowerups| && activePowerups[i].powerupType == t
    {
      var i := 0;
      while i < |activePowerups|
        invariant 0 <= i <= |activePowerups|
        invariant forall j :: 0 <= j < i ==> activePowerups[j].powerupType != t
      {
        if activePowerups[i].powerupType == t {
          return true;
        }
        i := i + 1;
      }
      return false;
    }

    /**
     * updatePowerups at wall-clock time `now`: removeIf(isExpired) asks every
     * powerup in order, each expiring one resets its attribute, and only the
     * unexpired ones stay in the list.
     */
    method UpdatePowerups(now: int)
      requires Valid()
      modifies this, activePowerups
      ensures Valid()
      ensures Data() == RevertAll(old(Data()), old(Powerups()), now)
      ensures Powerups() == Unexpired(old(Powerups()), now)
      ensures forall p :: p in activePowerups ==> p in old(activePowerups)
    {
      ghost var ps := Powerups();
      ghost var t0 := Data();
      var kept: seq<Powerup> := [];
      var i := 0;
      while i < |activePowerups|
        invariant activePowerups == old(activePowerups) && i <= |activePowerups|
        invariant ExpiredUpTo(i, ps, t0, kept, now)
      {
        kept := ExpireAt(i, now, ps, t0, kept);
        i := i + 1;
      }
      assert ps[..i] == ps;
      activePowerups := kept;
    }

    /**
     * The removeIf loop's invariant: the first `i` powerups have been asked,
     * the tower holds the multipliers they leave, `kept` holds the unexpired
     * ones among them, and the rest are untouched.
     */
    ghost predicate ExpiredUpTo(i: nat, ps: seq<PowerupData>, t0: TowerData, kept: seq<Powerup>, now: int)
      reads this, activePowerups, kept
    {
      ValidLevel(level) && i <= |activePowerups| == |ps| &&
      (forall j :: 0 <= j < |activePowerups| ==> activePowerups[j].tower == this) &&
      (forall j, l :: 0 <= j < l < |activePowerups| ==> activePowerups[j] != activePowerups[l]) &&
      Data() == RevertAll(t0, ps[..i], now) &&
      (forall j :: i <= j < |activePowerups| ==> activePowerups[j].Data() == ps[j]) &&
      PowerupDataOf(kept) == Unexpired(ps[..i], now) &&
      (forall k :: 0 <= k < |kept| ==> kept[k].tower == this && kept[k].effectActive && kept[k] in activePowerups[..i]) &&
      (forall k, l :: 0 <= k < l < |kept| ==> kept[k] != kept[l])
    }

    /** One step of removeIf: ask powerup `i` and keep it if it has not expired. */
    method ExpireAt(i: nat, now: int, ghost ps: seq<PowerupData>, ghost t0: TowerData, kept: seq<Powerup>)
      returns (kept': seq<Powerup>)
      requires i < |activePowerups| && ExpiredUpTo(i, ps, t0, kept, now)
      requires ps[i].effectActive
      modifies this, activePowerups[i]
      ensures activePowerups == old(activePowerups) && ExpiredUpTo(i + 1, ps, t0, kept', now)
    {
      var p := activePowerups[i];
      assert forall k :: 0 <= k < |kept| ==> kept[k] != p;
      var expired := p.IsExpired(now);
      kept' := kept;
      if !expired {
        kept' := kept + [p];
      }
      assert ps[..i + 1] == ps[..i] + [ps[i]];
      assert activePowerups[..i + 1] == activePowerups[..i] + [p];
    }

    /** canShoot at game time `clock`. */
    predicate CanShoot(clock: int)
      reads this
      requires ValidLevel(level)
    {
      TowerRules.CanShoot(Data(), clock)
    }

    /** getDamage. */
    function GetDamage(): int
      reads this
      requires ValidLevel(level)
    {
      EffectiveDamage(Data())
    }

    /** findTarget: the index of the nearest enemy in range, the earliest on ties. */
    method FindTarget(enemies: seq<Enemy>) returns (target: Option<nat>)
      requires ValidLevel(level)
      ensures target == Closest(Data(), DataOf(enemies))
    {
      ghost var es := DataOf(enemies);
      target := None;
      var minDistance := 0;
      var i := 0;
      while i < |enemies|
        invariant 0 <= i <= |enemies|
        invariant target == Closest(Data(), es[..i])
        invariant target.Some? ==> target.value < i && minDistance == DistanceTo(Data(), es[target.value])
      {
        var distance := Dist2(position, enemies[i].GetPosition());
        if InRange(Data(), enemies[i].Data()) && (target.None? || distance < minDistance) {
          minDistance := distance;
          target := Some(i);
        }
        assert es[..i + 1][..i] == es[..i];
        i := i + 1;
      }
      assert es[..i] == es;
    }

    /** findEnemiesInRange: the indices of the enemies in range, in list order. */
    method FindEnemiesInRange(enemies: seq<Enemy>) returns (inRange: seq<nat>)
      requires ValidLevel(level)
      ensures inRange == InRangeIndices(Data(), DataOf(enemies))
    {
      ghost var es := DataOf(enemies);
      inRange := [];
      var i := 0;
      while i < |enemies|
        invariant 0 <= i <= |enemies|
        invariant inRange == InRangeIndices(Data(), es[..i])
      {
        if InRange(Data(), enemies[i].Data()) {
          inRange := inRange + [i];
        }
        assert es[..i + 1][..i] == es[..i];
        i := i + 1;
      }
      assert es[..i] == es;
    }

    /**
     * performSplashAttack around the target's tile: the enemies in range are
     * listed first, then each one within the radius takes the tower's damage.
     */
    method PerformSplashAttack(enemies: seq<Enemy>, target: nat, radiusHalves: int)
      requires ValidLevel(level) && target < |enemies| && Distinct(enemies)
      modifies enemies
      ensures DataOf(enemies) ==
                Splashed(Data(), old(DataOf(enemies)), GridPosition(old(DataOf(enemies))[target]), radiusHalves)
    {
      ghost var before := DataOf(enemies);
      var centre := enemies[target].GetPosition();
      var inRange := FindEnemiesInRange(enemies);
      var damage := GetDamage();
      var k := 0;
      while k < |inRange|
        invariant k <= |inRange|
        invariant SplashedUpTo(enemies, inRange, k, before, centre, radiusHalves, damage)
      {
        SplashAt(enemies, inRange, k, before, centre, radiusHalves, damage);
        k := k + 1;
      }
      assert inRange[..k] == inRange;
    }

    /** One step of the splash loop: the `k`-th enemy in range takes damage if it is within the radius. */
    static method SplashAt(enemies: seq<Enemy>, inRange: seq<nat>, k: nat, ghost before: seq<EnemyData>,
                           centre: Point, radiusHalves: int, damage: int)
      requires k < |inRange| && Distinct(enemies) && SplashedUpTo(enemies, inRange, k, before, centre, radiusHalves, damage)
      requires forall l, m :: 0 <= l < m < |inRange| ==> inRange[l] < inRange[m]
      requires forall l :: 0 <= l < |inRange| ==> inRange[l] < |enemies|
      modifies enemies[inRange[k]]
      ensures SplashedUpTo(enemies, inRange, k + 1, before, centre, radiusHalves, damage)
    {
      var j := inRange[k];
      assert j !in inRange[..k];
      if SplashHit(centre, enemies[j].GetPosition(), radiusHalves) {
        enemies[j].TakeDamage(damage);
      }
      assert inRange[..k + 1] == inRange[..k] + [j];
      forall l | 0 <= l < |enemies| && l != j
        ensures enemies[l].Data() == old(enemies[l].Data())
      {
        assert enemies[l] != enemies[j];
      }
    }

    /**
     * performAttack: BASIC and SNIPER damage the target, SLOW damages and
     * slows it, SPLASH and BOMBER splash with radius 0.5 and 1.
     */
    method PerformAttack(enemies: seq<Enemy>, target: nat, now: int)
      requires ValidLevel(level) && target < |enemies| && Distinct(enemies)
      modifies enemies
      ensures DataOf(enemies) == Attack(Data(), old(DataOf(enemies)), target, now)
    {
      ghost var before := DataOf(enemies);
      match towerType
      case Basic =>
        enemies[target].TakeDamage(GetDamage());
        assert DataOf(enemies) == before[target := Damaged(before[target], GetDamage())];
      case Sniper =>
        enemies[target].TakeDamage(GetDamage());
        assert DataOf(enemies) == before[target := Damaged(before[target], GetDamage())];
      case Slow =>
        enemies[target].TakeDamage(GetDamage());
        enemies[target].ApplySpeedModifier(SlowFactorPct, SlowDurationMs, now);
        assert DataOf(enemies) ==
               before[target := SpeedModified(Damaged(before[target], GetDamage()), SlowFactorPct, SlowDurationMs, now)];
      case Splash =>
        PerformSplashAttack(enemies, target, SplashRadiusHalves(Splash));
      case Bomber =>
        PerformSplashAttack(enemies, target, SplashRadiusHalves(Bomber));
    }

    /** shoot: the explosion where the target stands, the attack, then the new shot time. */
    method Shoot(enemies: seq<Enemy>, target: nat, clock: int, now: int) returns (explosion: Point)
      requires Valid() && target < |enemies| && Distinct(enemies)
      modifies this, enemies
      ensures Valid() && activePowerups == old(activePowerups)
      ensures explosion == PixelPosition(old(DataOf(enemies))[target])
      ensures DataOf(enemies) == Attack(old(Data()), old(DataOf(enemies)), target, now)
      ensures Data() == old(Data()).(lastShotTime := clock)
    {
      explosion := enemies[target].GetPixelPosition();
      PerformAttack(enemies, target, now);
      lastShotTime := clock;
    }

    /** processAttack: find the target and, if there is one, shoot it. */
    method ProcessAttack(enemies: seq<Enemy>, clock: int, now: int) returns (explosion: Option<Point>)
      requires Valid() && Distinct(enemies)
      modifies this, enemies
      ensures Valid() && activePowerups == old(activePowerups)
      ensures (Data(), DataOf(enemies), explosion) == Fire(old(Data()), old(DataOf(enemies)), clock, now)
    {
      ghost var es := DataOf(enemies);
      ghost var t0 := Data();
      var target := FindTarget(enemies);
      assert DataOf(enemies) == es;
      FireCases(t0, es, clock, now);
      explosion := None;
      if target.Some? {
        var i := target.value;
        var x := Shoot(enemies, i, clock, now);
        explosion := Some(x);
        assert DataOf(enemies) == Attack(t0, es, i, now);
      } else {
        assert DataOf(enemies) == es;
      }
    }
  }

  /**
   * The splash loop's invariant: the enemies listed in the first `k` entries
   * of `inRange` have had their share of the splash, all others are as before.
   */
  ghost predicate SplashedUpTo(enemies: seq<Enemy>, inRange: seq<nat>, k: nat, before: seq<EnemyData>,
                               centre: Point, radiusHalves: int, damage: int)
    reads enemies, PathsOf(enemies)
  {
    k <= |inRange| && |before| == |enemies| &&
    forall j :: 0 <= j < |enemies| ==>
      enemies[j].Data() == if j in inRange[..k] then SplashHitOne(centre, before[j], radiusHalves, damage) else before[j]
  }

  /** One enemy's share of a splash: damaged when its tile is within the radius. */
  function SplashHitOne(centre: Point, e: EnemyData, radiusHalves: int, damage: int): EnemyData
  {
    if SplashHit(centre, GridPosition(e), radiusHalves) then Damaged(e, damage) else e
  }
}
