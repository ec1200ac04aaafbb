/**
 * One enemy (enemy/Enemy.java): its per-kind health and speed, its walk along
 * the path, damage, death, and the temporary slow-down a SLOW tower applies.
 *
 * Positions are exact: one tile is `Unit` movement units, so the source's
 * speeds of 0.1, 0.2, 0.075, 0.05 and 0.06 tiles per tick are whole numbers of
 * units, and speed multipliers are percentages (100 = full speed). The enemy
 * always stands on the segment from the pathfinder's current tile to its cached
 * target, `progress` units along it, which is where the source's `xPos`/`yPos`
 * are; with no target it stands on the current tile.
 */
module Enemies {
  import opened Wrappers
  import opened Tiles
  import opened Waves
  import opened Pathfinding

  /** Movement units per tile. */
  const Unit: int := 100000
  /** BoardComponent.TILE_SIZE: pixels per tile. */
  const TileSize: int := 40
  /** The speed multiplier of an enemy that is not slowed, as a percentage. */
  const FullSpeed: int := 100

  /** The ENEMY_ATTRIBUTES health column. */
  function Health(t: EnemyType): int
  {
    match t
    case Basic => 100
    case Fast => 150
    case Tank => 500
    case Slow => 350
    case Boss => 2500
  }

  /** The ENEMY_ATTRIBUTES speed column, in units per tick. */
  function Speed(t: EnemyType): int
  {
    match t
    case Basic => 10000
    case Fast => 20000
    case Tank => 7500
    case Slow => 5000
    case Boss => 6000
  }

  /** The fastest kind crosses at most a fifth of a tile per tick and every kind moves. */
  lemma SpeedBounds(t: EnemyType)
    ensures 0 < Speed(t) <= Unit / 5 && Health(t) > 0
  {
  }

  /** Everything an enemy holds, read out of its object and its pathfinder. */
  datatype EnemyData = EnemyData(
    enemyType: EnemyType,
    path: PathState,
    progress: int,
    health: int,
    speedModifier: int,
    speedModifierEndTime: int)

  /**
   * What every enemy maintains: the pathfinder's invariant, a position strictly
   * inside the current segment (and on the current tile when there is no
   * target), and a speed multiplier in (0, 100].
   */
  ghost predicate EnemyInv(m: TileMap, e: EnemyData)
  {
    PathInv(m, e.path) &&
    0 <= e.progress < Unit && (e.path.target.None? ==> e.progress == 0) &&
    0 < e.speedModifier <= FullSpeed
  }

  /** A new enemy of kind `t`: on the START tile, full health, full speed. */
  function Spawned(m: TileMap, t: EnemyType): (e: EnemyData)
    requires m.WellFormed() && FindStart(m).Some?
    ensures EnemyInv(m, e)
    ensures e.path.current == FindStart(m).value && e.health == Health(t) && !e.path.reachedEnd
  {
    EnemyData(t, Initial(m), 0, Health(t), FullSpeed, 0)
  }

  /** updateSpeedModifier: back to full speed once the slow-down has run out. */
  function UpdatedModifier(pct: int, endTime: int, now: int): int
  {
    if now > endTime && pct < FullSpeed then FullSpeed else pct
  }

  /** The speed the enemy moves at this tick, in units. */
  function AdjustedSpeed(t: EnemyType, pct: int): int
  {
    Speed(t) * pct / 100
  }

  /**
   * move: refresh the multiplier, ask the pathfinder for a target, and either
   * arrive at it (when the remaining distance is at most the adjusted speed,
   * which also tells the pathfinder) or advance by the adjusted speed. The flag
   * says whether arriving took the enemy onto END, where a life is lost.
   */
  function EnemyMove(m: TileMap, e: EnemyData, now: int): (EnemyData, bool)
    requires m.WellFormed()
  {
    var pct := UpdatedModifier(e.speedModifier, e.speedModifierEndTime, now);
    var adjusted := AdjustedSpeed(e.enemyType, pct);
    var next := NextPosition(m, e.path);
    var target := next.1;
    if target.None? then (e.(path := next.0, speedModifier := pct), false)
    else if Unit - e.progress <= adjusted then
      var reached := ReachTarget(m, next.0);
      (e.(path := reached.0, progress := 0, speedModifier := pct), reached.1)
    else (e.(path := next.0, progress := e.progress + adjusted, speedModifier := pct), false)
  }

  /**
   * A move keeps the enemy's invariant, changes neither its kind, health nor
   * slow-down end time, and either leaves it standing (no target), advances it
   * by the adjusted speed toward its target, or lands it on the target, which
   * becomes the current tile with the old current tile as the previous one.
   * A life is lost exactly when that landing reaches END for the first time.
   */
  lemma EnemyMoveSpec(m: TileMap, e: EnemyData, now: int)
    requires EnemyInv(m, e)
    ensures var (e', lost) := EnemyMove(m, e, now);
      EnemyInv(m, e') &&
      e'.enemyType == e.enemyType && e'.health == e.health &&
      e'.speedModifierEndTime == e.speedModifierEndTime &&
      e'.speedModifier == UpdatedModifier(e.speedModifier, e.speedModifierEndTime, now) &&
      var adjusted := AdjustedSpeed(e.enemyType, e'.speedModifier);
      ((e'.path.current == e.path.current && e'.progress == e.progress && !lost) ||
       (e'.path.current == e.path.current && e'.progress == e.progress + adjusted && !lost) ||
       (e'.path.current != e.path.current && Adjacent(e.path.current, e'.path.current) &&
        e'.path.previous == e.path.current && e'.progress == 0 && Unit - e.progress <= adjusted)) &&
      (lost <==> !e.path.reachedEnd && e'.path.reachedEnd)
  {
    SpeedBounds(e.enemyType);
    var pct := UpdatedModifier(e.speedModifier, e.speedModifierEndTime, now);
    assert 0 < pct <= FullSpeed;
    assert 0 < AdjustedSpeed(e.enemyType, pct) <= Unit / 5;
    NextPositionKeepsInv(m, e.path);
    var next := NextPosition(m, e.path);
    if next.1.Some? {
      assert next.0.target == next.1;
      ReachTargetKeepsInv(m, next.0);
    }
  }

  /** An enemy that has reached END never moves again and never costs another life. */
  lemma FinishedEnemyStays(m: TileMap, e: EnemyData, now: int)
    requires EnemyInv(m, e) && e.path.reachedEnd
    ensures EnemyMove(m, e, now).0.path == e.path
    ensures EnemyMove(m, e, now).0.progress == e.progress
    ensures !EnemyMove(m, e, now).1
  {
    EndIsFinal(m, e.path);
  }

  /**
   * Slowing is exact: every kind's speed at the SLOW tower's 75% is a whole
   * number of units, three quarters of its full speed.
   */
  lemma SlowedSpeedExact(t: EnemyType)
    ensures AdjustedSpeed(t, 75) * 4 == Speed(t) * 3
    ensures AdjustedSpeed(t, FullSpeed) == Speed(t)
  {
  }

  /**
   * applySpeedModifier: only a stronger slow-down (a smaller factor) replaces
   * the current one, and then it lasts `duration` ms from `now`.
   */
  function SpeedModified(e: EnemyData, factor: int, duration: int, now: int): EnemyData
  {
    if factor < e.speedModifier then e.(speedModifier := factor, speedModifierEndTime := now + duration)
    else e
  }

  /**
   * A slowed enemy stays slowed while the slow-down lasts and is back at full
   * speed at the first move after it ends; a full-speed enemy stays at full speed.
   */
  lemma SlowDownExpires(pct: int, endTime: int, now: int)
    requires 0 < pct <= FullSpeed
    ensures now <= endTime ==> UpdatedModifier(pct, endTime, now) == pct
    ensures now > endTime ==> UpdatedModifier(pct, endTime, now) == FullSpeed
    ensures UpdatedModifier(pct, endTime, now) >= pct
  {
  }

  /**
   * Applying a slow-down keeps the invariant and leaves the enemy at the
   * stronger (smaller) of the two multipliers; the end time moves exactly when
   * the new one wins, and nothing else about the enemy changes.
   */
  lemma SpeedModifiedKeepsInv(m: TileMap, e: EnemyData, factor: int, duration: int, now: int)
    requires EnemyInv(m, e) && 0 < factor
    ensures var e' := SpeedModified(e, factor, duration, now);
      EnemyInv(m, e') &&
      e'.speedModifier <= e.speedModifier && e'.speedModifier <= factor &&
      (e'.speedModifier == e.speedModifier || e'.speedModifier == factor) &&
      (e'.speedModifierEndTime != e.speedModifierEndTime ==> e'.speedModifierEndTime == now + duration) &&
      (factor < e.speedModifier ==> e'.speedModifierEndTime == now + duration) &&
      e'.path == e.path && e'.health == e.health && e'.progress == e.progress
  {
  }

  /** isDead: health at or below zero. */
  predicate IsDead(e: EnemyData)
  {
    e.health <= 0
  }

  /** takeDamage: health drops by exactly the damage, with no floor at zero. */
  function Damaged(e: EnemyData, damage: int): EnemyData
  {
    e.(health := e.health - damage)
  }

  /** Damage adds up: two hits are one hit of their sum, and enough damage kills. */
  lemma DamageAccumulates(e: EnemyData, a: int, b: int)
    ensures Damaged(Damaged(e, a), b) == Damaged(e, a + b)
    ensures IsDead(Damaged(e, a)) <==> a >= e.health
  {
  }

  /** The enemy's exact position times `Unit`, along one axis. */
  function ScaledX(e: EnemyData): int
  {
    var c := e.path.current;
    match e.path.target
    case None => c.x * Unit
    case Some(t) => c.x * Unit + (t.x - c.x) * e.progress
  }

  function ScaledY(e: EnemyData): int
  {
    var c := e.path.current;
    match e.path.target
    case None => c.y * Unit
    case Some(t) => c.y * Unit + (t.y - c.y) * e.progress
  }

  /** Math.round of a scaled coordinate: halves round up. */
  function Round(scaled: int): int
  {
    (scaled + Unit / 2) / Unit
  }

  /** getPosition: the grid tile the enemy is nearest to. */
  function GridPosition(e: EnemyData): Point
  {
    Point(Round(ScaledX(e)), Round(ScaledY(e)))
  }

  /** The `(int)` cast of a scaled coordinate times the tile size: truncation toward zero. */
  function PixelOf(scaled: int): int
  {
    if scaled >= 0 then scaled * TileSize / Unit else -((-scaled) * TileSize / Unit)
  }

  /** `px` is the exact pixel coordinate `scaled * TileSize / Unit` with its fraction cut off toward zero. */
  predicate TruncatedPixel(scaled: int, px: int)
  {
    (scaled >= 0 ==> px * Unit <= scaled * TileSize < px * Unit + Unit) &&
    (scaled < 0 ==> px * Unit - Unit < scaled * TileSize <= px * Unit)
  }

  /**
   * getPixelPosition: each coordinate is the enemy's exact position in
   * pixels, truncated toward zero by the cast to int.
   */
  function PixelPosition(e: EnemyData): (r: Point)
    ensures TruncatedPixel(ScaledX(e), r.x) && TruncatedPixel(ScaledY(e), r.y)
  {
    Point(PixelOf(ScaledX(e)), PixelOf(ScaledY(e)))
  }

  /** An enemy standing on a tile is drawn at that tile's corner, TileSize pixels per tile. */
  lemma PixelAtTile(m: TileMap, e: EnemyData)
    requires EnemyInv(m, e) && e.progress == 0
    ensures PixelPosition(e) == Point(e.path.current.x * TileSize, e.path.current.y * TileSize)
  {
    var c := e.path.current;
    assert ScaledX(e) == c.x * Unit && ScaledY(e) == c.y * Unit;
    assert c.x * Unit * TileSize == (c.x * TileSize) * Unit;
    assert c.y * Unit * TileSize == (c.y * TileSize) * Unit;
  }

  lemma {:induction false} RoundStep(a: int, b: int, p: int)
    requires Adjacent(Point(a, 0), Point(b, 0)) || a == b
    requires 0 <= p < Unit
    ensures p < Unit / 2 ==> Round(a * Unit + (b - a) * p) == a
    ensures p > Unit / 2 ==> Round(a * Unit + (b - a) * p) == b
    ensures p == Unit / 2 ==> Round(a * Unit + (b - a) * p) == if a < b then b else a
  {
    if b == a + 1 {
      assert a * Unit + (b - a) * p + Unit / 2 == a * Unit + (p + Unit / 2);
    } else if b == a - 1 {
      if p < Unit / 2 {
        assert a * Unit + (b - a) * p + Unit / 2 == a * Unit + (Unit / 2 - p);
      } else {
        assert a * Unit + (b - a) * p + Unit / 2 == (a - 1) * Unit + (Unit - p + Unit / 2);
      }
    }
  }

  /**
   * The grid position is the current tile before the half-way point of a
   * segment and the target tile after it; exactly half-way, Math.round's
   * rounding of halves upward picks whichever of the two has the larger
   * coordinate. Either way an enemy is always reported on a tile of its path.
   */
  lemma GridPositionOnPath(m: TileMap, e: EnemyData)
    requires EnemyInv(m, e)
    ensures e.path.target.None? ==> GridPosition(e) == e.path.current
    ensures e.path.target.Some? && e.progress < Unit / 2 ==> GridPosition(e) == e.path.current
    ensures e.path.target.Some? && e.progress > Unit / 2 ==> GridPosition(e) == e.path.target.value
    ensures e.path.target.Some? && e.progress == Unit / 2 ==>
              GridPosition(e) == Larger(e.path.current, e.path.target.value)
  {
    var c := e.path.current;
    match e.path.target
    case None =>
    case Some(t) =>
      assert Adjacent(c, t);
      if c.x == t.x {
        RoundStep(c.x, t.x, e.progress);
        RoundStep(c.y, t.y, e.progress);
      } else {
        assert c.y == t.y;
        RoundStep(c.x, t.x, e.progress);
        RoundStep(c.y, t.y, e.progress);
      }
  }

  /** Of two adjacent tiles, the one further right or further down. */
  function Larger(a: Point, b: Point): Point
  {
    if a.x < b.x || a.y < b.y then b else a
  }

  /** An enemy, its own pathfinder, and the fields the source updates in place. */
  class Enemy {
    const enemyType: EnemyType
    const path: EnemyPathfinding
    var health: int
    var progress: int
    var speedModifier: int
    var speedModifierEndTime: int

    function Data(): EnemyData
      reads this, path
    {
      EnemyData(enemyType, path.State(), progress, health, speedModifier, speedModifierEndTime)
    }

    ghost predicate Valid()
      reads this, path
    {
      EnemyInv(path.board, Data())
    }

    /** A new enemy on the board's START tile; the source fails without one. */
    constructor(t: EnemyType, m: TileMap)
      requires m.WellFormed() && FindStart(m).Some?
      ensures fresh(path) && path.board == m
      ensures Data() == Spawned(m, t) && Valid()
    {
      enemyType := t;
      path := new EnemyPathfinding(m);
      health := Health(t);
      progress := 0;
      speedModifier := FullSpeed;
      speedModifierEndTime := 0;
    }

    method ApplySpeedModifier(factor: int, duration: int, now: int)
      modifies this
      ensures Data() == SpeedModified(old(Data()), factor, duration, now)
    {
      if factor < speedModifier {
        speedModifier := factor;
        speedModifierEndTime := now + duration;
      }
    }

    method UpdateSpeedModifier(now: int)
      modifies this
      ensures speedModifier == UpdatedModifier(old(speedModifier), speedModifierEndTime, now)
      ensures speedModifierEndTime == old(speedModifierEndTime)
      ensures health == old(health) && progress == old(progress)
    {
      if now > speedModifierEndTime && speedModifier < FullSpeed {
        speedModifier := FullSpeed;
      }
    }

    /** Returns whether this move cost a life (the pathfinder reached END). */
    method Move(now: int) returns (lifeLost: bool)
      requires path.board.WellFormed()
      modifies this, path
      ensures (Data(), lifeLost) == EnemyMove(path.board, old(Data()), now)
    {
      UpdateSpeedModifier(now);
      var adjustedSpeed := AdjustedSpeed(enemyType, speedModifier);
      var target := path.GetNextPosition();
      lifeLost := false;
      if target.Some? {
        if Unit - progress <= adjustedSpeed {
          progress := 0;
          lifeLost := path.ReachedTargetPoint();
        } else {
          progress := progress + adjustedSpeed;
        }
      }
    }

    method TakeDamage(damage: int)
      modifies this
      ensures Data() == Damaged(old(Data()), damage)
    {
      health := health - damage;
    }

    predicate Dead()
      reads this
    {
      health <= 0
    }

    predicate HasReachedEnd()
      reads path
    {
      path.reachedEnd
    }

    /** getPosition: the tile the enemy is nearest to. */
    function GetPosition(): Point
      reads this, path
    {
      GridPosition(Data())
    }

    /** getPixelPosition: where the enemy is drawn. */
    function GetPixelPosition(): (r: Point)
      reads this, path
      ensures TruncatedPixel(ScaledX(Data()), r.x) && TruncatedPixel(ScaledY(Data()), r.y)
    {
      PixelPosition(Data())
    }
  }
}
