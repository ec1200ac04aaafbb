/**
 * The five tower kinds and their per-level statistics (tower/TowerType.java).
 * Ranges are whole tiles and damage whole hit points, as in the source; fire
 * rates, which the source keeps as doubles with one decimal, are kept here in
 * tenths of a shot per second.
 */
module TowerTypes {

  datatype TowerType = Basic | Sniper | Splash | Bomber | Slow

  /** getMaxLevel: every kind has three stat rows. */
  const MaxLevel: int := 3

  predicate ValidLevel(level: int)
  {
    1 <= level <= MaxLevel
  }

  /** getRange(level): the stat row `level - 1`, so only levels 1 to 3 exist. */
  function BaseRange(t: TowerType, level: int): (r: int)
    requires ValidLevel(level)
    ensures r > 0
  {
    match t
    case Basic => [4, 4, 5][level - 1]
    case Sniper => [6, 7, 8][level - 1]
    case Splash => [3, 3, 4][level - 1]
    case Bomber => [3, 3, 4][level - 1]
    case Slow => [3, 3, 4][level - 1]
  }

  /** getDamage(level). */
  function BaseDamage(t: TowerType, level: int): (d: int)
    requires ValidLevel(level)
    ensures d > 0
  {
    match t
    case Basic => [25, 40, 60][level - 1]
    case Sniper => [60, 90, 130][level - 1]
    case Splash => [20, 30, 40][level - 1]
    case Bomber => [75, 105, 145][level - 1]
    case Slow => [13, 20, 29][level - 1]
  }

  /** getFireRate(level), in tenths of a shot per second (2.2 is 22). */
  function FireRateTenths(t: TowerType, level: int): (f: int)
    requires ValidLevel(level)
    ensures f > 0
  {
    match t
    case Basic => [22, 26, 30][level - 1]
    case Sniper => [13, 16, 19][level - 1]
    case Splash => [17, 20, 23][level - 1]
    case Bomber => [6, 7, 9][level - 1]
    case Slow => [33, 36, 40][level - 1]
  }

  /**
   * Upgrading never makes a tower worse: damage and fire rate strictly rise
   * with the level and range never falls.
   */
  lemma StatsGrowWithLevel(t: TowerType, lo: int, hi: int)
    requires ValidLevel(lo) && ValidLevel(hi) && lo < hi
    ensures BaseDamage(t, lo) < BaseDamage(t, hi)
    ensures BaseRange(t, lo) <= BaseRange(t, hi)
    ensures FireRateTenths(t, lo) < FireRateTenths(t, hi)
  {
  }

  /** The first row of the table: a new BASIC tower has range 4 and damage 25. */
  lemma BasicFirstLevel()
    ensures BaseRange(Basic, 1) == 4 && BaseDamage(Basic, 1) == 25 && FireRateTenths(Basic, 1) == 22
  {
  }
}
