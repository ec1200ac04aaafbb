/**
 * Enemy kinds and the immutable, validated wave value (enemy/EnemyType.java,
 * enemy/Wave.java).
 */
module Waves {
  import opened Wrappers

  datatype EnemyType = Basic | Fast | Tank | Slow | Boss

  /** The kinds in declaration order, as `EnemyType.values()` returns them. */
  const AllEnemyTypes: seq<EnemyType> := [Basic, Fast, Tank, Slow, Boss]

  /** The enum constant's `name()`. */
  function Name(t: EnemyType): string
  {
    match t
    case Basic => "BASIC"
    case Fast => "FAST"
    case Tank => "TANK"
    case Slow => "SLOW"
    case Boss => "BOSS"
  }

  lemma AllEnemyTypesComplete(t: EnemyType)
    ensures t in AllEnemyTypes
  {
  }

  lemma NamesDistinct(a: EnemyType, b: EnemyType)
    ensures Name(a) == Name(b) ==> a == b
  {
  }

  /** A wave: `count` enemies of one kind, `spawnDelay` ms apart. */
  datatype Wave = Wave(enemyType: EnemyType, count: int, spawnDelay: int)
  {
    /** What the constructor guarantees of every wave it lets through. */
    predicate Valid()
    {
      count > 0 && spawnDelay >= 0
    }
  }

  /** The three reasons the constructor throws IllegalArgumentException. */
  datatype WaveError = NullEnemyType | NonPositiveCount | NegativeSpawnDelay

  /**
   * The validating constructor `new Wave(enemyType, count, spawnDelay)`: the
   * checks run in the source's order, so a null type is reported before a bad
   * count, and a bad count before a bad delay.
   */
  function NewWave(enemyType: Option<EnemyType>, count: int, spawnDelay: int): (r: Result<Wave, WaveError>)
    ensures r.Success? <==> enemyType.Some? && count > 0 && spawnDelay >= 0
    ensures r.Success? ==> r.value.Valid()
    ensures r.Success? ==> r.value.enemyType == enemyType.value && r.value.count == count && r.value.spawnDelay == spawnDelay
    ensures r == Failure(NullEnemyType) <==> enemyType.None?
    ensures r == Failure(NonPositiveCount) <==> enemyType.Some? && count <= 0
    ensures r == Failure(NegativeSpawnDelay) <==> enemyType.Some? && count > 0 && spawnDelay < 0
  {
    if enemyType.None? then Failure(NullEnemyType)
    else if count <= 0 then Failure(NonPositiveCount)
    else if spawnDelay < 0 then Failure(NegativeSpawnDelay)
    else Success(Wave(enemyType.value, count, spawnDelay))
  }
}
