/**
 * The wave schedule of one level (board/Level.java): a list of waves, a
 * cooldown between waves, and a cursor (current wave, enemies spawned in it,
 * time of the last spawn or wave change) that `ShouldSpawnEnemy` advances.
 */
module Levels {
  import opened Wrappers
  import opened Waves

  /** The level's cursor: the three fields `shouldSpawnEnemy` and `resetLevel` update. */
  datatype Cursor = Cursor(currentWave: nat, enemiesSpawned: nat, lastSpawnTime: int)

  /** What every reachable cursor satisfies over a list of valid waves. */
  ghost predicate CursorInv(waves: seq<Wave>, c: Cursor)
  {
    && (forall i :: 0 <= i < |waves| ==> waves[i].Valid())
    && c.currentWave <= |waves|
    && (c.currentWave < |waves| ==> c.enemiesSpawned <= waves[c.currentWave].count)
    && (c.currentWave == |waves| ==> c.enemiesSpawned == 0)
  }

  /**
   * One call of `shouldSpawnEnemy(now)`: the new cursor and the answer.
   */
  function SpawnStep(waves: seq<Wave>, waveCooldown: int, c: Cursor, now: int): (Cursor, bool)
  {
    if c.currentWave >= |waves| then (c, false)
    else
      var w := waves[c.currentWave];
      if c.enemiesSpawned >= w.count then
        if now - c.lastSpawnTime >= waveCooldown then (Cursor(c.currentWave + 1, 0, now), false)
        else (c, false)
      else if now - c.lastSpawnTime >= w.spawnDelay then
        (Cursor(c.currentWave, c.enemiesSpawned + 1, now), true)
      else (c, false)
  }

  /** Once every wave is done, the level answers false and changes nothing. */
  lemma CompletedIsTerminal(waves: seq<Wave>, waveCooldown: int, c: Cursor, now: int)
    requires c.currentWave >= |waves|
    ensures SpawnStep(waves, waveCooldown, c, now) == (c, false)
  {
  }

  /**
   * An exhausted wave never spawns; it moves on to the next wave, with a fresh
   * counter and timestamp, exactly when the cooldown has elapsed.
   */
  lemma ExhaustedWaveAdvancesAfterCooldown(waves: seq<Wave>, waveCooldown: int, c: Cursor, now: int)
    requires c.currentWave < |waves| && c.enemiesSpawned >= waves[c.currentWave].count
    ensures !SpawnStep(waves, waveCooldown, c, now).1
    ensures SpawnStep(waves, waveCooldown, c, now).0 ==
              if now - c.lastSpawnTime >= waveCooldown then Cursor(c.currentWave + 1, 0, now) else c
  {
  }

  /**
   * A true answer counts one more enemy in the same wave and stamps the time;
   * it is given exactly when the wave has enemies left and its delay has passed.
   */
  lemma SpawnCountsOne(waves: seq<Wave>, waveCooldown: int, c: Cursor, now: int)
    requires c.currentWave < |waves|
    ensures SpawnStep(waves, waveCooldown, c, now).1 <==>
              c.enemiesSpawned < waves[c.currentWave].count && now - c.lastSpawnTime >= waves[c.currentWave].spawnDelay
    ensures SpawnStep(waves, waveCooldown, c, now).1 ==>
              SpawnStep(waves, waveCooldown, c, now).0 == Cursor(c.currentWave, c.enemiesSpawned + 1, now)
  {
  }

  /**
   * The cursor invariant is kept, and the wave index only moves forward, by at
   * most one per call, never past the number of waves.
   */
  lemma SpawnStepKeepsInvariant(waves: seq<Wave>, waveCooldown: int, c: Cursor, now: int)
    requires CursorInv(waves, c)
    ensures CursorInv(waves, SpawnStep(waves, waveCooldown, c, now).0)
    ensures c.currentWave <= SpawnStep(waves, waveCooldown, c, now).0.currentWave <= c.currentWave + 1
  {
  }

  /** Enemies still to come: what is left of the current wave plus every later wave. */
  function Remaining(waves: seq<Wave>, c: Cursor): int
  {
    if c.currentWave >= |waves| then 0
    else (waves[c.currentWave].count - c.enemiesSpawned) + SumCounts(waves[c.currentWave + 1..])
  }

  function SumCounts(waves: seq<Wave>): int
  {
    if waves == [] then 0 else waves[0].count + SumCounts(waves[1..])
  }

  /** Every spawn uses up exactly one of the enemies still to come, and nothing else does. */
  lemma {:induction false} SpawnUsesOneRemaining(waves: seq<Wave>, waveCooldown: int, c: Cursor, now: int)
    requires CursorInv(waves, c)
    ensures var (c', spawned) := SpawnStep(waves, waveCooldown, c, now);
            Remaining(waves, c') == Remaining(waves, c) - (if spawned then 1 else 0)
  {
    var (c', spawned) := SpawnStep(waves, waveCooldown, c, now);
    if c.currentWave < |waves| && c'.currentWave == c.currentWave + 1 {
      var i := c.currentWave;
      if i + 1 < |waves| {
        assert waves[i + 1..][1..] == waves[i + 2..];
      }
    }
  }

  /** The answers to a series of polls, starting from cursor `c`. */
  function Run(waves: seq<Wave>, waveCooldown: int, c: Cursor, times: seq<int>): (answers: seq<bool>)
    ensures |answers| == |times|
    decreases |times|
  {
    if times == [] then []
    else
      var (c', b) := SpawnStep(waves, waveCooldown, c, times[0]);
      [b] + Run(waves, waveCooldown, c', times[1..])
  }

  /** The cursor after a series of polls. */
  function After(waves: seq<Wave>, waveCooldown: int, c: Cursor, times: seq<int>): Cursor
    decreases |times|
  {
    if times == [] then c
    else After(waves, waveCooldown, SpawnStep(waves, waveCooldown, c, times[0]).0, times[1..])
  }

  function CountTrue(bs: seq<bool>): nat
  {
    if bs == [] then 0 else (if bs[0] then 1 else 0) + CountTrue(bs[1..])
  }

  /**
   * Over any series of polls a level spawns exactly as many enemies as its
   * remaining count drops: it never spawns more than its waves hold.
   */
  lemma {:induction false} RunSpawnsRemaining(waves: seq<Wave>, waveCooldown: int, c: Cursor, times: seq<int>)
    requires CursorInv(waves, c)
    ensures CursorInv(waves, After(waves, waveCooldown, c, times))
    ensures CountTrue(Run(waves, waveCooldown, c, times)) ==
              Remaining(waves, c) - Remaining(waves, After(waves, waveCooldown, c, times))
    decreases |times|
  {
    if times != [] {
      var (c', b) := SpawnStep(waves, waveCooldown, c, times[0]);
      SpawnStepKeepsInvariant(waves, waveCooldown, c, times[0]);
      SpawnUsesOneRemaining(waves, waveCooldown, c, times[0]);
      RunSpawnsRemaining(waves, waveCooldown, c', times[1..]);
      assert Run(waves, waveCooldown, c, times) == [b] + Run(waves, waveCooldown, c', times[1..]);
      assert ([b] + Run(waves, waveCooldown, c', times[1..]))[1..] == Run(waves, waveCooldown, c', times[1..]);
    }
  }

  lemma {:induction false} RemainingNonNegative(waves: seq<Wave>, c: Cursor)
    requires CursorInv(waves, c)
    ensures Remaining(waves, c) >= 0
  {
    if c.currentWave < |waves| {
      SumCountsNonNegative(waves[c.currentWave + 1..]);
    }
  }

  lemma {:induction false} SumCountsNonNegative(waves: seq<Wave>)
    requires forall i :: 0 <= i < |waves| ==> waves[i].Valid()
    ensures SumCounts(waves) >= 0
  {
    if waves != [] {
      SumCountsNonNegative(waves[1..]);
    }
  }

  /** From a fresh start a level spawns at most the sum of its wave counts, however it is polled. */
  lemma TotalSpawnsBounded(waves: seq<Wave>, waveCooldown: int, t0: int, times: seq<int>)
    requires forall i :: 0 <= i < |waves| ==> waves[i].Valid()
    ensures CountTrue(Run(waves, waveCooldown, Cursor(0, 0, t0), times)) <= SumCounts(waves)
  {
    var c := Cursor(0, 0, t0);
    RunSpawnsRemaining(waves, waveCooldown, c, times);
    RemainingNonNegative(waves, After(waves, waveCooldown, c, times));
    if waves != [] {
      assert waves[1..] == waves[c.currentWave + 1..];
    }
  }

  /**
   * A level of one wave of three enemies 100 ms apart and a 1000 ms cooldown,
   * created at time 0: polls at 100, 200 and 300 spawn, later polls do not,
   * and the level completes on the first poll at least 1000 ms after the third spawn.
   */
  lemma ThreeEnemyWaveScenario(k: EnemyType)
    ensures var waves := [Wave(k, 3, 100)];
            Run(waves, 1000, Cursor(0, 0, 0), [100, 200, 300, 400, 1200, 1300]) ==
              [true, true, true, false, false, false]
    ensures var waves := [Wave(k, 3, 100)];
            After(waves, 1000, Cursor(0, 0, 0), [100, 200, 300, 400, 1200]).currentWave == 0 &&
            After(waves, 1000, Cursor(0, 0, 0), [100, 200, 300, 400, 1200, 1300]).currentWave == 1
  {
    var waves := [Wave(k, 3, 100)];
    var c0 := Cursor(0, 0, 0);
    var c1 := Cursor(0, 1, 100);
    var c2 := Cursor(0, 2, 200);
    var c3 := Cursor(0, 3, 300);
    var c4 := Cursor(1, 0, 1300);
    assert SpawnStep(waves, 1000, c0, 100) == (c1, true);
    assert SpawnStep(waves, 1000, c1, 200) == (c2, true);
    assert SpawnStep(waves, 1000, c2, 300) == (c3, true);
    assert SpawnStep(waves, 1000, c3, 400) == (c3, false);
    assert SpawnStep(waves, 1000, c3, 1200) == (c3, false);
    assert SpawnStep(waves, 1000, c3, 1300) == (c4, false);
    assert Run(waves, 1000, c3, [1300]) == [false];
    assert Run(waves, 1000, c3, [1200, 1300]) == [false, false];
    assert Run(waves, 1000, c3, [400, 1200, 1300]) == [false, false, false];
    assert Run(waves, 1000, c2, [300, 400, 1200, 1300]) == [true, false, false, false];
    assert Run(waves, 1000, c1, [200, 300, 400, 1200, 1300]) == [true, true, false, false, false];
    assert After(waves, 1000, c3, [1300]) == c4;
    assert After(waves, 1000, c3, [1200]) == c3;
    assert After(waves, 1000, c3, [400, 1200]) == c3;
    assert After(waves, 1000, c3, [400, 1200, 1300]) == c4;
    assert After(waves, 1000, c2, [300, 400, 1200]) == c3;
    assert After(waves, 1000, c2, [300, 400, 1200, 1300]) == c4;
    assert After(waves, 1000, c1, [200, 300, 400, 1200]) == c3;
    assert After(waves, 1000, c1, [200, 300, 400, 1200, 1300]) == c4;
  }

  /** A level as the board sees it. */
  class Level {
    var waves: seq<Wave>
    const waveCooldown: int
    var currentWave: nat
    var enemiesSpawned: nat
    var lastSpawnTime: int

    function Cur(): Cursor
      reads this
    {
      Cursor(currentWave, enemiesSpawned, lastSpawnTime)
    }

    ghost predicate Valid()
      reads this
    {
      CursorInv(waves, Cur())
    }

    /** `new Level(waveCooldown)`: no waves yet, cursor reset at time `now`. */
    constructor(waveCooldown: int, now: int)
      ensures Valid()
      ensures this.waveCooldown == waveCooldown && waves == []
      ensures Cur() == Cursor(0, 0, now)
    {
      this.waves := [];
      this.waveCooldown := waveCooldown;
      this.currentWave, this.enemiesSpawned, this.lastSpawnTime := 0, 0, now;
    }

    /** resetLevel: back to the first wave with nothing spawned, timed from `now`. */
    method ResetLevel(now: int)
      requires Valid()
      modifies this
      ensures Valid()
      ensures waves == old(waves)
      ensures Cur() == Cursor(0, 0, now)
    {
      currentWave, enemiesSpawned, lastSpawnTime := 0, 0, now;
    }

    /** addWave: a null wave is ignored, any other is appended. */
    method AddWave(wave: Option<Wave>)
      requires Valid()
      requires wave.Some? ==> wave.value.Valid()
      modifies this
      ensures Valid()
      ensures waves == if wave.Some? then old(waves) + [wave.value] else old(waves)
      ensures Cur() == old(Cur())
    {
      if wave.Some? {
        waves := waves + [wave.value];
      }
    }

    /** shouldSpawnEnemy(now), proved against `SpawnStep`. */
    method ShouldSpawnEnemy(now: int) returns (spawn: bool)
      requires Valid()
      modifies this
      ensures Valid()
      ensures waves == old(waves)
      ensures (Cur(), spawn) == SpawnStep(waves, waveCooldown, old(Cur()), now)
    {
      SpawnStepKeepsInvariant(waves, waveCooldown, Cur(), now);
      if currentWave >= |waves| {
        return false;
      }
      var w := waves[currentWave];
      if enemiesSpawned >= w.count {
        if now - lastSpawnTime >= waveCooldown {
          currentWave := currentWave + 1;
          enemiesSpawned := 0;
          lastSpawnTime := now;
        }
        return false;
      }
      if now - lastSpawnTime >= w.spawnDelay {
        enemiesSpawned := enemiesSpawned + 1;
        lastSpawnTime := now;
        return true;
      }
      return false;
    }

    /** getCurrentEnemyType: the current wave's kind, or null exactly when the level is completed. */
    function GetCurrentEnemyType(): (t: Option<EnemyType>)
      reads this
      ensures t.None? <==> IsCompleted()
      ensures t.Some? ==> t.value == waves[currentWave].enemyType
    {
      if currentWave < |waves| then Some(waves[currentWave].enemyType) else None
    }

    /** isCompleted: every wave has been processed. */
    predicate IsCompleted()
      reads this
    {
      currentWave >= |waves|
    }
  }
}
