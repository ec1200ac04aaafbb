/**
 * The roster of live enemies (enemy/EnemyFactory.java): spawning on the
 * board's START tile, moving every enemy once per tick, and reaping the ones
 * that reached END (no reward) or died (a kill reward each).
 *
 * The source's calls back into the board (`livesLost()` from a pathfinder,
 * `gainCoins(5)` per kill) are returned as counts; the board makes the calls.
 */
module EnemyRoster {
  import opened Tiles
  import opened Waves
  import opened Pathfinding
  import opened Enemies

  /** ENEMY_KILL_REWARD: coins per enemy killed. */
  const KillReward: int := 5

  /** The pathfinders of a list of enemies, in order. */
  function PathsOf(es: seq<Enemy>): (ps: seq<EnemyPathfinding>)
    ensures |ps| == |es| && forall i :: 0 <= i < |es| ==> ps[i] == es[i].path
  {
    if es == [] then [] else PathsOf(es[..|es| - 1]) + [es[|es| - 1].path]
  }

  /** The data of a list of enemy objects, in order. */
  function DataOf(es: seq<Enemy>): (ds: seq<EnemyData>)
    reads es, PathsOf(es)
    ensures |ds| == |es| && forall i {:trigger ds[i]} :: 0 <= i < |es| ==> ds[i] == es[i].Data()
  {
    if es == [] then [] else DataOf(es[..|es| - 1]) + [es[|es| - 1].Data()]
  }

  /** Every enemy after one `move` each. */
  function MoveAll(m: TileMap, es: seq<EnemyData>, now: int): seq<EnemyData>
    requires m.WellFormed()
  {
    if es == [] then [] else MoveAll(m, es[..|es| - 1], now) + [EnemyMove(m, es[|es| - 1], now).0]
  }

  lemma {:induction false} MoveAllLength(m: TileMap, es: seq<EnemyData>, now: int)
    requires m.WellFormed()
    ensures |MoveAll(m, es, now)| == |es|
  {
    if es != [] {
      MoveAllLength(m, es[..|es| - 1], now);
    }
  }

  lemma {:induction false} MoveAllAt(m: TileMap, es: seq<EnemyData>, now: int, i: nat)
    requires m.WellFormed() && i < |es|
    ensures |MoveAll(m, es, now)| == |es| && MoveAll(m, es, now)[i] == EnemyMove(m, es[i], now).0
  {
    MoveAllLength(m, es, now);
    if i < |es| - 1 {
      MoveAllAt(m, es[..|es| - 1], now, i);
    }
  }

  /** How many of those moves reached END, costing a life each. */
  function LivesLostBy(m: TileMap, es: seq<EnemyData>, now: int): nat
    requires m.WellFormed()
  {
    if es == [] then 0
    else LivesLostBy(m, es[..|es| - 1], now) + (if EnemyMove(m, es[|es| - 1], now).1 then 1 else 0)
  }

  /** Every enemy of a roster satisfies its invariant. */
  ghost predicate AllEnemyInv(m: TileMap, es: seq<EnemyData>)
  {
    forall i :: 0 <= i < |es| ==> EnemyInv(m, es[i])
  }

  lemma {:induction false} MoveAllKeepsInv(m: TileMap, es: seq<EnemyData>, now: int)
    requires m.WellFormed()
    requires forall i :: 0 <= i < |es| ==> EnemyInv(m, es[i])
    ensures |MoveAll(m, es, now)| == |es|
    ensures forall i :: 0 <= i < |es| ==> EnemyInv(m, MoveAll(m, es, now)[i])
  {
    MoveAllLength(m, es, now);
    forall i | 0 <= i < |es|
      ensures EnemyInv(m, MoveAll(m, es, now)[i])
    {
      MoveAllAt(m, es, now, i);
      EnemyMoveSpec(m, es[i], now);
    }
  }

  lemma LivesLostPrefix(m: TileMap, es: seq<EnemyData>, now: int, i: nat)
    requires m.WellFormed() && i < |es|
    ensures LivesLostBy(m, es[..i + 1], now) ==
            LivesLostBy(m, es[..i], now) + (if EnemyMove(m, es[i], now).1 then 1 else 0)
  {
    assert es[..i + 1][..i] == es[..i];
  }

  /** How many enemies have not reached END yet. */
  function OnTheWay(es: seq<EnemyData>): nat
  {
    if es == [] then 0 else OnTheWay(es[..|es| - 1]) + (if es[|es| - 1].path.reachedEnd then 0 else 1)
  }

  /**
   * Moving everyone costs at most one life per enemy still on the way, and
   * each life lost is one enemy fewer on the way: an enemy that already
   * reached END never costs a second life.
   */
  lemma {:induction false} LivesLostAccounting(m: TileMap, es: seq<EnemyData>, now: int)
    requires m.WellFormed()
    requires forall i :: 0 <= i < |es| ==> EnemyInv(m, es[i])
    ensures LivesLostBy(m, es, now) <= OnTheWay(es)
    ensures LivesLostBy(m, es, now) + OnTheWay(MoveAll(m, es, now)) == OnTheWay(es)
  {
    if es != [] {
      var init := es[..|es| - 1];
      var last := es[|es| - 1];
      LivesLostAccounting(m, init, now);
      EnemyMoveSpec(m, last, now);
      MoveAllLength(m, es, now);
      var moved := MoveAll(m, es, now);
      assert moved[..|moved| - 1] == MoveAll(m, init, now);
    }
  }

  /** Still in play: not at END and not dead. */
  predicate Alive(e: EnemyData)
  {
    !e.path.reachedEnd && !IsDead(e)
  }

  /** removeFinishedEnemies keeps the live enemies, in their order. */
  function Survivors(es: seq<EnemyData>): seq<EnemyData>
  {
    if es == [] then []
    else Survivors(es[..|es| - 1]) + (if Alive(es[|es| - 1]) then [es[|es| - 1]] else [])
  }

  /** Enemies removed as killed: dead without having reached END. */
  function Kills(es: seq<EnemyData>): nat
  {
    if es == [] then 0
    else
      var e := es[|es| - 1];
      Kills(es[..|es| - 1]) + (if !e.path.reachedEnd && IsDead(e) then 1 else 0)
  }

  /** Enemies removed for reaching END, dead or not, without a reward. */
  function Escaped(es: seq<EnemyData>): nat
  {
    if es == [] then 0 else Escaped(es[..|es| - 1]) + (if es[|es| - 1].path.reachedEnd then 1 else 0)
  }

  lemma {:induction false} SurvivorsAppend(xs: seq<EnemyData>, ys: seq<EnemyData>)
    ensures Survivors(xs + ys) == Survivors(xs) + Survivors(ys)
    decreases |ys|
  {
    if ys == [] {
      assert xs + ys == xs;
    } else {
      assert (xs + ys)[..|xs + ys| - 1] == xs + ys[..|ys| - 1];
      SurvivorsAppend(xs, ys[..|ys| - 1]);
    }
  }

  /**
   * Reaping splits the roster three ways: every enemy either survives, is
   * counted as a kill, or escaped; the survivors are exactly the live enemies,
   * and reaping a roster that splits in two reaps each part in order.
   */
  lemma {:induction false} ReapPartition(es: seq<EnemyData>)
    ensures |Survivors(es)| + Kills(es) + Escaped(es) == |es|
    ensures forall e :: e in Survivors(es) <==> e in es && Alive(e)
  {
    if es != [] {
      var init := es[..|es| - 1];
      ReapPartition(init);
      assert es == init + [es[|es| - 1]];
    }
  }

  lemma ReapPrefix(es: seq<EnemyData>, i: nat)
    requires i < |es|
    ensures Survivors(es[..i + 1]) == Survivors(es[..i]) + (if Alive(es[i]) then [es[i]] else [])
    ensures Kills(es[..i + 1]) == Kills(es[..i]) + (if !es[i].path.reachedEnd && IsDead(es[i]) then 1 else 0)
  {
    assert es[..i + 1][..i] == es[..i];
  }

  /** Reaping is idempotent: survivors have nothing left to reap. */
  lemma {:induction false} ReapIdempotent(es: seq<EnemyData>)
    ensures Survivors(Survivors(es)) == Survivors(es)
    ensures Kills(Survivors(es)) == 0 && Escaped(Survivors(es)) == 0
  {
    if es != [] {
      var init := es[..|es| - 1];
      var last := es[|es| - 1];
      ReapIdempotent(init);
      var tail := if Alive(last) then [last] else [];
      SurvivorsAppend(Survivors(init), tail);
      KillsEscapedAppend(Survivors(init), tail);
    }
  }

  lemma KillsEscapedAppend(xs: seq<EnemyData>, ys: seq<EnemyData>)
    requires |ys| <= 1
    ensures Kills(xs + ys) == Kills(xs) + Kills(ys)
    ensures Escaped(xs + ys) == Escaped(xs) + Escaped(ys)
  {
    if ys == [] {
      assert xs + ys == xs;
    } else {
      assert (xs + ys)[..|xs + ys| - 1] == xs;
    }
  }

  lemma {:induction false} KillsOnlyAmongNotFinished(es: seq<EnemyData>)
    ensures Kills(es) <= OnTheWay(es)
  {
    if es != [] {
      KillsOnlyAmongNotFinished(es[..|es| - 1]);
    }
  }

  /**
   * The reaping loop's record: `picked` lists, in increasing order, the
   * indices below `i` of the live enemies of `es`.
   */
  ghost predicate PicksSurvivors(es: seq<EnemyData>, i: nat, picked: seq<nat>)
    requires i <= |es|
  {
    |picked| == |Survivors(es[..i])| &&
    (forall k :: 0 <= k < |picked| ==> picked[k] < i && es[picked[k]] == Survivors(es[..i])[k]) &&
    (forall k, l :: 0 <= k < l < |picked| ==> picked[k] < picked[l])
  }

  /** One step of the reaping loop that skips enemy `i`, which is not alive. */
  lemma PickSkip(es: seq<EnemyData>, i: nat, picked: seq<nat>)
    requires i < |es| && !Alive(es[i]) && PicksSurvivors(es, i, picked)
    ensures PicksSurvivors(es, i + 1, picked)
  {
    ReapPrefix(es, i);
  }

  /** One step of the reaping loop that keeps enemy `i`, which is alive. */
  lemma PickKeep(es: seq<EnemyData>, i: nat, picked: seq<nat>)
    requires i < |es| && Alive(es[i]) && PicksSurvivors(es, i, picked)
    ensures PicksSurvivors(es, i + 1, picked + [i])
  {
    ReapPrefix(es, i);
  }

  /**
   * The reaping loop over a copy of a roster: the live enemies in order, the
   * indices they were picked from, and the number of dead ones that did not
   * reach END.
   */
  method SelectSurvivors(es: seq<Enemy>, ghost before: seq<EnemyData>) returns (kept: seq<Enemy>, kills: nat, ghost picked: seq<nat>)
    requires before == DataOf(es)
    ensures PicksSurvivors(before, |before|, picked) && kills == Kills(before)
    ensures |kept| == |picked| && forall k :: 0 <= k < |kept| ==> kept[k] == es[picked[k]]
  {
    kept := [];
    picked := [];
    kills := 0;
    var i: nat := 0;
    while i < |es|
      invariant 0 <= i <= |es| && PicksSurvivors(before, i, picked)
      invariant |kept| == |picked| && forall k :: 0 <= k < |kept| ==> kept[k] == es[picked[k]]
      invariant kills == Kills(before[..i])
    {
      ReapPrefix(before, i);
      var enemy := es[i];
      assert enemy.Data() == before[i];
      if enemy.HasReachedEnd() {
        PickSkip(before, i, picked);
      } else if enemy.Dead() {
        PickSkip(before, i, picked);
        kills := kills + 1;
      } else {
        PickKeep(before, i, picked);
        kept := kept + [enemy];
        picked := picked + [i];
      }
      i := i + 1;
    }
    assert before[..i] == before;
  }

  /** No enemy, and no pathfinder, appears twice. */
  predicate Distinct(es: seq<Enemy>)
  {
    forall i, j :: 0 <= i < j < |es| ==> es[i] != es[j] && es[i].path != es[j].path
  }

  /**
   * The roster. Every enemy and every pathfinder in it is a distinct object,
   * and every pathfinder walks this roster's board. The enemies' own
   * invariant is carried by their data (see `AllEnemyInv` and the lemmas on
   * `MoveAll`, `Survivors` and `Spawned`).
   */
  class EnemyFactory {
    const board: TileMap
    var enemies: seq<Enemy>

    ghost predicate Valid()
      reads this
    {
      board.WellFormed() && Distinct(enemies) &&
      forall i :: 0 <= i < |enemies| ==> enemies[i].path.board == board
    }

    function Datas(): seq<EnemyData>
      reads this, enemies, PathsOf(enemies)
    {
      DataOf(enemies)
    }

    constructor(m: TileMap)
      requires m.WellFormed()
      ensures board == m && enemies == [] && Valid()
    {
      board := m;
      enemies := [];
    }

    /** Appends a new enemy of kind `t`; the source fails on a board without START. */
    method SpawnEnemy(t: EnemyType)
      requires Valid() && FindStart(board).Some?
      modifies this
      ensures Valid()
      ensures Datas() == old(Datas()) + [Spawned(board, t)]
      ensures |enemies| == |old(enemies)| + 1 && enemies[..|old(enemies)|] == old(enemies)
      ensures fresh(enemies[|enemies| - 1]) && fresh(enemies[|enemies| - 1].path)
    {
      var enemy := new Enemy(t, board);
      enemies := enemies + [enemy];
    }

    /** Moves every enemy once; returns how many reached END (lives lost). */
    method MoveEnemies(now: int) returns (lost: nat)
      requires Valid()
      modifies enemies, PathsOf(enemies)
      ensures Valid() && enemies == old(enemies)
      ensures Datas() == MoveAll(board, old(Datas()), now)
      ensures lost == LivesLostBy(board, old(Datas()), now)
    {
      ghost var before := Datas();
      ghost var after := MoveAll(board, before, now);
      MoveAllLength(board, before, now);
      lost := 0;
      var i := 0;
      while i < |enemies|
        invariant 0 <= i <= |enemies| && enemies == old(enemies)
        invariant MovedUpTo(i, before, after)
        invariant lost == LivesLostBy(board, before[..i], now)
      {
        LivesLostPrefix(board, before, now, i);
        MoveAllAt(board, before, now, i);
        var lifeLost := MoveAt(i, now, before, after);
        if lifeLost {
          lost := lost + 1;
        }
        i := i + 1;
      }
      assert before[..i] == before;
    }

    /**
     * The move loop's invariant: the first `i` enemies hold their moved data,
     * the rest their data from before the loop.
     */
    ghost predicate MovedUpTo(i: nat, before: seq<EnemyData>, after: seq<EnemyData>)
      reads this, enemies, PathsOf(enemies)
    {
      Valid() && i <= |enemies| == |before| == |after| &&
      (forall j :: 0 <= j < i ==> enemies[j].Data() == after[j]) &&
      (forall j :: i <= j < |enemies| ==> enemies[j].Data() == before[j])
    }

    /** One iteration of the move loop: enemy `i` moves, every other enemy stays put. */
    method MoveAt(i: nat, now: int, ghost before: seq<EnemyData>, ghost after: seq<EnemyData>) returns (lifeLost: bool)
      requires i < |enemies| && MovedUpTo(i, before, after)
      requires after[i] == EnemyMove(board, before[i], now).0
      modifies enemies[i], enemies[i].path
      ensures MovedUpTo(i + 1, before, after) && lifeLost == EnemyMove(board, before[i], now).1
    {
      lifeLost := enemies[i].Move(now);
      forall j | 0 <= j < |enemies| && j != i
        ensures enemies[j].Data() == old(enemies[j].Data())
      {
        assert enemies[j] != enemies[i] && enemies[j].path != enemies[i].path;
      }
    }

    /**
     * The reaping loop over a copy of the roster: the live enemies in order,
     * and the number of dead ones that did not reach END.
     */
    method Reap(ghost before: seq<EnemyData>) returns (kept: seq<Enemy>, kills: nat)
      requires Valid() && before == Datas()
      ensures DataOf(kept) == Survivors(before) && kills == Kills(before)
      ensures Distinct(kept) && forall k :: 0 <= k < |kept| ==> kept[k] in enemies && kept[k].path.board == board
    {
      ghost var picked;
      kept, kills, picked := SelectSurvivors(enemies, before);
      assert before[..|before|] == before;
      assert forall k :: 0 <= k < |kept| ==> DataOf(kept)[k] == before[picked[k]];
      forall k, l | 0 <= k < l < |kept|
        ensures kept[k] != kept[l] && kept[k].path != kept[l].path
      {
        assert picked[k] < picked[l];
      }
    }

    /**
     * Drops every enemy that reached END and every dead one; returns the
     * number of kills, each worth KillReward coins to the board.
     */
    method RemoveFinishedEnemies() returns (kills: nat)
      requires Valid()
      modifies this
      ensures Valid()
      ensures Datas() == Survivors(old(Datas())) && kills == Kills(old(Datas()))
      ensures forall e :: e in enemies ==> e in old(enemies)
    {
      var kept;
      kept, kills := Reap(Datas());
      enemies := kept;
    }
  }
}
