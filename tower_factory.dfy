/**
 * The towers on a board and the game clock they fire by
 * (tower/TowerFactory.java). A tick advances the clock by one frame, lets
 * every tower's powerups expire, and then lets every tower whose cooldown is
 * over attack, in list order, each seeing the damage the earlier ones did.
 *
 * The game clock is kept in whole milliseconds (the source adds 0.017 s per
 * frame to a double); powerup expiry and slow-downs use the wall clock `now`.
 */
module TowerRoster {
  import opened Wrappers
  import opened Tiles
  import opened Enemies
  import opened EnemyRoster
  import opened TowerTypes
  import opened Powerups
  import opened TowerRules
  import opened Towers

  /** FRAME_TIME_SECONDS, 0.017 s, in milliseconds. */
  const FrameMs: int := 17

  function TowerDataOf(ts: seq<Tower>): (ds: seq<TowerData>)
    reads ts
    ensures |ds| == |ts| && forall i {:trigger ds[i]} :: 0 <= i < |ts| ==> ds[i] == ts[i].Data()
  {
    if ts == [] then [] else TowerDataOf(ts[..|ts| - 1]) + [ts[|ts| - 1].Data()]
  }

  /** Every powerup object of every tower. */
  ghost function AllPowerups(ts: seq<Tower>): set<Powerup>
    reads ts
  {
    set i, p | 0 <= i < |ts| && p in ts[i].activePowerups :: p
  }

  lemma InAllPowerups(ts: seq<Tower>, i: nat, p: Powerup)
    requires i < |ts| && p in ts[i].activePowerups
    ensures p in AllPowerups(ts)
  {
  }

  /** The powerup states of every tower, tower by tower. */
  function PowerupListsOf(ts: seq<Tower>): (pss: seq<seq<PowerupData>>)
    reads ts, AllPowerups(ts)
    ensures |pss| == |ts| && forall i {:trigger pss[i]} :: 0 <= i < |ts| ==> pss[i] == ts[i].Powerups()
  {
    if ts == [] then []
    else
      var n := |ts| - 1;
      assert forall p :: p in ts[n].activePowerups ==> p in AllPowerups(ts);
      PowerupListsOf(ts[..n]) + [ts[n].Powerups()]
  }

  /** Towers whose states are `ds`, one by one, have TowerDataOf `ds`. */
  lemma DataOfTowers(ts: seq<Tower>, ds: seq<TowerData>)
    requires |ts| == |ds| && forall j :: 0 <= j < |ts| ==> ts[j].Data() == ds[j]
    ensures TowerDataOf(ts) == ds
  {
  }

  /** Towers whose powerup states are `pss`, one by one, have PowerupListsOf `pss`. */
  lemma PowerupsOfTowers(ts: seq<Tower>, pss: seq<seq<PowerupData>>)
    requires |ts| == |pss| && forall j :: 0 <= j < |ts| ==> ts[j].Powerups() == pss[j]
    ensures PowerupListsOf(ts) == pss
  {
  }

  /** Every tower is valid and appears once. */
  ghost predicate TowersValid(ts: seq<Tower>)
    reads ts, AllPowerups(ts)
  {
    (forall i :: 0 <= i < |ts| ==> (forall p :: p in ts[i].activePowerups ==> p in AllPowerups(ts)) && ts[i].Valid()) &&
    (forall i, j :: 0 <= i < j < |ts| ==> ts[i] != ts[j])
  }

  predicate AllLevelsValid(ts: seq<TowerData>)
  {
    forall i :: 0 <= i < |ts| ==> ValidLevel(ts[i].level)
  }

  /** updateTowerPowerups, on the towers: each one's expiring powerups revert. */
  function RevertEach(ts: seq<TowerData>, pss: seq<seq<PowerupData>>, now: int): (r: seq<TowerData>)
    requires |ts| == |pss|
    ensures |r| == |ts| && forall i :: 0 <= i < |ts| ==> r[i] == RevertAll(ts[i], pss[i], now)
  {
    seq(|ts|, i requires 0 <= i < |ts| => RevertAll(ts[i], pss[i], now))
  }

  /** updateTowerPowerups, on the lists: each one keeps its unexpired powerups. */
  function UnexpiredEach(pss: seq<seq<PowerupData>>, now: int): (r: seq<seq<PowerupData>>)
    ensures |r| == |pss| && forall i :: 0 <= i < |pss| ==> r[i] == Unexpired(pss[i], now)
  {
    seq(|pss|, i requires 0 <= i < |pss| => Unexpired(pss[i], now))
  }

  /**
   * Tower by tower, an attribute goes back to 1.0 exactly when an active
   * powerup of that tower's list on it has run out at `now`; every other
   * multiplier and every other field of the tower stays as it was.
   */
  lemma RevertEachSpec(ts: seq<TowerData>, pss: seq<seq<PowerupData>>, now: int)
    requires |ts| == |pss|
    ensures forall i, a :: 0 <= i < |ts| ==>
      Multiplier(RevertEach(ts, pss, now)[i], a) == if RunsOut(pss[i], a, now) then DefaultPct else Multiplier(ts[i], a)
    ensures forall i :: 0 <= i < |ts| ==>
      RevertEach(ts, pss, now)[i].(damagePct := ts[i].damagePct, fireRatePct := ts[i].fireRatePct, rangePct := ts[i].rangePct) == ts[i]
  {
    forall i | 0 <= i < |ts| {
      RevertAllSpec(ts[i], pss[i], now);
    }
  }

  /**
   * Tower by tower, the list keeps exactly its own powerups that have not
   * expired at `now`, in their old order, and never grows.
   */
  lemma UnexpiredEachSpec(pss: seq<seq<PowerupData>>, now: int)
    ensures forall i, p :: 0 <= i < |pss| ==> (p in UnexpiredEach(pss, now)[i] <==> p in pss[i] && !Expired(p, now))
    ensures forall i :: 0 <= i < |pss| ==> |UnexpiredEach(pss, now)[i]| <= |pss[i]|
    ensures forall i, k :: 0 <= i < |pss| && 0 <= k <= |pss[i]| ==>
      UnexpiredEach(pss, now)[i] == Unexpired(pss[i][..k], now) + Unexpired(pss[i][k..], now)
  {
    forall i | 0 <= i < |pss|
      ensures (forall p :: p in UnexpiredEach(pss, now)[i] <==> p in pss[i] && !Expired(p, now))
      ensures |UnexpiredEach(pss, now)[i]| <= |pss[i]|
    {
      UnexpiredSpec(pss[i], now);
    }
    forall i, k | 0 <= i < |pss| && 0 <= k <= |pss[i]|
      ensures UnexpiredEach(pss, now)[i] == Unexpired(pss[i][..k], now) + Unexpired(pss[i][k..], now)
    {
      UnexpiredKeepsOrder(pss[i][..k], pss[i][k..], now);
      assert pss[i][..k] + pss[i][k..] == pss[i];
    }
  }

  /**
   * One tower's part of processTowerAttacks: when it may fire at `clock` it
   * runs processAttack; the result is the tower, the enemies and the
   * explosions shown.
   */
  function Turn(t: TowerData, es: seq<EnemyData>, clock: int, now: int): (TowerData, seq<EnemyData>, seq<Point>)
    requires ValidLevel(t.level)
  {
    if CanShoot(t, clock) then
      var f := Fire(t, es, clock, now);
      (f.0, f.1, if f.2.Some? then [f.2.value] else [])
    else (t, es, [])
  }

  /**
   * A turn changes at most the shot time, and only of a tower that may fire;
   * it shows at most one explosion; and every enemy keeps its kind, path,
   * progress and invariant, losing health only.
   */
  lemma TurnSpec(m: TileMap, t: TowerData, es: seq<EnemyData>, clock: int, now: int)
    requires ValidLevel(t.level) && t.damagePct >= 0
    requires forall j :: 0 <= j < |es| ==> EnemyInv(m, es[j])
    ensures var r := Turn(t, es, clock, now);
      |r.2| <= 1 && FiredOrKept(t, r.0, clock) && OnlyHurt(m, es, r.1)
  {
    FireCases(t, es, clock, now);
    var c := Closest(t, es);
    if CanShoot(t, clock) && c.Some? {
      AttackOnlyHurts(m, t, es, c.value, now);
    }
  }

  /**
   * processTowerAttacks: the towers' turns in list order, each against the
   * enemies as the earlier turns left them. The result is the towers, the
   * enemies and the explosions shown, in order.
   */
  function AttackAll(ts: seq<TowerData>, es: seq<EnemyData>, clock: int, now: int): (r: (seq<TowerData>, seq<EnemyData>, seq<Point>))
    requires AllLevelsValid(ts)
    ensures |r.0| == |ts|
    decreases |ts|
  {
    if ts == [] then ([], es, [])
    else
      var n := |ts| - 1;
      var prev := AttackAll(ts[..n], es, clock, now);
      var turn := Turn(ts[n], prev.1, clock, now);
      (prev.0 + [turn.0], turn.1, prev.2 + turn.2)
  }

  /** The attacks of the first i + 1 towers are those of the first i, then tower i's turn. */
  lemma AttackAllStep(ts: seq<TowerData>, i: nat, es: seq<EnemyData>, clock: int, now: int)
    requires AllLevelsValid(ts) && i < |ts|
    ensures var prev := AttackAll(ts[..i], es, clock, now);
      var turn := Turn(ts[i], prev.1, clock, now);
      AttackAll(ts[..i + 1], es, clock, now) == (prev.0 + [turn.0], turn.1, prev.2 + turn.2)
  {
    assert ts[..i + 1][..i] == ts[..i];
  }

  /**
   * What a round of attacks does: each tower either stays as it was or, when
   * it could fire, records `clock` as its last shot; there is at most one
   * explosion per tower; and every enemy keeps its kind, path, progress and
   * invariant, losing health only.
   */
  lemma {:induction false} AttackAllSpec(m: TileMap, ts: seq<TowerData>, es: seq<EnemyData>, clock: int, now: int)
    requires AllLevelsValid(ts) && forall j :: 0 <= j < |es| ==> EnemyInv(m, es[j])
    requires forall k :: 0 <= k < |ts| ==> ts[k].damagePct >= 0
    ensures AttackOutcome(m, ts, es, clock, AttackAll(ts, es, clock, now))
    decreases |ts|
  {
    if ts != [] {
      var n := |ts| - 1;
      assert forall k :: 0 <= k < n ==> ts[..n][k] == ts[k];
      AttackAllLast(ts, es, clock, now);
      AttackAllSpec(m, ts[..n], es, clock, now);
      var prev := AttackAll(ts[..n], es, clock, now);
      TurnSpec(m, ts[n], prev.1, clock, now);
      OutcomeExtend(m, ts, es, clock, prev, Turn(ts[n], prev.1, clock, now));
    }
  }

  /**
   * What the towers' turns may do: each tower is kept or fires, at most one
   * explosion is shown per tower, and the enemies are only hurt.
   */
  ghost predicate AttackOutcome(m: TileMap, ts: seq<TowerData>, es: seq<EnemyData>, clock: int,
                                r: (seq<TowerData>, seq<EnemyData>, seq<Point>))
  {
    |r.0| == |ts| && |r.2| <= |ts| &&
    (forall k :: 0 <= k < |ts| ==> FiredOrKept(ts[k], r.0[k], clock)) && OnlyHurt(m, es, r.1)
  }

  /** One more turn extends what the earlier turns did. */
  lemma OutcomeExtend(m: TileMap, ts: seq<TowerData>, es: seq<EnemyData>, clock: int,
                      prev: (seq<TowerData>, seq<EnemyData>, seq<Point>), turn: (TowerData, seq<EnemyData>, seq<Point>))
    requires ts != [] && AttackOutcome(m, ts[..|ts| - 1], es, clock, prev)
    requires |turn.2| <= 1 && FiredOrKept(ts[|ts| - 1], turn.0, clock) && OnlyHurt(m, prev.1, turn.1)
    ensures AttackOutcome(m, ts, es, clock, (prev.0 + [turn.0], turn.1, prev.2 + turn.2))
  {
    var n := |ts| - 1;
    OnlyHurtTrans(m, es, prev.1, turn.1);
    forall k | 0 <= k < |ts|
      ensures FiredOrKept(ts[k], (prev.0 + [turn.0])[k], clock)
    {
      if k < n {
        assert ts[..n][k] == ts[k];
      }
    }
  }

  /** The attacks of a non-empty list of towers end with the last tower's turn. */
  lemma AttackAllLast(ts: seq<TowerData>, es: seq<EnemyData>, clock: int, now: int)
    requires AllLevelsValid(ts) && ts != []
    ensures var prev := AttackAll(ts[..|ts| - 1], es, clock, now);
      var turn := Turn(ts[|ts| - 1], prev.1, clock, now);
      AttackAll(ts, es, clock, now) == (prev.0 + [turn.0], turn.1, prev.2 + turn.2)
  {
  }

  /** A tower after its turn: as it was, or, when it could fire, with its shot clocked. */
  predicate FiredOrKept(t: TowerData, u: TowerData, clock: int)
  {
    u == t || (ValidLevel(t.level) && CanShoot(t, clock) && u == t.(lastShotTime := clock))
  }

  /**
   * `fs` is `es` after attacks: every enemy keeps its kind, path, progress
   * and invariant, and loses health only.
   */
  ghost predicate OnlyHurt(m: TileMap, es: seq<EnemyData>, fs: seq<EnemyData>)
  {
    |fs| == |es| &&
    forall j :: 0 <= j < |es| ==>
      EnemyInv(m, fs[j]) && fs[j].enemyType == es[j].enemyType && fs[j].path == es[j].path &&
      fs[j].progress == es[j].progress && fs[j].health <= es[j].health
  }

  lemma OnlyHurtTrans(m: TileMap, es: seq<EnemyData>, fs: seq<EnemyData>, gs: seq<EnemyData>)
    requires OnlyHurt(m, es, fs) && OnlyHurt(m, fs, gs)
    ensures OnlyHurt(m, es, gs)
  {
  }

  /** A tower that cannot fire yet neither attacks nor changes. */
  lemma {:induction false} IdleTowersStay(ts: seq<TowerData>, es: seq<EnemyData>, clock: int, now: int)
    requires AllLevelsValid(ts)
    requires forall k :: 0 <= k < |ts| ==> !CanShoot(ts[k], clock)
    ensures AttackAll(ts, es, clock, now) == (ts, es, [])
    decreases |ts|
  {
    if ts != [] {
      var n := |ts| - 1;
      IdleTowersStay(ts[..n], es, clock, now);
      var prev := AttackAll(ts[..n], es, clock, now);
      assert prev == (ts[..n], es, []);
      var turn := Turn(ts[n], prev.1, clock, now);
      assert turn == (ts[n], es, []);
      assert AttackAll(ts, es, clock, now) == (prev.0 + [turn.0], turn.1, prev.2 + turn.2);
      assert prev.0 + [turn.0] == ts;
      assert prev.2 + turn.2 == [];
    }
  }

  /**
   * The towers of a board and its game clock. Every tower is valid, appears
   * once, and owns its own powerups.
   */
  class TowerFactory {
    var towers: seq<Tower>
    var gameTime: int

    ghost predicate Valid()
      reads this, towers, AllPowerups(towers)
    {
      TowersValid(towers)
    }

    function Datas(): seq<TowerData>
      reads this, towers
    {
      TowerDataOf(towers)
    }

    function PowerupLists(): seq<seq<PowerupData>>
      reads this, towers, AllPowerups(towers)
    {
      PowerupListsOf(towers)
    }

    constructor()
      ensures towers == [] && gameTime == 0 && Valid()
    {
      towers := [];
      gameTime := 0;
    }

    /** createTower: a new level-1 tower at column `col`, row `row`, appended to the list. */
    method CreateTower(k: TowerType, row: int, col: int) returns (tower: Tower)
      requires Valid()
      modifies this
      ensures Valid() && gameTime == old(gameTime)
      ensures fresh(tower) && towers == old(towers) + [tower]
      ensures tower.Data() == NewTower(k, Point(col, row)) && tower.activePowerups == []
    {
      tower := new Tower(k, Point(col, row));
      towers := towers + [tower];
    }

    /**
     * tick: one frame on the game clock, then every tower's powerup expiry,
     * then the attacks of the towers whose cooldown is over. Returns the
     * explosions to show, one per shot, in order.
     */
    method Tick(enemies: seq<Enemy>, now: int) returns (explosions: seq<Point>)
      requires Valid() && Distinct(enemies)
      modifies this, towers, AllPowerups(towers), enemies
      ensures Valid() && towers == old(towers)
      ensures gameTime == old(gameTime) + FrameMs
      ensures PowerupLists() == UnexpiredEach(old(PowerupLists()), now)
      ensures AllLevelsValid(RevertEach(old(Datas()), old(PowerupLists()), now))
      ensures (Datas(), DataOf(enemies), explosions) ==
              AttackAll(RevertEach(old(Datas()), old(PowerupLists()), now), old(DataOf(enemies)), gameTime, now)
    {
      ghost var ts := Datas();
      ghost var pss := PowerupLists();
      ghost var es := DataOf(enemies);
      gameTime := gameTime + FrameMs;
      assert PowerupLists() == pss && Datas() == ts && DataOf(enemies) == es;
      explosions := UpdateAndAttack(enemies, now);
    }

    /** The two phases of tick after the clock has moved on. */
    method UpdateAndAttack(enemies: seq<Enemy>, now: int) returns (explosions: seq<Point>)
      requires Valid() && Distinct(enemies)
      modifies towers, AllPowerups(towers), enemies
      ensures Valid() && towers == old(towers) && gameTime == old(gameTime)
      ensures PowerupLists() == UnexpiredEach(old(PowerupLists()), now)
      ensures AllLevelsValid(RevertEach(old(Datas()), old(PowerupLists()), now))
      ensures (Datas(), DataOf(enemies), explosions) ==
              AttackAll(RevertEach(old(Datas()), old(PowerupLists()), now), old(DataOf(enemies)), gameTime, now)
    {
      ghost var es := DataOf(enemies);
      UpdateTowerPowerups(now);
      assert DataOf(enemies) == es;
      explosions := ProcessTowerAttacks(enemies, now);
    }

    /** updateTowerPowerups: every tower's updatePowerups, in list order. */
    method UpdateTowerPowerups(now: int)
      requires Valid()
      modifies towers, AllPowerups(towers)
      ensures Valid() && towers == old(towers) && gameTime == old(gameTime)
      ensures AllLevelsValid(Datas())
      ensures Datas() == RevertEach(old(Datas()), old(PowerupLists()), now)
      ensures PowerupLists() == UnexpiredEach(old(PowerupLists()), now)
    {
      ghost var ts := Datas();
      ghost var pss := PowerupLists();
      ghost var lists := seq(|towers|, j requires 0 <= j < |towers| reads this, towers => towers[j].activePowerups);
      var i := 0;
      while i < |towers|
        invariant i <= |towers|
        invariant ExpiredUpTo(i, ts, pss, lists, now)
        invariant forall j :: i <= j < |towers| ==> towers[j].activePowerups == old(towers[j].activePowerups)
      {
        UpdateAt(i, now, ts, pss, lists);
        i := i + 1;
      }
    }

    /**
     * The expiry loop's invariant: the first `i` towers have expired their
     * powerups, the rest are as they were.
     */
    ghost predicate ExpiredUpTo(i: nat, ts: seq<TowerData>, pss: seq<seq<PowerupData>>, lists: seq<seq<Powerup>>, now: int)
      reads this, towers, AllPowerups(towers)
    {
      TowersValid(towers) && i <= |towers| == |ts| == |pss| == |lists| &&
      (forall j :: 0 <= j < i ==>
         towers[j].Data() == RevertAll(ts[j], pss[j], now) && towers[j].Powerups() == Unexpired(pss[j], now)) &&
      (forall j :: i <= j < |towers| ==>
         towers[j].Data() == ts[j] && towers[j].Powerups() == pss[j] && towers[j].activePowerups == lists[j])
    }

    /** One step of the expiry loop: tower `i` expires its powerups, every other tower stays. */
    method UpdateAt(i: nat, now: int, ghost ts: seq<TowerData>, ghost pss: seq<seq<PowerupData>>,
                    ghost lists: seq<seq<Powerup>>)
      requires i < |towers| && ExpiredUpTo(i, ts, pss, lists, now)
      modifies towers[i], towers[i].activePowerups
      ensures ExpiredUpTo(i + 1, ts, pss, lists, now)
    {
      UpdateOne(i, now);
    }

    /** Tower `i` expires its powerups; every other tower, and its powerups, stay as they were. */
    method UpdateOne(i: nat, now: int)
      requires i < |towers| && TowersValid(towers)
      modifies towers[i], towers[i].activePowerups
      ensures TowersValid(towers)
      ensures towers[i].Data() == RevertAll(old(towers[i].Data()), old(towers[i].Powerups()), now)
      ensures towers[i].Powerups() == Unexpired(old(towers[i].Powerups()), now)
      ensures forall j :: 0 <= j < |towers| && j != i ==>
        towers[j].Data() == old(towers[j].Data()) && towers[j].Powerups() == old(towers[j].Powerups()) &&
        towers[j].activePowerups == old(towers[j].activePowerups)
    {
      var tower := towers[i];
      tower.UpdatePowerups(now);
      forall j | 0 <= j < |towers| && j != i
        ensures towers[j].Data() == old(towers[j].Data())
        ensures towers[j].Powerups() == old(towers[j].Powerups())
        ensures towers[j].Valid() == old(towers[j].Valid())
      {
        assert towers[j] != tower;
        assert forall p :: p in towers[j].activePowerups ==> p.tower == towers[j] && p !in old(tower.activePowerups);
      }
      forall j, p | 0 <= j < |towers| && p in towers[j].activePowerups
        ensures p in AllPowerups(towers)
      {
        InAllPowerups(towers, j, p);
      }
    }

    /** processTowerAttacks: the towers in list order, each attacking if it may fire. */
    method ProcessTowerAttacks(enemies: seq<Enemy>, now: int) returns (explosions: seq<Point>)
      requires Valid() && Distinct(enemies) && AllLevelsValid(Datas())
      modifies towers, enemies
      ensures Valid() && towers == old(towers) && gameTime == old(gameTime)
      ensures PowerupLists() == old(PowerupLists())
      ensures (Datas(), DataOf(enemies), explosions) == AttackAll(old(Datas()), old(DataOf(enemies)), gameTime, now)
    {
      ghost var ts := Datas();
      ghost var pss := PowerupLists();
      ghost var es := DataOf(enemies);
      ghost var done: seq<TowerData> := [];
      explosions := [];
      var i := 0;
      while i < |towers|
        invariant AttackedUpTo(i, ts, pss, es, done, enemies, explosions, now)
      {
        explosions, done := AttackAt(i, enemies, now, ts, pss, es, done, explosions);
        i := i + 1;
      }
      assert ts[..i] == ts;
      DataOfTowers(towers, done);
      PowerupsOfTowers(towers, pss);
    }

    /**
     * The attack loop's invariant: the first `i` towers have taken their
     * turns, against the enemies `es` as they were; the rest are as they were,
     * and no powerup changed.
     */
    ghost predicate AttackedUpTo(i: nat, ts: seq<TowerData>, pss: seq<seq<PowerupData>>, es: seq<EnemyData>,
                                 done: seq<TowerData>, enemies: seq<Enemy>, explosions: seq<Point>, now: int)
      reads this, towers, AllPowerups(towers), enemies, PathsOf(enemies)
    {
      TowersValid(towers) && i <= |towers| == |ts| == |pss| && |done| == i && AllLevelsValid(ts) && Distinct(enemies) &&
      (forall j :: 0 <= j < |towers| ==> towers[j].Powerups() == pss[j]) &&
      (forall j :: 0 <= j < i ==> towers[j].Data() == done[j]) &&
      (forall j :: i <= j < |towers| ==> towers[j].Data() == ts[j]) &&
      (done, DataOf(enemies), explosions) == AttackAll(ts[..i], es, gameTime, now)
    }

    /** One step of the attack loop: tower `i` takes its turn; no other tower changes. */
    method AttackAt(i: nat, enemies: seq<Enemy>, now: int, ghost ts: seq<TowerData>, ghost pss: seq<seq<PowerupData>>,
                    ghost es: seq<EnemyData>, ghost done: seq<TowerData>, explosions: seq<Point>)
      returns (explosions': seq<Point>, ghost done': seq<TowerData>)
      requires i < |towers| && AttackedUpTo(i, ts, pss, es, done, enemies, explosions, now)
      modifies towers[i], enemies
      ensures AttackedUpTo(i + 1, ts, pss, es, done', enemies, explosions', now)
    {
      var tower := towers[i];
      ghost var es0 := DataOf(enemies);
      AttackAllStep(ts, i, es, gameTime, now);
      var x := TakeTurn(tower, enemies, gameTime, now);
      forall j | 0 <= j < |towers| && j != i
        ensures towers[j].Data() == old(towers[j].Data())
      {
        assert towers[j] != tower;
      }
      explosions' := explosions + x;
      done' := done + [tower.Data()];
    }

    /** The body of processTowerAttacks' loop: the tower attacks if it may fire at `clock`. */
    static method TakeTurn(tower: Tower, enemies: seq<Enemy>, clock: int, now: int) returns (x: seq<Point>)
      requires tower.Valid() && Distinct(enemies)
      modifies tower, enemies
      ensures tower.Valid() && tower.activePowerups == old(tower.activePowerups)
      ensures (tower.Data(), DataOf(enemies), x) == Turn(old(tower.Data()), old(DataOf(enemies)), clock, now)
    {
      x := [];
      if tower.CanShoot(clock) {
        var ox := tower.ProcessAttack(enemies, clock, now);
        if ox.Some? {
          x := [ox.value];
        }
      } else {
        assert DataOf(enemies) == old(DataOf(enemies));
      }
    }
  }
}
