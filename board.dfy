/**
 * The game board (board/Board.java): lives, coins and round, level
 * progression, the order of one game tick, the tile grid with its interface
 * row and fallback map, and the list of explosions. Listener notifications
 * are left out; the two dialogs they open (game over, game completed) are
 * counted.
 */
module Boards {
  import opened Wrappers
  import opened Tiles
  import Waves
  import opened Levels
  import opened Pathfinding
  import opened Enemies
  import opened EnemyRoster
  import TowerTypes
  import opened TowerRules
  import opened Powerups
  import opened Towers
  import opened TowerRoster
  import opened Explosions
  import opened MapReading
  import opened LevelReading

  const StartingLives: int := 15
  const StartingCoins: int := 350
  const LevelCompletionBonus: int := 100
  const DefaultMapName: string := "Default Map"

  // ------------------------------------------------------------ tower shop

  /**
   * The tower shop's price list (TowerShop.getStaticTowerCost), which the
   * shop shows, checks against the coins and the tower menu refunds from.
   */
  function ShopPrice(k: TowerTypes.TowerType): (r: int)
    ensures 100 <= r <= 250
    ensures r == 100 <==> k == TowerTypes.Basic
  {
    match k
    case Basic => 100
    case Sniper => 150
    case Splash => 150
    case Bomber => 250
    case Slow => 175
  }

  /**
   * The price placing a tower charges (BoardComponent.getTowerCost), a
   * second table of its own: it agrees with the shop's price for every
   * kind, so a placed tower costs what the shop showed.
   */
  function TowerCost(k: TowerTypes.TowerType): (r: int)
    ensures r == ShopPrice(k)
  {
    match k
    case Basic => 100
    case Sniper | Splash => 150
    case Bomber => 250
    case Slow => 175
  }

  /** The coins the tower menu gives back for a removed tower: half its shop price, truncated. */
  function Refund(k: TowerTypes.TowerType): (r: int)
    ensures 0 < r && 2 * r <= ShopPrice(k) < 2 * r + 2
  {
    ShopPrice(k) / 2
  }

  // ------------------------------------------------------ level progression

  /**
   * What startNextRound reads and writes: the level index (the round is one
   * more), which level is running (by index), the coins, and how many times
   * the game-completed dialog was shown.
   */
  datatype Progress = Progress(index: int, current: Option<nat>, coins: int, completions: nat)

  /** Where the progression can be: a running level is the last one started. */
  ghost predicate ProgressInv(p: Progress, n: nat)
  {
    IndexInv(p.index, p.current, n)
  }

  /** The level index and the running level, with `n` levels. */
  ghost predicate IndexInv(index: int, current: Option<nat>, n: nat)
  {
    -1 <= index &&
    (index == -1 ==> current.None?) &&
    (0 <= index < n ==> current == Some(index)) &&
    (index >= n ==> current == (if n > 0 then Some(n - 1) else None))
  }

  /**
   * One call of startNextRound with `n` levels, `done` telling whether the
   * running level is completed, and the game declared complete when a level
   * is completed at index `finalIndex`. Nothing happens while a level runs.
   * On completion the bonus is paid; then either the game is declared
   * complete, or the index advances and the level there, if any, starts.
   */
  function Advance(p: Progress, n: nat, done: bool, finalIndex: int): Progress
  {
    if p.current.Some? && !done then p
    else
      var paid := if p.current.Some? then p.(coins := p.coins + LevelCompletionBonus) else p;
      if p.current.Some? && p.index == finalIndex then paid.(completions := paid.completions + 1)
      else
        var i := p.index + 1;
        paid.(index := i, current := if 0 <= i < n then Some(i) else p.current)
  }

  /** startNextRound as written: the game counts as complete at index `n - 45`. */
  function NextRoundAsWritten(p: Progress, n: nat, done: bool): Progress
  {
    Advance(p, n, done, n - 45)
  }

  /** startNextRound as intended: the game is complete when the last level, index `n - 1`, is. */
  function NextRound(p: Progress, n: nat, done: bool): Progress
  {
    Advance(p, n, done, n - 1)
  }

  /**
   * While a level runs nothing changes; otherwise the bonus is paid exactly
   * when a level was running, and the index moves up by at most one. The
   * invariant is kept, whatever the final index.
   */
  lemma AdvanceSpec(p: Progress, n: nat, done: bool, finalIndex: int)
    requires ProgressInv(p, n)
    ensures var q := Advance(p, n, done, finalIndex);
      ProgressInv(q, n) &&
      (p.current.Some? && !done ==> q == p) &&
      (p.current.None? || done ==>
         q.coins == p.coins + (if p.current.Some? then LevelCompletionBonus else 0)) &&
      p.index <= q.index <= p.index + 1 &&
      p.completions <= q.completions <= p.completions + 1
  {
  }

  /**
   * As written, the completion dialog can never be shown with fewer than 45
   * levels, and with 47 levels it is shown when the third level is done:
   * the game then stops advancing and every further call pays the bonus and
   * shows the dialog again.
   */
  lemma {:induction false} CompletionAsWritten(p: Progress, n: nat, done: bool)
    requires ProgressInv(p, n)
    ensures n < 45 ==> NextRoundAsWritten(p, n, done).completions == p.completions
    ensures n == 47 && p.index == 2 && done ==>
              NextRoundAsWritten(p, n, done) == Progress(2, Some(2), p.coins + LevelCompletionBonus, p.completions + 1)
  {
    if n == 47 && p.index == 2 {
      assert p.current == Some(2);
    }
  }

  /**
   * As intended, the completion dialog is shown exactly when the last level
   * has been completed, and the game then stays on it.
   */
  lemma CompletionAfterLastLevel(p: Progress, n: nat, done: bool)
    requires ProgressInv(p, n)
    ensures NextRound(p, n, done).completions > p.completions <==>
              n > 0 && p.current == Some(n - 1) && p.index == n - 1 && done
    ensures NextRound(p, n, done).completions > p.completions ==>
              NextRound(p, n, done).index == p.index && NextRound(p, n, done).current == p.current
  {
  }

  /** Every level is played, in order: from a fresh board each level starts after the one before it. */
  lemma LevelsInOrder(p: Progress, n: nat, done: bool)
    requires ProgressInv(p, n) && p.index < n - 1
    requires p.current.None? || done
    ensures NextRound(p, n, done).current == Some(p.index + 1)
  {
  }

  // ------------------------------------------------------------------ lives

  /** How many of `n` successive livesLost calls, from `lives`, find lives at or below zero. */
  function Overs(lives: int, n: nat): nat
  {
    if n == 0 then 0 else Overs(lives, n - 1) + (if lives - n <= 0 then 1 else 0)
  }

  /**
   * The game-over dialog is shown on every loss that leaves no life: none
   * while lives remain, then once per further loss.
   */
  lemma {:induction false} OversClosedForm(lives: int, n: nat)
    ensures Overs(lives, n) == if lives <= 0 then n else if n >= lives then n - lives + 1 else 0
  {
    if n > 0 {
      OversClosedForm(lives, n - 1);
    }
  }

  // ------------------------------------------------------------------ tiles

  /** A row of `w` INTERFACE tiles. */
  function InterfaceRow(w: nat): (row: seq<TileType>)
    ensures |row| == w && forall c :: 0 <= c < w ==> row[c] == Interface
  {
    seq(w, c => Interface)
  }

  /**
   * loadMap: the interface row on top of the `w` by `h` map the map reader
   * loaded, so the board is `h + 1` rows high.
   */
  function BoardMap(source: MapSource, name: string, w: nat, h: nat): (m: TileMap)
    ensures m.WellFormed() && m.width == w && m.height == h + 1
  {
    TileMap(w, h + 1, [InterfaceRow(w)] +
      seq(h, r requires 0 <= r < h => seq(w, c requires 0 <= c < w => LoadedTile(source, name, w, h, r, c))))
  }

  /**
   * The board's grid: row 0 is all INTERFACE and no other tile is; row
   * `r + 1` is the map reader's row `r`.
   */
  lemma BoardMapLayout(source: MapSource, name: string, w: nat, h: nat, r: nat, c: nat)
    requires r < h + 1 && c < w
    ensures var m := BoardMap(source, name, w, h);
      (m.tiles[r][c] == Interface <==> r == 0) &&
      (r > 0 ==> m.tiles[r][c] == LoadedTile(source, name, w, h, r - 1, c))
  {
    if r > 0 {
      var t := LoadedTile(source, name, w, h, r - 1, c);
      var chosen := Chosen(source, name);
      if chosen.Some? {
        var rows := chosen.value.tiles;
        if r - 1 < |rows| && c < |rows[r - 1]| {
          assert t == DecodeTile(rows[r - 1][c]);
        }
      }
    }
  }

  /**
   * createDefaultMap on one cell of a board `w` wide and `h` high (the
   * interface row included): the interface row, then GRASS, with row `h / 2`
   * a PATH from START to END; END is written last, so it wins on a board one
   * column wide.
   */
  function DefaultBoardTile(w: nat, h: nat, r: nat, c: nat): TileType
  {
    if r == h / 2 then (if c == w - 1 then End else if c == 0 then Start else Path)
    else if r == 0 then Interface
    else Grass
  }

  function DefaultBoardMap(w: nat, h: nat): (m: TileMap)
    ensures m.WellFormed() && m.width == w && m.height == h
  {
    TileMap(w, h, seq(h, r requires 0 <= r < h => seq(w, c requires 0 <= c < w => DefaultBoardTile(w, h, r, c))))
  }

  /**
   * On the fallback map of a board at least two rows high, enemies start at
   * column 0 of row `h / 2` when the board is at least two columns wide; on
   * a board one column wide the START tile is overwritten by END and there
   * is no start.
   */
  lemma {:induction false} DefaultBoardStart(w: nat, h: nat)
    requires w >= 1 && h >= 2
    ensures w >= 2 ==> FindStart(DefaultBoardMap(w, h)) == Some(Point(0, h / 2))
    ensures w == 1 ==> FindStart(DefaultBoardMap(w, h)).None?
  {
    var m := DefaultBoardMap(w, h);
    FindStartIsFirstStart(m);
    assert forall r, c :: m.InBounds(r, c) ==> m.tiles[r][c] == DefaultBoardTile(w, h, r, c);
    if w >= 2 {
      assert m.tiles[h / 2][0] == Start;
      var p := FindStart(m).value;
      assert m.tiles[p.y][p.x] == Start;
    }
  }

  // ------------------------------------------------------------ one tick

  /** The enemies, towers, explosion points, lives lost and kills of one tick's moves and attacks. */
  datatype StepResult = StepResult(enemies: seq<EnemyData>, towers: seq<TowerData>, hits: seq<Point>, lost: nat, kills: nat)

  /**
   * The part of tick after spawning and ageing explosions: every enemy
   * moves, every tower attacks (with its powerups already expired), and the
   * finished enemies are removed.
   */
  function EnemyStep(m: TileMap, es: seq<EnemyData>, ts: seq<TowerData>, clock: int, now: int): StepResult
    requires m.WellFormed() && AllLevelsValid(ts)
  {
    var at := AttackAll(ts, MoveAll(m, es, now), clock, now);
    StepResult(Survivors(at.1), at.0, at.2, LivesLostBy(m, es, now), Kills(at.1))
  }

  /** Only reaching END counts for being on the way, so equal paths give equal counts. */
  lemma {:induction false} OnTheWaySamePaths(xs: seq<EnemyData>, ys: seq<EnemyData>)
    requires |xs| == |ys| && forall j :: 0 <= j < |xs| ==> xs[j].path == ys[j].path
    ensures OnTheWay(xs) == OnTheWay(ys)
  {
    if xs != [] {
      var n := |xs| - 1;
      OnTheWaySamePaths(xs[..n], ys[..n]);
    }
  }

  lemma {:induction false} OnTheWayBound(es: seq<EnemyData>)
    ensures OnTheWay(es) <= |es|
  {
    if es != [] {
      OnTheWayBound(es[..|es| - 1]);
    }
  }

  /**
   * In one tick every enemy still on the way costs at most one life or
   * earns at most one kill reward, never both; the enemies left are all in
   * play and keep their invariant; every tower stays, and at most one
   * explosion is shown per tower.
   */
  lemma {:induction false} EnemyStepSpec(m: TileMap, es: seq<EnemyData>, ts: seq<TowerData>, clock: int, now: int)
    requires m.WellFormed() && AllLevelsValid(ts)
    requires forall k :: 0 <= k < |ts| ==> ts[k].damagePct >= 0
    requires forall j :: 0 <= j < |es| ==> EnemyInv(m, es[j])
    ensures var r := EnemyStep(m, es, ts, clock, now);
      r.lost + r.kills <= OnTheWay(es) <= |es| &&
      |r.towers| == |ts| && |r.hits| <= |ts| &&
      forall e :: e in r.enemies ==> Alive(e) && EnemyInv(m, e)
  {
    var moved := MoveAll(m, es, now);
    LivesLostAccounting(m, es, now);
    MoveAllKeepsInv(m, es, now);
    AttackAllSpec(m, ts, moved, clock, now);
    var at := AttackAll(ts, moved, clock, now);
    OnTheWaySamePaths(moved, at.1);
    KillsOnlyAmongNotFinished(at.1);
    ReapPartition(at.1);
    OnTheWayBound(es);
  }

  /** Each hit point becomes a new explosion. */
  function FreshAll(ps: seq<Point>): (xs: seq<ExplosionData>)
    ensures |xs| == |ps| && forall i :: 0 <= i < |ps| ==> xs[i] == Fresh(ps[i])
  {
    if ps == [] then [] else FreshAll(ps[..|ps| - 1]) + [Fresh(ps[|ps| - 1])]
  }

  /** The roster after this tick's spawn, if the level asked for one. */
  function WithSpawn(m: TileMap, es: seq<EnemyData>, kind: Option<Waves.EnemyType>): (r: seq<EnemyData>)
    requires m.WellFormed() && (kind.Some? ==> FindStart(m).Some?)
    ensures |r| == |es| + (if kind.Some? then 1 else 0) && r[..|es|] == es
    ensures kind.Some? ==> EnemyInv(m, r[|es|]) && r[|es|].enemyType == kind.value
  {
    if kind.Some? then es + [Spawned(m, kind.value)] else es
  }

  /**
   * What one tick changes, as values: the enemies, the towers with their
   * powerups and clock, the lives, the game-over count, the coins and the
   * explosions.
   */
  datatype GameState = GameState(
    enemies: seq<EnemyData>,
    towers: seq<TowerData>,
    powerups: seq<seq<PowerupData>>,
    clock: int,
    lives: int,
    gameOvers: nat,
    coins: int,
    explosions: seq<ExplosionData>)

  /** Whether the towers of `s` can attack at `now`: one powerup list per tower, and every level valid once expired powerups revert. */
  predicate CanStep(s: GameState, now: int)
  {
    |s.towers| == |s.powerups| && AllLevelsValid(RevertEach(s.towers, s.powerups, now))
  }

  /**
   * tick after the spawn, on values: the explosions age; the enemies move,
   * the towers attack on a clock one frame later, and finished enemies are
   * removed; each enemy reaching END costs a life (a game-over dialog when
   * none is left), each kill pays KillReward, and each shot adds an explosion.
   */
  function AfterStep(s: GameState, m: TileMap, now: int): GameState
    requires m.WellFormed() && CanStep(s, now)
  {
    Settled(s, EnemyStep(m, s.enemies, RevertEach(s.towers, s.powerups, now), s.clock + FrameMs, now), now)
  }

  /** The state once the enemy phases `r` of a tick from `s` have run and their losses, kills and shots are booked. */
  function Settled(s: GameState, r: StepResult, now: int): GameState
  {
    Booked(Phased(s, r, now), r.lost, r.kills, r.hits)
  }

  /** The state once the enemy phases `r` of a tick from `s` have run: the enemies, towers, powerups and tower clock. */
  function Phased(s: GameState, r: StepResult, now: int): GameState
  {
    s.(enemies := r.enemies, towers := r.towers, powerups := UnexpiredEach(s.powerups, now), clock := s.clock + FrameMs)
  }

  /**
   * `s` with `lost` lives lost (a game-over dialog each time none is left),
   * `kills` kill rewards paid, its explosions aged and a new one at each
   * point of `hits`.
   */
  function Booked(s: GameState, lost: nat, kills: nat, hits: seq<Point>): GameState
  {
    s.(lives := s.lives - lost, gameOvers := s.gameOvers + Overs(s.lives, lost), coins := s.coins + KillReward * kills,
       explosions := Aged(s.explosions) + FreshAll(hits))
  }

  /**
   * `r` is what the enemy phases of a tick from `s` give on map `m` at
   * `now`, with the tower clock one frame after that of `s`. The clock is
   * bound by a quantifier so that EnemyStep is expanded only where a caller
   * mentions it.
   */
  ghost predicate StepsTo(m: TileMap, s: GameState, now: int, r: StepResult)
  {
    m.WellFormed() && CanStep(s, now) &&
    forall c {:trigger EnemyStep(m, s.enemies, RevertEach(s.towers, s.powerups, now), c, now)} :: c == s.clock + FrameMs ==>
      r == EnemyStep(m, s.enemies, RevertEach(s.towers, s.powerups, now), c, now)
  }

  /** Phases that are those of a tick from `s` settle into the state tick leaves. */
  lemma SettledIsAfterStep(m: TileMap, s: GameState, now: int, r: StepResult)
    requires StepsTo(m, s, now, r)
    ensures CanStep(s, now) && AfterStep(s, m, now) == Settled(s, r, now)
  {
    assert r == EnemyStep(m, s.enemies, RevertEach(s.towers, s.powerups, now), s.clock + FrameMs, now);
  }

  datatype BoardError = BadDimensions | BadLevelData(cause: Waves.WaveError)

  /** The game board. */
  class Board {
    const width: int
    const height: int
    const mapName: string
    const tiles: TileMap
    const enemyFactory: EnemyFactory
    const towerFactory: TowerFactory
    /** The states of the explosions shown, oldest first. */
    var explosions: seq<ExplosionData>
    var levels: seq<Level>
    var currentLevel: Option<Level>
    var currentLevelIndex: int
    var lives: int
    var coins: int
    /** How many times the game-over and game-completed dialogs were shown. */
    var gameOvers: nat
    var completions: nat
    /** The index of the running level in `levels`. */
    ghost var current: Option<nat>

    ghost function GetProgress(): Progress
      reads this`currentLevelIndex, this`current, this`coins, this`completions
    {
      Progress(currentLevelIndex, current, coins, completions)
    }

    /** The board's game state as values. */
    ghost function State(): GameState
      reads this, enemyFactory, enemyFactory.enemies, PathsOf(enemyFactory.enemies)
      reads towerFactory, towerFactory.towers, AllPowerups(towerFactory.towers)
    {
      GameState(enemyFactory.Datas(), towerFactory.Datas(), towerFactory.PowerupLists(), towerFactory.gameTime,
                lives, gameOvers, coins, explosions)
    }

    ghost predicate Valid()
      reads this`levels, this`currentLevel, this`currentLevelIndex, this`current, enemyFactory, towerFactory, towerFactory.towers, AllPowerups(towerFactory.towers), levels
    {
      Shape() && Parts()
    }

    /** The enemies, the towers and the levels. */
    ghost predicate Parts()
      reads this`levels, enemyFactory, towerFactory, towerFactory.towers, AllPowerups(towerFactory.towers), levels
    {
      enemyFactory.Valid() && towerFactory.Valid() && LevelsValid()
    }

    /** The grid and dimensions, and where the level progression stands. */
    ghost predicate Shape()
      reads this`levels, this`currentLevel, this`currentLevelIndex, this`current
    {
      tiles.WellFormed() && tiles.width == width && tiles.height == height && width >= 1 && height >= 2 &&
      enemyFactory.board == tiles &&
      (current.Some? <==> currentLevel.Some?) &&
      (current.Some? ==> current.value < |levels| && currentLevel.value == levels[current.value]) &&
      IndexInv(currentLevelIndex, current, |levels|)
    }

    /** The levels are distinct objects, each valid. */
    ghost predicate LevelsValid()
      reads this`levels, levels
    {
      (forall i, j :: 0 <= i < j < |levels| ==> levels[i] != levels[j]) &&
      (forall i :: 0 <= i < |levels| ==> levels[i].Valid())
    }

    /** Whether the running level is over, as startNextRound asks. */
    predicate LevelDone()
      reads this, if currentLevel.Some? then {currentLevel.value} else {}
    {
      currentLevel.Some? && currentLevel.value.IsCompleted()
    }

    /**
     * The kind of enemy this tick's poll of the running level asks for:
     * none when no level runs, when it is completed, or when its poll at
     * `now` answers false.
     */
    function PolledKind(now: int): Option<Waves.EnemyType>
      reads this, if currentLevel.Some? then {currentLevel.value} else {}
    {
      if currentLevel.None? || currentLevel.value.IsCompleted() then None
      else
        var l := currentLevel.value;
        if SpawnStep(l.waves, l.waveCooldown, l.Cur(), now).1 then Some(l.waves[l.currentWave].enemyType) else None
    }

    /**
     * A board `width` tiles wide and `height` tiles high below its interface
     * row, on the map called `mapName` read from `mapSource`, playing
     * `levels`: 15 lives, 350 coins, round 0, nothing on the board yet.
     */
    constructor(width: int, height: int, mapName: string, mapSource: MapSource, levels: seq<Level>, ghost now: int)
      requires width >= 1 && height >= 1
      requires NewLevels(levels, now)
      ensures Valid() && fresh(enemyFactory) && fresh(towerFactory)
      ensures this.width == width && this.height == height + 1 && this.mapName == mapName
      ensures tiles == BoardMap(mapSource, mapName, width, height)
      ensures this.levels == levels && currentLevel.None? && currentLevelIndex == -1
      ensures lives == StartingLives && coins == StartingCoins && gameOvers == 0 && completions == 0
      ensures explosions == [] && enemyFactory.enemies == [] && towerFactory.towers == [] && towerFactory.gameTime == 0
    {
      this.width := width;
      this.height := height + 1;
      this.mapName := mapName;
      var m := LoadMap(mapSource, mapName, width, height);
      tiles := m;
      enemyFactory := new EnemyFactory(m);
      towerFactory := new TowerFactory();
      explosions := [];
      this.levels := levels;
      currentLevel := None;
      current := None;
      currentLevelIndex := -1;
      lives := StartingLives;
      coins := StartingCoins;
      gameOvers := 0;
      completions := 0;
    }

    /**
     * The spawn check at the start of tick: a running, unfinished level is
     * polled at `now`, and the kind of enemy it asks for is returned.
     */
    method PollLevel(now: int) returns (kind: Option<Waves.EnemyType>)
      requires Valid()
      modifies if currentLevel.Some? then {currentLevel.value} else {}
      ensures Valid() && kind == old(PolledKind(now))
      ensures currentLevel.Some? ==>
                currentLevel.value.waves == old(currentLevel.value.waves) &&
                currentLevel.value.Cur() ==
                  if old(currentLevel.value.IsCompleted()) then old(currentLevel.value.Cur())
                  else SpawnStep(old(currentLevel.value.waves), currentLevel.value.waveCooldown, old(currentLevel.value.Cur()), now).0
      ensures State() == old(State()) && AllPowerups(towerFactory.towers) == old(AllPowerups(towerFactory.towers))
    {
      ghost var pw := AllPowerups(towerFactory.towers);
      label Start:
      kind := None;
      if currentLevel.Some? && !currentLevel.value.IsCompleted() {
        var level := currentLevel.value;
        SpawnCountsOne(level.waves, level.waveCooldown, level.Cur(), now);
        var spawn := level.ShouldSpawnEnemy(now);
        if spawn {
          kind := level.GetCurrentEnemyType();
        }
      }
      StateUnchanged@Start(pw);
    }

    /**
     * tick at time `now`: the level is polled and the enemy it asks for
     * spawned; the explosions age; the enemies move, the towers (after
     * their powerups expire) attack on the tower clock, one frame later, and
     * finished enemies are removed. Each enemy reaching END costs a life,
     * each kill earns KillReward coins, and each shot leaves an explosion.
     * The spawn fails on a map without START, and then nothing after it
     * happens (`ok` is false).
     */
    method Tick(now: int) returns (ok: bool)
      requires Valid()
      modifies this, if currentLevel.Some? then {currentLevel.value} else {}
      modifies enemyFactory, enemyFactory.enemies, PathsOf(enemyFactory.enemies)
      modifies towerFactory, towerFactory.towers, AllPowerups(towerFactory.towers)
      ensures Valid() && levels == old(levels) && currentLevel == old(currentLevel)
      ensures currentLevelIndex == old(currentLevelIndex) && completions == old(completions) && current == old(current)
      ensures currentLevel.Some? ==>
                currentLevel.value.waves == old(currentLevel.value.waves) &&
                currentLevel.value.Cur() ==
                  if old(currentLevel.value.IsCompleted()) then old(currentLevel.value.Cur())
                  else SpawnStep(old(currentLevel.value.waves), currentLevel.value.waveCooldown, old(currentLevel.value.Cur()), now).0
      ensures ok <==> old(PolledKind(now)).None? || FindStart(tiles).Some?
      ensures !ok ==> State() == old(State())
      ensures ok ==>
                var spawned := old(State()).(enemies := WithSpawn(tiles, old(State()).enemies, old(PolledKind(now))));
                CanStep(spawned, now) && State() == AfterStep(spawned, tiles, now)
    {
      ok := Spawn(now);
      if ok {
        Step(now, State());
      }
    }

    /**
     * The spawn at the start of tick: the running level is polled at `now`
     * and the enemy it asks for is spawned. On a map without START the
     * spawn fails (`ok` is false) and the enemies stay as they were.
     */
    method Spawn(now: int) returns (ok: bool)
      requires Valid()
      modifies if currentLevel.Some? then {currentLevel.value} else {}
      modifies enemyFactory
      ensures Valid()
      ensures currentLevel.Some? ==>
                currentLevel.value.waves == old(currentLevel.value.waves) &&
                currentLevel.value.Cur() ==
                  if old(currentLevel.value.IsCompleted()) then old(currentLevel.value.Cur())
                  else SpawnStep(old(currentLevel.value.waves), currentLevel.value.waveCooldown, old(currentLevel.value.Cur()), now).0
      ensures ok <==> old(PolledKind(now)).None? || FindStart(tiles).Some?
      ensures !ok ==> State() == old(State())
      ensures ok ==> State() == old(State()).(enemies := WithSpawn(tiles, old(State()).enemies, old(PolledKind(now))))
      ensures unchanged(this) && towerFactory.towers == old(towerFactory.towers)
      ensures AllPowerups(towerFactory.towers) == old(AllPowerups(towerFactory.towers))
      ensures |old(enemyFactory.enemies)| <= |enemyFactory.enemies|
      ensures forall i :: 0 <= i < |old(enemyFactory.enemies)| ==>
                enemyFactory.enemies[i] == old(enemyFactory.enemies)[i] && PathsOf(enemyFactory.enemies)[i] == old(PathsOf(enemyFactory.enemies))[i]
      ensures forall i :: |old(enemyFactory.enemies)| <= i < |enemyFactory.enemies| ==>
                fresh(enemyFactory.enemies[i]) && fresh(PathsOf(enemyFactory.enemies)[i])
    {
      var kind := PollLevel(now);
      ok := SpawnKind(kind);
    }

    /**
     * spawnEnemy of the kind the level asked for, if any: a new enemy at
     * START joins the roster. On a map without START the spawn fails (`ok`
     * is false) and nothing changes.
     */
    method SpawnKind(kind: Option<Waves.EnemyType>) returns (ok: bool)
      requires Valid()
      modifies enemyFactory
      ensures Valid() && unchanged(this)
      ensures ok <==> kind.None? || FindStart(tiles).Some?
      ensures !ok ==> State() == old(State())
      ensures ok ==> State() == old(State()).(enemies := WithSpawn(tiles, old(State()).enemies, kind))
      ensures AllPowerups(towerFactory.towers) == old(AllPowerups(towerFactory.towers))
      ensures |old(enemyFactory.enemies)| <= |enemyFactory.enemies|
      ensures forall i :: 0 <= i < |old(enemyFactory.enemies)| ==>
                enemyFactory.enemies[i] == old(enemyFactory.enemies)[i] && PathsOf(enemyFactory.enemies)[i] == old(PathsOf(enemyFactory.enemies))[i]
      ensures forall i :: |old(enemyFactory.enemies)| <= i < |enemyFactory.enemies| ==>
                fresh(enemyFactory.enemies[i]) && fresh(PathsOf(enemyFactory.enemies)[i])
    {
      if kind.Some? && FindStart(tiles).None? {
        return false;
      }
      ghost var pw := AllPowerups(towerFactory.towers);
      label Polled:
      if kind.Some? {
        enemyFactory.SpawnEnemy(kind.value);
      }
      TowerFactoryUnchanged@Polled(towerFactory, pw);
      ok := true;
    }

    /** The game state reads the same while none of its objects change. */
    twostate lemma StateUnchanged(pw: set<Powerup>)
      requires old(AllPowerups(towerFactory.towers)) == pw
      requires unchanged(this) && unchanged(enemyFactory, towerFactory) && unchanged(old(enemyFactory.enemies))
      requires unchanged(old(PathsOf(enemyFactory.enemies))) && unchanged(old(towerFactory.towers)) && unchanged(pw)
      ensures State() == old(State())
    {
      EnemyFactoryUnchanged(enemyFactory);
      TowerFactoryUnchanged(towerFactory, pw);
    }

    /** tick after the spawn: the explosions age, the enemy and tower phases run, and their outcome is booked. */
    method Step(now: int, ghost before: GameState)
      requires Valid() && before == State()
      modifies this`lives, this`gameOvers, this`coins, this`explosions
      modifies enemyFactory, enemyFactory.enemies, PathsOf(enemyFactory.enemies)
      modifies towerFactory, towerFactory.towers, AllPowerups(towerFactory.towers)
      ensures Valid() && CanStep(before, now) && State() == AfterStep(before, tiles, now)
      ensures unchanged(this`levels, this`currentLevel, this`currentLevelIndex, this`completions, this`current)
      ensures currentLevel.Some? ==> unchanged(currentLevel.value)
    {
      var lost, kills, hits, step := RunPhases(now, before);
      Settle(lost, kills, hits, now, before, step);
      SettledIsAfterStep(tiles, before, now, step);
    }

    /** The enemy and tower phases of tick, which leave the board's own fields, its levels and its explosions as they are. */
    method RunPhases(now: int, ghost s0: GameState) returns (lost: nat, kills: nat, hits: seq<Point>, ghost step: StepResult)
      requires Valid() && s0 == State()
      modifies enemyFactory, enemyFactory.enemies, PathsOf(enemyFactory.enemies)
      modifies towerFactory, towerFactory.towers, AllPowerups(towerFactory.towers)
      ensures Valid() && StepsTo(tiles, s0, now, step) && unchanged(this)
      ensures currentLevel.Some? ==> unchanged(currentLevel.value)
      ensures step.hits == hits && step.lost == lost && step.kills == kills
      ensures State() == Phased(s0, step, now)
    {
      label Start:
      lost, kills, hits, step := Simulate(enemyFactory, towerFactory, now, s0);
      AfterPhases@Start(now, step);
    }

    /** What the enemy and tower phases of tick leave of the board's invariant and state. */
    twostate lemma AfterPhases(now: int, new step: StepResult)
      requires old(Valid())
      requires unchanged(this) && unchanged(old(levels))
      requires enemyFactory.Valid() && towerFactory.Valid()
      requires enemyFactory.Datas() == step.enemies && towerFactory.Datas() == step.towers
      requires towerFactory.gameTime == old(towerFactory.gameTime) + FrameMs
      requires towerFactory.PowerupLists() == UnexpiredEach(old(towerFactory.PowerupLists()), now)
      ensures Valid()
      ensures State() == old(State()).(enemies := step.enemies, towers := step.towers,
                                       powerups := UnexpiredEach(old(towerFactory.PowerupLists()), now),
                                       clock := old(towerFactory.gameTime) + FrameMs)
    {
      ShapeUnchanged();
      LevelsUnchanged();
    }

    /** The board stays valid while its levels, its progression and its parts do not change. */
    twostate lemma ValidKept(pw: set<Powerup>)
      requires old(Valid()) && old(AllPowerups(towerFactory.towers)) == pw
      requires unchanged(this`levels, this`currentLevel, this`currentLevelIndex, this`current)
      requires unchanged(enemyFactory, towerFactory, old(towerFactory.towers)) && unchanged(pw) && unchanged(old(levels))
      ensures Valid()
    {
      PartsUnchanged(pw);
    }

    /** The board's own fields determine its shape. */
    twostate lemma ShapeUnchanged()
      requires unchanged(this)
      ensures Shape() == old(Shape())
    {
    }

    /** Levels none of whose objects changed are as valid as before. */
    twostate lemma LevelsUnchanged()
      requires unchanged(this`levels) && unchanged(old(levels))
      ensures LevelsValid() == old(LevelsValid())
    {
    }

    /** The enemies, towers and levels read the same while none of their objects change. */
    twostate lemma PartsUnchanged(pw: set<Powerup>)
      requires old(Parts()) && old(AllPowerups(towerFactory.towers)) == pw
      requires unchanged(this`levels) && unchanged(enemyFactory, towerFactory) && unchanged(old(towerFactory.towers))
      requires unchanged(pw) && unchanged(old(levels))
      ensures Parts()
    {
    }

    /**
     * updateExplosions, then the lives, coins and explosions the phases
     * `step` of tick give. The explosions share no object with the enemies
     * or the towers, so ageing them after those phases rather than before
     * leaves the same state.
     */
    method Settle(lost: nat, kills: nat, hits: seq<Point>, now: int, ghost before: GameState, ghost step: StepResult)
      requires Valid() && State() == Phased(before, step, now)
      requires step.lost == lost && step.kills == kills && step.hits == hits
      modifies this`lives, this`gameOvers, this`coins, this`explosions
      ensures Valid() && State() == Settled(before, step, now)
      ensures unchanged(this`levels, this`currentLevel, this`currentLevelIndex, this`completions, this`current)
      ensures currentLevel.Some? ==> unchanged(currentLevel.value)
    {
      ghost var pw := AllPowerups(towerFactory.towers);
      label Start:
      Book(lost, kills);
      UpdateExplosions();
      AddExplosions(hits);
      ValidKept@Start(pw);
      StateBooked@Start(pw, lost, kills, hits);
    }

    /** The state once only the lives, the game-over count, the coins and the explosions have changed. */
    twostate lemma StateBooked(new pw: set<Powerup>, new lost: nat, new kills: nat, new hits: seq<Point>)
      requires old(AllPowerups(towerFactory.towers)) == pw
      requires unchanged(enemyFactory, towerFactory) && unchanged(old(enemyFactory.enemies))
      requires unchanged(old(PathsOf(enemyFactory.enemies))) && unchanged(old(towerFactory.towers)) && unchanged(pw)
      requires lives == old(lives) - lost && gameOvers == old(gameOvers) + Overs(old(lives), lost)
      requires coins == old(coins) + KillReward * kills && explosions == Aged(old(explosions)) + FreshAll(hits)
      ensures State() == Booked(old(State()), lost, kills, hits)
    {
      EnemyFactoryUnchanged(enemyFactory);
      TowerFactoryUnchanged(towerFactory, pw);
    }

    /** The lives lost and the coins earned in a tick. */
    method Book(lost: nat, kills: nat)
      modifies this`lives, this`gameOvers, this`coins
      ensures lives == old(lives) - lost && gameOvers == old(gameOvers) + Overs(old(lives), lost)
      ensures coins == old(coins) + KillReward * kills
    {
      LoseLives(lost);
      GainCoins(KillReward * kills);
    }

    /**
     * updateExplosions: each explosion ages a frame and is dropped once it has
     * run out; the rest keep their order.
     */
    method UpdateExplosions()
      modifies this`explosions
      ensures explosions == Aged(old(explosions))
    {
      var xs := explosions;
      var kept := [];
      var i := 0;
      while i < |xs|
        invariant 0 <= i <= |xs| && kept == Aged(xs[..i])
      {
        var y := Decreased(xs[i]);
        assert xs[..i + 1][..i] == xs[..i];
        if !Explosions.Expired(y) {
          kept := kept + [y];
        }
        i := i + 1;
      }
      assert xs[..i] == xs;
      explosions := kept;
    }

    /**
     * startNextRound, with the game-completed check on the last level (see
     * NextRoundAsWritten for the check as the source writes it).
     */
    method StartNextRound()
      requires Valid()
      modifies this
      ensures Valid() && levels == old(levels) && lives == old(lives) && explosions == old(explosions)
      ensures GetProgress() == NextRound(old(GetProgress()), |levels|, old(LevelDone()))
    {
      ghost var done := LevelDone();
      AdvanceSpec(GetProgress(), |levels|, done, |levels| - 1);
      if currentLevel.None? || currentLevel.value.IsCompleted() {
        if currentLevel.Some? && currentLevel.value.IsCompleted() {
          GainCoins(LevelCompletionBonus);
          if currentLevelIndex == |levels| - 1 {
            completions := completions + 1;
            return;
          }
        }
        currentLevelIndex := currentLevelIndex + 1;
        if currentLevelIndex < |levels| {
          StartLevel(levels[currentLevelIndex], currentLevelIndex);
        }
      }
    }

    /** startLevel: `level` (the one at index `k`) becomes the running level. */
    method StartLevel(level: Level, ghost k: nat)
      requires k < |levels| && levels[k] == level
      modifies this
      ensures currentLevel == Some(level) && current == Some(k)
      ensures levels == old(levels) && currentLevelIndex == old(currentLevelIndex) && coins == old(coins)
      ensures completions == old(completions) && lives == old(lives) && explosions == old(explosions)
    {
      currentLevel := Some(level);
      current := Some(k);
    }

    /** livesLost: one life fewer; the game-over dialog each time none is left. */
    method LivesLost()
      modifies this`lives, this`gameOvers
      ensures lives == old(lives) - 1
      ensures gameOvers == old(gameOvers) + (if lives <= 0 then 1 else 0)
    {
      lives := lives - 1;
      if lives <= 0 {
        gameOvers := gameOvers + 1;
      }
    }

    /** `n` calls of livesLost, one per enemy that reached END. */
    method LoseLives(n: nat)
      modifies this`lives, this`gameOvers
      ensures lives == old(lives) - n
      ensures gameOvers == old(gameOvers) + Overs(old(lives), n)
    {
      var k := 0;
      while k < n
        invariant 0 <= k <= n
        invariant lives == old(lives) - k
        invariant gameOvers == old(gameOvers) + Overs(old(lives), k)
      {
        LivesLost();
        k := k + 1;
      }
    }

    /** gainCoins: the amount is added as it is, negative or not. */
    method GainCoins(amount: int)
      modifies this`coins
      ensures coins == old(coins) + amount
    {
      coins := coins + amount;
    }

    /** getRound. */
    function GetRound(): (round: int)
      reads this
      ensures round == currentLevelIndex + 1
    {
      currentLevelIndex + 1
    }

    /** addExplosion: a new explosion at `p`, after the others. */
    method AddExplosion(p: Point)
      modifies this`explosions
      ensures explosions == old(explosions) + [Fresh(p)]
    {
      explosions := explosions + [Fresh(p)];
    }

    /** addExplosion for each point, in order. */
    method AddExplosions(ps: seq<Point>)
      modifies this`explosions
      ensures explosions == old(explosions) + FreshAll(ps)
    {
      var i := 0;
      while i < |ps|
        invariant 0 <= i <= |ps| && explosions == old(explosions) + FreshAll(ps[..i])
      {
        assert ps[..i + 1][..i] == ps[..i];
        AddExplosion(ps[i]);
        i := i + 1;
      }
      assert ps[..i] == ps;
    }

    /**
     * The tower placement of the board view: a tower of kind `k` is built at
     * (row, col) only on GRASS or SAND, and its price is then taken.
     */
    method PlaceTower(k: TowerTypes.TowerType, row: int, col: int) returns (placed: bool)
      requires Valid()
      modifies this, towerFactory
      ensures Valid() && levels == old(levels) && lives == old(lives) && explosions == old(explosions)
      ensures placed == CanPlaceTower(tiles.TileAt(row, col))
      ensures coins == old(coins) - (if placed then TowerCost(k) else 0)
      ensures towerFactory.gameTime == old(towerFactory.gameTime)
      ensures placed ==> |towerFactory.towers| == |old(towerFactory.towers)| + 1 &&
                         towerFactory.towers[..|old(towerFactory.towers)|] == old(towerFactory.towers) &&
                         towerFactory.towers[|old(towerFactory.towers)|].Data() == NewTower(k, Point(col, row))
      ensures !placed ==> towerFactory.towers == old(towerFactory.towers)
    {
      placed := false;
      if col < 0 || col >= width || row < 0 || row >= height {
        return;
      }
      var t := tiles.TileAt(row, col);
      if t == Some(Grass) || t == Some(Sand) {
        var tower := towerFactory.CreateTower(k, row, col);
        GainCoins(-TowerCost(k));
        placed := true;
      }
    }
  }

  /**
   * The enemy and tower phases of tick: moveEnemies, the tower factory's
   * tick, removeFinishedEnemies. Returns the lives lost, the kills and the
   * points hit.
   */
  method Simulate(ef: EnemyFactory, tf: TowerFactory, now: int, ghost s0: GameState)
    returns (lost: nat, kills: nat, hits: seq<Point>, ghost step: StepResult)
    requires ef.Valid() && tf.Valid()
    requires s0.enemies == ef.Datas() && s0.towers == tf.Datas() && s0.powerups == tf.PowerupLists() && s0.clock == tf.gameTime
    modifies ef, ef.enemies, PathsOf(ef.enemies), tf, tf.towers, AllPowerups(tf.towers)
    ensures ef.Valid() && tf.Valid()
    ensures tf.towers == old(tf.towers) && tf.gameTime == old(tf.gameTime) + FrameMs
    ensures tf.PowerupLists() == UnexpiredEach(s0.powerups, now)
    ensures step == StepResult(ef.Datas(), tf.Datas(), hits, lost, kills) && StepsTo(ef.board, s0, now, step)
  {
    ghost var r;
    lost, hits, r := MoveThenAttack(ef, tf, now, s0);
    kills := Reaping(ef, tf);
    step := StepResult(ef.Datas(), tf.Datas(), hits, lost, kills);
    PhasesStep(ef.board, s0, now, r, lost, kills);
  }

  /** The phases of a tick, run one after the other, are EnemyStep. */
  lemma PhasesStep(m: TileMap, s: GameState, now: int, r: (seq<TowerData>, seq<EnemyData>, seq<Point>), lost: nat, kills: nat)
    requires m.WellFormed() && CanStep(s, now)
    requires r == AttackAll(RevertEach(s.towers, s.powerups, now), MoveAll(m, s.enemies, now), s.clock + FrameMs, now)
    requires lost == LivesLostBy(m, s.enemies, now) && kills == Kills(r.1)
    ensures StepsTo(m, s, now, StepResult(Survivors(r.1), r.0, r.2, lost, kills))
  {
    assert StepResult(Survivors(r.1), r.0, r.2, lost, kills) == EnemyStep(m, s.enemies, RevertEach(s.towers, s.powerups, now), s.clock + FrameMs, now);
  }

  /** removeFinishedEnemies, which leaves the towers and their powerups as they are. */
  method Reaping(ef: EnemyFactory, tf: TowerFactory) returns (kills: nat)
    requires ef.Valid() && tf.Valid()
    modifies ef
    ensures ef.Valid() && ef.Datas() == Survivors(old(ef.Datas())) && kills == Kills(old(ef.Datas()))
    ensures tf.Valid() && tf.Datas() == old(tf.Datas()) && tf.PowerupLists() == old(tf.PowerupLists())
    ensures tf.towers == old(tf.towers) && tf.gameTime == old(tf.gameTime)
  {
    ghost var pw := AllPowerups(tf.towers);
    label Start:
    kills := ef.RemoveFinishedEnemies();
    TowerFactoryUnchanged@Start(tf, pw);
  }

  /** The moves, then the attacks, of one tick. */
  method MoveThenAttack(ef: EnemyFactory, tf: TowerFactory, now: int,
                        ghost s0: GameState)
    returns (lost: nat, hits: seq<Point>, ghost r: (seq<TowerData>, seq<EnemyData>, seq<Point>))
    requires ef.Valid() && tf.Valid()
    requires s0.enemies == ef.Datas() && s0.towers == tf.Datas() && s0.powerups == tf.PowerupLists() && s0.clock == tf.gameTime
    modifies ef.enemies, PathsOf(ef.enemies), tf, tf.towers, AllPowerups(tf.towers)
    ensures ef.Valid() && tf.Valid()
    ensures tf.towers == old(tf.towers) && tf.gameTime == s0.clock + FrameMs
    ensures tf.PowerupLists() == UnexpiredEach(s0.powerups, now)
    ensures CanStep(s0, now) && lost == LivesLostBy(ef.board, s0.enemies, now)
    ensures r == AttackAll(RevertEach(s0.towers, s0.powerups, now), MoveAll(ef.board, s0.enemies, now), s0.clock + FrameMs, now)
    ensures tf.Datas() == r.0 && ef.Datas() == r.1 && hits == r.2
  {
    ghost var pw := AllPowerups(tf.towers);
    label Start:
    lost := ef.MoveEnemies(now);
    TowerFactoryUnchanged@Start(tf, pw);
    hits := Attack(ef, tf, now);
    r := (tf.Datas(), ef.Datas(), hits);
  }

  /** The tower factory's tick against the roster's enemies. */
  method Attack(ef: EnemyFactory, tf: TowerFactory, now: int) returns (hits: seq<Point>)
    requires ef.Valid() && tf.Valid()
    modifies tf, tf.towers, AllPowerups(tf.towers), ef.enemies
    ensures ef.Valid() && ef.enemies == old(ef.enemies) && tf.Valid()
    ensures tf.towers == old(tf.towers) && tf.gameTime == old(tf.gameTime) + FrameMs
    ensures tf.PowerupLists() == UnexpiredEach(old(tf.PowerupLists()), now)
    ensures AllLevelsValid(RevertEach(old(tf.Datas()), old(tf.PowerupLists()), now))
    ensures (tf.Datas(), ef.Datas(), hits) ==
              AttackAll(RevertEach(old(tf.Datas()), old(tf.PowerupLists()), now), old(ef.Datas()), tf.gameTime, now)
  {
    hits := tf.Tick(ef.enemies, now);
  }

  /** An enemy roster none of whose objects changed reads the same. */
  twostate lemma EnemyFactoryUnchanged(ef: EnemyFactory)
    requires unchanged(ef) && unchanged(old(ef.enemies)) && unchanged(old(PathsOf(ef.enemies)))
    ensures ef.Valid() == old(ef.Valid()) && ef.Datas() == old(ef.Datas())
  {
    forall i | 0 <= i < |ef.enemies|
      ensures ef.enemies[i].Data() == old(ef.enemies[i].Data())
    {
      assert ef.enemies[i].path == PathsOf(ef.enemies)[i];
    }
  }

  /** A tower factory none of whose objects changed reads the same. */
  twostate lemma TowerFactoryUnchanged(tf: TowerFactory, new pw: set<Powerup>)
    requires old(AllPowerups(tf.towers)) == pw
    requires unchanged(tf) && unchanged(old(tf.towers)) && unchanged(pw)
    ensures AllPowerups(tf.towers) == pw
    ensures tf.Datas() == old(tf.Datas()) && tf.PowerupLists() == old(tf.PowerupLists())
    ensures tf.Valid() == old(tf.Valid())
  {
  }

  /**
   * The Board constructor with its level loading: dimensions below one are
   * refused, a missing map name becomes "Default Map", the levels are those
   * the level reader gives, none when the level file is malformed, and a
   * wave record the Wave constructor refuses makes the construction fail.
   */
  method NewBoard(width: int, height: int, mapName: Option<string>, mapSource: MapSource, levelSource: LevelSource, now: int)
    returns (r: Result<Board, BoardError>)
    ensures r.Failure? <==> width < 1 || height < 1 || (LevelsFrom(levelSource).Failure? && LevelsFrom(levelSource).error.BadWave?)
    ensures r.Failure? ==>
              r.error == if width < 1 || height < 1 then BadDimensions else BadLevelData(LevelsFrom(levelSource).error.cause)
    ensures r.Success? ==>
              var b := r.value;
              fresh(b) && b.Valid() && b.width == width && b.height == height + 1 &&
              b.mapName == (if mapName.None? then DefaultMapName else mapName.value) &&
              b.tiles == BoardMap(mapSource, b.mapName, width, height) &&
              PlansOf(b.levels) == (if LevelsFrom(levelSource).Success? then LevelsFrom(levelSource).value else []) &&
              b.currentLevel.None? && b.currentLevelIndex == -1 && b.lives == StartingLives && b.coins == StartingCoins &&
              b.explosions == [] && b.enemyFactory.enemies == [] && b.towerFactory.towers == []
  {
    if width < 1 || height < 1 {
      return Failure(BadDimensions);
    }
    var name := if mapName.None? then DefaultMapName else mapName.value;
    var loaded := GetLevels(levelSource, now);
    var levels: seq<Level> := [];
    if loaded.Success? {
      levels := loaded.value;
    } else if loaded.error.BadWave? {
      return Failure(BadLevelData(loaded.error.cause));
    }
    var b := new Board(width, height, name, mapSource, levels, now);
    return Success(b);
  }

  /**
   * loadMap: a map reader loads the `w` by `h` map, and the board's grid is
   * an INTERFACE row followed by the reader's rows.
   */
  method LoadMap(source: MapSource, name: string, w: nat, h: nat) returns (m: TileMap)
    requires w >= 1 && h >= 1
    ensures m == BoardMap(source, name, w, h)
  {
    var reader := new MapReader(source, w, h, Some(name));
    var game := reader.Rows();
    var rows := [InterfaceRow(w)];
    var row := 0;
    while row < h
      invariant 0 <= row <= h
      invariant rows == [InterfaceRow(w)] + game[..row]
    {
      rows := rows + [game[row]];
      row := row + 1;
    }
    m := TileMap(w, h + 1, rows);
    assert game[..row] == game;
    var expected := BoardMap(source, name, w, h);
    assert |rows| == |expected.tiles|;
    forall r | 0 <= r < h + 1
      ensures rows[r] == expected.tiles[r]
    {
      if r > 0 {
        assert |rows[r]| == w;
        forall c | 0 <= c < w
          ensures rows[r][c] == expected.tiles[r][c]
        {
          assert rows[r][c] == game[r - 1][c] == reader.grid[r - 1, c];
        }
      }
    }
  }

  /** createDefaultMap, for a board `w` wide and `h` high with its interface row. */
  method CreateDefaultMap(w: nat, h: nat) returns (m: TileMap)
    requires w >= 1 && h >= 2
    ensures m == DefaultBoardMap(w, h)
  {
    var rows := [InterfaceRow(w)];
    var r := 1;
    while r < h
      invariant 1 <= r <= h && |rows| == r && rows[0] == InterfaceRow(w)
      invariant forall i :: 1 <= i < r ==> rows[i] == seq(w, c => Grass)
    {
      rows := rows + [seq(w, c => Grass)];
      r := r + 1;
    }
    var middle := h / 2;
    var row := rows[middle];
    var col := 0;
    while col < w
      invariant 0 <= col <= w && |row| == w
      invariant forall c :: 0 <= c < col ==> row[c] == Path
    {
      row := row[col := Path];
      col := col + 1;
    }
    row := row[0 := Start];
    row := row[w - 1 := End];
    rows := rows[middle := row];
    m := TileMap(w, h, rows);
    var expected := DefaultBoardMap(w, h);
    forall i | 0 <= i < h
      ensures rows[i] == expected.tiles[i]
    {
      assert |rows[i]| == w;
    }
  }
}
