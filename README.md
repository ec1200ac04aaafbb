# Tower defence core, modelled in Dafny

This project models the simulation core of a grid tower-defence game written
in Java. The game has these parts:

- **Enemies** walk from the START tile to the END tile along PATH tiles.
  Each step takes the first forward neighbour in a fixed direction order.
- **Towers** stand on GRASS or SAND. A tower fires at the nearest enemy in
  range once its cooldown has passed. It hits one enemy, splashes the
  enemies around its target, or slows its target.
- **Powerups** boost one multiplier of one tower. They revert it once when
  they run out.
- **Levels** release their waves of enemies on a timed schedule.
- **The board** keeps lives, coins and the round. It advances from level to
  level and runs the game tick in the source's order:
  1. poll the level and spawn an enemy;
  2. age the explosions;
  3. move the enemies;
  4. expire the powerups, then let the towers attack;
  5. reap the finished enemies.
- **Readers and highscores**: the map reader and the level reader turn
  already-parsed JSON records into a tile grid and a list of levels. The
  highscore list keeps its scores sorted and prints the top ten.

The model takes the form of the source:

- Objects whose fields the source updates in place are classes: `Level`,
  `EnemyPathfinding`, `Enemy`, `EnemyFactory`, `Tower`, `Powerup`,
  `TowerFactory`, `MapReader`, `HighscoreList`, `Explosion` and `Board`.
  Their methods carry `modifies` clauses and are proved against
  specification functions on values.
- Immutable values and table lookups are datatypes and functions: `Wave`,
  `Direction`, `TowerType`, `Highscore`, the tile codes and the enemy-type
  fallback.

The wall clock (`System.currentTimeMillis`) is an explicit `now` parameter.
Java `null` and thrown exceptions are `Option` and `Result` values.
Quantities the source keeps as doubles are exact integers:

- multipliers are percentages (100 is 1.0);
- fire rates are tenths of a shot per second;
- the tower clock counts milliseconds, 17 per frame;
- an enemy's position within a segment counts units of 1/100000 tile;
- distances are compared squared.

Module by file:

| file | module | source |
|---|---|---|
| wrappers.dfy | Wrappers | `Option` and `Result` |
| tiles.dfy | Tiles | tile kinds, points, the grid and `getTileAt` |
| direction.dfy | Directions | enemy/Direction.java |
| wave.dfy | Waves | enemy/EnemyType.java, enemy/Wave.java |
| level.dfy | Levels | board/Level.java |
| pathfinding.dfy | Pathfinding | enemy/EnemyPathfinding.java |
| enemy.dfy | Enemies | enemy/Enemy.java |
| enemy_factory.dfy | EnemyRoster | enemy/EnemyFactory.java |
| tower_type.dfy | TowerTypes | tower/TowerType.java |
| powerup.dfy | Powerups | powerup/PowerupType.java, powerup/Powerup.java (values) |
| tower_rules.dfy | TowerRules | tower/Tower.java and its five subclasses (values) |
| tower.dfy | Towers | tower/Tower.java, powerup/*.java (objects) |
| tower_factory.dfy | TowerRoster | tower/TowerFactory.java |
| explosion.dfy | Explosions | viewer/Explosion.java, the explosion list of board/Board.java |
| map_reader.dfy | MapReading | handler/MapReader.java |
| level_reader.dfy | LevelReading | handler/LevelReader.java |
| highscore.dfy | Highscores | highscore/Highscore.java, highscore/HighscoreList.java |
| board.dfy | Boards | board/Board.java, plus the placement rule and prices of the views |

## Model

| member | source | states |
|---|---|---|
| Tiles.TileAt | src/se/liu/feljo718/towerDefence/board/Board.java:268-273 | the lookup is null exactly off the board; otherwise it is the tile at (row, col) |
| Tiles.PlacementRule | src/se/liu/feljo718/towerDefence/board/BoardComponent.java:185-195 | a tower may be placed exactly on an in-bounds GRASS or SAND tile |
| Directions.UnitSteps | src/se/liu/feljo718/towerDefence/enemy/Direction.java:17-33 | every direction's offset is one orthogonal step, \|dx\| + \|dy\| = 1 |
| Directions.OffsetsDistinct | src/se/liu/feljo718/towerDefence/enemy/Direction.java:17-33 | different directions have different offsets |
| Directions.OppositePairs | src/se/liu/feljo718/towerDefence/enemy/Direction.java:17-33 | LEFT is the negation of RIGHT, and UP of DOWN |
| Directions.OrderIsComplete | src/se/liu/feljo718/towerDefence/enemy/Direction.java:17-33 | the scan order RIGHT, DOWN, LEFT, UP holds each of the four directions exactly once |
| Waves.AllEnemyTypesComplete | src/se/liu/feljo718/towerDefence/enemy/EnemyType.java:19-22 | every enemy kind is among the declared constants |
| Waves.NamesDistinct | src/se/liu/feljo718/towerDefence/enemy/EnemyType.java:19-22 | two kinds with the same name are the same kind |
| Waves.NewWave | src/se/liu/feljo718/towerDefence/enemy/Wave.java:31-45 | a wave is built exactly when the type is non-null, the count positive and the delay non-negative; it then holds the arguments unchanged; otherwise the first failing check, in the source's order, is the error |
| Levels.CompletedIsTerminal | src/se/liu/feljo718/towerDefence/board/Level.java:60-63 | once every wave is done, the poll answers false and changes nothing |
| Levels.ExhaustedWaveAdvancesAfterCooldown | src/se/liu/feljo718/towerDefence/board/Level.java:65-75 | an exhausted wave answers false; it moves to the next wave, with a zero count and the time stamped, exactly when the cooldown has elapsed |
| Levels.SpawnCountsOne | src/se/liu/feljo718/towerDefence/board/Level.java:77-85 | the poll answers true exactly when the wave has enemies left and its delay has passed; it then counts one more spawn and stamps the time |
| Levels.SpawnStepKeepsInvariant | src/se/liu/feljo718/towerDefence/board/Level.java:60-85 | the cursor invariant holds after every poll: the spawned count stays within the wave's count and the wave index within the wave list; the index never decreases and grows by at most one |
| Levels.SpawnUsesOneRemaining | src/se/liu/feljo718/towerDefence/board/Level.java:60-85 | each spawn uses up exactly one of the enemies still to come; a poll that does not spawn uses up none |
| Levels.RunSpawnsRemaining | src/se/liu/feljo718/towerDefence/board/Level.java:60-85 | over any series of polls, the number of true answers equals the drop in enemies still to come |
| Levels.TotalSpawnsBounded | src/se/liu/feljo718/towerDefence/board/Level.java:35-85 | from a fresh level, no series of polls spawns more enemies than the waves hold |
| Levels.ThreeEnemyWaveScenario | src/se/liu/feljo718/towerDefence/board/Level.java:60-85 | one wave of three enemies 100 ms apart spawns at 100, 200 and 300, then not; the level completes at the first poll at least 1000 ms after the third spawn |
| Levels.Level.constructor | src/se/liu/feljo718/towerDefence/board/Level.java:35-39 | a new level has no waves and its cursor reset at `now` |
| Levels.Level.ResetLevel | src/se/liu/feljo718/towerDefence/board/Level.java:41-45 | back to wave 0 with nothing spawned, timed from `now`; the waves are kept |
| Levels.Level.AddWave | src/se/liu/feljo718/towerDefence/board/Level.java:47-51 | a null wave is ignored; any other wave is appended |
| Levels.Level.ShouldSpawnEnemy | src/se/liu/feljo718/towerDefence/board/Level.java:60-85 | the new cursor and the answer are one step of the schedule |
| Levels.Level.GetCurrentEnemyType | src/se/liu/feljo718/towerDefence/board/Level.java:92-106 | the result is null exactly when the level is completed; otherwise it is the current wave's kind |
| Pathfinding.MovesFrom | src/se/liu/feljo718/towerDefence/enemy/EnemyPathfinding.java:89-104 | every collected move is an adjacent, valid PATH or END tile other than the previous one |
| Pathfinding.PossibleMovesFirst | src/se/liu/feljo718/towerDefence/enemy/EnemyPathfinding.java:89-104 | the list is empty exactly when no direction is a candidate; otherwise it starts with the neighbour in the first candidate direction of RIGHT, DOWN, LEFT, UP |
| Pathfinding.FindStartIsFirstStart | src/se/liu/feljo718/towerDefence/enemy/EnemyPathfinding.java:47-57 | the start is the first START tile in row-major order; there is none exactly when the board has no START tile |
| Pathfinding.Initial | src/se/liu/feljo718/towerDefence/enemy/EnemyPathfinding.java:36-40 | a new pathfinder stands on START, with previous = current, no target and the end not reached, and satisfies the invariant |
| Pathfinding.NextPositionKeepsInv | src/se/liu/feljo718/towerDefence/enemy/EnemyPathfinding.java:67-79 | getNextPosition keeps the invariant, changes only the cached target, and returns that target |
| Pathfinding.EndIsFinal | src/se/liu/feljo718/towerDefence/enemy/EnemyPathfinding.java:67-70 | once the end is reached, the answer is null and nothing changes |
| Pathfinding.CachedTargetKept | src/se/liu/feljo718/towerDefence/enemy/EnemyPathfinding.java:72-78 | a cached target is returned unchanged |
| Pathfinding.FreshTargetIsFirstCandidate | src/se/liu/feljo718/towerDefence/enemy/EnemyPathfinding.java:72-79 | without a cached target, the answer is null exactly when no neighbour is a candidate; otherwise it is a candidate neighbour |
| Pathfinding.ReachTargetKeepsInv | src/se/liu/feljo718/towerDefence/enemy/EnemyPathfinding.java:109-125 | reaching the target makes it current and the old current previous, and clears the target; a life is lost exactly when the enemy steps onto END, which is when `reachedEnd` becomes true |
| Pathfinding.EnemyPathfinding.constructor | src/se/liu/feljo718/towerDefence/enemy/EnemyPathfinding.java:36-40 | the fields are the initial state on the given board |
| Pathfinding.EnemyPathfinding.FindStartPosition | src/se/liu/feljo718/towerDefence/enemy/EnemyPathfinding.java:47-57 | the nested scan returns the first START tile, or none |
| Pathfinding.EnemyPathfinding.IsValid | src/se/liu/feljo718/towerDefence/enemy/EnemyPathfinding.java:141-147 | a move is valid exactly when the tile is on the board and is PATH or END |
| Pathfinding.EnemyPathfinding.GetPossibleMoves | src/se/liu/feljo718/towerDefence/enemy/EnemyPathfinding.java:89-104 | the loop collects exactly the candidate neighbours, in direction order |
| Pathfinding.EnemyPathfinding.GetNextPosition | src/se/liu/feljo718/towerDefence/enemy/EnemyPathfinding.java:67-79 | the new fields and the answer are those of the specification step |
| Pathfinding.EnemyPathfinding.ReachedTargetPoint | src/se/liu/feljo718/towerDefence/enemy/EnemyPathfinding.java:109-125 | the new fields and the life-lost event are those of the specification step |
| Enemies.SpeedBounds | src/se/liu/feljo718/towerDefence/enemy/Enemy.java:24-29 | every kind has positive health and moves, at most a fifth of a tile per tick |
| Enemies.Spawned | src/se/liu/feljo718/towerDefence/enemy/Enemy.java:49-59 | a new enemy stands on START with its kind's full health, has not reached the end, and satisfies the enemy invariant |
| Enemies.EnemyMoveSpec | src/se/liu/feljo718/towerDefence/enemy/Enemy.java:114-139 | a move refreshes the speed modifier and keeps the invariant, the kind and the health; the enemy stays put (no target), advances by its adjusted speed, or snaps onto the adjacent target when the rest of the segment is within that speed; a life is lost exactly when it newly reaches END |
| Enemies.FinishedEnemyStays | src/se/liu/feljo718/towerDefence/enemy/Enemy.java:114-123 | an enemy at END never moves again and never costs another life |
| Enemies.SlowedSpeedExact | src/se/liu/feljo718/towerDefence/enemy/Enemy.java:125-139 | at 75% every kind moves exactly three quarters of its full speed; at 100% it moves at full speed |
| Enemies.SlowDownExpires | src/se/liu/feljo718/towerDefence/enemy/Enemy.java:80-86 | the modifier stays while the slow-down lasts, is back to 1.0 once it has ended, and never decreases |
| Enemies.SpeedModifiedKeepsInv | src/se/liu/feljo718/towerDefence/enemy/Enemy.java:68-78 | only a smaller factor replaces the modifier, and then its end time becomes now + duration; the modifier never rises; position and health are untouched |
| Enemies.DamageAccumulates | src/se/liu/feljo718/towerDefence/enemy/Enemy.java:141-147 | damage is subtracted exactly and adds up; the enemy is dead exactly when the damage reaches its health |
| Enemies.GridPositionOnPath | src/se/liu/feljo718/towerDefence/enemy/Enemy.java:93-95 | the grid position is the current tile before the midpoint of a segment and the target tile after it; exactly at the midpoint, rounding halves up picks the larger of the two |
| Enemies.PixelPosition | src/se/liu/feljo718/towerDefence/enemy/Enemy.java:104-106 | each pixel coordinate is the exact position times the tile size, with the fraction cut off toward zero by the cast to int |
| Enemies.PixelAtTile | src/se/liu/feljo718/towerDefence/enemy/Enemy.java:104-106 | an enemy standing on a tile is drawn at that tile's corner, 40 pixels per tile |
| Enemies.Enemy.constructor | src/se/liu/feljo718/towerDefence/enemy/Enemy.java:49-59 | a new enemy holds the spawn state, with a fresh pathfinder on the board |
| Enemies.Enemy.ApplySpeedModifier | src/se/liu/feljo718/towerDefence/enemy/Enemy.java:68-78 | the new state is the slow-down rule applied to the old state |
| Enemies.Enemy.UpdateSpeedModifier | src/se/liu/feljo718/towerDefence/enemy/Enemy.java:80-86 | only the modifier changes, as the expiry rule says |
| Enemies.Enemy.Move | src/se/liu/feljo718/towerDefence/enemy/Enemy.java:114-139 | the new state and the life-lost event are one move of the specification |
| Enemies.Enemy.TakeDamage | src/se/liu/feljo718/towerDefence/enemy/Enemy.java:141-143 | health drops by exactly the damage, with no floor |
| Enemies.Enemy.GetPixelPosition | src/se/liu/feljo718/towerDefence/enemy/Enemy.java:104-106 | the enemy object's pixel position is its exact position scaled and truncated toward zero |
| EnemyRoster.MoveAllAt | src/se/liu/feljo718/towerDefence/enemy/EnemyFactory.java:41-45 | moving the roster moves each enemy once, on its own, and keeps the roster's length |
| EnemyRoster.MoveAllKeepsInv | src/se/liu/feljo718/towerDefence/enemy/EnemyFactory.java:41-45 | moving every enemy keeps every enemy's invariant |
| EnemyRoster.LivesLostAccounting | src/se/liu/feljo718/towerDefence/enemy/EnemyFactory.java:41-45 | a round of moves costs at most one life per enemy not yet at END, and each life lost is one enemy fewer on the way |
| EnemyRoster.ReapPartition | src/se/liu/feljo718/towerDefence/enemy/EnemyFactory.java:47-56 | every enemy survives, counts as a kill or escaped; the survivors are exactly the live enemies |
| EnemyRoster.ReapIdempotent | src/se/liu/feljo718/towerDefence/enemy/EnemyFactory.java:47-56 | reaping the survivors changes nothing, and there is no kill and no escape among them |
| EnemyRoster.KillsOnlyAmongNotFinished | src/se/liu/feljo718/towerDefence/enemy/EnemyFactory.java:49-53 | kills are rewarded only for enemies that have not reached END |
| EnemyRoster.SelectSurvivors | src/se/liu/feljo718/towerDefence/enemy/EnemyFactory.java:47-56 | the loop keeps the live enemies in their order and counts the dead ones that did not reach END |
| EnemyRoster.EnemyFactory.constructor | src/se/liu/feljo718/towerDefence/enemy/EnemyFactory.java:31-34 | an empty roster on the board |
| EnemyRoster.EnemyFactory.SpawnEnemy | src/se/liu/feljo718/towerDefence/enemy/EnemyFactory.java:36-39 | exactly one new enemy, fresh and on START, is appended; the others stay |
| EnemyRoster.EnemyFactory.MoveEnemies | src/se/liu/feljo718/towerDefence/enemy/EnemyFactory.java:41-45 | each enemy moves once, in list order; the count returned is the lives lost |
| EnemyRoster.EnemyFactory.RemoveFinishedEnemies | src/se/liu/feljo718/towerDefence/enemy/EnemyFactory.java:47-56 | the survivors stay in order; the count returned is the kills, each worth 5 coins |
| TowerTypes.BaseRange | src/se/liu/feljo718/towerDefence/tower/TowerType.java:35-37 | the range at a level from 1 to 3 is positive |
| TowerTypes.BaseDamage | src/se/liu/feljo718/towerDefence/tower/TowerType.java:39-41 | the damage at a level from 1 to 3 is positive |
| TowerTypes.FireRateTenths | src/se/liu/feljo718/towerDefence/tower/TowerType.java:43-45 | the fire rate at a level from 1 to 3 is positive |
| TowerTypes.StatsGrowWithLevel | src/se/liu/feljo718/towerDefence/tower/TowerType.java:23-27 | damage and fire rate strictly rise with the level, and range never falls |
| TowerTypes.BasicFirstLevel | src/se/liu/feljo718/towerDefence/tower/TowerType.java:23 | a level-1 BASIC tower has range 4, damage 25 and fire rate 2.2 |
| Powerups.FactoriesAreDistinct | src/se/liu/feljo718/towerDefence/powerup/MultiplierPowerup.java:20-22 | each kind boosts its own attribute, by more than 1.0 |
| Powerups.Created | src/se/liu/feljo718/towerDefence/powerup/MultiplierPowerup.java:35-75 | a new powerup is active, starts at `now`, and has its kind's attribute and multiplier |
| Powerups.ObserveSpec | src/se/liu/feljo718/towerDefence/powerup/Powerup.java:51-58 | an observation changes only the active flag, and only turns it off; it reverts exactly when the powerup was active and has expired |
| Powerups.RevertsAtMostOnce | src/se/liu/feljo718/towerDefence/powerup/Powerup.java:51-58 | over any calls the effect is reverted at most once; it is reverted exactly once if a call sees the powerup expired while active; before expiry nothing changes |
| Powerups.RemainingTime | src/se/liu/feljo718/towerDefence/powerup/Powerup.java:65-68 | the remaining time is never negative, is 0 exactly once expired, and otherwise ends at start + duration |
| Powerups.Cost | src/se/liu/feljo718/towerDefence/powerup/PowerupType.java:11-36 | every powerup costs between 100 and 150 coins; Double Damage is the cheapest, at 100 |
| TowerRules.NewTower | src/se/liu/feljo718/towerDefence/tower/Tower.java:44-47 | a new tower is at level 1, with its kind and position |
| TowerRules.UpgradeSpec | src/se/liu/feljo718/towerDefence/tower/Tower.java:105-111 | an upgrade succeeds exactly below level 3 and raises the level by one; a refused upgrade changes nothing |
| TowerRules.UpgradesSaturate | src/se/liu/feljo718/towerDefence/tower/Tower.java:105-111 | n upgrades from level l reach min(l + n, 3); nothing else changes |
| TowerRules.WithMultiplierSpec | src/se/liu/feljo718/towerDefence/tower/Tower.java:130-171 | setting a multiplier overwrites rather than compounds and touches no other attribute; resetting restores 1.0 |
| TowerRules.RevertAllSpec | src/se/liu/feljo718/towerDefence/tower/Tower.java:92-94 | an attribute goes back to 1.0 exactly when an active powerup on it runs out, whatever the list order; otherwise it keeps its multiplier |
| TowerRules.UnexpiredSpec | src/se/liu/feljo718/towerDefence/tower/Tower.java:92-94 | the list keeps exactly the unexpired powerups |
| TowerRules.UnexpiredKeepsOrder | src/se/liu/feljo718/towerDefence/tower/Tower.java:92-94 | removeIf filters in place: filtering a concatenation is filtering each part, so the kept powerups keep their order |
| TowerRules.EffectiveDamageSpec | src/se/liu/feljo718/towerDefence/tower/Tower.java:317-320 | without a boost the damage is the table's; double damage doubles it exactly; it is never negative for a non-negative multiplier |
| TowerRules.InRangeSpec | src/se/liu/feljo718/towerDefence/tower/Tower.java:312-315 | without a boost, an enemy is in range exactly when its distance is at most the table's range; a larger range multiplier keeps every enemy in range |
| TowerRules.CanShootSpec | src/se/liu/feljo718/towerDefence/tower/Tower.java:173-175 | once a tower may fire it may fire at every later time; it may not fire again at its last shot's time; doubling the fire rate halves the wait |
| TowerRules.Closest | src/se/liu/feljo718/towerDefence/tower/Tower.java:259-271 | the target is none exactly when no enemy is in range; otherwise it is in range, no farther than any enemy in range, and strictly nearer than every earlier one |
| TowerRules.NearestIsTarget | src/se/liu/feljo718/towerDefence/tower/Tower.java:259-271 | that nearest enemy is unique, so the scan picks it |
| TowerRules.InRangeIndices | src/se/liu/feljo718/towerDefence/tower/Tower.java:223-234 | the list holds every enemy in range and only those, in list order |
| TowerRules.SplashReach | src/se/liu/feljo718/towerDefence/tower/Tower.java:273-298 | a 0.5 splash reaches only the target's tile; a radius-1 splash reaches that tile and its four orthogonal neighbours |
| TowerRules.FireCases | src/se/liu/feljo718/towerDefence/tower/Tower.java:66-71 | with no target nothing changes; otherwise the target is attacked, an explosion is shown where it stands, and the shot time is recorded |
| TowerRules.FireSpec | src/se/liu/feljo718/towerDefence/tower/Tower.java:185-192 | a shot fires exactly when some enemy is in range; it hits the nearest, shows the explosion there and restarts the cooldown |
| TowerRules.AttackOnlyHurts | src/se/liu/feljo718/towerDefence/tower/Tower.java:185-192 | an attack keeps every enemy's kind, path, progress and invariant; with a non-negative multiplier no enemy gains health |
| TowerRules.SingleTargetAttack | src/se/liu/feljo718/towerDefence/tower/BasicTower.java:26-29 | BASIC and SNIPER take exactly the tower's damage off the target and touch no other enemy |
| TowerRules.SlowAttack | src/se/liu/feljo718/towerDefence/tower/SlowTower.java:34-41 | SLOW damages the target and leaves it at the stronger of its slow-down and 0.75; a repeat hit does not extend the slow-down; no other enemy is touched |
| TowerRules.SplashAttack | src/se/liu/feljo718/towerDefence/tower/Tower.java:273-298 | an enemy is hit exactly when it is in range and within the radius of the target's tile; the target is hit whenever it is in range |
| Towers.Powerup.constructor | src/se/liu/feljo718/towerDefence/powerup/MultiplierPowerup.java:35-39 | the powerup starts active at `now` and at once sets its multiplier on its tower |
| Towers.Powerup.ApplyEffect | src/se/liu/feljo718/towerDefence/powerup/MultiplierPowerup.java:76-88 | the tower's chosen attribute is set to the multiplier; nothing else changes |
| Towers.Powerup.RemoveEffect | src/se/liu/feljo718/towerDefence/powerup/MultiplierPowerup.java:90-102 | the tower's chosen attribute is reset to 1.0; nothing else changes |
| Towers.Powerup.IsExpired | src/se/liu/feljo718/towerDefence/powerup/Powerup.java:51-58 | the answer is the expiry test; only the first expired observation of an active powerup resets the tower |
| Towers.CreateDoubleDamage | src/se/liu/feljo718/towerDefence/powerup/MultiplierPowerup.java:49-51 | a fresh powerup that sets the damage multiplier to 2.0 |
| Towers.CreateDoubleFireRate | src/se/liu/feljo718/towerDefence/powerup/MultiplierPowerup.java:61-63 | a fresh powerup that sets the fire-rate multiplier to 2.0 |
| Towers.CreateRangeBoost | src/se/liu/feljo718/towerDefence/powerup/MultiplierPowerup.java:73-75 | a fresh powerup that sets the range multiplier to 1.5 |
| Towers.CreatePowerup | src/se/liu/feljo718/towerDefence/powerup/PowerupFactory.java:28-34 | every kind is dispatched to its own factory, and the result has the requested kind |
| Towers.Tower.constructor | src/se/liu/feljo718/towerDefence/tower/Tower.java:44-47 | a new tower is at level 1, has never fired, has every multiplier at 1.0 and no powerups |
| Towers.Tower.Upgrade | src/se/liu/feljo718/towerDefence/tower/Tower.java:105-111 | the new state and the answer are those of the upgrade rule |
| Towers.Tower.ApplyDamageMultiplier | src/se/liu/feljo718/towerDefence/tower/Tower.java:130-132 | the damage multiplier is overwritten |
| Towers.Tower.ApplyFireRateMultiplier | src/se/liu/feljo718/towerDefence/tower/Tower.java:139-141 | the fire-rate multiplier is overwritten |
| Towers.Tower.ApplyRangeMultiplier | src/se/liu/feljo718/towerDefence/tower/Tower.java:148-150 | the range multiplier is overwritten |
| Towers.Tower.ResetDamageMultiplier | src/se/liu/feljo718/towerDefence/tower/Tower.java:155-157 | the damage multiplier is back to 1.0 |
| Towers.Tower.ResetFireRateMultiplier | src/se/liu/feljo718/towerDefence/tower/Tower.java:162-164 | the fire-rate multiplier is back to 1.0 |
| Towers.Tower.ResetRangeMultiplier | src/se/liu/feljo718/towerDefence/tower/Tower.java:169-171 | the range multiplier is back to 1.0 |
| Towers.Tower.ApplyPowerup | src/se/liu/feljo718/towerDefence/tower/Tower.java:55-58 | the boost is applied and the powerup joins the end of the list |
| Towers.Tower.HasActivePowerupOfType | src/se/liu/feljo718/towerDefence/tower/Tower.java:80-87 | true exactly when some listed powerup is of that kind |
| Towers.Tower.UpdatePowerups | src/se/liu/feljo718/towerDefence/tower/Tower.java:92-94 | expiring powerups reset their attributes, and only the unexpired ones stay, in order |
| Towers.Tower.FindTarget | src/se/liu/feljo718/towerDefence/tower/Tower.java:259-271 | the scan returns the nearest enemy in range, the earliest on ties |
| Towers.Tower.FindEnemiesInRange | src/se/liu/feljo718/towerDefence/tower/Tower.java:223-234 | the loop lists the enemies in range, in order |
| Towers.Tower.PerformSplashAttack | src/se/liu/feljo718/towerDefence/tower/Tower.java:273-298 | the enemies in range are listed first; then each one within the radius of the target's tile takes the tower's damage |
| Towers.Tower.PerformAttack | src/se/liu/feljo718/towerDefence/tower/SlowTower.java:34-41 | the five `performAttack` overrides (this one, and BasicTower.java:26-29, SniperTower.java:26-29, SplashTower.java:40-42, BomberTower.java:41-43): each kind's attack, on the roster's enemy objects: single-target damage, damage then slow, or a splash of radius 0.5 or 1 |
| Towers.Tower.Shoot | src/se/liu/feljo718/towerDefence/tower/Tower.java:185-192 | the explosion is where the target stood, the attack is done, and the shot time is recorded |
| Towers.Tower.ProcessAttack | src/se/liu/feljo718/towerDefence/tower/Tower.java:66-71 | the tower, the enemies and the explosion are one shot of the specification |
| TowerRoster.RevertEachSpec | src/se/liu/feljo718/towerDefence/tower/TowerFactory.java:72-76 | tower by tower, an attribute goes back to 1.0 exactly when an active powerup in that tower's own list runs out at `now`; every other multiplier and field stays |
| TowerRoster.UnexpiredEachSpec | src/se/liu/feljo718/towerDefence/tower/TowerFactory.java:72-76 | tower by tower, the list keeps exactly its own unexpired powerups, in their old order, and never grows |
| TowerRoster.TurnSpec | src/se/liu/feljo718/towerDefence/tower/TowerFactory.java:78-86 | one tower's turn changes at most its shot time, only when it may fire; it shows at most one explosion; the enemies are only hurt |
| TowerRoster.AttackAllStep | src/se/liu/feljo718/towerDefence/tower/TowerFactory.java:78-86 | the towers take their turns in list order, each against the enemies the earlier turns left |
| TowerRoster.AttackAllSpec | src/se/liu/feljo718/towerDefence/tower/TowerFactory.java:78-86 | after a round of attacks each tower is unchanged or has fired at the clock; there is at most one explosion per tower; the enemies are only hurt |
| TowerRoster.IdleTowersStay | src/se/liu/feljo718/towerDefence/tower/TowerFactory.java:78-86 | towers that cannot fire yet neither attack nor change |
| TowerRoster.TowerFactory.constructor | src/se/liu/feljo718/towerDefence/tower/TowerFactory.java:30-34 | no towers, and the game clock at 0 |
| TowerRoster.TowerFactory.CreateTower | src/se/liu/feljo718/towerDefence/tower/TowerFactory.java:36-52 | exactly one fresh level-1 tower of the kind, at x = col and y = row, is appended and returned |
| TowerRoster.TowerFactory.Tick | src/se/liu/feljo718/towerDefence/tower/TowerFactory.java:58-67 | the clock advances one frame; every powerup expires before any tower attacks; then the towers that may fire attack, in order |
| TowerRoster.TowerFactory.UpdateTowerPowerups | src/se/liu/feljo718/towerDefence/tower/TowerFactory.java:72-76 | every tower updates its powerups, in list order |
| TowerRoster.TowerFactory.ProcessTowerAttacks | src/se/liu/feljo718/towerDefence/tower/TowerFactory.java:78-86 | the loop runs the towers' turns in order and collects their explosions |
| Explosions.Fresh | src/se/liu/feljo718/towerDefence/viewer/Explosion.java:28-34 | a new explosion is at its point and not expired |
| Explosions.Decreased | src/se/liu/feljo718/towerDefence/viewer/Explosion.java:40-42 | one frame less, same place |
| Explosions.Aged | src/se/liu/feljo718/towerDefence/board/Board.java:172-181 | the list never grows and holds no expired explosion |
| Explosions.AgedSpec | src/se/liu/feljo718/towerDefence/board/Board.java:172-181 | exactly the explosions with more than one frame left survive, each one frame older |
| Explosions.ShownForTenFrames | src/se/liu/feljo718/towerDefence/viewer/Explosion.java:24-46 | a new explosion is listed for 9 updates and gone after the tenth |
| Explosions.Explosion.constructor | src/se/liu/feljo718/towerDefence/viewer/Explosion.java:28-34 | the explosion starts at its position with 10 frames |
| Explosions.Explosion.DecreaseLifetime | src/se/liu/feljo718/towerDefence/viewer/Explosion.java:40-42 | the lifetime drops by exactly one |
| MapReading.TileCode | src/se/liu/feljo718/towerDefence/handler/MapReader.java:174-183 | every tile kind but INTERFACE has a key, and the key maps back to it |
| MapReading.DecodeTile | src/se/liu/feljo718/towerDefence/handler/MapReader.java:151-169 | a character decodes to a map tile; only a tile's own key decodes to a tile other than GRASS |
| MapReading.TileCodeRoundTrip | src/se/liu/feljo718/towerDefence/handler/MapReader.java:174-183 | decoding a tile's key gives the tile back |
| MapReading.UnknownIsGrass | src/se/liu/feljo718/towerDefence/handler/MapReader.java:151-169 | a character outside G, P, W, B, E, S decodes to GRASS |
| MapReading.FirstNamed | src/se/liu/feljo718/towerDefence/handler/MapReader.java:90-142 | the index found is that of the first map with the name; none means no map has it |
| MapReading.ChosenSpec | src/se/liu/feljo718/towerDefence/handler/MapReader.java:90-142 | the map with the requested name is chosen, else the first map, else the default map |
| MapReading.Clipped | src/se/liu/feljo718/towerDefence/handler/MapReader.java:151-169 | at most `height` rows of at most `width` characters are read |
| MapReading.OnlyGridIsRead | src/se/liu/feljo718/towerDefence/handler/MapReader.java:151-169 | rows past the height and characters past the width make no difference |
| MapReading.ParseRoundTrip | src/se/liu/feljo718/towerDefence/handler/MapReader.java:151-169 | writing out a grid of map tiles and parsing it gives the grid back |
| MapReading.DefaultMapLayout | src/se/liu/feljo718/towerDefence/handler/MapReader.java:199-210 | the middle row is PATH with START at column 0 and END at the last column; every other cell is GRASS |
| MapReading.MapReader.Rows | src/se/liu/feljo718/towerDefence/handler/MapReader.java:212-214 | the map is `height` rows of `width` tiles, cell for cell |
| MapReading.MapReader.constructor | src/se/liu/feljo718/towerDefence/handler/MapReader.java:53-61 | a missing name becomes "Default Map"; the grid is the loaded map |
| MapReading.MapReader.FillMapWithTile | src/se/liu/feljo718/towerDefence/handler/MapReader.java:188-194 | every cell becomes the tile |
| MapReading.MapReader.GenerateDefaultMap | src/se/liu/feljo718/towerDefence/handler/MapReader.java:199-210 | every cell is that of the default layout |
| MapReading.MapReader.ParseMapData | src/se/liu/feljo718/towerDefence/handler/MapReader.java:151-169 | every cell is the decoded character when the rows cover it, and GRASS when they do not |
| MapReading.MapReader.LoadFromJson | src/se/liu/feljo718/towerDefence/handler/MapReader.java:90-142 | every cell is that of the chosen map, or of the default map |
| LevelReading.KindFromSpec | src/se/liu/feljo718/towerDefence/handler/LevelReader.java:177-184 | the scan stops at a kind with the name, and finds none only when no kind has it |
| LevelReading.ValidEnemyTypeSpec | src/se/liu/feljo718/towerDefence/handler/LevelReader.java:169-184 | a string that is a kind's exact name gives that kind; null, empty and every other string give BASIC |
| LevelReading.EnemyTypeRoundTrip | src/se/liu/feljo718/towerDefence/handler/LevelReader.java:169-184 | a kind's own name reads back as that kind |
| LevelReading.ConvertedWavesSpec | src/se/liu/feljo718/towerDefence/handler/LevelReader.java:139-148 | the records convert exactly when none is refused; the waves then keep the records' order, kinds, counts and delays |
| LevelReading.ConvertsUnlessRefused | src/se/liu/feljo718/towerDefence/handler/LevelReader.java:139-148 | the records convert exactly when none has a count at or below zero or a negative delay |
| LevelReading.ConvertedWaveValues | src/se/liu/feljo718/towerDefence/handler/LevelReader.java:139-148 | converted records keep their order, kinds, counts and delays |
| LevelReading.FirstRefusal | src/se/liu/feljo718/towerDefence/handler/LevelReader.java:139-148 | a failed conversion reports the first refused record's reason |
| LevelReading.WaveOfRecord | src/se/liu/feljo718/towerDefence/handler/LevelReader.java:139-148 | a record converts exactly when it is not refused; a refusal names the failing check |
| LevelReading.WaveOfAcceptedRecord | src/se/liu/feljo718/towerDefence/handler/LevelReader.java:139-148 | an accepted record becomes the wave it describes |
| LevelReading.ConvertedLevelsSpec | src/se/liu/feljo718/towerDefence/handler/LevelReader.java:81-111 | the levels convert exactly when every level's waves do; they keep the records' order, cooldowns and waves |
| LevelReading.LevelsFrom | src/se/liu/feljo718/towerDefence/handler/LevelReader.java:65-72 | a level list that comes out is never empty |
| LevelReading.LevelsFromRecords | src/se/liu/feljo718/towerDefence/handler/LevelReader.java:81-111 | an empty record list gives the default levels; a non-empty one gives its own levels, one per record |
| LevelReading.CreateLevelFromData | src/se/liu/feljo718/towerDefence/handler/LevelReader.java:139-148 | a fresh level with the record's cooldown and waves in order, or the first refusal |
| LevelReading.CreateDefaultLevels | src/se/liu/feljo718/towerDefence/handler/LevelReader.java:150-160 | one level, cooldown 1500 ms, ten BASIC 200 ms apart, then five FAST 300 ms apart |
| LevelReading.GetLevels | src/se/liu/feljo718/towerDefence/handler/LevelReader.java:65-72 | the levels of the file, or the defaults when there is no file or no record; a syntax error or a refused wave is passed on |
| LevelReading.LoadFromJson | src/se/liu/feljo718/towerDefence/handler/LevelReader.java:81-111 | one fresh level per record, in order, until a record is refused |
| Highscores.Digit | src/se/liu/feljo718/towerDefence/highscore/HighscoreList.java:117-131 | a digit below 10 is a decimal digit character |
| Highscores.NatString | src/se/liu/feljo718/towerDefence/highscore/Highscore.java:30-32 | the decimal text of a number is digits only, with no leading zero |
| Highscores.NatStringRoundTrip | src/se/liu/feljo718/towerDefence/highscore/Highscore.java:30-32 | the decimal text of a number reads back as that number |
| Highscores.DigitRoundTrip | src/se/liu/feljo718/towerDefence/highscore/HighscoreList.java:117-131 | a digit character reads back as its digit |
| Highscores.Insert | src/se/liu/feljo718/towerDefence/highscore/HighscoreList.java:72-76 | the list grows by exactly one |
| Highscores.InsertSplit | src/se/liu/feljo718/towerDefence/highscore/HighscoreList.java:72-76 | the new score goes after every entry scoring at least as much and before the first scoring less |
| Highscores.InsertSpec | src/se/liu/feljo718/towerDefence/highscore/HighscoreList.java:72-76 | the result is sorted by non-increasing score; it holds the old entries plus the new one, in their old order; equal scores keep insertion order |
| Highscores.InsertKeepsOrder | src/se/liu/feljo718/towerDefence/highscore/HighscoreList.java:72-76 | a sorted list stays sorted and gains exactly the new entry |
| Highscores.FirstBelow | src/se/liu/feljo718/towerDefence/highscore/HighscoreList.java:72-76 | the insertion point: every entry before it scores at least as much, and the one at it scores less |
| Highscores.InsertionSortedSpec | src/se/liu/feljo718/towerDefence/highscore/HighscoreList.java:88-115 | the loaded list's stable sort is sorted and a permutation of it |
| Highscores.LineIsRankedToString | src/se/liu/feljo718/towerDefence/highscore/HighscoreList.java:117-131 | each line is the rank, ". ", the entry's own text, and a newline |
| Highscores.LinesOfPrefix | src/se/liu/feljo718/towerDefence/highscore/HighscoreList.java:117-131 | the first k lines depend only on the first k entries |
| Highscores.TopTenOnly | src/se/liu/feljo718/towerDefence/highscore/HighscoreList.java:117-131 | entries past the tenth do not change the text |
| Highscores.HighscoreList.constructor | src/se/liu/feljo718/towerDefence/highscore/HighscoreList.java:42-59 | the list holds the loaded entries, sorted |
| Highscores.HighscoreList.AddScore | src/se/liu/feljo718/towerDefence/highscore/HighscoreList.java:72-76 | the score is added and the list stays sorted, stably |
| Highscores.HighscoreList.ToString | src/se/liu/feljo718/towerDefence/highscore/HighscoreList.java:117-131 | the text built line by line is the rendering: "No highscores yet!" when empty, else the header and up to ten ranked lines |
| Highscores.Inserted | src/se/liu/feljo718/towerDefence/highscore/HighscoreList.java:72-76 | the sort's step on a sorted list is the insertion |
| Boards.ShopPrice | src/se/liu/feljo718/towerDefence/viewer/TowerShop.java:67-75 | the shop's prices run from 100 to 250 coins, and only BASIC costs 100 |
| Boards.TowerCost | src/se/liu/feljo718/towerDefence/board/BoardComponent.java:204-211 | the price charged on placement agrees with the shop's price for every kind |
| Boards.Refund | src/se/liu/feljo718/towerDefence/viewer/TowerMenu.java:209 | a removed tower gives back half its shop price, truncated, and always something |
| Boards.AdvanceSpec | src/se/liu/feljo718/towerDefence/board/Board.java:106-126 | while a level runs nothing changes; otherwise the bonus is paid exactly when a level was running, and the index moves up by at most one |
| Boards.CompletionAsWritten | src/se/liu/feljo718/towerDefence/board/Board.java:106-126 | as written, the completion dialog never shows with fewer than 45 levels; with 47 levels it shows when the third level is done |
| Boards.CompletionAfterLastLevel | src/se/liu/feljo718/towerDefence/board/Board.java:106-126 | as intended, the completion dialog shows exactly when the last level is done, and the game then stays on it |
| Boards.LevelsInOrder | src/se/liu/feljo718/towerDefence/board/Board.java:106-126 | before the last level, completing a level or having none starts the next one |
| Boards.OversClosedForm | src/se/liu/feljo718/towerDefence/board/Board.java:322-329 | a game-over is signalled on every loss that leaves no life: none while lives remain, then one per further loss |
| Boards.BoardMap | src/se/liu/feljo718/towerDefence/board/Board.java:189-230 | the grid is `w` wide and `h + 1` high |
| Boards.BoardMapLayout | src/se/liu/feljo718/towerDefence/board/Board.java:189-230 | row 0 is all INTERFACE and no other tile is; row r + 1 is the reader's row r |
| Boards.DefaultBoardMap | src/se/liu/feljo718/towerDefence/board/Board.java:235-258 | the fallback grid has the board's dimensions |
| Boards.DefaultBoardStart | src/se/liu/feljo718/towerDefence/board/Board.java:235-258 | enemies start at column 0 of row `h / 2` when the board is at least two columns wide; on a board one column wide END overwrites START |
| Boards.EnemyStepSpec | src/se/liu/feljo718/towerDefence/board/Board.java:148-167 | in one tick each enemy on the way costs at most one life or earns at most one kill; the enemies left are all in play; the towers stay, with at most one explosion each |
| Boards.FreshAll | src/se/liu/feljo718/towerDefence/board/Board.java:362-366 | each hit point becomes a new explosion |
| Boards.WithSpawn | src/se/liu/feljo718/towerDefence/board/Board.java:152-156 | a spawn appends one enemy of the requested kind; the others stay |
| Boards.Board.constructor | src/se/liu/feljo718/towerDefence/board/Board.java:52-67 | 15 lives, 350 coins, round 0, the stored height one more than asked, and nothing on the board |
| Boards.Board.PollLevel | src/se/liu/feljo718/towerDefence/board/Board.java:152-156 | a running, unfinished level is polled; the kind it asks for is returned |
| Boards.Board.Tick | src/se/liu/feljo718/towerDefence/board/Board.java:148-167 | spawn, age explosions, move, expire powerups and attack, then reap: the new state is that of the specification |
| Boards.Board.Spawn | src/se/liu/feljo718/towerDefence/board/Board.java:152-156 | the polled kind is spawned; the state is unchanged when no START exists |
| Boards.Board.Step | src/se/liu/feljo718/towerDefence/board/Board.java:158-164 | the rest of the tick leaves the specification's state |
| Boards.Board.UpdateExplosions | src/se/liu/feljo718/towerDefence/board/Board.java:172-181 | each explosion ages a frame and is dropped once expired; the rest keep their order |
| Boards.Board.StartNextRound | src/se/liu/feljo718/towerDefence/board/Board.java:106-126 | the progression is the corrected step |
| Boards.Board.StartLevel | src/se/liu/feljo718/towerDefence/board/Board.java:294-299 | the given level becomes the running one |
| Boards.Board.LivesLost | src/se/liu/feljo718/towerDefence/board/Board.java:322-329 | one life fewer; a game-over is signalled whenever none is left |
| Boards.Board.LoseLives | src/se/liu/feljo718/towerDefence/board/Board.java:322-329 | n losses, with the game-overs the closed form gives |
| Boards.Board.GainCoins | src/se/liu/feljo718/towerDefence/board/Board.java:341-344 | the amount is added exactly, negative or not |
| Boards.Board.GetRound | src/se/liu/feljo718/towerDefence/board/Board.java:357-359 | the round is the level index plus one |
| Boards.Board.AddExplosion | src/se/liu/feljo718/towerDefence/board/Board.java:362-366 | a new explosion is appended |
| Boards.Board.AddExplosions | src/se/liu/feljo718/towerDefence/board/Board.java:362-366 | a new explosion per point is appended, in order |
| Boards.Board.PlaceTower | src/se/liu/feljo718/towerDefence/board/BoardComponent.java:185-195 | a tower is built and paid for exactly on GRASS or SAND; otherwise nothing changes |
| Boards.Simulate | src/se/liu/feljo718/towerDefence/board/Board.java:162-164 | the moves, the tower tick and the reaping together are the specification's phases |
| Boards.NewBoard | src/se/liu/feljo718/towerDefence/board/Board.java:52-98 | bad dimensions are refused; a missing name becomes "Default Map"; the levels are the reader's, none on a syntax error; a refused wave fails the construction |
| Boards.LoadMap | src/se/liu/feljo718/towerDefence/board/Board.java:189-230 | the board's grid is the interface row over the reader's map |
| Boards.CreateDefaultMap | src/se/liu/feljo718/towerDefence/board/Board.java:235-258 | the loops build the fallback grid |

## Left out

- The JSON parsing and file reading of the map, level and highscore files (Gson, `JsonFileHandler`) are inputs: `MapSource`, `LevelSource` and the loaded highscore list are given already parsed.
- Saving the highscore list after `addScore` is file I/O and is not modelled.
- Logging, sound, the Swing views and the dialogs are not modelled. Board listener notifications are left out too. The game-over and game-completed dialogs are counters (`gameOvers`, `completions`).
- The wall clock is an explicit `now`, and one `now` serves every clock read in a tick. The source reads the clock again inside the tick: at the start of `Board.tick`, once per enemy move (`updateSpeedModifier`), once per slow hit (`applySpeedModifier`) and once per powerup (`isExpired`).
- Enemies.Enemy.ApplySpeedModifier: a slow-down's end time is the tick's `now` plus the duration, where the source reads the clock at each slow hit. The two can differ by the milliseconds a tick takes.
- Enemies.Enemy.Move: the slow-down's expiry test compares against the tick's `now`, where the source reads the clock at each enemy's move. The two can differ by the milliseconds a tick takes.
- Towers.Tower.UpdatePowerups: one `now` serves the whole pass, where the source reads the clock once per powerup.
- Integers are unbounded, where Java's wrap around. The model assumes no overflow of the `int` fields (coins, including `gainCoins` with any amount, lives, score and enemy health) or of the `long` clock sums (`startTime + duration`, `now - lastSpawnTime`, `now + duration` for a slow-down). No rule of the game depends on wrap-around.
- Floating point is exact integers. Multipliers are percentages, fire rates tenths, the tower clock whole milliseconds (0.017 s is 17 ms), and an enemy's progress along a segment units of 1/100000 tile. Ranges are compared squared. Rounding is modelled where the source rounds: `Math.round` halves up, and casts truncate toward zero.
- An enemy moves between adjacent tiles only. Its continuous position is kept as the current tile, the target and the progress between them.
- Enemies.Enemy.constructor and EnemyRoster.EnemyFactory.SpawnEnemy require a START tile, where the source fails with a null pointer. Boards.Board.Tick and Boards.Board.Spawn instead report the missing START (`ok` is false) and leave the state as it was.
- The pathfinder calls `board.livesLost()`; the model returns the event. The board applies the lives lost right after the moves. No tower reads the lives, so the state is the same.
- Tower shots call `board.addExplosion`; the model returns the points, and the board appends them after the tower tick, in the same order.
- Boards.Board.Tick: the explosions are aged after the enemy and tower phases rather than before. They share no object with those phases, so the state is the same.
- The board's explosions are values, not `Explosion` objects. The in-place decrement and any aliasing of those objects are not captured. `Explosion` itself is modelled as a class.
- Layout rows are sequences of Unicode characters, where `MapReader.parseMapData` counts columns in UTF-16 code units (`length()` and `charAt`). A row holding a character outside the Basic Multilingual Plane has one column more in the source than in the model, and the cells after it shift.
- Boards.LoadMap and Boards.NewBoard never fall back to `createDefaultMap`, because in the source that fallback cannot be reached. `MapReader` always allocates a full grid of the size it was given (MapReader.java:58). It catches `FileNotFoundException` and `JsonSyntaxException` itself and generates its own default map instead (MapReader.java:70-78). So the null and size checks and the catch in `Board.loadMap` (Board.java:194-207, 220-223) never fire, and its `finally` block (Board.java:224-228) matters only while another exception is already leaving the constructor. Boards.CreateDefaultMap, Boards.DefaultBoardMap and Boards.DefaultBoardStart model that unreachable code on its own.
- A null `Explosion` position cannot occur, because `Point` is a value.
- The tower and powerup menus (upgrade cost, removing a tower, the powerup shop) are not modelled beyond the tower prices (`Boards.ShopPrice`, `Boards.TowerCost`), the refund (`Boards.Refund`) and `PowerupType.getCost` (`Powerups.Cost`).
- Boards.Board.StartNextRound: it uses the corrected completion check, not the one the source writes (see Findings).
- The older copies of the classes, directly under `src/se/liu/feljo718/towerDefence/`, are not part of this model. This model follows the sub-package versions only.
- Getters that only return a field (`getWidth`, `getCoins`, the `Wave` and `Highscore` getters and the like) are datatype fields or class fields, with no member of their own.

## Findings

| source | as written | input that shows it | evidently intended | confidence | as-written member | corrected member |
|---|---|---|---|---|---|---|
| src/se/liu/feljo718/towerDefence/board/Board.java:115 | the game counts as complete when the completed level's index is `levels.size() - 45` | 47 levels: completing the third level (index 2) shows the completion dialog, and the game stops advancing. With fewer than 45 levels the dialog is never shown. | the game is complete when the last level, index `levels.size() - 1`, is completed | not executed | Boards.NextRoundAsWritten, Boards.CompletionAsWritten | Boards.NextRound, Boards.CompletionAfterLastLevel |
