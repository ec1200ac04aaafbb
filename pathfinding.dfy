/**
 * Path following for one enemy (enemy/EnemyPathfinding.java): find the START
 * tile, then repeatedly pick the first PATH or END neighbour, in RIGHT, DOWN,
 * LEFT, UP order, that is not the tile the enemy came from, and report the
 * moment the enemy steps onto END.
 *
 * The pathfinder only ever reads the board's tiles, so it holds them as an
 * immutable `TileMap`. The `board.livesLost()` call it makes on reaching END
 * is returned to the caller as a flag instead.
 */
module Pathfinding {
  import opened Wrappers
  import opened Tiles
  import opened Directions

  /** isValidMove: inside the board and on a PATH or END tile. */
  predicate IsValidMove(m: TileMap, x: int, y: int)
    requires m.WellFormed()
  {
    m.InBounds(y, x) && (m.tiles[y][x] == Path || m.tiles[y][x] == End)
  }

  function Neighbour(p: Point, d: Direction): Point
  {
    Point(p.x + XOffset(d), p.y + YOffset(d))
  }

  predicate Adjacent(a: Point, b: Point)
  {
    Abs(a.x - b.x) + Abs(a.y - b.y) == 1
  }

  /** Direction `d` leads from `cur` to a valid tile other than `prev`. */
  predicate Candidate(m: TileMap, cur: Point, prev: Point, d: Direction)
    requires m.WellFormed()
  {
    var n := Neighbour(cur, d);
    IsValidMove(m, n.x, n.y) && n != prev
  }

  /**
   * The moves the scan collects when it visits the directions `ds` in order:
   * every candidate neighbour, and only those, in scan order.
   */
  function MovesFrom(m: TileMap, cur: Point, prev: Point, ds: seq<Direction>): (moves: seq<Point>)
    requires m.WellFormed()
    ensures |moves| <= |ds|
    ensures forall i :: 0 <= i < |moves| ==>
              IsValidMove(m, moves[i].x, moves[i].y) && moves[i] != prev && Adjacent(cur, moves[i])
  {
    if ds == [] then []
    else
      var d := ds[|ds| - 1];
      UnitSteps(d);
      MovesFrom(m, cur, prev, ds[..|ds| - 1]) + (if Candidate(m, cur, prev, d) then [Neighbour(cur, d)] else [])
  }

  /** getPossibleMoves: the candidates over all four directions. */
  function PossibleMoves(m: TileMap, cur: Point, prev: Point): seq<Point>
    requires m.WellFormed()
  {
    MovesFrom(m, cur, prev, Order)
  }

  /** No direction of `ds` is a candidate. */
  lemma {:induction false} NoCandidateNoMoves(m: TileMap, cur: Point, prev: Point, ds: seq<Direction>)
    requires m.WellFormed()
    requires forall j :: 0 <= j < |ds| ==> !Candidate(m, cur, prev, ds[j])
    ensures MovesFrom(m, cur, prev, ds) == []
  {
    if ds != [] {
      NoCandidateNoMoves(m, cur, prev, ds[..|ds| - 1]);
    }
  }

  /** The first move collected is the neighbour in the first candidate direction. */
  lemma {:induction false} FirstCandidateFirst(m: TileMap, cur: Point, prev: Point, ds: seq<Direction>, k: nat)
    requires m.WellFormed()
    requires k < |ds| && Candidate(m, cur, prev, ds[k])
    requires forall j :: 0 <= j < k ==> !Candidate(m, cur, prev, ds[j])
    ensures MovesFrom(m, cur, prev, ds) != []
    ensures MovesFrom(m, cur, prev, ds)[0] == Neighbour(cur, ds[k])
  {
    if |ds| == k + 1 {
      NoCandidateNoMoves(m, cur, prev, ds[..k]);
    } else {
      var init := ds[..|ds| - 1];
      assert init[k] == ds[k];
      FirstCandidateFirst(m, cur, prev, init, k);
    }
  }

  /**
   * The scan's choice, stated without the scan: the list is empty exactly when
   * no direction is a candidate, and otherwise starts with the neighbour in the
   * first candidate direction of RIGHT, DOWN, LEFT, UP.
   */
  lemma PossibleMovesFirst(m: TileMap, cur: Point, prev: Point)
    requires m.WellFormed()
    ensures PossibleMoves(m, cur, prev) == [] <==> forall d :: !Candidate(m, cur, prev, d)
    ensures Candidate(m, cur, prev, Right) ==> PossibleMoves(m, cur, prev)[0] == Neighbour(cur, Right)
    ensures !Candidate(m, cur, prev, Right) && Candidate(m, cur, prev, Down) ==>
              PossibleMoves(m, cur, prev)[0] == Neighbour(cur, Down)
    ensures !Candidate(m, cur, prev, Right) && !Candidate(m, cur, prev, Down) && Candidate(m, cur, prev, Left) ==>
              PossibleMoves(m, cur, prev)[0] == Neighbour(cur, Left)
    ensures !Candidate(m, cur, prev, Right) && !Candidate(m, cur, prev, Down) && !Candidate(m, cur, prev, Left)
              && Candidate(m, cur, prev, Up) ==>
              PossibleMoves(m, cur, prev)[0] == Neighbour(cur, Up)
  {
    if Candidate(m, cur, prev, Right) {
      FirstCandidateFirst(m, cur, prev, Order, 0);
    } else if Candidate(m, cur, prev, Down) {
      FirstCandidateFirst(m, cur, prev, Order, 1);
    } else if Candidate(m, cur, prev, Left) {
      FirstCandidateFirst(m, cur, prev, Order, 2);
    } else if Candidate(m, cur, prev, Up) {
      FirstCandidateFirst(m, cur, prev, Order, 3);
    } else {
      NoCandidateNoMoves(m, cur, prev, Order);
      forall d ensures !Candidate(m, cur, prev, d) {
        OrderIsComplete(d);
      }
    }
  }

  /** Row-major order: (r, c) is scanned before the point `p`. */
  predicate ScannedBefore(r: int, c: int, p: Point)
  {
    r < p.y || (r == p.y && c < p.x)
  }

  function FindStartInRow(m: TileMap, row: nat, col: nat): Option<Point>
    requires m.WellFormed() && row < m.height
    decreases m.width - col
  {
    if col >= m.width then None
    else if m.tiles[row][col] == Start then Some(Point(col, row))
    else FindStartInRow(m, row, col + 1)
  }

  function FindStartFrom(m: TileMap, row: nat): Option<Point>
    requires m.WellFormed()
    decreases m.height - row
  {
    if row >= m.height then None
    else
      match FindStartInRow(m, row, 0)
      case Some(p) => Some(p)
      case None => FindStartFrom(m, row + 1)
  }

  /** The START tile findStartPosition settles on, if the board has one. */
  function FindStart(m: TileMap): Option<Point>
    requires m.WellFormed()
  {
    FindStartFrom(m, 0)
  }

  lemma {:induction false} FindStartInRowSpec(m: TileMap, row: nat, col: nat)
    requires m.WellFormed() && row < m.height
    ensures FindStartInRow(m, row, col).None? ==>
              forall c :: col <= c < m.width ==> m.tiles[row][c] != Start
    ensures FindStartInRow(m, row, col).Some? ==>
              var p := FindStartInRow(m, row, col).value;
              p.y == row && col <= p.x < m.width && m.tiles[row][p.x] == Start &&
              forall c :: col <= c < p.x ==> m.tiles[row][c] != Start
    decreases m.width - col
  {
    if col < m.width && m.tiles[row][col] != Start {
      FindStartInRowSpec(m, row, col + 1);
    }
  }

  lemma {:induction false} FindStartFromSpec(m: TileMap, row: nat)
    requires m.WellFormed()
    ensures FindStartFrom(m, row).None? ==>
              forall r, c :: row <= r < m.height && 0 <= c < m.width ==> m.tiles[r][c] != Start
    ensures FindStartFrom(m, row).Some? ==>
              var p := FindStartFrom(m, row).value;
              row <= p.y && m.InBounds(p.y, p.x) && m.tiles[p.y][p.x] == Start &&
              forall r, c :: row <= r < m.height && 0 <= c < m.width && ScannedBefore(r, c, p) ==>
                m.tiles[r][c] != Start
    decreases m.height - row
  {
    if row < m.height {
      FindStartInRowSpec(m, row, 0);
      if FindStartInRow(m, row, 0).None? {
        FindStartFromSpec(m, row + 1);
      }
    }
  }

  /**
   * findStartPosition finds the first START tile in row-major order over the
   * whole board, and finds none exactly when the board has no START tile.
   */
  lemma FindStartIsFirstStart(m: TileMap)
    requires m.WellFormed()
    ensures FindStart(m).None? <==> forall r, c :: m.InBounds(r, c) ==> m.tiles[r][c] != Start
    ensures FindStart(m).Some? ==>
              var p := FindStart(m).value;
              m.InBounds(p.y, p.x) && m.tiles[p.y][p.x] == Start &&
              forall r, c :: m.InBounds(r, c) && ScannedBefore(r, c, p) ==> m.tiles[r][c] != Start
  {
    FindStartFromSpec(m, 0);
  }

  /** The pathfinder's fields: positions are (x = column, y = row). */
  datatype PathState = PathState(current: Point, previous: Point, target: Option<Point>, reachedEnd: bool)

  /**
   * What the pathfinder maintains between calls: the enemy stands on the board,
   * `reachedEnd` says exactly whether it stands on END, and a cached target is a
   * valid forward step.
   */
  ghost predicate PathInv(m: TileMap, s: PathState)
  {
    m.WellFormed() &&
    m.InBounds(s.current.y, s.current.x) &&
    (s.reachedEnd <==> m.tiles[s.current.y][s.current.x] == End) &&
    (s.target.Some? ==>
       !s.reachedEnd &&
       IsValidMove(m, s.target.value.x, s.target.value.y) &&
       s.target.value != s.previous && Adjacent(s.current, s.target.value))
  }

  /** The state right after construction on a board with a START tile. */
  function Initial(m: TileMap): (s: PathState)
    requires m.WellFormed() && FindStart(m).Some?
    ensures PathInv(m, s) && !s.reachedEnd && s.target.None?
    ensures m.tiles[s.current.y][s.current.x] == Start && s.previous == s.current
  {
    FindStartIsFirstStart(m);
    var p := FindStart(m).value;
    PathState(p, p, None, false)
  }

  /**
   * getNextPosition: nothing once the end is reached; otherwise the cached
   * target, or else the first possible move, which becomes the cached target.
   */
  function NextPosition(m: TileMap, s: PathState): (PathState, Option<Point>)
    requires m.WellFormed()
  {
    if s.reachedEnd then (s, None)
    else if s.target.Some? then (s, s.target)
    else
      var moves := PossibleMoves(m, s.current, s.previous);
      var s' := if moves != [] then s.(target := Some(moves[0])) else s;
      (s', s'.target)
  }

  /** getNextPosition keeps the invariant and only ever sets the target. */
  lemma NextPositionKeepsInv(m: TileMap, s: PathState)
    requires PathInv(m, s)
    ensures PathInv(m, NextPosition(m, s).0)
    ensures NextPosition(m, s).1 == NextPosition(m, s).0.target || s.reachedEnd
    ensures NextPosition(m, s).0 == s.(target := NextPosition(m, s).0.target)
  {
    var moves := PossibleMoves(m, s.current, s.previous);
    if moves != [] {
      assert moves[0] in moves;
    }
  }

  /** Once the end is reached the pathfinder is frozen and proposes nothing. */
  lemma EndIsFinal(m: TileMap, s: PathState)
    requires m.WellFormed() && s.reachedEnd
    ensures NextPosition(m, s) == (s, None)
  {
  }

  /** A cached target is handed out unchanged until the enemy reaches it. */
  lemma CachedTargetKept(m: TileMap, s: PathState)
    requires m.WellFormed() && !s.reachedEnd && s.target.Some?
    ensures NextPosition(m, s) == (s, s.target)
  {
  }

  /**
   * With no cached target, the proposed step is the first candidate neighbour,
   * and there is none exactly when no neighbour is a candidate.
   */
  lemma FreshTargetIsFirstCandidate(m: TileMap, s: PathState)
    requires m.WellFormed() && !s.reachedEnd && s.target.None?
    ensures NextPosition(m, s).1.None? <==> forall d :: !Candidate(m, s.current, s.previous, d)
    ensures NextPosition(m, s).1.Some? ==>
              exists d :: Candidate(m, s.current, s.previous, d) &&
                NextPosition(m, s).1.value == Neighbour(s.current, d)
  {
    PossibleMovesFirst(m, s.current, s.previous);
    if NextPosition(m, s).1.Some? {
      if Candidate(m, s.current, s.previous, Right) {
      } else if Candidate(m, s.current, s.previous, Down) {
      } else if Candidate(m, s.current, s.previous, Left) {
      } else {
        assert Candidate(m, s.current, s.previous, Up);
      }
    }
  }

  /**
   * reachedTargetPoint: step onto the target, remember where the enemy came
   * from, forget the target, and flag the end (and a lost life) on END.
   */
  function ReachTarget(m: TileMap, s: PathState): (PathState, bool)
    requires m.WellFormed() && s.target.Some?
  {
    var n := s.target.value;
    var atEnd := m.TileAt(n.y, n.x) == Some(End);
    (PathState(n, s.current, None, s.reachedEnd || atEnd), atEnd)
  }

  /**
   * Reaching a target keeps the invariant, and a life is lost exactly when the
   * enemy steps onto END, which is exactly when `reachedEnd` turns true.
   */
  lemma ReachTargetKeepsInv(m: TileMap, s: PathState)
    requires PathInv(m, s) && s.target.Some?
    ensures PathInv(m, ReachTarget(m, s).0)
    ensures ReachTarget(m, s).0.current == s.target.value && ReachTarget(m, s).0.previous == s.current
    ensures ReachTarget(m, s).0.target.None?
    ensures ReachTarget(m, s).1 <==> !s.reachedEnd && ReachTarget(m, s).0.reachedEnd
  {
  }

  /**
   * Tracks one enemy's walk along the path. The board's tiles do not change
   * once a game is running, so the pathfinder keeps them as a value.
   */
  class EnemyPathfinding {
    const board: TileMap
    var currentPos: Point
    var previousPos: Point
    var currentTarget: Option<Point>
    var reachedEnd: bool

    function State(): PathState
      reads this
    {
      PathState(currentPos, previousPos, currentTarget, reachedEnd)
    }

    ghost predicate Valid()
      reads this
    {
      PathInv(board, State())
    }

    /** Starts on the board's first START tile, with no target. */
    constructor(m: TileMap)
      requires m.WellFormed() && FindStart(m).Some?
      ensures board == m && State() == Initial(m) && Valid()
    {
      board := m;
      reachedEnd := false;
      var start := FindStartPosition(m);
      currentPos := start.value;
      previousPos := start.value;
      currentTarget := None;
    }

    /** The nested row-major scan for the first START tile. */
    static method FindStartPosition(m: TileMap) returns (start: Option<Point>)
      requires m.WellFormed()
      ensures start == FindStart(m)
    {
      var row := 0;
      while row < m.height
        invariant 0 <= row <= m.height
        invariant FindStartFrom(m, row) == FindStart(m)
      {
        var col := 0;
        while col < m.width
          invariant 0 <= col <= m.width
          invariant FindStartInRow(m, row, col) == FindStartInRow(m, row, 0)
        {
          if m.tiles[row][col] == Start {
            return Some(Point(col, row));
          }
          col := col + 1;
        }
        row := row + 1;
      }
      return None;
    }

    /** isValidMove on this pathfinder's board. */
    function IsValid(x: int, y: int): (ok: bool)
      requires board.WellFormed()
      ensures ok <==> board.TileAt(y, x) == Some(Path) || board.TileAt(y, x) == Some(End)
    {
      IsValidMove(board, x, y)
    }

    /** The loop over `Direction.values()` collecting forward moves. */
    method GetPossibleMoves() returns (moves: seq<Point>)
      requires board.WellFormed()
      ensures moves == PossibleMoves(board, currentPos, previousPos)
    {
      moves := [];
      var i := 0;
      while i < |Order|
        invariant 0 <= i <= |Order|
        invariant moves == MovesFrom(board, currentPos, previousPos, Order[..i])
      {
        var dir := Order[i];
        var newX := currentPos.x + XOffset(dir);
        var newY := currentPos.y + YOffset(dir);
        if IsValid(newX, newY) {
          var newPos := Point(newX, newY);
          if newPos != previousPos {
            moves := moves + [newPos];
          }
        }
        assert Order[..i + 1][..i] == Order[..i];
        i := i + 1;
      }
      assert Order[..i] == Order;
    }

    method GetNextPosition() returns (target: Option<Point>)
      requires board.WellFormed()
      modifies this
      ensures (State(), target) == NextPosition(board, old(State()))
    {
      if reachedEnd {
        return None;
      }
      if currentTarget.None? {
        var possibleMoves := GetPossibleMoves();
        if possibleMoves != [] {
          currentTarget := Some(possibleMoves[0]);
        }
      }
      return currentTarget;
    }

    /** Returns whether this step reached END, where the source calls board.livesLost(). */
    method ReachedTargetPoint() returns (lifeLost: bool)
      requires board.WellFormed() && currentTarget.Some?
      modifies this
      ensures (State(), lifeLost) == ReachTarget(board, old(State()))
    {
      previousPos := currentPos;
      currentPos := currentTarget.value;
      currentTarget := None;
      lifeLost := false;
      if board.TileAt(currentPos.y, currentPos.x) == Some(End) {
        reachedEnd := true;
        lifeLost := true;
      }
    }
  }
}
