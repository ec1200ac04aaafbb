/**
 * The four neighbour offsets an enemy scans, in declaration order
 * (enemy/Direction.java). Each constant is declared as (xOffset, yOffset)
 * and the path scan adds xOffset to the column and yOffset to the row, so
 * RIGHT = (0, 1) steps one row down and DOWN = (1, 0) one column right.
 */
module Directions {

  datatype Direction = Right | Down | Left | Up

  /** `Direction.values()`: the scan priority. */
  const Order: seq<Direction> := [Right, Down, Left, Up]

  function XOffset(d: Direction): int
  {
    match d
    case Right => 0
    case Down => 1
    case Left => 0
    case Up => -1
  }

  function YOffset(d: Direction): int
  {
    match d
    case Right => 1
    case Down => 0
    case Left => -1
    case Up => 0
  }

  function Abs(n: int): nat
  {
    if n < 0 then -n else n
  }

  /** Every offset is one orthogonal step. */
  lemma UnitSteps(d: Direction)
    ensures Abs(XOffset(d)) + Abs(YOffset(d)) == 1
  {
  }

  /** The four offsets are pairwise distinct. */
  lemma OffsetsDistinct(a: Direction, b: Direction)
    ensures a != b ==> XOffset(a) != XOffset(b) || YOffset(a) != YOffset(b)
  {
  }

  /** RIGHT and LEFT, and DOWN and UP, undo each other. */
  lemma OppositePairs()
    ensures XOffset(Left) == -XOffset(Right) && YOffset(Left) == -YOffset(Right)
    ensures XOffset(Up) == -XOffset(Down) && YOffset(Up) == -YOffset(Down)
  {
  }

  /** Every direction is scanned exactly once, in declaration order. */
  lemma OrderIsComplete(d: Direction)
    ensures d in Order && |Order| == 4
    ensures forall i, j :: 0 <= i < j < |Order| ==> Order[i] != Order[j]
  {
  }
}
