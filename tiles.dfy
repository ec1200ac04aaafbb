/**
 * Tile kinds, grid points and the tile grid of a board, with the bounds-checked
 * lookup that every other component uses (board/Board.java getTileAt) and the
 * placement rule the board view applies before creating a tower.
 */
module Tiles {
  import opened Wrappers

  /** The kinds of tile; INTERFACE is the row reserved for the user interface. */
  datatype TileType = Grass | Path | Water | Start | End | Sand | Interface

  /** A java.awt.Point: `x` is the column, `y` the row. */
  datatype Point = Point(x: int, y: int)

  /**
   * A board's tiles, indexed `tiles[row][col]`, with the board's own width and
   * height (the height of a board counts the interface row).
   */
  datatype TileMap = TileMap(width: nat, height: nat, tiles: seq<seq<TileType>>)
  {
    ghost predicate WellFormed()
    {
      |tiles| == height && forall r :: 0 <= r < height ==> |tiles[r]| == width
    }

    predicate InBounds(row: int, col: int)
    {
      0 <= row < height && 0 <= col < width
    }

    /** getTileAt: the tile at (row, col), or null (None) out of bounds. */
    function TileAt(row: int, col: int): (t: Option<TileType>)
      requires WellFormed()
      ensures t.None? <==> !InBounds(row, col)
      ensures t.Some? ==> t.value == tiles[row][col]
    {
      if row < 0 || row >= height || col < 0 || col >= width then None
      else Some(tiles[row][col])
    }
  }

  /**
   * A tower may be placed only on GRASS or SAND; anything else, including a
   * position off the board, is refused.
   */
  predicate CanPlaceTower(t: Option<TileType>)
  {
    t == Some(Grass) || t == Some(Sand)
  }

  lemma PlacementRule(m: TileMap, row: int, col: int)
    requires m.WellFormed()
    ensures CanPlaceTower(m.TileAt(row, col)) <==>
              m.InBounds(row, col) && (m.tiles[row][col] == Grass || m.tiles[row][col] == Sand)
  {
  }
}
