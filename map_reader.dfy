/**
 * Loading a board's tile grid from already-parsed map records
 * (handler/MapReader.java): the one-character tile codes, the choice of map
 * by name, the fill of the grid from row strings, and the fallback map.
 */
module MapReading {
  import opened Wrappers
  import opened Tiles

  /** createTileTypeMap: the one-character key of each tile kind a map file may use. */
  const TileTypeMap: map<char, TileType> :=
    map['G' := Grass, 'P' := Path, 'W' := Water, 'B' := Start, 'E' := End, 'S' := Sand]

  /** The key a map file uses for a tile kind; the interface row has none. */
  function TileCode(t: TileType): (c: Option<char>)
    ensures c.Some? <==> t != Interface
    ensures c.Some? ==> c.value in TileTypeMap && TileTypeMap[c.value] == t
  {
    match t
    case Grass => Some('G')
    case Path => Some('P')
    case Water => Some('W')
    case Start => Some('B')
    case End => Some('E')
    case Sand => Some('S')
    case Interface => None
  }

  /**
   * The tile a map character stands for: its entry in the tile map, GRASS
   * for any other character (getOrDefault). The only character that decodes
   * to a tile other than GRASS is that tile's own key.
   */
  function DecodeTile(c: char): (t: TileType)
    ensures t != Interface
    ensures t != Grass ==> TileCode(t) == Some(c)
  {
    if c in TileTypeMap then TileTypeMap[c] else Grass
  }

  /** Decoding undoes encoding for every tile kind a map file can hold. */
  lemma TileCodeRoundTrip(t: TileType)
    requires t != Interface
    ensures DecodeTile(TileCode(t).value) == t
  {
  }

  /** A character outside G, P, W, B, E, S decodes to GRASS. */
  lemma UnknownIsGrass(c: char)
    requires c !in {'G', 'P', 'W', 'B', 'E', 'S'}
    ensures DecodeTile(c) == Grass
  {
  }

  /** One map of a map file: its name and its rows of tile characters. */
  datatype MapEntry = MapEntry(name: string, tiles: seq<string>)

  /**
   * What reading the map file gave: nothing usable (a missing file, a read
   * error or malformed JSON all end in the default map) or the list of maps.
   */
  datatype MapSource = Unreadable | Maps(entries: seq<MapEntry>)

  /** The index of the first map called `name`, searching in file order. */
  function FirstNamed(maps: seq<MapEntry>, name: string): (r: Option<nat>)
    ensures r.Some? ==> r.value < |maps| && maps[r.value].name == name &&
                        forall j :: 0 <= j < r.value ==> maps[j].name != name
    ensures r.None? ==> forall j :: 0 <= j < |maps| ==> maps[j].name != name
    decreases |maps|
  {
    if maps == [] then None
    else
      var n := |maps| - 1;
      var before := FirstNamed(maps[..n], name);
      if before.Some? then before
      else if maps[n].name == name then Some(n)
      else None
  }

  /**
   * The map loadFromJson parses: the first map whose name matches, else the
   * first map of the file; None when the file is unusable or holds no map,
   * which means the default map.
   */
  function Chosen(source: MapSource, name: string): Option<MapEntry>
  {
    match source
    case Unreadable => None
    case Maps(ms) =>
      var found := FirstNamed(ms, name);
      if found.Some? then Some(ms[found.value])
      else if ms != [] then Some(ms[0])
      else None
  }

  /** The selection rule of loadFromJson, both ways round. */
  lemma ChosenSpec(source: MapSource, name: string)
    ensures source.Unreadable? ==> Chosen(source, name).None?
    ensures source.Maps? && (exists j :: 0 <= j < |source.entries| && source.entries[j].name == name) ==>
              exists j :: 0 <= j < |source.entries| && Chosen(source, name) == Some(source.entries[j]) &&
                          source.entries[j].name == name &&
                          forall k :: 0 <= k < j ==> source.entries[k].name != name
    ensures source.Maps? && (forall j :: 0 <= j < |source.entries| ==> source.entries[j].name != name) ==>
              Chosen(source, name) == if source.entries == [] then None else Some(source.entries[0])
  {
    if source.Maps? {
      var found := FirstNamed(source.entries, name);
      if found.Some? {
        assert Chosen(source, name) == Some(source.entries[found.value]);
      }
    }
  }

  /**
   * parseMapData on one cell: the decoded character when the rows cover it,
   * GRASS (the fill that precedes parsing) when they do not.
   */
  function ParsedTile(rows: seq<string>, r: nat, c: nat): TileType
  {
    if r < |rows| && c < |rows[r]| then DecodeTile(rows[r][c]) else Grass
  }

  /**
   * The rows cut down to the first `h` rows and the first `w` characters of
   * each, which is all that parseMapData reads.
   */
  function Clipped(rows: seq<string>, h: nat, w: nat): (cut: seq<string>)
    ensures |cut| <= h && forall i :: 0 <= i < |cut| ==> |cut[i]| <= w
  {
    var n := if |rows| < h then |rows| else h;
    seq(n, i requires 0 <= i < n => if |rows[i]| < w then rows[i] else rows[i][..w])
  }

  /** Rows past the height and characters past the width make no difference. */
  lemma OnlyGridIsRead(rows: seq<string>, h: nat, w: nat, r: nat, c: nat)
    requires r < h && c < w
    ensures ParsedTile(Clipped(rows, h, w), r, c) == ParsedTile(rows, r, c)
  {
  }

  /** The map file's rows for a grid: each tile replaced by its key. */
  function Encoded(g: seq<seq<TileType>>): (rows: seq<string>)
    requires forall i, j :: 0 <= i < |g| && 0 <= j < |g[i]| ==> g[i][j] != Interface
    ensures |rows| == |g| && forall i :: 0 <= i < |g| ==> |rows[i]| == |g[i]|
  {
    seq(|g|, i requires 0 <= i < |g| => seq(|g[i]|, j requires 0 <= j < |g[i]| => TileCode(g[i][j]).value))
  }

  /**
   * Writing out a grid of map tiles and parsing it back gives the grid again,
   * cell by cell.
   */
  lemma {:induction false} ParseRoundTrip(g: seq<seq<TileType>>, r: nat, c: nat)
    requires forall i, j :: 0 <= i < |g| && 0 <= j < |g[i]| ==> g[i][j] != Interface
    requires r < |g| && c < |g[r]|
    ensures ParsedTile(Encoded(g), r, c) == g[r][c]
  {
    TileCodeRoundTrip(g[r][c]);
  }

  /**
   * generateDefaultMap on one cell of a `w` by `h` grid: the middle row is
   * PATH from START to END (END written last, so it wins on a one-column
   * map); every other cell is GRASS.
   */
  function DefaultTile(w: nat, h: nat, r: nat, c: nat): TileType
  {
    if r != h / 2 then Grass
    else if c == w - 1 then End
    else if c == 0 then Start
    else Path
  }

  /** The default map's layout, cell kind by cell kind. */
  lemma DefaultMapLayout(w: nat, h: nat, r: nat, c: nat)
    requires r < h && c < w
    ensures DefaultTile(w, h, r, c) == Grass <==> r != h / 2
    ensures DefaultTile(w, h, r, c) == Start <==> r == h / 2 && c == 0 && w >= 2
    ensures DefaultTile(w, h, r, c) == End <==> r == h / 2 && c == w - 1
    ensures DefaultTile(w, h, r, c) == Path <==> r == h / 2 && 0 < c < w - 1
  {
  }

  /** The tile loadFromJson leaves in one cell, for a given source and name. */
  function LoadedTile(source: MapSource, name: string, w: nat, h: nat, r: nat, c: nat): TileType
  {
    var m := Chosen(source, name);
    if m.Some? then ParsedTile(m.value.tiles, r, c) else DefaultTile(w, h, r, c)
  }

  /** A map reader: the requested map's name and the tile grid it loaded. */
  class MapReader {
    const width: nat
    const height: nat
    const mapName: string
    const grid: array2<TileType>

    ghost predicate Valid()
      reads this
    {
      grid.Length0 == height && grid.Length1 == width && width >= 1 && height >= 1
    }

    /** getMap, as rows. */
    function Rows(): (g: seq<seq<TileType>>)
      reads this, grid
      requires Valid()
      ensures |g| == height && forall r :: 0 <= r < height ==> |g[r]| == width
      ensures forall r, c :: 0 <= r < height && 0 <= c < width ==> g[r][c] == grid[r, c]
    {
      seq(height, r requires 0 <= r < height reads this, grid =>
        seq(width, c requires 0 <= c < width reads this, grid => grid[r, c]))
    }

    /**
     * Reads the map called `mapName` ("Default Map" when absent) from
     * `source` into a fresh `width` by `height` grid.
     */
    constructor(source: MapSource, width: nat, height: nat, mapName: Option<string>)
      requires width >= 1 && height >= 1
      ensures Valid() && fresh(grid)
      ensures this.width == width && this.height == height
      ensures this.mapName == if mapName.Some? then mapName.value else "Default Map"
      ensures forall r, c :: 0 <= r < height && 0 <= c < width ==>
                grid[r, c] == LoadedTile(source, this.mapName, width, height, r, c)
    {
      this.width := width;
      this.height := height;
      this.mapName := if mapName.Some? then mapName.value else "Default Map";
      grid := new TileType[height, width];
      new;
      LoadFromJson(source);
    }

    /** fillMapWithTile: every cell becomes `t`. */
    method FillMapWithTile(t: TileType)
      requires Valid()
      modifies grid
      ensures forall r, c :: 0 <= r < height && 0 <= c < width ==> grid[r, c] == t
    {
      var row := 0;
      while row < height
        invariant 0 <= row <= height
        invariant forall r, c :: 0 <= r < row && 0 <= c < width ==> grid[r, c] == t
      {
        var col := 0;
        while col < width
          invariant 0 <= col <= width
          invariant forall r, c :: 0 <= r < row && 0 <= c < width ==> grid[r, c] == t
          invariant forall c :: 0 <= c < col ==> grid[row, c] == t
        {
          grid[row, col] := t;
          col := col + 1;
        }
        row := row + 1;
      }
    }

    /** generateDefaultMap. */
    method GenerateDefaultMap()
      requires Valid()
      modifies grid
      ensures forall r, c :: 0 <= r < height && 0 <= c < width ==> grid[r, c] == DefaultTile(width, height, r, c)
    {
      FillMapWithTile(Grass);
      var middleRow := height / 2;
      var col := 0;
      while col < width
        invariant 0 <= col <= width
        invariant forall r, c :: 0 <= r < height && 0 <= c < width && r != middleRow ==> grid[r, c] == Grass
        invariant forall c :: 0 <= c < col ==> grid[middleRow, c] == Path
      {
        grid[middleRow, col] := Path;
        col := col + 1;
      }
      grid[middleRow, 0] := Start;
      grid[middleRow, width - 1] := End;
    }

    /**
     * parseMapData: the grid is filled with GRASS, then row `i` of the grid
     * takes the decoded characters of row string `i`, for the first `height`
     * strings and the first `width` characters of each.
     */
    method ParseMapData(rows: seq<string>)
      requires Valid()
      modifies grid
      ensures forall r, c :: 0 <= r < height && 0 <= c < width ==> grid[r, c] == ParsedTile(rows, r, c)
    {
      FillMapWithTile(Grass);
      var rowIndex := 0;
      var i := 0;
      while i < |rows| && rowIndex < height
        invariant 0 <= i <= |rows| && rowIndex == i <= height
        invariant forall r, c :: 0 <= r < height && 0 <= c < width ==>
                    grid[r, c] == (if r < rowIndex then ParsedTile(rows, r, c) else Grass)
      {
        var rowStr := rows[i];
        var n := if |rowStr| < width then |rowStr| else width;
        var col := 0;
        while col < n
          invariant 0 <= col <= n
          invariant forall r, c :: 0 <= r < height && 0 <= c < width ==>
                      grid[r, c] == (if r < rowIndex || (r == rowIndex && c < col) then ParsedTile(rows, r, c) else Grass)
        {
          grid[rowIndex, col] := DecodeTile(rowStr[col]);
          col := col + 1;
        }
        rowIndex := rowIndex + 1;
        i := i + 1;
      }
    }

    /**
     * loadFromJson together with initializeMap's fallback: the map named
     * `mapName`, else the first map of the file, else the default map.
     */
    method LoadFromJson(source: MapSource)
      requires Valid()
      modifies grid
      ensures forall r, c :: 0 <= r < height && 0 <= c < width ==>
                grid[r, c] == LoadedTile(source, mapName, width, height, r, c)
    {
      if source.Unreadable? {
        GenerateDefaultMap();
        return;
      }
      var maps := source.entries;
      var mapFound := false;
      var i := 0;
      while i < |maps| && !mapFound
        invariant 0 <= i <= |maps|
        invariant !mapFound ==> forall j :: 0 <= j < i ==> maps[j].name != mapName
        invariant mapFound ==> 0 < i && Chosen(source, mapName) == Some(maps[i - 1])
        invariant mapFound ==> forall r, c :: 0 <= r < height && 0 <= c < width ==>
                    grid[r, c] == ParsedTile(maps[i - 1].tiles, r, c)
      {
        if maps[i].name == mapName {
          ParseMapData(maps[i].tiles);
          mapFound := true;
          FirstNamedIs(maps, mapName, i);
        }
        i := i + 1;
      }
      if !mapFound {
        if maps != [] {
          ParseMapData(maps[0].tiles);
        } else {
          GenerateDefaultMap();
        }
      }
    }
  }

  /** A map of that name at `i` with none before it is the one FirstNamed finds. */
  lemma FirstNamedIs(maps: seq<MapEntry>, name: string, i: nat)
    requires i < |maps| && maps[i].name == name
    requires forall j :: 0 <= j < i ==> maps[j].name != name
    ensures FirstNamed(maps, name) == Some(i)
  {
  }
}
