/** The tile grid of a level and its bounds-checked lookup (js/level.js). */
module Tiles {
  import opened Wrappers
  import Physics

  /** Side of a square tile in pixels. */
  const TileSize: int := 32

  /** Tile codes, normalised: `0` is `Empty`; `1`/`'g'` ground, `2`/`'b'`
      brick, `3`/`'q'` question block and `4`/`'p'` pipe are terrain; `'c'`,
      `'m'` and `'f'` mark coin, mushroom and fire-flower spawns. */
  datatype Tile = Empty | Ground | Brick | Question | Pipe
                | CoinMarker | MushroomMarker | FireMarker

  /** The kinds of power-up a level places: the source's `'mushroom'` and `'fire'`. */
  datatype PowerKind = Mushroom | FireFlower

  /** Terrain blocks movement; empty cells and spawn markers never do. */
  predicate IsSolid(t: Tile) {
    !(t.Empty? || t.CoinMarker? || t.MushroomMarker? || t.FireMarker?)
  }

  /** The source's `tile && tile !== 0 && tile !== 'c' && ...` test on a lookup
      result: a missing tile is not solid. */
  predicate SolidAt(t: Option<Tile>) {
    t.Some? && IsSolid(t.value)
  }

  /** A grid of `height` rows of `width` tiles each. */
  datatype Grid = Grid(width: int, height: int, tiles: seq<seq<Tile>>)

  /** The grid is rectangular with the declared dimensions. */
  predicate WellFormed(g: Grid) {
    0 <= g.width && g.height == |g.tiles| &&
    forall y :: 0 <= y < |g.tiles| ==> |g.tiles[y]| == g.width
  }

  predicate InBounds(g: Grid, x: int, y: int) {
    0 <= x < g.width && 0 <= y < g.height
  }

  /** The tile at column `x`, row `y`; `None` (the source's `null`) off the grid. */
  function GetTile(g: Grid, x: int, y: int): (r: Option<Tile>)
    requires WellFormed(g)
    ensures r.None? <==> (x < 0 || x >= g.width || y < 0 || y >= g.height)
    ensures r.Some? ==> r.value == g.tiles[y][x]
  {
    if x < 0 || x >= g.width || y < 0 || y >= g.height then None
    else Some(g.tiles[y][x])
  }

  /** Width of the grid in pixels. */
  function PixelWidth(g: Grid): real {
    (g.width * TileSize) as real
  }

  /** Height of the grid in pixels. */
  function PixelHeight(g: Grid): real {
    (g.height * TileSize) as real
  }

  /** The box of grid cell (`x`, `y`). */
  function CellRect(x: int, y: int): Physics.Rect {
    Physics.TileRect(x, y, TileSize as real)
  }

  /** Absent geometry is never solid: a solid lookup is always on the grid, and
      a solid on-grid tile is found by the lookup. */
  lemma SolidOnlyOnGrid(g: Grid, x: int, y: int)
    requires WellFormed(g)
    ensures SolidAt(GetTile(g, x, y)) <==> InBounds(g, x, y) && IsSolid(g.tiles[y][x])
  {
  }
}
