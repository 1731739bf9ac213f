/** Tiles, their colours and the square board they are laid out on. */
module Tiles {

  /** Side of one tile in pixels. */
  const TileSize: int := 10

  /** Side of the square canvas in pixels. */
  const CanvasSize: int := 400

  /** Number of rows, and of columns, of the board. */
  const GridSize: int := CanvasSize / TileSize

  /** A tile's colour. NoColour is the `undefined` colour of a fresh tile,
      the only falsy colour; Grass and Ocean are the two colour strings
      the rules compare against. */
  datatype Colour = NoColour | Grass | Ocean

  /** A tile: its pixel position (x along a row, y down the rows) and its colour. */
  datatype Tile = Tile(x: int, y: int, color: Colour)

  /** The board: a list of rows, each a list of tiles. */
  type Grid = seq<seq<Tile>>

  /** Every row has as many tiles as there are rows. */
  predicate Square(grid: Grid) {
    forall r :: 0 <= r < |grid| ==> |grid[r]| == |grid|
  }

  /** Square, and every tile's pixel position is its column and row times TileSize. */
  predicate Placed(grid: Grid) {
    && Square(grid)
    && forall r, c :: 0 <= r < |grid| && 0 <= c < |grid| ==>
         grid[r][c].x == c * TileSize && grid[r][c].y == r * TileSize
  }

  /** Every tile of a placed grid names its own row and column. */
  lemma PlacedTile(grid: Grid, r: int, c: int)
    requires Placed(grid)
    requires 0 <= r < |grid| && 0 <= c < |grid|
    ensures grid[r][c].y >= 0 && grid[r][c].y % TileSize == 0 && grid[r][c].y / TileSize == r
    ensures grid[r][c].x >= 0 && grid[r][c].x % TileSize == 0 && grid[r][c].x / TileSize == c
  {
  }

  /** Number of tiles of colour `c` in `ts` (a `filter(...).length`). */
  function Count(ts: seq<Tile>, c: Colour): (k: nat)
    ensures k <= |ts|
  {
    if ts == [] then 0
    else (if ts[0].color == c then 1 else 0) + Count(ts[1..], c)
  }

  /** Every tile is counted exactly when every tile has the colour. */
  lemma {:induction false} CountAll(ts: seq<Tile>, c: Colour)
    ensures Count(ts, c) == |ts| <==> forall i :: 0 <= i < |ts| ==> ts[i].color == c
  {
    if ts != [] {
      CountAll(ts[1..], c);
      if forall i :: 0 <= i < |ts| ==> ts[i].color == c {
        assert forall i :: 0 <= i < |ts[1..]| ==> ts[1..][i].color == c by {
          forall i | 0 <= i < |ts[1..]| ensures ts[1..][i].color == c {
            assert ts[1..][i] == ts[i + 1];
          }
        }
      }
      if Count(ts, c) == |ts| {
        forall i | 0 <= i < |ts| ensures ts[i].color == c {
          if i > 0 {
            assert ts[i] == ts[1..][i - 1];
          }
        }
      }
    }
  }
}
