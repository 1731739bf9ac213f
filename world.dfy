/** The board as the program holds it: built blank, seeded with an island in
    place, and replaced by a new board on every rule pass. */
module World {
  import opened Tiles
  import opened Rules

  /** The 5 by 5 exemplar island, row by row. */
  const Island: seq<seq<Colour>> := [
    [Ocean, Ocean, Grass, Ocean, Ocean],
    [Ocean, Grass, Grass, Grass, Ocean],
    [Grass, Grass, Grass, Grass, Grass],
    [Ocean, Grass, Grass, Grass, Ocean],
    [Ocean, Ocean, Grass, Ocean, Ocean]
  ]

  /** Distance of a cell from the island's centre cell, counting steps along
      rows and columns. */
  function StepsFromCentre(r: int, c: int): nat {
    (if r < 2 then 2 - r else r - 2) + (if c < 2 then 2 - c else c - 2)
  }

  /** The island is the grass diamond of cells at most two steps from its centre,
      with ocean in the four corners. */
  lemma IslandIsDiamond(r: int, c: int)
    requires 0 <= r < 5 && 0 <= c < 5
    ensures |Island| == 5 && |Island[r]| == 5
    ensures Island[r][c] == Grass <==> StepsFromCentre(r, c) <= 2
    ensures Island[r][c] == Ocean <==> StepsFromCentre(r, c) > 2
  {
  }

  /** Half of `m`, with halves rounded up, as Math.round(m / 2) does. */
  function HalfRounded(m: nat): (h: nat)
    ensures 2 * h == m || 2 * h == m + 1
  {
    (m + 1) / 2
  }

  /** The row, and column, at which the island starts on a board of side `n`. */
  function Middle(n: nat): (m: int)
    ensures n >= |Island| ==> 0 <= m && m + |Island| <= n
    ensures n >= |Island| ==> 0 <= (n - (m + |Island|)) - m <= 1
    ensures n == GridSize ==> m == 17
  {
    HalfRounded(n) - HalfRounded(|Island|)
  }

  /** Cell (r, c) lies under an island placed at (m, m). */
  predicate UnderIsland(m: int, r: int, c: int) {
    m <= r < m + |Island| && m <= c < m + |Island|
  }

  /** The board with cell (r, c) painted `colour`, its position kept. */
  function Paint(grid: Grid, r: int, c: int, colour: Colour): Grid
    requires 0 <= r < |grid| && 0 <= c < |grid[r]|
  {
    grid[r := grid[r][c := grid[r][c].(color := colour)]]
  }

  /** The board after the first `j` cells of island row `i` have been painted
      over row m + i, from column m on. */
  function SeededRow(grid: Grid, m: int, i: int, j: nat): (s: Grid)
    requires Square(grid) && 0 <= m && m + |Island| <= |grid|
    requires 0 <= i < |Island| && j <= |Island|
    ensures |s| == |grid| && Square(s)
  {
    if j == 0 then grid
    else Paint(SeededRow(grid, m, i, j - 1), m + i, m + j - 1, Island[i][j - 1])
  }

  /** The board after the first `i` rows of the island have been painted over the
      cells from (m, m). */
  function Seeded(grid: Grid, m: int, i: nat): (s: Grid)
    requires Square(grid) && 0 <= m && m + |Island| <= |grid|
    requires i <= |Island|
    ensures |s| == |grid| && Square(s)
  {
    if i == 0 then grid
    else SeededRow(Seeded(grid, m, i - 1), m, i - 1, |Island|)
  }

  /** Painting part of one island row sets exactly those cells to the island's
      colours and moves no tile. */
  lemma {:induction false} SeededRowCell(grid: Grid, m: int, i: int, j: nat, r: int, c: int)
    requires Square(grid) && 0 <= m && m + |Island| <= |grid|
    requires 0 <= i < |Island| && j <= |Island|
    requires 0 <= r < |grid| && 0 <= c < |grid|
    ensures SeededRow(grid, m, i, j)[r][c].x == grid[r][c].x
    ensures SeededRow(grid, m, i, j)[r][c].y == grid[r][c].y
    ensures r == m + i && m <= c < m + j ==> SeededRow(grid, m, i, j)[r][c].color == Island[i][c - m]
    ensures !(r == m + i && m <= c < m + j) ==> SeededRow(grid, m, i, j)[r][c].color == grid[r][c].color
  {
    if j > 0 {
      SeededRowCell(grid, m, i, j - 1, r, c);
    }
  }

  /** After `i` island rows are painted, a cell under one of them has that island
      cell's colour, every other cell keeps its colour, and no tile moves. */
  lemma {:induction false} SeededCell(grid: Grid, m: int, i: nat, r: int, c: int)
    requires Square(grid) && 0 <= m && m + |Island| <= |grid|
    requires i <= |Island|
    requires 0 <= r < |grid| && 0 <= c < |grid|
    ensures Seeded(grid, m, i)[r][c].x == grid[r][c].x
    ensures Seeded(grid, m, i)[r][c].y == grid[r][c].y
    ensures UnderIsland(m, r, c) && r < m + i ==> Seeded(grid, m, i)[r][c].color == Island[r - m][c - m]
    ensures !(UnderIsland(m, r, c) && r < m + i) ==> Seeded(grid, m, i)[r][c].color == grid[r][c].color
  {
    if i > 0 {
      SeededCell(grid, m, i - 1, r, c);
      SeededRowCell(Seeded(grid, m, i - 1), m, i - 1, |Island|, r, c);
    }
  }

  /** Seeding a placed board at (m, m) moves no tile, gives the cells under the
      island the island's colours, and leaves every other colour. */
  lemma SeedingEffect(grid: Grid, m: int)
    requires Placed(grid) && 0 <= m && m + |Island| <= |grid|
    ensures Placed(Seeded(grid, m, |Island|))
    ensures forall r, c :: 0 <= r < |grid| && 0 <= c < |grid| ==>
      Seeded(grid, m, |Island|)[r][c].x == grid[r][c].x && Seeded(grid, m, |Island|)[r][c].y == grid[r][c].y
    ensures forall r, c :: 0 <= r < |grid| && 0 <= c < |grid| && !UnderIsland(m, r, c) ==>
      Seeded(grid, m, |Island|)[r][c].color == grid[r][c].color
    ensures forall r, c :: 0 <= r < |Island| && 0 <= c < |Island| ==>
      Seeded(grid, m, |Island|)[m + r][m + c].color == Island[r][c]
  {
    var s: Grid := Seeded(grid, m, |Island|);
    forall r: int, c: int | 0 <= r < |grid| && 0 <= c < |grid|
      ensures s[r][c].x == grid[r][c].x && s[r][c].y == grid[r][c].y
      ensures !UnderIsland(m, r, c) ==> s[r][c].color == grid[r][c].color
    {
      SeededCell(grid, m, |Island|, r, c);
    }
    forall r: int, c: int | 0 <= r < |Island| && 0 <= c < |Island|
      ensures s[m + r][m + c].color == Island[r][c]
    {
      SeededCell(grid, m, |Island|, m + r, m + c);
    }
  }

  /** One random draw for every cell of an `n` by `n` board. */
  predicate DrawsFit(draws: seq<seq<real>>, n: int) {
    |draws| == n && forall r :: 0 <= r < n ==> |draws[r]| == n
  }

  /** The board after one pass of `rule`: each cell is a copy of the old cell with
      the colour the rule gives it, every rule reading the old board. */
  function Applied(rule: Rule, grid: Grid, draws: seq<seq<real>>): (next: Grid)
    requires Square(grid) && DrawsFit(draws, |grid|)
    ensures |next| == |grid| && Square(next)
    ensures Placed(grid) ==> Placed(next)
  {
    seq(|grid|, r requires 0 <= r < |grid| =>
      seq(|grid|, c requires 0 <= c < |grid| =>
        grid[r][c].(color := RuleColour(rule, grid, grid[r][c], draws[r][c]))))
  }

  /** A shoreline pass keeps every ocean tile ocean, changes nothing but to ocean,
      leaves the edge of the board alone, and turns an interior tile to ocean
      exactly when it was ocean or had ocean on both sides along a line. */
  lemma ShorelinePass(grid: Grid, draws: seq<seq<real>>, r: int, c: int)
    requires Placed(grid) && DrawsFit(draws, |grid|)
    requires 0 <= r < |grid| && 0 <= c < |grid|
    ensures grid[r][c].color == Ocean ==> Applied(Shoreline, grid, draws)[r][c].color == Ocean
    ensures Applied(Shoreline, grid, draws)[r][c] != grid[r][c] ==>
      Applied(Shoreline, grid, draws)[r][c].color == Ocean
    ensures !(0 < r < |grid| - 1 && 0 < c < |grid| - 1) ==> Applied(Shoreline, grid, draws)[r][c] == grid[r][c]
    ensures 0 < r < |grid| - 1 && 0 < c < |grid| - 1 ==>
      (Applied(Shoreline, grid, draws)[r][c].color == Ocean <==>
        grid[r][c].color == Ocean || OceanAcross(grid, r, c))
  {
    ShorelineOnBoard(grid, r, c);
  }

  /** A grow pass leaves no tile uncoloured: every tile is grass or ocean. */
  lemma GrowPass(chances: Learner.Chances, grid: Grid, draws: seq<seq<real>>, r: int, c: int)
    requires Square(grid) && DrawsFit(draws, |grid|)
    requires 0 <= r < |grid| && 0 <= c < |grid|
    ensures Applied(Grow(chances), grid, draws)[r][c].color == Grass
      || Applied(Grow(chances), grid, draws)[r][c].color == Ocean
  {
  }

  /** A grass-growing pass keeps grass, paints every cell whose draw clears the
      bar, and leaves every other cell as it was. */
  lemma GrowGrassPass(grid: Grid, draws: seq<seq<real>>, r: int, c: int)
    requires Square(grid) && DrawsFit(draws, |grid|)
    requires 0 <= r < |grid| && 0 <= c < |grid|
    ensures grid[r][c].color == Grass ==> Applied(GrowGrass, grid, draws)[r][c].color == Grass
    ensures draws[r][c] > PaintBar ==> Applied(GrowGrass, grid, draws)[r][c].color == Grass
    ensures draws[r][c] <= PaintBar ==> Applied(GrowGrass, grid, draws)[r][c] == grid[r][c]
  {
  }

  /** An ocean-creating pass turns the whole board to ocean. */
  lemma CreateOceanPass(grid: Grid, draws: seq<seq<real>>, r: int, c: int)
    requires Square(grid) && DrawsFit(draws, |grid|)
    requires 0 <= r < |grid| && 0 <= c < |grid|
    ensures Applied(CreateOcean, grid, draws)[r][c].color == Ocean
    ensures Applied(CreateOcean, grid, draws)[r][c].x == grid[r][c].x
    ensures Applied(CreateOcean, grid, draws)[r][c].y == grid[r][c].y
  {
  }

  /** The draw the rule makes at `tile`: the draw of the tile's own cell, read
      back from its pixel position (0 for a position off the draws). */
  function DrawAt(draws: seq<seq<real>>, tile: Tile): real {
    var r, c := tile.y / TileSize, tile.x / TileSize;
    if 0 <= r < |draws| && 0 <= c < |draws[r]| then draws[r][c] else 0.0
  }

  /** The tile function of a rule pass: a copy of `tile`, kept at its position,
      with the colour `rule` gives it on the old board `grid`. */
  function RuleTile(rule: Rule, grid: Grid, draws: seq<seq<real>>, tile: Tile): (t: Tile)
    requires Square(grid)
    ensures t.x == tile.x && t.y == tile.y
  {
    tile.(color := RuleColour(rule, grid, tile, DrawAt(draws, tile)))
  }

  /** The board made of `grid` by `fnc`, tile by tile, row by row. */
  function MapTiles(fnc: Tile -> Tile, grid: Grid): (next: Grid)
    ensures |next| == |grid|
    ensures forall r :: 0 <= r < |grid| ==> |next[r]| == |grid[r]|
  {
    seq(|grid|, r requires 0 <= r < |grid| =>
      seq(|grid[r]|, c requires 0 <= c < |grid[r]| => fnc(grid[r][c])))
  }

  /** A tile function that keeps every tile's position keeps the board placed. */
  lemma MapTilesPlaced(fnc: Tile -> Tile, grid: Grid)
    requires Placed(grid)
    requires forall t :: fnc(t).x == t.x && fnc(t).y == t.y
    ensures Placed(MapTiles(fnc, grid))
    ensures forall r, c :: 0 <= r < |grid| && 0 <= c < |grid| ==> MapTiles(fnc, grid)[r][c] == fnc(grid[r][c])
  {
  }

  /** Mapping the rule's tile function over a placed board is the pass of the
      rule: every tile's draw is the draw of its own cell. */
  lemma RulePassIsApplied(rule: Rule, grid: Grid, draws: seq<seq<real>>, fnc: Tile -> Tile)
    requires Placed(grid) && DrawsFit(draws, |grid|)
    requires forall t :: fnc(t) == RuleTile(rule, grid, draws, t)
    ensures MapTiles(fnc, grid) == Applied(rule, grid, draws)
  {
    var next, pass := MapTiles(fnc, grid), Applied(rule, grid, draws);
    forall r | 0 <= r < |grid|
      ensures next[r] == pass[r]
    {
      forall c | 0 <= c < |grid|
        ensures next[r][c] == pass[r][c]
      {
        PlacedTile(grid, r, c);
        assert DrawAt(draws, grid[r][c]) == draws[r][c];
      }
    }
  }

  /** Builds one row of the next board: `fnc` of each tile of `line`, in order. */
  method BuildRow(fnc: Tile -> Tile, line: seq<Tile>) returns (newRow: seq<Tile>)
    ensures |newRow| == |line|
    ensures forall c :: 0 <= c < |line| ==> newRow[c] == fnc(line[c])
  {
    newRow := [];
    var column := 0;
    while column < |line|
      invariant 0 <= column <= |line| && |newRow| == column
      invariant forall c :: 0 <= c < column ==> newRow[c] == fnc(line[c])
    {
      newRow := newRow + [fnc(line[column])];
      column := column + 1;
    }
  }

  /** The program's board: GridSize rows of GridSize tiles, each placed at its
      own row and column. */
  class TileWorld {
    var tiles: Grid

    predicate Valid()
      reads this
    {
      |tiles| == GridSize && Placed(tiles)
    }

    /** Builds the blank board row by row, each tile placed and uncoloured. */
    constructor ()
      ensures Valid()
      ensures forall r, c :: 0 <= r < GridSize && 0 <= c < GridSize ==> tiles[r][c].color == NoColour
    {
      var grid: Grid := [];
      var row := 0;
      while row < CanvasSize / TileSize
        invariant 0 <= row <= GridSize
        invariant |grid| == row
        invariant forall r :: 0 <= r < row ==> |grid[r]| == GridSize
        invariant forall r, c :: 0 <= r < row && 0 <= c < GridSize ==>
          grid[r][c] == Tile(c * TileSize, r * TileSize, NoColour)
      {
        var currentRow: seq<Tile> := [];
        var column := 0;
        while column < CanvasSize / TileSize
          invariant 0 <= column <= GridSize
          invariant |currentRow| == column
          invariant forall c :: 0 <= c < column ==> currentRow[c] == Tile(c * TileSize, row * TileSize, NoColour)
        {
          currentRow := currentRow + [Tile(column * TileSize, row * TileSize, NoColour)];
          column := column + 1;
        }
        grid := grid + [currentRow];
        row := row + 1;
      }
      tiles := grid;
    }

    /** Paints island row `row` over board row middle + row, from column middle
        on, tile by tile in place. */
    method PaintIslandRow(middle: int, row: int)
      requires Square(tiles) && 0 <= middle && middle + |Island| <= |tiles|
      requires 0 <= row < |Island|
      modifies this
      ensures tiles == SeededRow(old(tiles), middle, row, |Island|)
    {
      ghost var start := tiles;
      for column := 0 to |Island|
        invariant Square(tiles) && |tiles| == |start|
        invariant tiles == SeededRow(start, middle, row, column)
      {
        var line := tiles[middle + row];
        tiles := tiles[middle + row := line[middle + column := line[middle + column].(color := Island[row][column])]];
      }
    }

    /** Paints the island over the middle of the board, row by row in place;
        SeedingEffect says what that does to each tile. */
    method SeedIsland()
      requires Valid()
      modifies this
      ensures Valid()
      ensures tiles == Seeded(old(tiles), Middle(GridSize), |Island|)
    {
      var middle := HalfRounded(|tiles|) - HalfRounded(|Island|);
      ghost var start := tiles;
      for row := 0 to |Island|
        invariant Square(tiles) && |tiles| == |start| && 0 <= middle && middle + |Island| <= |tiles|
        invariant tiles == Seeded(start, middle, row)
      {
        PaintIslandRow(middle, row);
      }
      assert middle == Middle(GridSize);
      SeedingEffect(start, middle);
    }

    /** Builds a new board row by row, `fnc` of each tile of the current board,
        and makes it the current board only when `reassign` is set. */
    method IterateTiles(fnc: Tile -> Tile, reassign: bool)
      requires Valid()
      requires reassign ==> forall t :: fnc(t).x == t.x && fnc(t).y == t.y
      modifies this
      ensures Valid()
      ensures tiles == if reassign then MapTiles(fnc, old(tiles)) else old(tiles)
    {
      var grid := tiles;
      var newTiles: Grid := [];
      var row := 0;
      while row < |grid|
        invariant 0 <= row <= |grid| && tiles == grid
        invariant newTiles == MapTiles(fnc, grid)[..row]
      {
        var newRow := BuildRow(fnc, grid[row]);
        assert newRow == MapTiles(fnc, grid)[row];
        newTiles := newTiles + [newRow];
        row := row + 1;
      }
      assert newTiles == MapTiles(fnc, grid);
      if reassign {
        MapTilesPlaced(fnc, grid);
        tiles := newTiles;
      }
    }

    /** Replaces the board by one pass of `rule` over it: every tile is copied
        with the colour the rule gives it on the board before the pass. */
    method ApplyRule(rule: Rule, draws: seq<seq<real>>)
      requires Valid() && DrawsFit(draws, GridSize)
      modifies this
      ensures Valid()
      ensures tiles == Applied(rule, old(tiles), draws)
    {
      var grid := tiles;
      var fnc: Tile -> Tile := tile => RuleTile(rule, grid, draws, tile);
      IterateTiles(fnc, true);
      RulePassIsApplied(rule, grid, draws, fnc);
    }
  }
}
