/** The rules: each maps a tile of the current board, and the random draw made
    for it, to the tile's next colour. */
module Rules {
  import opened Tiles
  import opened Neighbourhood
  import opened Learner

  /** The bar a draw must clear for the two random rules to paint a tile. */
  const PaintBar: real := 0.6

  /** A value Math.random can return. */
  predicate IsDraw(draw: real) {
    0.0 <= draw < 1.0
  }

  // ---------------------------------------------------------------------
  // createShoreline

  /** Ocean on both sides of the tile along one of the four lines through it:
      left and right, above and below, or either diagonal. */
  predicate OceanAcross(grid: Grid, r: int, c: int)
    requires Square(grid) && 0 < r < |grid| - 1 && 0 < c < |grid| - 1
  {
    || (grid[r][c - 1].color == Ocean && grid[r][c + 1].color == Ocean)
    || (grid[r - 1][c].color == Ocean && grid[r + 1][c].color == Ocean)
    || (grid[r - 1][c - 1].color == Ocean && grid[r + 1][c + 1].color == Ocean)
    || (grid[r - 1][c + 1].color == Ocean && grid[r + 1][c - 1].color == Ocean)
  }

  /** Some opposite pair of neighbour slots is ocean on both sides: left and
      right (3, 4), above and below (1, 6), or either diagonal (0, 7), (2, 5). */
  predicate OppositeOcean(n: seq<Tile>)
    requires |n| >= 8
  {
    || (n[3].color == Ocean && n[4].color == Ocean)
    || (n[1].color == Ocean && n[6].color == Ocean)
    || (n[0].color == Ocean && n[7].color == Ocean)
    || (n[2].color == Ocean && n[5].color == Ocean)
  }

  /** The shoreline rule: a tile with fewer than eight neighbours keeps its colour;
      otherwise it turns to ocean when an opposite pair of neighbour slots is ocean. */
  function ShorelineColour(grid: Grid, tile: Tile): (c: Colour)
    requires Square(grid)
    ensures c == Ocean || c == tile.color
  {
    var n := Neighbours(grid, tile);
    if |n| < 8 then tile.color
    else if OppositeOcean(n) then Ocean
    else tile.color
  }

  /** The pair test on the eight tiles around a cell, slot by slot. */
  lemma OppositeOceanOfEight(tl: Tile, t: Tile, tr: Tile, l: Tile, rt: Tile, bl: Tile, b: Tile, br: Tile)
    ensures OppositeOcean([tl, t, tr, l, rt, bl, b, br]) <==>
      || (l.color == Ocean && rt.color == Ocean)
      || (t.color == Ocean && b.color == Ocean)
      || (tl.color == Ocean && br.color == Ocean)
      || (tr.color == Ocean && bl.color == Ocean)
  {
    var n := [tl, t, tr, l, rt, bl, b, br];
    assert n[0] == tl && n[1] == t && n[2] == tr && n[3] == l;
    assert n[4] == rt && n[5] == bl && n[6] == b && n[7] == br;
  }

  /** An interior tile becomes ocean exactly when it is ocean already or has ocean
      on both sides along a line through it. */
  lemma ShorelineInterior(grid: Grid, r: int, c: int)
    requires Placed(grid) && 0 < r < |grid| - 1 && 0 < c < |grid| - 1
    ensures ShorelineColour(grid, grid[r][c]) == Ocean <==> grid[r][c].color == Ocean || OceanAcross(grid, r, c)
  {
    InteriorNeighbours(grid, r, c);
    OppositeOceanOfEight(grid[r - 1][c - 1], grid[r - 1][c], grid[r - 1][c + 1], grid[r][c - 1],
      grid[r][c + 1], grid[r + 1][c - 1], grid[r + 1][c], grid[r + 1][c + 1]);
  }

  /** On a board, the shoreline rule leaves every edge tile alone and turns an
      interior tile to ocean exactly when it is ocean already or has ocean on
      both sides along a line through it. */
  lemma ShorelineOnBoard(grid: Grid, r: int, c: int)
    requires Placed(grid) && 0 <= r < |grid| && 0 <= c < |grid|
    ensures !(0 < r < |grid| - 1 && 0 < c < |grid| - 1) ==>
      ShorelineColour(grid, grid[r][c]) == grid[r][c].color
    ensures 0 < r < |grid| - 1 && 0 < c < |grid| - 1 ==>
      (ShorelineColour(grid, grid[r][c]) == Ocean <==> grid[r][c].color == Ocean || OceanAcross(grid, r, c))
  {
    if 0 < r < |grid| - 1 && 0 < c < |grid| - 1 {
      ShorelineInterior(grid, r, c);
    } else {
      NeighbourCount(grid, r, c);
    }
  }

  // ---------------------------------------------------------------------
  // grow

  /** The key `grass:<#grass neighbours>` of a tile. */
  function GrassKey(grid: Grid, tile: Tile): Key
    requires Square(grid)
  {
    Key(Grass, Count(Neighbours(grid, tile), Grass))
  }

  /** The key `ocean:<#ocean neighbours>` of a tile. */
  function OceanKey(grid: Grid, tile: Tile): Key
    requires Square(grid)
  {
    Key(Ocean, Count(Neighbours(grid, tile), Ocean))
  }

  /** The lookup `chances[key]` is truthy: present and not zero. */
  predicate Truthy(chances: Chances, key: Key) {
    key in chances && chances[key] != 0.0
  }

  /** The grow rule: ocean when the grass key has no usable chance, grass when the
      ocean key has none, otherwise ocean exactly when the draw lands in the top
      part of [0, 1) whose width is the grass key's chance. */
  function GrowColour(chances: Chances, grid: Grid, tile: Tile, draw: real): (c: Colour)
    requires Square(grid)
    ensures c == Grass || c == Ocean
    ensures !Truthy(chances, GrassKey(grid, tile)) ==> c == Ocean
    ensures Truthy(chances, GrassKey(grid, tile)) && !Truthy(chances, OceanKey(grid, tile)) ==> c == Grass
  {
    var forGrass := GrassKey(grid, tile);
    var forOcean := OceanKey(grid, tile);
    if !Truthy(chances, forGrass) then Ocean
    else if !Truthy(chances, forOcean) then Grass
    else if draw > 1.0 - chances[forGrass] then Ocean
    else Grass
  }

  /** A larger draw never turns an ocean outcome of grow into grass. */
  lemma GrowMonotone(chances: Chances, grid: Grid, tile: Tile, low: real, high: real)
    requires Square(grid)
    requires low <= high
    ensures GrowColour(chances, grid, tile, low) == Ocean ==> GrowColour(chances, grid, tile, high) == Ocean
  {
  }

  /** When both keys are usable, grow gives ocean for exactly the draws above one
      minus the grass chance. For a chance p in [0, 1] the ocean draws in [0, 1)
      are the interval (1 - p, 1), whose width is p; a chance of one makes every
      positive draw ocean. */
  lemma GrowThreshold(chances: Chances, grid: Grid, tile: Tile, draw: real)
    requires Square(grid)
    requires Truthy(chances, GrassKey(grid, tile)) && Truthy(chances, OceanKey(grid, tile))
    ensures GrowColour(chances, grid, tile, draw) == Ocean <==> draw > 1.0 - chances[GrassKey(grid, tile)]
    ensures GrowColour(chances, grid, tile, draw) == Grass <==> draw <= 1.0 - chances[GrassKey(grid, tile)]
    ensures 0.0 <= chances[GrassKey(grid, tile)] <= 1.0 ==>
      (IsDraw(draw) && GrowColour(chances, grid, tile, draw) == Ocean
       <==> 1.0 - chances[GrassKey(grid, tile)] < draw < 1.0)
    ensures chances[GrassKey(grid, tile)] == 1.0 ==> (GrowColour(chances, grid, tile, draw) == Ocean <==> draw > 0.0)
  {
  }

  /** Grow looks a tile up under the very keys the learner files it under: its
      grass key and its ocean key are the two keys it is observed under when it
      is not skipped. */
  lemma GrowKeysAreObservedKeys(grid: Grid, tile: Tile)
    requires Square(grid)
    ensures !Skipped(SampleOf(grid, tile)) ==>
      Observes(SampleOf(grid, tile), GrassKey(grid, tile)) && Observes(SampleOf(grid, tile), OceanKey(grid, tile))
    ensures GrassKey(grid, tile).colour == Grass && OceanKey(grid, tile).colour == Ocean
  {
  }

  /** A learned chance is truthy exactly when the board it was learned from holds
      a positive observation under its key. */
  lemma {:induction false} LearnedTruthy(learned: Grid, chances: Chances, key: Key)
    requires Square(learned)
    requires chances == ChancesOf(Tally(BoardSamples(learned)))
    ensures Truthy(chances, key) <==> BoardObservations(learned, key, true) > 0
  {
    TallyCounts(BoardSamples(learned), key);
  }

  /** Grow with chances learned from a board: a tile whose grass count never went
      with a grass tile there becomes ocean; one whose grass count did, but whose
      ocean count never went with an ocean tile, becomes grass. */
  lemma GrowWithLearned(learned: Grid, chances: Chances, grid: Grid, tile: Tile, draw: real)
    requires Square(learned) && Square(grid)
    requires chances == ChancesOf(Tally(BoardSamples(learned)))
    ensures BoardObservations(learned, GrassKey(grid, tile), true) == 0 ==>
      GrowColour(chances, grid, tile, draw) == Ocean
    ensures (BoardObservations(learned, GrassKey(grid, tile), true) > 0
             && BoardObservations(learned, OceanKey(grid, tile), true) == 0) ==>
      GrowColour(chances, grid, tile, draw) == Grass
  {
    LearnedTruthy(learned, chances, GrassKey(grid, tile));
    LearnedTruthy(learned, chances, OceanKey(grid, tile));
  }

  // ---------------------------------------------------------------------
  // All rules

  /** The rules of the program; Grow carries the chances it was built with. */
  datatype Rule = GrowGrass | RandomCreateOcean | CreateOcean | Grow(chances: Chances) | Shoreline

  /** The next colour of `tile` under `rule`, reading the board `grid` and using
      `draw` as the rule's random number. */
  function RuleColour(rule: Rule, grid: Grid, tile: Tile, draw: real): (c: Colour)
    requires Square(grid)
    ensures rule == GrowGrass ==> (c == Grass <==> draw > PaintBar || tile.color == Grass)
    ensures rule == GrowGrass ==> (c == tile.color || c == Grass)
    ensures rule == RandomCreateOcean ==> (c == Ocean <==> draw > PaintBar || tile.color == Ocean)
    ensures rule == RandomCreateOcean ==> (c == tile.color || c == Ocean)
    ensures rule == CreateOcean ==> c == Ocean
    ensures rule.Grow? ==> c == GrowColour(rule.chances, grid, tile, draw)
    ensures rule == Shoreline ==> c == ShorelineColour(grid, tile)
    ensures c == NoColour ==> tile.color == NoColour
  {
    match rule
    case GrowGrass => if draw > PaintBar then Grass else tile.color
    case RandomCreateOcean => if draw > PaintBar then Ocean else tile.color
    case CreateOcean => Ocean
    case Grow(chances) => GrowColour(chances, grid, tile, draw)
    case Shoreline => ShorelineColour(grid, tile)
  }
}
