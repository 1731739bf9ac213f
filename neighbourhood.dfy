/** The eight-neighbourhood of a tile, with out-of-range neighbours dropped. */
module Neighbourhood {
  import opened Tiles

  /** An offset from the centre tile: dx along the row, dy down the rows. */
  datatype Delta = Delta(dx: int, dy: int)

  /** A cell of the board by row and column index. */
  datatype Position = Position(row: int, col: int)

  /** The eight offsets in the order they are visited: the row above left to
      right, then left and right of the centre, then the row below. The
      centre itself is a hole in the list and is never visited. */
  const Deltas: seq<Delta> := [
    Delta(-1, -1), Delta(0, -1), Delta(1, -1),
    Delta(-1, 0), /* centre */   Delta(1, 0),
    Delta(-1, 1), Delta(0, 1), Delta(1, 1)
  ]

  /** The bounds test: both indices are compared with the number of rows,
      which is right only because the board is square. */
  predicate OnGrid(n: int, p: Position) {
    0 <= p.col <= n - 1 && 0 <= p.row <= n - 1
  }

  function Shift(centre: Position, d: Delta): Position {
    Position(centre.row + d.dy, centre.col + d.dx)
  }

  /** `[p]` when `p` is on the board, nothing otherwise: no padding. */
  function Keep(n: int, p: Position): seq<Position> {
    if OnGrid(n, p) then [p] else []
  }

  /** The on-board positions among the first `k` offsets, in visiting order. */
  function PositionsUpTo(n: int, centre: Position, k: nat): (ps: seq<Position>)
    requires k <= |Deltas|
    ensures |ps| <= k
    ensures forall i :: 0 <= i < |ps| ==> OnGrid(n, ps[i])
  {
    if k == 0 then []
    else PositionsUpTo(n, centre, k - 1) + Keep(n, Shift(centre, Deltas[k - 1]))
  }

  /** The on-board positions around `centre`, in visiting order. */
  function Positions(n: int, centre: Position): (ps: seq<Position>)
    ensures |ps| <= 8
    ensures forall i :: 0 <= i < |ps| ==> OnGrid(n, ps[i])
  {
    PositionsUpTo(n, centre, |Deltas|)
  }

  /** The tiles at the given positions, in the same order. */
  function TilesAt(grid: Grid, ps: seq<Position>): (ts: seq<Tile>)
    requires Square(grid)
    requires forall i :: 0 <= i < |ps| ==> OnGrid(|grid|, ps[i])
    ensures |ts| == |ps|
  {
    seq(|ps|, i requires 0 <= i < |ps| && OnGrid(|grid|, ps[i]) => grid[ps[i].row][ps[i].col])
  }

  /** Looking up two runs of positions is looking up their concatenation. */
  lemma TilesAtAppend(grid: Grid, ps: seq<Position>, qs: seq<Position>)
    requires Square(grid)
    requires forall i :: 0 <= i < |ps| ==> OnGrid(|grid|, ps[i])
    requires forall i :: 0 <= i < |qs| ==> OnGrid(|grid|, qs[i])
    ensures TilesAt(grid, ps + qs) == TilesAt(grid, ps) + TilesAt(grid, qs)
  {
  }

  /** The centre's pixel position names a tile of the board: its coordinates
      divided by TileSize are whole row and column indices on the board. */
  predicate OnBoard(grid: Grid, centre: Tile) {
    && centre.x >= 0 && centre.x % TileSize == 0 && centre.x / TileSize < |grid|
    && centre.y >= 0 && centre.y % TileSize == 0 && centre.y / TileSize < |grid|
  }

  /** The neighbours of `centre` on `grid`. The centre's row and column are its
      pixel position divided by TileSize; a centre that names no tile of the
      board has no neighbours. */
  function Neighbours(grid: Grid, centre: Tile): (ns: seq<Tile>)
    requires Square(grid)
    ensures |ns| <= 8
  {
    if OnBoard(grid, centre) then
      TilesAt(grid, Positions(|grid|, Position(centre.y / TileSize, centre.x / TileSize)))
    else []
  }

  /** Visiting one more offset pushes the tile there when it is on the board
      and nothing otherwise. */
  lemma TilesAtStep(grid: Grid, centre: Position, i: nat)
    requires Square(grid) && i < |Deltas|
    ensures OnGrid(|grid|, Shift(centre, Deltas[i])) ==>
      TilesAt(grid, PositionsUpTo(|grid|, centre, i + 1))
        == TilesAt(grid, PositionsUpTo(|grid|, centre, i)) + [grid[centre.row + Deltas[i].dy][centre.col + Deltas[i].dx]]
    ensures !OnGrid(|grid|, Shift(centre, Deltas[i])) ==>
      TilesAt(grid, PositionsUpTo(|grid|, centre, i + 1)) == TilesAt(grid, PositionsUpTo(|grid|, centre, i))
  {
    var p := Shift(centre, Deltas[i]);
    TilesAtAppend(grid, PositionsUpTo(|grid|, centre, i), Keep(|grid|, p));
    if OnGrid(|grid|, p) {
      assert TilesAt(grid, Keep(|grid|, p)) == [grid[p.row][p.col]];
    } else {
      assert Keep(|grid|, p) == [];
    }
  }

  /** One pass of the extraction loop, stated in the loop's own terms: pushing
      the tile at offset `i` when it is on the board extends the tiles at the
      first `i` positions to the tiles at the first `i + 1`. */
  lemma PushStep(grid: Grid, centre: Position, i: nat, delta: Delta, x: int, y: int,
                 before: seq<Tile>, after: seq<Tile>)
    requires Square(grid) && i < |Deltas| && delta == Deltas[i]
    requires x == centre.col + delta.dx && y == centre.row + delta.dy
    requires before == TilesAt(grid, PositionsUpTo(|grid|, centre, i))
    requires after == if 0 <= x <= |grid| - 1 && 0 <= y <= |grid| - 1 then before + [grid[y][x]] else before
    ensures after == TilesAt(grid, PositionsUpTo(|grid|, centre, i + 1))
  {
    TilesAtStep(grid, centre, i);
    var p := Shift(centre, delta);
    assert p.row == y && p.col == x;
    if 0 <= x <= |grid| - 1 && 0 <= y <= |grid| - 1 {
      assert OnGrid(|grid|, p);
    } else {
      assert !OnGrid(|grid|, p);
    }
  }

  /** Imperative neighbour extraction: walks the offsets in order and pushes
      every on-board tile of the snapshot `grid`. */
  method GetNeighbours(grid: Grid, centre: Tile) returns (neighbours: seq<Tile>)
    requires Square(grid)
    ensures neighbours == Neighbours(grid, centre)
  {
    var row := centre.y / TileSize;
    var col := centre.x / TileSize;
    neighbours := [];
    if !OnBoard(grid, centre) {
      return;
    }
    var i := 0;
    while i < |Deltas|
      invariant 0 <= i <= |Deltas|
      invariant neighbours == TilesAt(grid, PositionsUpTo(|grid|, Position(row, col), i))
    {
      var delta := Deltas[i];
      var indexX := col + delta.dx;
      var indexY := row + delta.dy;
      ghost var before := neighbours;
      if 0 <= indexX <= |grid| - 1 && 0 <= indexY <= |grid| - 1 {
        neighbours := neighbours + [grid[indexY][indexX]];
      }
      PushStep(grid, Position(row, col), i, delta, indexX, indexY, before, neighbours);
      i := i + 1;
    }
  }

  // ---------------------------------------------------------------------
  // Properties of the visited positions

  /** Position `p` lies in the 3 x 3 square around `centre`. */
  predicate Adjacent(centre: Position, p: Position) {
    -1 <= p.row - centre.row <= 1 && -1 <= p.col - centre.col <= 1
  }

  /** Row-major order: `p` comes strictly before `q`. */
  predicate Before(p: Position, q: Position) {
    p.row < q.row || (p.row == q.row && p.col < q.col)
  }

  /** The positions around `centre`, one possibly dropped offset after another. */
  lemma PositionsSpelled(n: int, centre: Position)
    ensures Positions(n, centre) ==
      Keep(n, Shift(centre, Deltas[0])) + Keep(n, Shift(centre, Deltas[1])) +
      Keep(n, Shift(centre, Deltas[2])) + Keep(n, Shift(centre, Deltas[3])) +
      Keep(n, Shift(centre, Deltas[4])) + Keep(n, Shift(centre, Deltas[5])) +
      Keep(n, Shift(centre, Deltas[6])) + Keep(n, Shift(centre, Deltas[7]))
  {
    var k := i requires 0 <= i < |Deltas| => Keep(n, Shift(centre, Deltas[i]));
    assert PositionsUpTo(n, centre, 1) == k(0);
    assert PositionsUpTo(n, centre, 2) == k(0) + k(1);
    assert PositionsUpTo(n, centre, 3) == k(0) + k(1) + k(2);
    assert PositionsUpTo(n, centre, 4) == k(0) + k(1) + k(2) + k(3);
    assert PositionsUpTo(n, centre, 5) == k(0) + k(1) + k(2) + k(3) + k(4);
    assert PositionsUpTo(n, centre, 6) == k(0) + k(1) + k(2) + k(3) + k(4) + k(5);
    assert PositionsUpTo(n, centre, 7) == k(0) + k(1) + k(2) + k(3) + k(4) + k(5) + k(6);
  }

  /** Every visited position is on the board, next to the centre and not the centre. */
  lemma PositionsSound(n: int, centre: Position)
    ensures forall p :: p in Positions(n, centre) ==>
      OnGrid(n, p) && Adjacent(centre, p) && p != centre
  {
    PositionsUpToSound(n, centre, |Deltas|);
  }

  /** PositionsSound for the first `k` offsets. */
  lemma {:induction false} PositionsUpToSound(n: int, centre: Position, k: nat)
    requires k <= |Deltas|
    ensures forall p :: p in PositionsUpTo(n, centre, k) ==>
      OnGrid(n, p) && Adjacent(centre, p) && p != centre
  {
    if k > 0 {
      PositionsUpToSound(n, centre, k - 1);
      var d := Deltas[k - 1];
      assert -1 <= d.dx <= 1 && -1 <= d.dy <= 1 && d != Delta(0, 0);
      assert PositionsUpTo(n, centre, k) == PositionsUpTo(n, centre, k - 1) + Keep(n, Shift(centre, d));
    }
  }

  /** Every on-board position reached by one of the first `k` offsets is kept. */
  lemma {:induction false} PositionsUpToKeep(n: int, centre: Position, k: nat, j: nat)
    requires j < k <= |Deltas|
    requires OnGrid(n, Shift(centre, Deltas[j]))
    ensures Shift(centre, Deltas[j]) in PositionsUpTo(n, centre, k)
  {
    if j < k - 1 {
      PositionsUpToKeep(n, centre, k - 1, j);
    }
  }

  /** Nothing is dropped that lies on the board: every on-board position next to
      the centre, other than the centre, is visited. */
  lemma PositionsComplete(n: int, centre: Position, p: Position)
    requires OnGrid(n, p) && Adjacent(centre, p) && p != centre
    ensures p in Positions(n, centre)
  {
    var d := Delta(p.col - centre.col, p.row - centre.row);
    assert d in Deltas;
    var j :| 0 <= j < |Deltas| && Deltas[j] == d;
    assert Shift(centre, d) == p;
    PositionsUpToKeep(n, centre, |Deltas|, j);
  }

  /** The positions are visited in strictly increasing row-major order, so none repeats. */
  lemma PositionsOrdered(n: int, centre: Position)
    ensures forall i, j :: 0 <= i < j < |Positions(n, centre)| ==>
      Before(Positions(n, centre)[i], Positions(n, centre)[j])
  {
    PositionsRanked(n, centre, |Deltas|);
    PositionsSound(n, centre);
    var ps := Positions(n, centre);
    forall i, j | 0 <= i < j < |ps| ensures Before(ps[i], ps[j]) {
      assert ps[i] in ps && ps[j] in ps;
    }
  }

  /** Rank of a position inside the 3 x 3 square around `centre`, from -4 to 4. */
  function Rank(centre: Position, p: Position): int {
    3 * (p.row - centre.row) + (p.col - centre.col)
  }

  /** The first `k` offsets yield positions of strictly increasing rank, all
      below the rank of the next offset. */
  lemma {:induction false} PositionsRanked(n: int, centre: Position, k: nat)
    requires k <= |Deltas|
    ensures forall i, j :: 0 <= i < j < |PositionsUpTo(n, centre, k)| ==>
      Rank(centre, PositionsUpTo(n, centre, k)[i]) < Rank(centre, PositionsUpTo(n, centre, k)[j])
    ensures forall i :: 0 <= i < |PositionsUpTo(n, centre, k)| ==>
      Rank(centre, PositionsUpTo(n, centre, k)[i]) < RankBound(k)
  {
    if k > 0 {
      PositionsRanked(n, centre, k - 1);
      assert Rank(centre, Shift(centre, Deltas[k - 1])) == RankBound(k) - 1;
    }
  }

  /** One more than the rank of the `k`-th offset, or -4 before the first. */
  function RankBound(k: nat): int
    requires k <= |Deltas|
  {
    if k == 0 then -4 else 3 * Deltas[k - 1].dy + Deltas[k - 1].dx + 1
  }

  /** Number of rows (or columns) of the 3 x 3 square around index `i` that lie on the board. */
  function Span(n: int, i: int): int {
    (if i > 0 then 1 else 0) + 1 + (if i < n - 1 then 1 else 0)
  }

  /** 1 when the position reached by offset `i` is on the board, else 0. */
  function Kept(n: int, centre: Position, i: nat): int
    requires i < |Deltas|
  {
    if OnGrid(n, Shift(centre, Deltas[i])) then 1 else 0
  }

  lemma PositionsLength(n: int, centre: Position)
    ensures |Positions(n, centre)| ==
      Kept(n, centre, 0) + Kept(n, centre, 1) + Kept(n, centre, 2) + Kept(n, centre, 3) +
      Kept(n, centre, 4) + Kept(n, centre, 5) + Kept(n, centre, 6) + Kept(n, centre, 7)
  {
    PositionsSpelled(n, centre);
  }

  /** The number of neighbours: the on-board part of the 3 x 3 square, less the centre. */
  lemma PositionsCount(n: int, centre: Position)
    requires OnGrid(n, centre)
    ensures |Positions(n, centre)| == Span(n, centre.row) * Span(n, centre.col) - 1
  {
    PositionsLength(n, centre);
    // 1 when the row above, the row below, the column left and the column right are on the board
    var t := if centre.row > 0 then 1 else 0;
    var b := if centre.row < n - 1 then 1 else 0;
    var l := if centre.col > 0 then 1 else 0;
    var rt := if centre.col < n - 1 then 1 else 0;
    assert Kept(n, centre, 0) == t * l;
    assert Kept(n, centre, 1) == t;
    assert Kept(n, centre, 2) == t * rt;
    assert Kept(n, centre, 3) == l;
    assert Kept(n, centre, 4) == rt;
    assert Kept(n, centre, 5) == b * l;
    assert Kept(n, centre, 6) == b;
    assert Kept(n, centre, 7) == b * rt;
    assert Span(n, centre.row) == t + 1 + b;
    assert Span(n, centre.col) == l + 1 + rt;
    assert (t + 1 + b) * (l + 1 + rt) - 1 == t * l + t + t * rt + l + rt + b * l + b + b * rt;
  }

  /** An interior centre has all eight neighbours, top-left to bottom-right. */
  lemma InteriorPositions(n: int, centre: Position)
    requires 0 < centre.row < n - 1 && 0 < centre.col < n - 1
    ensures Positions(n, centre) == [
      Position(centre.row - 1, centre.col - 1), Position(centre.row - 1, centre.col), Position(centre.row - 1, centre.col + 1),
      Position(centre.row, centre.col - 1), Position(centre.row, centre.col + 1),
      Position(centre.row + 1, centre.col - 1), Position(centre.row + 1, centre.col), Position(centre.row + 1, centre.col + 1)
    ]
  {
    PositionsSpelled(n, centre);
  }

  // ---------------------------------------------------------------------
  // The same facts stated for tiles of a placed board

  /** On a placed board the neighbours of the tile at (r, c) are the tiles at the
      positions around (r, c). */
  lemma NeighboursOfPlaced(grid: Grid, r: int, c: int)
    requires Placed(grid) && 0 <= r < |grid| && 0 <= c < |grid|
    ensures Neighbours(grid, grid[r][c]) == TilesAt(grid, Positions(|grid|, Position(r, c)))
  {
    PlacedTile(grid, r, c);
  }

  /** An interior tile has exactly eight neighbours, in the order top-left, top,
      top-right, left, right, bottom-left, bottom, bottom-right. */
  lemma InteriorNeighbours(grid: Grid, r: int, c: int)
    requires Placed(grid) && 0 < r < |grid| - 1 && 0 < c < |grid| - 1
    ensures Neighbours(grid, grid[r][c]) == [
      grid[r - 1][c - 1], grid[r - 1][c], grid[r - 1][c + 1],
      grid[r][c - 1], grid[r][c + 1],
      grid[r + 1][c - 1], grid[r + 1][c], grid[r + 1][c + 1]
    ]
  {
    NeighboursOfPlaced(grid, r, c);
    InteriorPositions(|grid|, Position(r, c));
  }

  /** The on-board part of the 3 x 3 square around (r, c), less the centre, is
      eight cells exactly inside the board, three at a corner and five on any
      other edge cell. */
  lemma SpanProduct(n: int, r: int, c: int)
    requires 0 <= r < n && 0 <= c < n
    ensures Span(n, r) * Span(n, c) - 1 == 8 <==> 0 < r < n - 1 && 0 < c < n - 1
    ensures n >= 2 && (r == 0 || r == n - 1) && (c == 0 || c == n - 1) ==> Span(n, r) * Span(n, c) - 1 == 3
    ensures n >= 3 && (r == 0 || r == n - 1) && 0 < c < n - 1 ==> Span(n, r) * Span(n, c) - 1 == 5
    ensures n >= 3 && 0 < r < n - 1 && (c == 0 || c == n - 1) ==> Span(n, r) * Span(n, c) - 1 == 5
  {
    var sr, sc := Span(n, r), Span(n, c);
    if sr == 1 {
      assert sr * sc == sc;
    } else if sr == 2 {
      assert sr * sc == sc + sc;
    } else {
      assert sr * sc == sc + sc + sc;
    }
  }

  /** A tile has eight neighbours exactly when it is interior; a corner tile has
      three, any other edge tile five. */
  lemma NeighbourCount(grid: Grid, r: int, c: int)
    requires Placed(grid) && 0 <= r < |grid| && 0 <= c < |grid|
    ensures |Neighbours(grid, grid[r][c])| == 8 <==> 0 < r < |grid| - 1 && 0 < c < |grid| - 1
    ensures |grid| >= 2 && (r == 0 || r == |grid| - 1) && (c == 0 || c == |grid| - 1) ==>
      |Neighbours(grid, grid[r][c])| == 3
    ensures |grid| >= 3 && (r == 0 || r == |grid| - 1) && 0 < c < |grid| - 1 ==>
      |Neighbours(grid, grid[r][c])| == 5
    ensures |grid| >= 3 && 0 < r < |grid| - 1 && (c == 0 || c == |grid| - 1) ==>
      |Neighbours(grid, grid[r][c])| == 5
  {
    NeighboursOfPlaced(grid, r, c);
    PositionsCount(|grid|, Position(r, c));
    SpanProduct(|grid|, r, c);
  }

  /** No tile of a placed board is its own neighbour. */
  lemma NeighboursExcludeCentre(grid: Grid, r: int, c: int)
    requires Placed(grid) && 0 <= r < |grid| && 0 <= c < |grid|
    ensures grid[r][c] !in Neighbours(grid, grid[r][c])
  {
    NeighboursOfPlaced(grid, r, c);
    var ps := Positions(|grid|, Position(r, c));
    PositionsSound(|grid|, Position(r, c));
    forall i | 0 <= i < |ps| ensures TilesAt(grid, ps)[i] != grid[r][c] {
      assert ps[i] in ps;
    }
  }
}
