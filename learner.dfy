/** Learning chances from a board: every tile with enough coloured neighbours
    is an observation under the key `grass:<#grass neighbours>` and under the
    key `ocean:<#ocean neighbours>`, positive when the tile has that colour. */
module Learner {
  import opened Tiles
  import opened Neighbourhood

  /** A dictionary key `grass:k` (colour Grass) or `ocean:k` (colour Ocean). */
  datatype Key = Key(colour: Colour, count: nat)

  /** The `{ positive, negative }` record kept under a key. */
  datatype Counts = Counts(positive: nat, negative: nat)

  type Cases = map<Key, Counts>

  type Chances = map<Key, real>

  /** What the walk uses of one tile: the numbers of its neighbours that are
      uncoloured, grass and ocean, and its own colour. */
  datatype Sample = Sample(blank: nat, grass: nat, ocean: nat, colour: Colour)

  /** The sample of tile `t` on `grid`. */
  function SampleOf(grid: Grid, t: Tile): Sample
    requires Square(grid)
  {
    var ns := Neighbours(grid, t);
    Sample(Count(ns, NoColour), Count(ns, Grass), Count(ns, Ocean), t.color)
  }

  /** The samples of the tiles of `line`, in order. */
  function Samples(grid: Grid, line: seq<Tile>): (ss: seq<Sample>)
    requires Square(grid)
    ensures |ss| == |line|
  {
    seq(|line|, i requires 0 <= i < |line| => SampleOf(grid, line[i]))
  }

  /** A tile is left out of the statistics when more than 7 of its neighbours have no colour. */
  predicate Skipped(s: Sample) {
    s.blank > 7
  }

  /** The record under `key`, a missing one reading as no observations. */
  function Prior(cases: Cases, key: Key): Counts {
    if key in cases then cases[key] else Counts(0, 0)
  }

  /** One observation under `key`: a new record starts at one positive or one
      negative, an existing one has the matching counter incremented. */
  function Observe(cases: Cases, key: Key, hit: bool): Cases
  {
    if key in cases then
      if hit then cases[key := cases[key].(positive := cases[key].positive + 1)]
      else cases[key := cases[key].(negative := cases[key].negative + 1)]
    else
      cases[key := Counts(if hit then 1 else 0, if hit then 0 else 1)]
  }

  /** One observation under `key` puts `key` in the dictionary, adds one to its
      positive or its negative count, and leaves every other key as it was. */
  lemma ObserveEffect(cases: Cases, key: Key, hit: bool, other: Key)
    ensures other in Observe(cases, key, hit) <==> other in cases || other == key
    ensures other != key ==> Prior(Observe(cases, key, hit), other) == Prior(cases, other)
    ensures Prior(Observe(cases, key, hit), key) == Counts(
      Prior(cases, key).positive + (if hit then 1 else 0),
      Prior(cases, key).negative + (if hit then 0 else 1))
  {
  }

  /** What visiting a tile with sample `s` does to the dictionary. */
  function Record(cases: Cases, s: Sample): Cases {
    if Skipped(s) then cases
    else
      var withGrass := Observe(cases, Key(Grass, s.grass), s.colour == Grass);
      Observe(withGrass, Key(Ocean, s.ocean), s.colour == Ocean)
  }

  /** The dictionary after visiting the samples `ss` in order, starting from `cases`. */
  function TallyRow(cases: Cases, ss: seq<Sample>): Cases {
    if ss == [] then cases
    else Record(TallyRow(cases, ss[..|ss| - 1]), ss[|ss| - 1])
  }

  /** The samples of the board, row by row. */
  function BoardSamples(grid: Grid): (rows: seq<seq<Sample>>)
    requires Square(grid)
    ensures |rows| == |grid|
  {
    seq(|grid|, r requires 0 <= r < |grid| => Samples(grid, grid[r]))
  }

  /** The dictionary after visiting the rows of samples `rows` in order, starting empty. */
  function Tally(rows: seq<seq<Sample>>): Cases {
    if rows == [] then map[]
    else TallyRow(Tally(rows[..|rows| - 1]), rows[|rows| - 1])
  }

  // ---------------------------------------------------------------------
  // An independent account of the counts

  /** A tile with sample `s` is observed under `key`: it is not skipped, and the
      key is grass with its grass count or ocean with its ocean count. */
  predicate Observes(s: Sample, key: Key) {
    && !Skipped(s)
    && ((key.colour == Grass && key.count == s.grass) || (key.colour == Ocean && key.count == s.ocean))
  }

  /** The number of samples in `ss` observed under `key` whose own colour is the
      key's colour (`hit`) or is not (`!hit`). */
  function Observations(ss: seq<Sample>, key: Key, hit: bool): nat {
    if ss == [] then 0
    else
      var s := ss[|ss| - 1];
      Observations(ss[..|ss| - 1], key, hit) + (if Observes(s, key) && (s.colour == key.colour) == hit then 1 else 0)
  }

  /** The same number over rows of samples. */
  function RowsObservations(rows: seq<seq<Sample>>, key: Key, hit: bool): nat {
    if rows == [] then 0
    else RowsObservations(rows[..|rows| - 1], key, hit) + Observations(rows[|rows| - 1], key, hit)
  }

  /** The same number over the whole board. */
  function BoardObservations(grid: Grid, key: Key, hit: bool): nat
    requires Square(grid)
  {
    RowsObservations(BoardSamples(grid), key, hit)
  }

  /** A tile that is not skipped is observed under exactly two keys: the grass key
      of its grass-neighbour count and the ocean key of its ocean-neighbour count. */
  lemma ObservedUnderTwoKeys(grid: Grid, t: Tile, key: Key)
    requires Square(grid)
    requires !Skipped(SampleOf(grid, t))
    ensures Observes(SampleOf(grid, t), key) <==>
      key == Key(Grass, Count(Neighbours(grid, t), Grass)) || key == Key(Ocean, Count(Neighbours(grid, t), Ocean))
  {
  }

  /** Visiting one tile adds its observation under `key`, if any, to the record. */
  lemma RecordCounts(cases: Cases, s: Sample, key: Key)
    ensures key in Record(cases, s) <==> key in cases || Observes(s, key)
    ensures Prior(Record(cases, s), key) == Counts(
      Prior(cases, key).positive + (if Observes(s, key) && s.colour == key.colour then 1 else 0),
      Prior(cases, key).negative + (if Observes(s, key) && s.colour != key.colour then 1 else 0))
  {
    if !Skipped(s) {
      var forGrass, forOcean := Key(Grass, s.grass), Key(Ocean, s.ocean);
      var mid := Observe(cases, forGrass, s.colour == Grass);
      ObserveEffect(cases, forGrass, s.colour == Grass, key);
      ObserveEffect(mid, forOcean, s.colour == Ocean, key);
    }
  }

  /** Visiting a row adds its positive and negative observations under `key` to the record. */
  lemma {:induction false} TallyRowCounts(cases: Cases, ss: seq<Sample>, key: Key)
    ensures key in TallyRow(cases, ss) <==>
      key in cases || Observations(ss, key, true) + Observations(ss, key, false) > 0
    ensures Prior(TallyRow(cases, ss), key) == Counts(
      Prior(cases, key).positive + Observations(ss, key, true),
      Prior(cases, key).negative + Observations(ss, key, false))
  {
    if ss != [] {
      TallyRowCounts(cases, ss[..|ss| - 1], key);
      RecordCounts(TallyRow(cases, ss[..|ss| - 1]), ss[|ss| - 1], key);
    }
  }

  /** The dictionary holds a key exactly when some sample of the rows was
      observed under it, and its record is the number of positive and of negative
      observations. */
  lemma {:induction false} TallyCounts(rows: seq<seq<Sample>>, key: Key)
    ensures key in Tally(rows) <==>
      RowsObservations(rows, key, true) + RowsObservations(rows, key, false) > 0
    ensures Prior(Tally(rows), key) ==
      Counts(RowsObservations(rows, key, true), RowsObservations(rows, key, false))
  {
    if rows != [] {
      TallyCounts(rows[..|rows| - 1], key);
      TallyRowCounts(Tally(rows[..|rows| - 1]), rows[|rows| - 1], key);
    }
  }

  // ---------------------------------------------------------------------
  // Which tiles are skipped

  /** A tile is skipped exactly when it has all eight neighbours and none of them has a colour. */
  lemma SkippedMeansBlankSurroundings(grid: Grid, t: Tile)
    requires Square(grid)
    ensures Skipped(SampleOf(grid, t)) <==>
      |Neighbours(grid, t)| == 8 &&
      forall i :: 0 <= i < 8 ==> Neighbours(grid, t)[i].color == NoColour
  {
    CountAll(Neighbours(grid, t), NoColour);
  }

  /** A tile on the edge of the board is never skipped: it has at most five neighbours. */
  lemma BoundaryNeverSkipped(grid: Grid, r: int, c: int)
    requires Placed(grid) && 0 <= r < |grid| && 0 <= c < |grid|
    requires r == 0 || r == |grid| - 1 || c == 0 || c == |grid| - 1
    ensures !Skipped(SampleOf(grid, grid[r][c]))
  {
    NeighbourCount(grid, r, c);
  }

  // ---------------------------------------------------------------------
  // From counts to chances

  /** The chance recorded for a key: 0 with no positive observation, 1 with no
      negative one, otherwise positive over all observations. */
  function Chance(c: Counts): (p: real)
    ensures 0.0 <= p <= 1.0
    ensures p == 0.0 <==> c.positive == 0
    ensures c.positive + c.negative > 0 ==>
      p == c.positive as real / (c.positive + c.negative) as real
    ensures c.positive > 0 ==> (p == 1.0 <==> c.negative == 0)
  {
    if c.positive == 0 then 0.0
    else if c.negative == 0 then 1.0
    else c.positive as real / (c.positive + c.negative) as real
  }

  /** The chances dictionary: one entry per key of `cases`. */
  function ChancesOf(cases: Cases): (chances: Chances)
    ensures chances.Keys == cases.Keys
    ensures forall k :: k in chances ==> 0.0 <= chances[k] <= 1.0
  {
    map k | k in cases :: Chance(cases[k])
  }

  /** The visit of one tile: skip it, or add one observation under its grass
      key and one under its ocean key. */
  method VisitTile(grid: Grid, cases: Cases, tile: Tile) returns (next: Cases)
    requires Square(grid)
    ensures next == Record(cases, SampleOf(grid, tile))
  {
    next := cases;
    var n := GetNeighbours(grid, tile);
    if Count(n, NoColour) > 7 {
      // skipped: too few coloured neighbours
    } else {
      var forGrass := Key(Grass, Count(n, Grass));
      var forOcean := Key(Ocean, Count(n, Ocean));
      if forGrass in next {
        if tile.color == Grass {
          next := next[forGrass := next[forGrass].(positive := next[forGrass].positive + 1)];
        } else {
          next := next[forGrass := next[forGrass].(negative := next[forGrass].negative + 1)];
        }
      } else {
        next := next[forGrass := Counts(if tile.color == Grass then 1 else 0, if tile.color == Grass then 0 else 1)];
      }
      assert next == Observe(cases, forGrass, tile.color == Grass);
      ghost var mid := next;
      if forOcean in next {
        if tile.color == Ocean {
          next := next[forOcean := next[forOcean].(positive := next[forOcean].positive + 1)];
        } else {
          next := next[forOcean := next[forOcean].(negative := next[forOcean].negative + 1)];
        }
      } else {
        next := next[forOcean := Counts(if tile.color == Ocean then 1 else 0, if tile.color == Ocean then 0 else 1)];
      }
      assert next == Observe(mid, forOcean, tile.color == Ocean);
    }
  }

  /** Visiting one more sample of a row is one more fold step. */
  lemma TallyRowExtend(cases: Cases, ss: seq<Sample>, i: nat)
    requires i < |ss|
    ensures TallyRow(cases, ss[..i + 1]) == Record(TallyRow(cases, ss[..i]), ss[i])
  {
    assert ss[..i + 1][..i] == ss[..i];
  }

  /** Visiting tile `column` of `line` after the tiles before it tallies the
      samples of the first `column + 1` tiles. */
  lemma VisitRowStep(grid: Grid, cases: Cases, line: seq<Tile>, ss: seq<Sample>, column: nat, next: Cases, after: Cases)
    requires Square(grid) && ss == Samples(grid, line) && column < |line|
    requires next == TallyRow(cases, ss[..column])
    requires after == Record(next, SampleOf(grid, line[column]))
    ensures after == TallyRow(cases, ss[..column + 1])
  {
    TallyRowExtend(cases, ss, column);
  }

  /** Visiting one more row is one more fold step. */
  lemma TallyExtend(rows: seq<seq<Sample>>, i: nat)
    requires i < |rows|
    ensures Tally(rows[..i + 1]) == TallyRow(Tally(rows[..i]), rows[i])
  {
    assert rows[..i + 1][..i] == rows[..i];
  }

  /** The visit of one row, tile by tile from the left. */
  method VisitRow(grid: Grid, cases: Cases, line: seq<Tile>) returns (next: Cases)
    requires Square(grid)
    ensures next == TallyRow(cases, Samples(grid, line))
  {
    ghost var ss := Samples(grid, line);
    next := cases;
    var column := 0;
    while column < |line|
      invariant 0 <= column <= |line| == |ss|
      invariant next == TallyRow(cases, ss[..column])
    {
      var after := VisitTile(grid, next, line[column]);
      VisitRowStep(grid, cases, line, ss, column, next, after);
      next := after;
      column := column + 1;
    }
    assert ss[..column] == ss;
  }

  /** Walks the board row by row and tallies every tile that is not skipped. */
  method CountCases(grid: Grid) returns (cases: Cases)
    requires Square(grid)
    ensures cases == Tally(BoardSamples(grid))
  {
    ghost var rows := BoardSamples(grid);
    cases := map[];
    var row := 0;
    while row < |grid|
      invariant 0 <= row <= |grid|
      invariant cases == Tally(rows[..row])
    {
      TallyExtend(rows, row);
      cases := VisitRow(grid, cases, grid[row]);
      row := row + 1;
    }
    assert rows[..row] == rows;
  }

  /** Learns the chances of a board: tallies every tile that is not skipped, then
      turns each key's tally into a chance. */
  method Analyze(grid: Grid) returns (chances: Chances)
    requires Square(grid)
    ensures forall key :: key in chances <==>
      BoardObservations(grid, key, true) + BoardObservations(grid, key, false) > 0
    ensures forall key :: key in chances ==>
      chances[key] == BoardObservations(grid, key, true) as real
        / (BoardObservations(grid, key, true) + BoardObservations(grid, key, false)) as real
    ensures forall key :: key in chances ==> key.colour == Grass || key.colour == Ocean
  {
    var cases := CountCases(grid);
    chances := ChancesOf(cases);
    LearnedChances(grid, chances);
  }

  /** The chances learned from a board: a key is present exactly when some tile was
      observed under it, its chance is the share of positive observations, and
      only grass and ocean keys occur. */
  lemma LearnedChances(grid: Grid, chances: Chances)
    requires Square(grid)
    requires chances == ChancesOf(Tally(BoardSamples(grid)))
    ensures forall key :: key in chances <==>
      BoardObservations(grid, key, true) + BoardObservations(grid, key, false) > 0
    ensures forall key :: key in chances ==>
      chances[key] == BoardObservations(grid, key, true) as real
        / (BoardObservations(grid, key, true) + BoardObservations(grid, key, false)) as real
    ensures forall key :: key in chances ==> key.colour == Grass || key.colour == Ocean
  {
    forall key
      ensures key in chances <==>
        BoardObservations(grid, key, true) + BoardObservations(grid, key, false) > 0
      ensures key in chances ==>
        chances[key] == BoardObservations(grid, key, true) as real
          / (BoardObservations(grid, key, true) + BoardObservations(grid, key, false)) as real
      ensures key in chances ==> key.colour == Grass || key.colour == Ocean
    {
      LearnedChanceAt(grid, key);
    }
  }

  /** LearnedChances for one key. */
  lemma LearnedChanceAt(grid: Grid, key: Key)
    requires Square(grid)
    ensures key in ChancesOf(Tally(BoardSamples(grid))) <==>
      BoardObservations(grid, key, true) + BoardObservations(grid, key, false) > 0
    ensures key in ChancesOf(Tally(BoardSamples(grid))) ==>
      ChancesOf(Tally(BoardSamples(grid)))[key] == BoardObservations(grid, key, true) as real
        / (BoardObservations(grid, key, true) + BoardObservations(grid, key, false)) as real
    ensures key in ChancesOf(Tally(BoardSamples(grid))) ==> key.colour == Grass || key.colour == Ocean
  {
    var cases := Tally(BoardSamples(grid));
    var chances := ChancesOf(cases);
    var pos, neg := BoardObservations(grid, key, true), BoardObservations(grid, key, false);
    TallyCounts(BoardSamples(grid), key);
    if key.colour != Grass && key.colour != Ocean {
      RowsObservationsNeedColour(BoardSamples(grid), key);
    }
    if key in cases {
      assert cases[key] == Prior(cases, key) == Counts(pos, neg);
      assert chances[key] == Chance(Counts(pos, neg));
    }
  }

  /** Only grass and ocean keys are ever observed. */
  lemma {:induction false} ObservationsNeedColour(ss: seq<Sample>, key: Key)
    requires key.colour != Grass && key.colour != Ocean
    ensures Observations(ss, key, true) == 0 && Observations(ss, key, false) == 0
  {
    if ss != [] {
      ObservationsNeedColour(ss[..|ss| - 1], key);
    }
  }

  /** ObservationsNeedColour over rows of samples. */
  lemma {:induction false} RowsObservationsNeedColour(rows: seq<seq<Sample>>, key: Key)
    requires key.colour != Grass && key.colour != Ocean
    ensures RowsObservations(rows, key, true) == 0 && RowsObservations(rows, key, false) == 0
  {
    if rows != [] {
      RowsObservationsNeedColour(rows[..|rows| - 1], key);
      ObservationsNeedColour(rows[|rows| - 1], key);
    }
  }
}
