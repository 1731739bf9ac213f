# MarkovTiles core in Dafny

MarkovTiles keeps a 40 by 40 board of tiles. Each tile is 10 pixels square and is uncoloured, grass or ocean. The program:

- seeds a 5 by 5 island exemplar into the middle of the board;
- learns from the board how a tile's colour goes with the number of grass and ocean tiles around it (`analyze`);
- regrows the board with a rule that samples those chances (`grow`);
- can also apply a deterministic shoreline rule and three simple random or constant rules.

Every rule pass builds a new board from a snapshot of the old one.

The model has five modules:

- `Tiles` (`tiles.dfy`): colours, tiles and the board, plus the `filter(...).length` count.
- `Neighbourhood` (`neighbourhood.dfy`): `getNeighbours`. There is a pure specification `Neighbours` and the imperative `GetNeighbours` loop proved equal to it. Lemmas give its order, its soundness and completeness, and its length at the interior, edges and corners.
- `Learner` (`learner.dfy`): the counting and chance parts of `analyze`. The methods `VisitTile`, `VisitRow`, `CountCases` and `Analyze` update the dictionary as the source does. They are proved against the fold `Tally`. `Tally` is in turn proved equal to an independent count of observations per key.
- `Rules` (`rules.dfy`): `createShoreline`, `grow` and the three threshold or constant rules. Each rule returns a colour for a tile given the board and the random draw for that tile.
- `World` (`world.dfy`): the class `TileWorld`. Its `tiles` field is the program's global board. It has the board-building constructor, `SeedIsland` (in-place writes in nested loops), and `IterateTiles`/`ApplyRule` (build a new board row by row, then reassign). They are proved against the specification functions `Seeded` and `Applied`, and lemmas state what each kind of pass does.

Modelling choices:

- Colours are a datatype. `NoColour` is the `undefined` colour of a fresh tile and the only falsy one.
- The dictionary keys `grass:k` and `ocean:k` are the datatype `Key(colour, count)`.
- Chances are exact rationals (`real`).
- `Math.random()` is a parameter: one draw per cell of the board (`draws[r][c]`) for a pass.
- The functions that read the global board take the board as a parameter.

### Notes on the code's behaviour

- **Which tiles `analyze` skips.** `analyze` counts uncoloured tiles and boundary tiles too. A tile is skipped only when more than 7 of its neighbours are uncoloured, and that happens only at an interior tile whose eight neighbours are all uncoloured (`SkippedMeansBlankSurroundings`). An uncoloured tile that is not skipped counts as a negative under both of its keys. A boundary tile is never skipped (`BoundaryNeverSkipped`).
- **What a key is.** Every tile that is not skipped is filed under two count keys, `grass:<#grass neighbours>` and `ocean:<#ocean neighbours>` (`ObservedUnderTwoKeys`). `grow` looks a tile up under the same two keys (`GrowKeysAreObservedKeys`).
- **No fallback at the boundary or without data.** The `< 8` test in `grow` is commented out, so edge tiles are regrown like any other. `grow` returns ocean whenever the grass key is missing or zero; with no chances at all it turns every tile to ocean (`GrowWithLearned`, `GrowColour`).
- **How the draw is used.** `grow` returns ocean exactly when the draw exceeds `1 - chanceForGrass`. For a chance p in [0, 1], the ocean draws in [0, 1) form the interval (1 - p, 1), of width p, so a uniform draw gives ocean with the probability learned for grass (`GrowThreshold`).

## Model

| member | source | states |
|---|---|---|
| Tiles.Count | index.js:173-175 | the number of tiles of a colour is at most the list's length |
| Tiles.CountAll | index.js:173 | the count of a colour equals the list's length exactly when every tile has that colour |
| Tiles.PlacedTile | index.js:25-31 | a tile built at row r and column c has pixel coordinates that are non-negative multiples of the tile size, and they divide back to (c, r) |
| Neighbourhood.Neighbours | index.js:34-62 | a tile has at most eight neighbours |
| Neighbourhood.GetNeighbours | index.js:34-62 | the loop over the offsets pushes exactly the in-range neighbours, in offset order, and returns nothing for a tile that is not on the board |
| Neighbourhood.Positions | index.js:38-42 | the offsets visited yield at most eight positions, all on the board |
| Neighbourhood.PositionsUpTo | index.js:50-59 | the positions from the first k offsets number at most k and are all on the board |
| Neighbourhood.TilesAt | index.js:57 | looking up a list of on-board positions gives one tile per position |
| Neighbourhood.TilesAtAppend | index.js:50-59 | pushing the tiles of two runs of offsets one after the other gives the tiles of the joined run |
| Neighbourhood.TilesAtStep | index.js:50-59 | one more offset pushes the tile it lands on when that is on the board, and nothing otherwise |
| Neighbourhood.PushStep | index.js:50-59 | one pass of the loop, with its bounds test `0 <= indexX <= length - 1` and `0 <= indexY <= length - 1`, extends the tiles at the first i offsets to the tiles at the first i + 1 |
| Neighbourhood.PositionsSpelled | index.js:38-42 | `Deltas` is the offset list of the source without its centre hole; the neighbour positions are the eight offsets in order TL, T, TR, L, R, BL, B, BR, each kept only when in range |
| Neighbourhood.PositionsSound | index.js:50-59 | every position returned is on the board, next to the centre, and not the centre |
| Neighbourhood.PositionsUpToSound | index.js:50-59 | the same for the positions from the first k offsets |
| Neighbourhood.PositionsUpToKeep | index.js:54-57 | `OnGrid` is the bounds test, both indices checked against the number of rows; an offset that passes it is never dropped |
| Neighbourhood.PositionsComplete | index.js:38-59 | every on-board cell next to the centre is among the positions: out-of-range offsets are dropped, never padded, and nothing else is lost |
| Neighbourhood.PositionsOrdered | index.js:38-42 | the positions come in strictly increasing row-major order, so none repeats |
| Neighbourhood.PositionsRanked | index.js:38-42 | the first k offsets give positions of strictly increasing rank inside the 3 by 3 square |
| Neighbourhood.PositionsLength | index.js:50-59 | the number of positions is the number of offsets that land on the board |
| Neighbourhood.PositionsCount | index.js:54-55 | the number of neighbours is the on-board part of the 3 by 3 square minus the centre |
| Neighbourhood.InteriorPositions | index.js:38-42 | an interior centre has all eight positions, in order TL, T, TR, L, R, BL, B, BR |
| Neighbourhood.NeighboursOfPlaced | index.js:35-37 | the neighbours of a board tile are looked up from its own row and column |
| Neighbourhood.InteriorNeighbours | index.js:38-61 | an interior tile's neighbours are the eight surrounding tiles in order TL, T, TR, L, R, BL, B, BR |
| Neighbourhood.SpanProduct | index.js:54-55 | the on-board part of the 3 by 3 square around (r, c), minus the centre, is 8 exactly at an interior cell, 3 at a corner and 5 at any other edge cell |
| Neighbourhood.NeighbourCount | index.js:54-55 | a tile has eight neighbours exactly when it is interior; a corner tile has three and any other edge tile five |
| Neighbourhood.NeighboursExcludeCentre | index.js:38-42 | no tile is its own neighbour |
| Learner.ObserveEffect | index.js:180-197 | `Observe`, the create-or-increment update: one observation adds the key if it is missing, leaves every other key alone, and adds one to the positive or the negative count (a new record starts at 1/0 or 0/1) |
| Learner.ObservedUnderTwoKeys | index.js:171-178 | `SampleOf` takes the tile's uncoloured, grass and ocean neighbour counts and its colour; a tile that is not skipped is observed under exactly its grass-count key and its ocean-count key |
| Learner.RecordCounts | index.js:171-197 | `Record`, the visit of one tile: visiting one tile adds its observation under a key, positive when the tile has the key's colour, and adds the key exactly when observed |
| Learner.TallyRowCounts | index.js:170-198 | `TallyRow`, the fold of `Record` over a row: visiting a row adds, under every key, the number of positive and of negative observations in that row |
| Learner.TallyCounts | index.js:170-198 | `Tally`, the fold over all rows: after the walk over the board, a key is in the dictionary exactly when some tile was observed under it, and its record is the number of positive and of negative observations |
| Learner.TallyRowExtend | index.js:171 | visiting one more tile of a row folds its sample into the dictionary |
| Learner.TallyExtend | index.js:170 | visiting one more row folds that row's samples into the dictionary |
| Learner.SkippedMeansBlankSurroundings | index.js:173 | `Skipped`, more than 7 uncoloured neighbours: a tile is skipped exactly when it has eight neighbours and none of them is coloured |
| Learner.BoundaryNeverSkipped | index.js:173 | no tile on the edge of the board is ever skipped |
| Learner.Chance | index.js:200-211 | a chance lies in [0, 1], is 0 exactly when there is no positive, is 1 exactly when there is no negative (given a positive), and otherwise is positive over all observations |
| Learner.ChancesOf | index.js:200-215 | the chances have exactly the dictionary's keys, each in [0, 1] |
| Learner.VisitTile | index.js:171-197 | the per-tile update of the dictionary records the tile's sample (its neighbour counts and its colour), the fold step `Record` |
| Learner.VisitRowStep | index.js:170-171 | visiting the next tile of a row after the tiles before it tallies the samples of one more tile |
| Learner.VisitRow | index.js:170-198 | the loop over a row's tiles is the fold of `Record` over the row's samples |
| Learner.CountCases | index.js:165-198 | the walk over all rows builds the tally of the samples of the whole board |
| Learner.Analyze | index.js:164-218 | a key has a chance exactly when it has observations, and its chance is positive observations over all observations; only grass and ocean keys occur |
| Learner.LearnedChances | index.js:200-215 | the same three facts, stated for the chances computed from the tally of a board |
| Learner.LearnedChanceAt | index.js:200-215 | the same facts for one key |
| Learner.ObservationsNeedColour | index.js:177-178 | no tile is observed under a key whose colour is neither grass nor ocean |
| Learner.RowsObservationsNeedColour | index.js:177-178 | the same over the first k rows of the board |
| Rules.ShorelineColour | index.js:106-119 | the shoreline rule (with `OppositeOcean` for the four opposite pairs of index.js:112-115) returns ocean or the tile's own colour |
| Rules.OppositeOceanOfEight | index.js:112-115 | for a list of eight neighbours, `OppositeOcean` holds exactly when the left and right, top and bottom, or either pair of opposite corners are both ocean |
| Rules.ShorelineInterior | index.js:106-119 | at an interior tile the shoreline rule gives ocean exactly when the tile is ocean or has ocean on both sides across it |
| Rules.ShorelineOnBoard | index.js:106-119 | an edge tile keeps its colour; an interior tile becomes ocean exactly when it is ocean or has ocean on both sides horizontally, vertically or along either diagonal |
| Rules.GrowColour | index.js:83-104 | grow always returns grass or ocean; ocean when the grass key is missing or zero; grass when only the ocean key is missing or zero |
| Rules.GrowMonotone | index.js:101 | a larger draw never turns an ocean outcome into grass |
| Rules.GrowThreshold | index.js:94-101 | with both keys usable, grow gives ocean exactly when the draw exceeds one minus the grass chance and grass otherwise; for a chance p in [0, 1] the ocean draws in [0, 1) are the interval (1 - p, 1), and a chance of 1 makes every positive draw ocean |
| Rules.GrowKeysAreObservedKeys | index.js:91-92 | `GrassKey` and `OceanKey`, the lookups `grass:<#grass>` and `ocean:<#ocean>`, are grass and ocean keys, and they are the two keys the learner observes a tile under when it is not skipped |
| Rules.LearnedTruthy | index.js:94-97 | `Truthy`, the falsy test on the looked-up number: a learned chance passes the truthiness test exactly when its key had a positive observation |
| Rules.GrowWithLearned | index.js:91-99 | with learned chances, a grass count never seen on a grass tile gives ocean, and otherwise an ocean count never seen on an ocean tile gives grass |
| Rules.RuleColour | index.js:69-119 | grow-grass paints grass above 0.6 and otherwise keeps the colour; random-create-ocean does the same with ocean; create-ocean always gives ocean; grow and shoreline as above; no rule uncolours a coloured tile |
| World.IslandIsDiamond | index.js:147-153 | `Island` holds the exemplar's colours row by row; the exemplar island is grass exactly at the cells at most two steps from its centre, ocean elsewhere |
| World.HalfRounded | index.js:155 | rounding half of m, with halves rounded up, gives h with 2h = m or 2h = m + 1 |
| World.Middle | index.js:155 | on a board of side at least 5 the island fits, is centred with at most one spare row after it, and starts at 17 on the 40 by 40 board |
| World.SeededRow | index.js:158-160 | painting part of an island row keeps the board square |
| World.Seeded | index.js:157-161 | painting island rows keeps the board square |
| World.SeededRowCell | index.js:158-160 | `Paint` is the write `tiles[r][c].color = colour`; painting part of an island row sets exactly those cells to the island's colours and moves no tile |
| World.SeededCell | index.js:157-161 | after the island rows are painted, each cell under them has the island's colour, every other cell keeps its colour, and no tile moves |
| World.Applied | index.js:121-140 | a pass gives a board of the same size, with every tile still at its own row and column |
| World.ShorelinePass | index.js:106-140 | a shoreline pass keeps ocean tiles ocean, changes tiles only to ocean, leaves the edge alone, and turns an interior tile to ocean exactly when it was ocean or had ocean across it |
| World.GrowPass | index.js:83-140 | after a grow pass every tile is grass or ocean |
| World.GrowGrassPass | index.js:69-72 | a grow-grass pass keeps grass, paints every cell whose draw is above 0.6, and leaves every other cell unchanged |
| World.CreateOceanPass | index.js:79-81 | a create-ocean pass makes every tile ocean and moves none |
| World.TileWorld.constructor | index.js:25-31 | the board built has 40 rows of 40 uncoloured tiles, each at its column and row times the tile size |
| World.SeedingEffect | index.js:155-161 | seeding a placed board at (m, m) keeps it placed, moves no tile, gives each cell under the island the island's colour and leaves every other colour |
| World.TileWorld.PaintIslandRow | index.js:158-160 | the inner loop paints one island row over its board row, in place |
| World.TileWorld.SeedIsland | index.js:146-162 | the board stays valid and becomes the seeded board at Middle(40) = 17, so by SeedingEffect the island's colours lie from (17, 17) and every other tile's colour and every position is unchanged |
| World.RuleTile | index.js:134-138 | the tile function of `applyRule` returns a `copyTile` copy that keeps the tile's position (its colour is the rule's colour on the old board) |
| World.MapTilesPlaced | index.js:121-131 | mapping a position-keeping tile function over a placed board gives a placed board whose cell (r, c) is the function applied to the old cell (r, c) |
| World.RulePassIsApplied | index.js:134-140 | mapping the copy-and-recolour function of a rule over the board is the pass `Applied` of that rule |
| World.BuildRow | index.js:124-128 | the inner loop builds a row of the same length whose tile c is the tile function applied to tile c of the old row |
| World.TileWorld.IterateTiles | index.js:121-132 | the new board is the tile function mapped over the old board, row by row, and it replaces the board only when `reassign` is set; only a reassigning call needs a function that keeps tile positions, so the board stays valid |
| World.TileWorld.ApplyRule | index.js:134-140 | passing the copy-and-recolour function to `IterateTiles`, the board becomes the pass of the rule over the old board, every rule reading the old board |

## Left out

- Canvas and drawing: the canvas setup, `Tile.draw` and `drawTiles` (index.js:2-9, 17-20, 142-144). They only produce output. `IterateTiles` keeps `reassign` and takes any tile function, but the only non-reassigning call, `drawTiles`, is not modelled.
- World.DrawAt: a tile whose position is off the draws gets the draw 0. No board tile is such a tile, because every pass takes one draw per cell.
- `console.log` of the chances (index.js:216). It is output only.
- `Math.random`: each pass takes one draw per cell. Which call of the random generator a tile consumes, and that `createShoreline` and `createOceanRule` consume none, is not modelled.
- Floating point: `positive / sum` and `1 - chanceForGrass` are exact rationals here, not IEEE doubles.
- `FOREST` (index.js:66). It is defined and never used.
- Rules.GrowColour: the `return tile.color` after the sampling return (index.js:103) cannot be reached, and the model has no such branch.
- Neighbourhood.Neighbours: for a tile that is not at a board position, the source either throws or returns an empty list. The model always returns the empty list. Every call site passes a board tile.
- The top-level script (index.js:220-234): seed, analyze, one grow pass, draw. It is a fixed call sequence of the modelled operations.
- Object identity: tiles are values. `copyTile` is a record update, and the sharing of tile objects between boards is not modelled. No modelled operation observes it.
- The string form of keys (`grass:3`): keys are the datatype `Key`, so different keys are distinct by construction.
- Learner.Analyze: the order of keys in the chances object (the insertion order of `Object.keys`) is not modelled. The result is a map.
