# CustomTerrain heightfield core, modelled in Dafny

This project models the heightfield arithmetic of the Unity component
`CustomTerrain` (procedural terrain generation). Each operation works on the
square `float[,] heightMap` of a terrain with resolution R:

- the generators: uniform random heights, single- and multi-layer fBM,
  ridged noise, Voronoi peaks and midpoint displacement;
- smoothing;
- the six erosion models: rain, thermal, tidal, river, wind and canyon;
- the neighbour-list helper `GenerateNeighbours`;
- the four `Remove*` operations that prune the configuration lists;
- the splat helper `NormalizeVector`.

## Shape of the model

Each method keeps the source's form. It has the same loops, in the same
order, over an `array2<real>` (`hm[x, y]` is `heightMap[x, y]`). The one
exception is `Noise.ResetTerrain`. The source allocates a fresh zero array
and hands it to `SetHeights`, with no loop of its own. The model clears the
array that stands for the terrain's heights with two nested loops.

- **Specification functions.** Every method is proved equal to a function on
  grid values, `Heightmap.Grid = seq<seq<real>>`. The link is
  `View(hm) == Spec(old(View(hm)), ...)`. The properties the source and its
  design promise are lemmas about those functions: conservation of the total
  height, no cell rises, idempotence, in-bounds writes and termination.
- **Raster sweeps.** `Sweep` is the raster sweep (y outer, x inner, in place)
  that `SmoothTerrain`, `Thermal` and `Tidal` share. Because it is in place,
  a cell sees the already rewritten cells before it. The model keeps that.
- **The Canyon crawler.** `CanyonCrawler` recurses on the component's
  `tempHeightMap`. In the model it recurses on the array that `Canyon` passes
  down.
- **`RemovePerlin` and the others.** These four update the list fields of a
  `CustomTerrain` class.
- **Random draws.** Every call of `Random.Range` and of the `OrderBy(rng.Next())`
  shuffle is supplied by the caller. It comes as a sequence or as a function
  keyed by the loop indices or a draw counter.
  - Constrained to the range the source passes: the `RandomTerrain` draws,
    the `Rain` and `River` droplet cells, the Voronoi peaks, the `Canyon`
    column steps and bank slopes, and the `River` shuffles.
  - Not constrained: the midpoint-displacement draws, the `Canyon` start row
    and its row steps (see "Left out").
- **Library math.** `Utils.fBM`, `Mathf.PerlinNoise`, `Pow`, `Sin`, `Cos` and
  `Vector2.Distance` are the fields of `Noise.MathLib`, a parameter of the
  operations that use them.
- **Midpoint displacement keeps its far edges.** No write of
  `MidPointDisplacement` reaches row R - 1 or column R - 1. The square pass
  writes centres, at most R - 2. The skip test (`CustomTerrain.cs` line 361) passes over every
  diamond whose midpoints would touch the border band. So the last row and
  the last column keep the heights they had before the call
  (`Midpoint.RunKeepsFarEdges`).
- **Heights.** Heights are `real`. C#'s `(int)` casts of floats are written
  out as truncation toward zero (`Wind.Trunc`). `(int)(a + s / 2.0f)` on
  non-negative integers is `a + s / 2`.

## Model

| member | source | states |
|---|---|---|
| Neighbours.Clamp | Assets/Scripts/CustomTerrain.cs:423 | `Mathf.Clamp` on whole numbers: the result lies in [lo, hi]; it is v inside the range, lo below it and hi above it |
| Neighbours.GenerateNeighbours | Assets/Scripts/CustomTerrain.cs:413-431 | the two offset loops return exactly `Neighbours(pos, w, h)`: offsets in loop order, (0, 0) skipped, each clamped cell added unless already listed |
| Neighbours.NeighbourRow | Assets/Scripts/CustomTerrain.cs:419-430 | one pass of the inner loop extends the list by the offsets of row y |
| Neighbours.NeighbourAt | Assets/Scripts/CustomTerrain.cs:421-428 | the loop body adds the clamped cell only for a non-zero offset whose cell is not yet listed |
| Neighbours.OffsetAt | Assets/Scripts/CustomTerrain.cs:417-420 | offset (x, y) is visited at position 3(y+1) + (x+1) of the loop order |
| Neighbours.CollectStep | Assets/Scripts/CustomTerrain.cs:417-430 | one more offset extends the list by at most that offset's clamped cell |
| Neighbours.CollectMembers | Assets/Scripts/CustomTerrain.cs:421-428 | the list has no repeats and no more entries than offsets; a cell is listed exactly when it is the clamped image of a non-zero offset |
| Neighbours.ShiftedInside | Assets/Scripts/CustomTerrain.cs:423 | a clamped cell lies in the rectangle, and it is within Chebyshev distance one of an in-rectangle position |
| Neighbours.NeighboursSound | Assets/Scripts/CustomTerrain.cs:413-431 | every neighbour lies in [0,w-1]×[0,h-1]; for a position in the grid it is within Chebyshev distance one; the list has no repeats and at most 8 entries; a cell is listed exactly when it is the clamped image of a non-zero offset |
| Neighbours.NeighboursCount | Assets/Scripts/CustomTerrain.cs:421-428 | no repeats, at most 8 entries |
| Neighbours.NeighboursMembers | Assets/Scripts/CustomTerrain.cs:421-428 | membership is the same in both directions as "clamped image of a non-zero unit offset" |
| Neighbours.NeighboursInRect | Assets/Scripts/CustomTerrain.cs:423 | every neighbour is in the rectangle, and adjacent to an in-rectangle position |
| Neighbours.CollectShorter | Assets/Scripts/CustomTerrain.cs:421 | skipping (0, 0) makes the list strictly shorter than the offsets when (0, 0) is among them |
| Neighbours.CollectInterior | Assets/Scripts/CustomTerrain.cs:421-428 | away from the border distinct unit offsets give distinct cells: nothing is dropped and the cell itself is not listed |
| Neighbours.InteriorNeighbours | Assets/Scripts/CustomTerrain.cs:413-431 | an interior cell has exactly 8 neighbours, none of them itself |
| Neighbours.SelfNeighbour | Assets/Scripts/CustomTerrain.cs:421-423 | clamping happens after the zero-offset test, so a cell lists itself exactly when it lies on the grid's border |
| Neighbours.Unit | Assets/Scripts/CustomTerrain.cs:417-420 | the offsets the two loops range over: both coordinates in {-1, 0, 1} (a predicate, no contract) |
| Neighbours.Shifted | Assets/Scripts/CustomTerrain.cs:423 | `nPos`: pos + o with each coordinate clamped to the rectangle (no contract of its own; `ShiftedInside` bounds it) |
| Neighbours.AddNeighbour | Assets/Scripts/CustomTerrain.cs:421-427 | the loop body on a list: the zero offset adds nothing; otherwise the clamped cell is appended unless already listed (no contract of its own; `CollectStep` and `CollectMembers` state its effect) |
| Neighbours.Collect | Assets/Scripts/CustomTerrain.cs:417-429 | the list the loops build from a sequence of offsets, in their order; its contract bounds the list by the number of offsets |
| Neighbours.Neighbours | Assets/Scripts/CustomTerrain.cs:413-431 | the list `GenerateNeighbours` returns: `Collect` over the nine offsets in loop order (no contract of its own; `NeighboursSound`, `InteriorNeighbours` and `SelfNeighbour` state its properties) |
| Sweep.NeighboursInside | Assets/Scripts/CustomTerrain.cs:395 | the neighbour list of a grid cell lies inside the R × R grid |
| Sweep.Around | Assets/Scripts/CustomTerrain.cs:395 | the neighbour list the sweeps use lies on the grid |
| Sweep.SmoothCellAt | Assets/Scripts/CustomTerrain.cs:393-402 | the cell becomes the mean of itself and its neighbours as they stand when it is reached, added in list order, divided by count + 1 |
| Sweep.ThermalCellAt | Assets/Scripts/CustomTerrain.cs:889-904 | the neighbour loop of `Thermal` at one cell is the list-ordered composition of `ThermalMove` |
| Sweep.ThermalMoveAt | Assets/Scripts/CustomTerrain.cs:896-901 | when the cell stands more than `erosionStrength` above the neighbour, `currentHeight * erosionAmount` leaves the cell and arrives at the neighbour; otherwise nothing changes |
| Sweep.TidalCellAt | Assets/Scripts/CustomTerrain.cs:915-928 | the neighbour loop of `Tidal`: a cell below `waterHeight` next to one above it sets both to `waterHeight` |
| Sweep.CellAt | Assets/Scripts/CustomTerrain.cs:392-402 | the body of the shared raster sweep is the rule of the operation at cell (x, y) |
| Sweep.RowAt | Assets/Scripts/CustomTerrain.cs:390-403 | the inner x loop applies the rule to (0, y), (1, y), ..., (R-1, y) in that order, in place |
| Sweep.RowStepAt | Assets/Scripts/CustomTerrain.cs:392-402 | after cell x, what is left of the row is the row from x + 1 |
| Sweep.SweepAt | Assets/Scripts/CustomTerrain.cs:388-404 | both loops: rows 0 ... R-1, each from x = 0, in place |
| Sweep.NeighbourSum | Assets/Scripts/CustomTerrain.cs:397-401 | the heights of the listed cells, added in list order (no contract; `Smooth.NeighbourSumBounded` bounds it) |
| Sweep.Mean | Assets/Scripts/CustomTerrain.cs:402 | `avgHeight / (neighbours.Count + 1)` (no contract; `Smooth.AverageBetween` bounds it) |
| Sweep.SmoothCell | Assets/Scripts/CustomTerrain.cs:394-402 | the grid after smoothing cell (x, y) in place; its contract keeps the grid R × R (`Smooth.SmoothCellBounded` bounds it) |
| Sweep.Share | Assets/Scripts/CustomTerrain.cs:898-900 | the height `currentHeight * erosionAmount` one thermal move carries (no contract) |
| Sweep.ThermalMove | Assets/Scripts/CustomTerrain.cs:896-901 | the thermal rule for one neighbour, the share read before either write; its contract keeps the grid R × R (`Erosion.ThermalMoveSum` proves the total kept) |
| Sweep.ThermalOver | Assets/Scripts/CustomTerrain.cs:894-902 | the thermal rule over the neighbour list in list order; its contract keeps the grid R × R (`Erosion.ThermalOverSum`) |
| Sweep.TidalMove | Assets/Scripts/CustomTerrain.cs:922-926 | the tidal rule for one neighbour; its contract keeps the grid R × R (`Erosion.TidalMoveToward` proves it writes only `waterHeight`) |
| Sweep.TidalOver | Assets/Scripts/CustomTerrain.cs:920-927 | the tidal rule over the neighbour list in list order; its contract keeps the grid R × R (`Erosion.TidalOverSettles`, `Erosion.TidalOverCalm`) |
| Sweep.Cell | Assets/Scripts/CustomTerrain.cs:392-402 | the rule of the operation at one cell: smoothing here, thermal at lines 889-903, tidal at lines 915-928; its contract keeps the grid R × R |
| Sweep.Row | Assets/Scripts/CustomTerrain.cs:392-403 | the rule at (x, y), (x + 1, y), ..., (R - 1, y) in that order, in place; its contract keeps the grid R × R |
| Sweep.Pass | Assets/Scripts/CustomTerrain.cs:390-404 | rows y, ..., R - 1 in order, each from x = 0; its contract keeps the grid R × R |
| Sweep.SweepOnce | Assets/Scripts/CustomTerrain.cs:390-404 | the whole in-place raster sweep from row 0; its contract keeps the grid R × R; its properties are the Smooth and Erosion lemmas |
| Smooth.SmoothTerrain | Assets/Scripts/CustomTerrain.cs:382-411 | the grid after `smoothAmount` in-place smoothing sweeps (none when `smoothAmount <= 0`) |
| Smooth.SmoothOnce | Assets/Scripts/CustomTerrain.cs:388-407 | one iteration of the `s` loop is one more sweep |
| Smooth.NeighbourSumBounded | Assets/Scripts/CustomTerrain.cs:397-400 | a sum of m heights from [lo, hi] lies in [m·lo, m·hi] |
| Smooth.MeanBetween | Assets/Scripts/CustomTerrain.cs:402 | the new value of a cell lies between the grid's bounds |
| Smooth.AverageBetween | Assets/Scripts/CustomTerrain.cs:402 | (a + s) / (m + 1) lies in [lo, hi] when a does and s lies in [m·lo, m·hi] |
| Smooth.SetBounded | Assets/Scripts/CustomTerrain.cs:402 | writing a value from [lo, hi] keeps the grid within [lo, hi] |
| Smooth.SmoothCellBounded | Assets/Scripts/CustomTerrain.cs:393-402 | smoothing one cell keeps every cell within the grid's bounds |
| Smooth.RowBounded | Assets/Scripts/CustomTerrain.cs:390-403 | a smoothing row keeps the grid within its bounds |
| Smooth.PassBounded | Assets/Scripts/CustomTerrain.cs:388-404 | a smoothing sweep keeps the grid within its bounds |
| Smooth.SmoothBounded | Assets/Scripts/CustomTerrain.cs:388-407 | any number of sweeps never moves a height outside the range the grid started in |
| Smooth.SmoothConstant | Assets/Scripts/CustomTerrain.cs:388-407 | a grid whose every cell is c is left unchanged by any number of sweeps |
| Smooth.SmoothTimes | Assets/Scripts/CustomTerrain.cs:388-407 | the grid after k smoothing sweeps, none for k <= 0; its contract keeps the grid R × R (`SmoothBounded`, `SmoothConstant`) |
| Config.Pruned | Assets/Scripts/CustomTerrain.cs:170-185 | the stored list is never empty, and every entry of it comes from the original list |
| Config.KeptFromList | Assets/Scripts/CustomTerrain.cs:173-180 | every kept entry comes from the original list |
| Config.KeptIsFilter | Assets/Scripts/CustomTerrain.cs:173-180 | the kept list is an in-order subsequence of the original, none of its entries is flagged `remove`, and it has as many entries as the original has unflagged ones |
| Config.KeptEmpty | Assets/Scripts/CustomTerrain.cs:181-184 | the fallback fires only when every entry is flagged |
| Config.KeptTwice | Assets/Scripts/CustomTerrain.cs:173-180 | filtering a filtered list keeps all of it |
| Config.PruneTwice | Assets/Scripts/CustomTerrain.cs:170-185 | a second `Remove*` changes nothing, including after the first-entry fallback |
| Config.PruneList | Assets/Scripts/CustomTerrain.cs:170-185 | the filter loop and fallback: the result is `Pruned(entries)`; on an empty list, where the source fails at `list[0]`, the result is "not ok" |
| Config.CustomTerrain.constructor | Assets/Scripts/CustomTerrain.cs:146-163 | each list starts with one entry holding the field initialisers of its class |
| Config.CustomTerrain.RemovePerlin | Assets/Scripts/CustomTerrain.cs:170-185 | `perlinParameters` becomes `Pruned` of its old value (fails only on an empty list, leaving it unchanged); a non-empty list stays non-empty |
| Config.CustomTerrain.RemoveSplatHeight | Assets/Scripts/CustomTerrain.cs:566-581 | the same for `splatHeights` |
| Config.CustomTerrain.RemoveVegetation | Assets/Scripts/CustomTerrain.cs:682-697 | the same for `vegetation` |
| Config.CustomTerrain.RemoveDetail | Assets/Scripts/CustomTerrain.cs:807-822 | the same for `details` |
| Config.Kept | Assets/Scripts/CustomTerrain.cs:172-179 | the entries whose `remove` flag is clear, in order; its contract: no longer than the list, and no kept entry flagged (`KeptIsFilter` adds order and count) |
| Noise.RandomTerrain | Assets/Scripts/CustomTerrain.cs:102-115 | every cell gains its own draw, and nothing else; with lo <= hi every cell rises by an amount in [lo, hi] |
| Noise.PerlinTerrain | Assets/Scripts/CustomTerrain.cs:187-200 | every cell gains `fBM((x + offX)·xScale, (y + offY)·yScale, octaves, persistance) · heightScale` |
| Noise.MultiplePerlinTerrain | Assets/Scripts/CustomTerrain.cs:202-218 | every cell gains the contributions of all layers, added in list order |
| Noise.LayerSumAppend | Assets/Scripts/CustomTerrain.cs:210-213 | layers compose additively: the layers of a + b add what those of a and of b add |
| Noise.RidgeNoise | Assets/Scripts/CustomTerrain.cs:220-238 | after the reset and the layers, every cell holds its layer sum folded by `1 - |h - 0.5|` once per layer |
| Noise.RidgeTimesParity | Assets/Scripts/CustomTerrain.cs:228-234 | on [0, 1] the repeated fold lands in [0.5, 1]; an odd number of layers gives `Ridge(h)`, an even one (≥ 2) gives `1.5 - Ridge(h)` |
| Noise.ResetTerrain | Assets/Scripts/CustomTerrain.cs:1162-1165 | every cell becomes 0 |
| Noise.Sample | Assets/Scripts/CustomTerrain.cs:212 | one layer's contribution to a cell: fBM of its shifted, scaled coordinates times the layer's height scale (no contract: fBM is uninterpreted) |
| Noise.LayerSum | Assets/Scripts/CustomTerrain.cs:210-213 | all layers' contributions to a cell, added in list order (no contract; `LayerSumAppend`) |
| Noise.Ridge | Assets/Scripts/CustomTerrain.cs:232 | `1 - |h - 0.5|`; its contract: never above 1, and at least 0.5 for h in [0, 1] |
| Noise.RidgeTimes | Assets/Scripts/CustomTerrain.cs:230-233 | the fold applied once per entry of `perlinParameters` (no contract; `RidgeTimesParity`) |
| Voronoi.DropPeak | Assets/Scripts/CustomTerrain.cs:254-299 | a peak no higher than its cell changes nothing; otherwise its cell takes the peak height and every other cell the larger of its height and the falloff there |
| Voronoi.DropPeakRaises | Assets/Scripts/CustomTerrain.cs:258-296 | one peak lowers no cell; its cell ends at least as high as the peak; a skipped peak leaves the grid unchanged |
| Voronoi.DropPeaksRaise | Assets/Scripts/CustomTerrain.cs:252-300 | for every falloff variant and every peak list no cell is lowered, and every peak's cell ends at least as high as that peak |
| Voronoi.PlacePeak | Assets/Scripts/CustomTerrain.cs:256-299 | the body of the peak loop is `DropPeak` |
| Voronoi.RaiseRow | Assets/Scripts/CustomTerrain.cs:268-298 | one row of the raster loop raises its cells to their `Raised` value, leaving later cells as they were |
| Voronoi.RaiseCell | Assets/Scripts/CustomTerrain.cs:270-297 | cell (x, y) other than the peak's takes max(height, falloff) |
| Voronoi.Voronoi | Assets/Scripts/CustomTerrain.cs:250-303 | the grid after all peaks, in draw order |
| Voronoi.Falloff | Assets/Scripts/CustomTerrain.cs:275-294 | the height formula of each of the five variants at normalised distance d (no contract: pow and sin are uninterpreted) |
| Voronoi.FalloffAt | Assets/Scripts/CustomTerrain.cs:264-294 | the distance to the peak divided by the grid diagonal (lines 264 and 272), then that variant's formula (no contract) |
| Voronoi.FalloffsOf | Assets/Scripts/CustomTerrain.cs:275-294 | `FalloffAt` for every cell, as a function value; its contract says it agrees with `FalloffAt` at every cell |
| Voronoi.Raised | Assets/Scripts/CustomTerrain.cs:258-296 | what a peak that is not skipped leaves in a cell; its contract: away from the peak's own cell the result is at least both the old height and the falloff |
| Voronoi.DropPeaks | Assets/Scripts/CustomTerrain.cs:254-300 | every peak in draw order, each by `DropPeak`; its contract keeps the grid R × R (`DropPeaksRaise`) |
| Midpoint.StepWithin | Assets/Scripts/CustomTerrain.cs:332-337 | a multiple of s below w, stepped by s, stays within w |
| Midpoint.NextMultiple | Assets/Scripts/CustomTerrain.cs:332-337 | the loop variables step from one multiple of the square size to the next, within the width |
| Midpoint.MultipleAdd | Assets/Scripts/CustomTerrain.cs:336-337 | a sum of multiples of s is a multiple of s |
| Midpoint.HalfMultiple | Assets/Scripts/CustomTerrain.cs:370 | a multiple of an even size is a multiple of half that size |
| Midpoint.Pow2Multiple | Assets/Scripts/CustomTerrain.cs:315-316 | 2^j divides 2^k for j <= k |
| Midpoint.Pow2TilesFrom | Assets/Scripts/CustomTerrain.cs:330-373 | every size 2^j, 2^(j-1), ..., 1 tiles the width 2^k |
| Midpoint.Pow2Tiles | Assets/Scripts/CustomTerrain.cs:315-373 | for R - 1 = 2^k every square size the loop visits tiles the width, so `cornerX`, `cornerY` stay on the array |
| Midpoint.DampedIsPower | Assets/Scripts/CustomTerrain.cs:371-372 | damping i times is multiplying by `heightDampener^i` |
| Midpoint.ScheduleOfPow2 | Assets/Scripts/CustomTerrain.cs:330-373 | for width 2^k the loop runs k + 1 rounds; round i has size 2^(k-i) and the range damped i times, once per earlier round |
| Midpoint.ScheduleFits | Assets/Scripts/CustomTerrain.cs:330-373 | every round's square size is positive and tiles the width |
| Midpoint.SlotOf | Assets/Scripts/CustomTerrain.cs:334-337 | a square the inner loop visits lies on the map |
| Midpoint.ColumnOf | Assets/Scripts/CustomTerrain.cs:332-334 | a column the outer loop visits leaves room for one more square |
| Midpoint.BodyOf | Assets/Scripts/CustomTerrain.cs:334-367 | the loop body of a pass, as a value, keeps the grid square and performs that pass's step on every square inside the map |
| Midpoint.StepEdges | Assets/Scripts/CustomTerrain.cs:342-366 | neither pass writes the last row or column: the square pass writes centres, and the diamond pass skips squares whose far midpoints reach the border band (line 361) |
| Midpoint.ColumnEdges | Assets/Scripts/CustomTerrain.cs:334-367 | a column of either pass keeps the last row and column |
| Midpoint.PassEdges | Assets/Scripts/CustomTerrain.cs:332-368 | a whole pass keeps the last row and column |
| Midpoint.RunKeepsFarEdges | Assets/Scripts/CustomTerrain.cs:330-373 | midpoint displacement never writes the last row or the last column |
| Midpoint.RunOneRound | Assets/Scripts/CustomTerrain.cs:330-373 | running the schedule is one round at the current size and range, then the schedule from half the size with the range damped once |
| Midpoint.PutMean | Assets/Scripts/CustomTerrain.cs:342 | the cell becomes the mean of the four read cells plus the draw |
| Midpoint.SquareAt | Assets/Scripts/CustomTerrain.cs:336-342 | the square pass sets the centre to the mean of the four corners plus a draw |
| Midpoint.DiamondAt | Assets/Scripts/CustomTerrain.cs:350-366 | the diamond pass skips a square when a far midpoint lies at or beyond the border band; otherwise it makes the four writes in order |
| Midpoint.PutBottom | Assets/Scripts/CustomTerrain.cs:363 | the write at (midX, y) |
| Midpoint.PutTop | Assets/Scripts/CustomTerrain.cs:364 | the write at (midX, cornerY) |
| Midpoint.PutLeft | Assets/Scripts/CustomTerrain.cs:365 | the write at (x, midY) |
| Midpoint.PutRight | Assets/Scripts/CustomTerrain.cs:366 | the write at (cornerX, midY) |
| Midpoint.StepAt | Assets/Scripts/CustomTerrain.cs:334-367 | the body of either pass at square (x, y) |
| Midpoint.PassColumn | Assets/Scripts/CustomTerrain.cs:334-343 | the inner y loop visits the squares of column x, bottom to top |
| Midpoint.ColumnStepAt | Assets/Scripts/CustomTerrain.cs:336-342 | one square of the column, then the rest from y + squareSize |
| Midpoint.PassLoop | Assets/Scripts/CustomTerrain.cs:332-344 | the outer x loop visits the columns left to right |
| Midpoint.OneRound | Assets/Scripts/CustomTerrain.cs:332-368 | one round is the square pass, then the diamond pass |
| Midpoint.MidPointDisplacement | Assets/Scripts/CustomTerrain.cs:312-376 | the grid after every round of the schedule that starts at size R - 1 with [mpdHeightMin, mpdHeightMax] and halves the size and damps the range after each round; all reads and writes are in bounds |
| Midpoint.Dampener | Assets/Scripts/CustomTerrain.cs:319 | `heightDampener = Pow(mpdHeightDampenerPower, -1 * mpdRoughness)` (no contract: pow is uninterpreted) |
| Midpoint.Damped | Assets/Scripts/CustomTerrain.cs:371-372 | a bound multiplied by `heightDampener` i times (no contract; `DampedIsPower`) |
| Midpoint.Schedule | Assets/Scripts/CustomTerrain.cs:330-373 | the rounds of the `while` loop: size s with its range, then size s / 2 with the range damped, until the size is 0 (no contract; `ScheduleOfPow2`, `ScheduleFits`) |
| Midpoint.SquareIn | Assets/Scripts/CustomTerrain.cs:336-337 | the square at (x, y) with corners `cornerX`, `cornerY` lies on the map (a predicate, no contract) |
| Midpoint.Avg4 | Assets/Scripts/CustomTerrain.cs:342 | the mean of four heights (no contract) |
| Midpoint.SquareStep | Assets/Scripts/CustomTerrain.cs:336-342 | the centre write of the square pass; its contract keeps the grid R × R |
| Midpoint.DiamondInside | Assets/Scripts/CustomTerrain.cs:350-361 | the square lies on the map and passes the skip test of line 361 (`width - 1` is R - 2) (a predicate, no contract) |
| Midpoint.DiamondBottom | Assets/Scripts/CustomTerrain.cs:363 | the write at (midX, y): its diamond's mean plus a draw; its contract keeps the grid R × R |
| Midpoint.DiamondTop | Assets/Scripts/CustomTerrain.cs:364 | the write at (midX, cornerY); its contract keeps the grid R × R |
| Midpoint.DiamondLeft | Assets/Scripts/CustomTerrain.cs:365 | the write at (x, midY); its contract keeps the grid R × R |
| Midpoint.DiamondRight | Assets/Scripts/CustomTerrain.cs:366 | the write at (cornerX, midY), reading the (midX, y) just written; its contract keeps the grid R × R |
| Midpoint.DiamondStep | Assets/Scripts/CustomTerrain.cs:350-366 | the skip, or else the four writes in order; its contract keeps the grid R × R (`StepEdges`) |
| Midpoint.Step | Assets/Scripts/CustomTerrain.cs:334-367 | the body of either pass at square (x, y); its contract keeps the grid R × R |
| Midpoint.ColumnFrom | Assets/Scripts/CustomTerrain.cs:334-343 | the rest of the inner `y` loop from square (x, y), for a given pass body; its contract keeps the grid R × R (`ColumnEdges`) |
| Midpoint.PassFrom | Assets/Scripts/CustomTerrain.cs:332-344 | the rest of the outer `x` loop from column x; its contract keeps the grid R × R (`PassEdges`) |
| Midpoint.Round | Assets/Scripts/CustomTerrain.cs:332-368 | one round: the square pass over every square, then the diamond pass; its contract keeps the grid R × R |
| Midpoint.Run | Assets/Scripts/CustomTerrain.cs:330-373 | the rounds of a schedule in order; its contract keeps the grid R × R (`RunKeepsFarEdges`, `RunOneRound`) |
| Midpoint.Displaced | Assets/Scripts/CustomTerrain.cs:312-376 | the schedule from size R - 1 with [mpdHeightMin, mpdHeightMax] and the dampener; its contract keeps the grid R × R |
| Erosion.Rain | Assets/Scripts/CustomTerrain.cs:871-881 | the droplets land in order, each lowering its cell by `erosionStrength` |
| Erosion.RainSum | Assets/Scripts/CustomTerrain.cs:875-878 | rain lowers the total height by exactly `droplets · erosionStrength` |
| Erosion.RainStepSum | Assets/Scripts/CustomTerrain.cs:877 | each droplet lowers the total by `erosionStrength` |
| Erosion.RainLoss | Assets/Scripts/CustomTerrain.cs:875-878 | each cell loses exactly what the droplets landing on it take |
| Erosion.LossIsHits | Assets/Scripts/CustomTerrain.cs:877 | that loss is the number of droplets on the cell times `erosionStrength` |
| Erosion.RainCells | Assets/Scripts/CustomTerrain.cs:875-878 | cell (i, j) ends `hits(i, j) · erosionStrength` lower, so only the cells drawn change |
| Erosion.RainStepCell | Assets/Scripts/CustomTerrain.cs:877 | the last droplet lowers its own cell and no other |
| Erosion.Thermal | Assets/Scripts/CustomTerrain.cs:883-907 | one in-place sweep of the thermal rule |
| Erosion.ThermalMoveSum | Assets/Scripts/CustomTerrain.cs:896-901 | a move takes from one cell exactly what it gives the other |
| Erosion.ThermalOverSum | Assets/Scripts/CustomTerrain.cs:894-902 | the neighbour loop at a cell keeps the total |
| Erosion.ThermalRowSum | Assets/Scripts/CustomTerrain.cs:887-904 | a row keeps the total |
| Erosion.ThermalPassSum | Assets/Scripts/CustomTerrain.cs:885-905 | the rows from y on keep the total |
| Erosion.ThermalConserves | Assets/Scripts/CustomTerrain.cs:883-907 | thermal erosion keeps the total height of the map |
| Erosion.Tidal | Assets/Scripts/CustomTerrain.cs:909-932 | one in-place sweep of the tidal rule |
| Erosion.TowardTrans | Assets/Scripts/CustomTerrain.cs:922-926 | "each cell kept or set to the water line" composes |
| Erosion.CalmStable | Assets/Scripts/CustomTerrain.cs:922 | a settled cell stays settled while cells only move to the water line |
| Erosion.TidalMoveToward | Assets/Scripts/CustomTerrain.cs:922-926 | the only value the tidal rule writes is `waterHeight` |
| Erosion.TidalOverSettles | Assets/Scripts/CustomTerrain.cs:920-927 | after a cell's neighbour loop the cell is at or above the water line, or none of its neighbours is above it |
| Erosion.TidalCellSettles | Assets/Scripts/CustomTerrain.cs:917-928 | the rule leaves its cell settled |
| Erosion.TidalRowSettles | Assets/Scripts/CustomTerrain.cs:915-929 | a row leaves every cell up to its end settled |
| Erosion.TidalPassSettles | Assets/Scripts/CustomTerrain.cs:913-930 | the rows from y on leave every cell settled |
| Erosion.TidalSettles | Assets/Scripts/CustomTerrain.cs:909-932 | after one sweep every cell is its old value or `waterHeight`, and every cell is settled |
| Erosion.TidalOverCalm | Assets/Scripts/CustomTerrain.cs:920-927 | at a settled cell the neighbour loop changes nothing |
| Erosion.TidalRowCalm | Assets/Scripts/CustomTerrain.cs:915-929 | on a settled grid a row changes nothing |
| Erosion.TidalPassCalm | Assets/Scripts/CustomTerrain.cs:913-930 | on a settled grid a sweep changes nothing |
| Erosion.TidalIdempotent | Assets/Scripts/CustomTerrain.cs:909-932 | a second tidal sweep changes nothing |
| Erosion.Hits | Assets/Scripts/CustomTerrain.cs:875-877 | how many droplets land on a cell (no contract; `LossIsHits`) |
| Erosion.Rained | Assets/Scripts/CustomTerrain.cs:875-878 | the droplets in order, each lowering its cell by the strength; its contract keeps the grid R × R (`RainSum`, `RainCells`) |
| River.ShufflesNeighbourly | Assets/Scripts/CustomTerrain.cs:973-974 | a permutation of the neighbour list lists only in-grid cells adjacent to the position |
| River.ShuffledInside | Assets/Scripts/CustomTerrain.cs:974-979 | a shuffled list lies on the grid |
| River.ShuffledAdjacent | Assets/Scripts/CustomTerrain.cs:974-979 | every shuffled cell is adjacent to the position |
| River.FirstLower | Assets/Scripts/CustomTerrain.cs:979-990 | `foreach ... break` stops at the first strictly lower cell; every cell before it is not lower |
| River.Target | Assets/Scripts/CustomTerrain.cs:972-995 | the walk's next cell is on the grid, and it is the current cell or a listed, strictly lower one |
| River.TargetAdjacent | Assets/Scripts/CustomTerrain.cs:972-995 | that cell is the current one or adjacent to it |
| River.WalkStep | Assets/Scripts/CustomTerrain.cs:971-996 | one loop step: the target gets `erosion − solubility`; the termination measure ⌊erosion/solubility⌋ is non-negative and strictly drops |
| River.DescendsSteps | Assets/Scripts/CustomTerrain.cs:981-986 | a downhill route lists only in-grid cells, each move adjacent and strictly lower |
| River.DescendsCons | Assets/Scripts/CustomTerrain.cs:981-986 | a downhill route entered from a higher adjacent cell stays downhill |
| River.WalkStart | Assets/Scripts/CustomTerrain.cs:969-998 | the route starts at the droplet position and is never empty, and the shuffle counter only moves forward |
| River.WalkDescends | Assets/Scripts/CustomTerrain.cs:969-998 | the walk moves only to adjacent cells strictly lower in `heightMap` |
| River.WalkKeeps | Assets/Scripts/CustomTerrain.cs:969-998 | the walk changes the erosion map only on the cells of its route |
| River.WalkAtMost | Assets/Scripts/CustomTerrain.cs:969-998 | the walk never raises the largest erosion value |
| River.SpringsStep | Assets/Scripts/CustomTerrain.cs:945-949 | each spring is one more walk from the same droplet position |
| River.SpringsAtMost | Assets/Scripts/CustomTerrain.cs:945-949 | the springs never raise the largest erosion value |
| River.RiversAtMost | Assets/Scripts/CustomTerrain.cs:938-950 | no erosion entry exceeds max(erosionStrength, 0) |
| River.CarvedLowers | Assets/Scripts/CustomTerrain.cs:951-962 | carving lowers a cell with a positive entry by exactly that entry and keeps every other cell |
| River.RiverBounds | Assets/Scripts/CustomTerrain.cs:934-966 | `River` never raises a cell and lowers none by more than max(erosionStrength, 0) |
| River.FindLower | Assets/Scripts/CustomTerrain.cs:979-990 | the search loop returns the index `FirstLower` names |
| River.TargetAt | Assets/Scripts/CustomTerrain.cs:972-990 | neighbour list, shuffle and search give the walk's target |
| River.RunRiver | Assets/Scripts/CustomTerrain.cs:969-998 | with solubility > 0 the loop terminates; it writes only the erosion map, which ends as `Walk` says |
| River.River | Assets/Scripts/CustomTerrain.cs:934-966 | the heightmap ends as `Eroded`: droplets and springs fill a fresh erosion map, then positive entries are subtracted |
| River.RiversStep | Assets/Scripts/CustomTerrain.cs:938-950 | droplet i marks its start and runs its springs over the map the earlier droplets left |
| River.Droplet | Assets/Scripts/CustomTerrain.cs:941-949 | one droplet: mark its start with `erosionStrength`, then run its springs |
| River.SpringsAt | Assets/Scripts/CustomTerrain.cs:945-949 | the `springsPerRiver` walks, all from the droplet position |
| River.CarveAt | Assets/Scripts/CustomTerrain.cs:951-962 | the final loops subtract every positive erosion entry |
| River.Shuffles | Assets/Scripts/CustomTerrain.cs:973-974 | every shuffle of an in-grid position is a permutation of its `GenerateNeighbours` list (the ghost requirement of `River`) |
| River.Walk | Assets/Scripts/CustomTerrain.cs:969-998 | the erosion map, the route and the next shuffle index after `RunRiver` from p; its contract keeps the erosion map R × R (`WalkStart`, `WalkDescends`, `WalkKeeps`, `WalkAtMost`) |
| River.Springs | Assets/Scripts/CustomTerrain.cs:945-949 | `springsPerRiver` walks in turn from the droplet position; its contract keeps the map R × R (`SpringsStep`, `SpringsAtMost`) |
| River.Rivers | Assets/Scripts/CustomTerrain.cs:937-950 | the erosion map after every droplet, starting from the zero map; its contract keeps the map R × R (`RiversAtMost`) |
| River.Carved | Assets/Scripts/CustomTerrain.cs:951-963 | every positive erosion entry subtracted from its cell; its contract keeps the grid R × R (`CarvedLowers`) |
| River.Eroded | Assets/Scripts/CustomTerrain.cs:934-966 | `Carved` after `Rivers`; its contract keeps the grid R × R (`RiverBounds`) |
| Wind.Trunc | Assets/Scripts/CustomTerrain.cs:1013-1023 | C#'s `(int)` of a float truncates toward zero |
| Wind.TransferSum | Assets/Scripts/CustomTerrain.cs:1025-1026 | a grain moved from the dig cell to the pile cell keeps the total, and only those two cells change |
| Wind.WindCellSum | Assets/Scripts/CustomTerrain.cs:1012-1027 | one raster point keeps the total |
| Wind.WindRowSum | Assets/Scripts/CustomTerrain.cs:1010-1028 | one raster row keeps the total |
| Wind.WindPassSum | Assets/Scripts/CustomTerrain.cs:1008-1029 | the rows from y on keep the total |
| Wind.WindConserves | Assets/Scripts/CustomTerrain.cs:1000-1031 | wind keeps the total height of the map |
| Wind.WindCellAt | Assets/Scripts/CustomTerrain.cs:1012-1027 | the guard and the two writes at one raster point |
| Wind.WindRowAt | Assets/Scripts/CustomTerrain.cs:1010-1028 | the inner x loop over the rotated raster |
| Wind.Wind | Assets/Scripts/CustomTerrain.cs:1000-1031 | the grid after the whole raster, rows ten apart |
| Wind.WindAngles | Assets/Scripts/CustomTerrain.cs:1004-1006 | `sinAngle` and `cosAngle` for `WindDir` = 30 degrees (no contract: sin and cos are uninterpreted) |
| Wind.Rotate | Assets/Scripts/CustomTerrain.cs:1017-1018 | a raster point turned by the wind angles, as `digCoords` and `pileCoords` are built (no contract) |
| Wind.Gust | Assets/Scripts/CustomTerrain.cs:1012 | `thisNoise` at a raster point (no contract: Perlin noise is uninterpreted) |
| Wind.Dig | Assets/Scripts/CustomTerrain.cs:1013-1017 | the dig point: row `y + (int)thisNoise`, turned (no contract) |
| Wind.Pile | Assets/Scripts/CustomTerrain.cs:1013-1018 | the pile point: row `y + 5 + (int)thisNoise`, turned (no contract) |
| Wind.Lands | Assets/Scripts/CustomTerrain.cs:1020-1023 | the guard: the pile point untruncated and the dig point truncated both lie in [0, R - 1] (a predicate, no contract) |
| Wind.Transfer | Assets/Scripts/CustomTerrain.cs:1025-1026 | one grain from the dig cell to the pile cell, the dig cell lowered first; its contract keeps the grid R × R (`TransferSum`) |
| Wind.WindCell | Assets/Scripts/CustomTerrain.cs:1012-1027 | the guard and the transfer at one raster point; its contract keeps the grid R × R (`WindCellSum`) |
| Wind.WindRow | Assets/Scripts/CustomTerrain.cs:1010-1028 | raster points x, ..., 2R of one raster row; its contract keeps the grid R × R (`WindRowSum`) |
| Wind.WindPass | Assets/Scripts/CustomTerrain.cs:1008-1029 | raster rows y, y + 10, ... up to 2R; its contract keeps the grid R × R (`WindPassSum`) |
| Wind.Blown | Assets/Scripts/CustomTerrain.cs:1004-1029 | the whole raster from row -(R - 1) * 2; its contract keeps the grid R × R (`WindConserves`) |
| Canyon.MaxOf | Assets/Scripts/CustomTerrain.cs:1041 | an upper bound of a row |
| Canyon.Highest | Assets/Scripts/CustomTerrain.cs:1041 | an upper bound of every height of the map |
| Canyon.RungStep | Assets/Scripts/CustomTerrain.cs:1064-1069 | one rise of `slope` closes one rung of a positive gap |
| Canyon.RungsMono | Assets/Scripts/CustomTerrain.cs:1064-1069 | a wider gap takes at least as many rises |
| Canyon.DepthDrops | Assets/Scripts/CustomTerrain.cs:1064-1069 | each nested call raises `height` by at least `slope`, so the recursion measure drops |
| Canyon.TopIdle | Assets/Scripts/CustomTerrain.cs:1060-1062 | where the crawler digs, `height` is below the map's highest value |
| Canyon.DugTrans | Assets/Scripts/CustomTerrain.cs:1062 | "only dug" composes |
| Canyon.CrawlDigs | Assets/Scripts/CustomTerrain.cs:1055-1070 | a crawl changes a cell only by lowering it strictly and never to or below `maxDepth` |
| Canyon.SpreadDigs | Assets/Scripts/CustomTerrain.cs:1064-1069 | the six nested calls only dig |
| Canyon.CrawlLowersCell | Assets/Scripts/CustomTerrain.cs:1057-1069 | a crawl that is not stopped leaves its cell at most `height` |
| Canyon.SpreadStep | Assets/Scripts/CustomTerrain.cs:1064-1069 | one nested call, then the remaining ones |
| Canyon.CanyonedDigs | Assets/Scripts/CustomTerrain.cs:1035-1053 | `Canyon` only digs, and never to or below `maxDepth` = 0 |
| Canyon.CanyonedStep | Assets/Scripts/CustomTerrain.cs:1046-1051 | one iteration: a crawler from (cX, cY), dug `digDepth` below the cell, then the walk from the stepped position |
| Canyon.CanyonCrawler | Assets/Scripts/CustomTerrain.cs:1055-1070 | the four guards, the write and the six nested calls in order; it terminates; its writes are in bounds |
| Canyon.CrawlerBranches | Assets/Scripts/CustomTerrain.cs:1064-1069 | the nested calls from the k-th on |
| Canyon.CrawlerBranch | Assets/Scripts/CustomTerrain.cs:1064-1069 | the k-th nested call, with a fresh slope draw |
| Canyon.Canyon | Assets/Scripts/CustomTerrain.cs:1035-1053 | the map after the crawler walk from column 1 |
| Canyon.CanyonWalk | Assets/Scripts/CustomTerrain.cs:1044-1051 | the `while` loop leaves the map as `Canyoned` says, and it terminates because `cX` grows by 1 or 2 each iteration |
| Canyon.CanyonStepAt | Assets/Scripts/CustomTerrain.cs:1046-1050 | one iteration of the loop |
| Canyon.Rises | Assets/Scripts/CustomTerrain.cs:1064-1069 | every bank-slope draw lies in [slope, slope + 0.01] (a ghost requirement of `Canyon`) |
| Canyon.Steps | Assets/Scripts/CustomTerrain.cs:1049 | every column step is 1 or 2 (a ghost requirement of `Canyon`) |
| Canyon.Stops | Assets/Scripts/CustomTerrain.cs:1057-1060 | the four guards of `CanyonCrawler`, plus the ghost stop at `top` (no contract; `TopIdle`) |
| Canyon.Crawl | Assets/Scripts/CustomTerrain.cs:1055-1070 | the grid and slope-draw count after one `CanyonCrawler` call; its contract keeps the grid R × R (`CrawlDigs`, `CrawlLowersCell`) |
| Canyon.Spread | Assets/Scripts/CustomTerrain.cs:1064-1069 | the nested calls from the k-th on, each from `height` plus its draw; its contract keeps the grid R × R (`SpreadDigs`) |
| Canyon.Canyoned | Assets/Scripts/CustomTerrain.cs:1043-1051 | the `while` loop from (cX, cY) while the position is on the map; its contract keeps the grid R × R (`CanyonedDigs`) |
| Splat.TotalScaled | Assets/Scripts/CustomTerrain.cs:554-557 | dividing every weight by c divides the total by c |
| Splat.NormalizedSumsToOne | Assets/Scripts/CustomTerrain.cs:547-558 | weights with a non-zero total add up to one afterwards |
| Splat.NormalizedIdempotent | Assets/Scripts/CustomTerrain.cs:547-558 | normalising twice is normalising once |
| Splat.NormalizeVector | Assets/Scripts/CustomTerrain.cs:547-558 | the array is left alone when its total is zero, otherwise each weight is divided by the total |
| Splat.Total | Assets/Scripts/CustomTerrain.cs:549-553 | the weights added first to last (no contract; `TotalScaled`) |
| Splat.Scaled | Assets/Scripts/CustomTerrain.cs:555-558 | every weight divided by the total; its contract keeps the length |
| Splat.Normalized | Assets/Scripts/CustomTerrain.cs:547-558 | the weights left alone on a zero total, otherwise scaled; its contract keeps the length (`NormalizedSumsToOne`, `NormalizedIdempotent`) |

## Left out

- Host terrain I/O is not modelled: `terrainData.GetHeights`, `SetHeights`,
  `Terrain.activeTerrain` and the `resetTerrain` switch of `GetHeightMap`. The
  caller passes the grid in and reads it back; with `resetTerrain` set, that
  grid is a fresh zero grid.
- `Noise.RidgeNoise` takes the grid `MultiplePerlinTerrain` leaves as the one
  it folds, which is what the source does when `resetTerrain` is off. With it
  on, the source's second `GetHeightMap` reads a fresh zero grid instead.
  That depends on the host switch, which is not modelled.
- `Start`, `OnEnable` and `AddTag` are not modelled. They operate on Unity's
  project settings.
- These consumers of host textures, assets and physics are not modelled:
  `LoadTextureTerrain`, `SplatMaps`, `PlantVegetation`, `AddDetails`,
  `AddWater` and the clouds. Assets/Clouds is not part of this model.
- `AddNewPerlin` and the other `AddNew*` methods are not modelled. They only
  append a default entry.
- The editor's progress bars in `SmoothTerrain` are left out. They are UI.
- The `Erode` dispatcher is left out. It only selects by `erosionType`.
- The random generators themselves are left out (`UnityEngine.Random`, and the
  `System.Random` behind `OrderBy`). Their draws are supplied values.
- The library math of `Noise.MathLib` is uninterpreted: fBM, Perlin noise,
  powers, sines, cosines and distances. `Utils.fBM`'s source is not part of
  this model.
- Heights are real numbers, so float rounding is not modelled. The
  single-precision constants (`Mathf.PI`, `Mathf.Deg2Rad`) are their
  exact float values.
- Neighbours.GenerateNeighbours: requires width, height >= 1. A terrain's
  resolution is always positive, and `Mathf.Clamp` with an empty range is
  not modelled.
- Voronoi.Voronoi: requires a non-zero `voronoiDropOff` for the SinPow variant
  and a non-zero grid diagonal. In floats, those divisions by zero give
  infinities, which reals do not have.
- Voronoi.DropPeak: the falloff enters the proofs only through `FalloffsOf`, a
  function value. Nothing is proved about its size, so the properties hold
  for all falloff variants alike.
- Midpoint.MidPointDisplacement: requires every square size the loop visits to
  tile R - 1. That holds for Unity's resolutions 2^k + 1 (`Midpoint.Pow2Tiles`).
  For other widths the source reads beyond the array and throws, which is not
  modelled.
- Midpoint.MidPointDisplacement: the draws `rnd` are not required to lie in
  [heightMin, heightMax], the range `Random.Range` is given at lines 342 and
  363-366. No property proved here depends on the values drawn.
- Midpoint.MidPointDisplacement: the draws are keyed by round, square and
  slot. They can depend on the damped range, but not on the number of
  earlier draws.
- Erosion.Rained: a droplet off the grid is passed over, and River.Rivers
  does the same for a droplet source off the grid. `Rain` and `River` draw
  every position on the grid, so these guards never fire in the methods.
- River.FirstLower: a listed cell off the grid is passed over. The shuffled
  lists hold none.
- River.RunRiver: proved for every shuffle whose lists hold only in-grid
  cells adjacent to the position. That covers permutations of the neighbour
  list (River.ShufflesNeighbourly) and is weaker than requiring a
  permutation.
- River.River: `springsPerRiver`, `droplets` and `erosionStrength` may take any
  value. The editor's ranges are not required.
- Canyon.Crawl: carries a ghost upper bound `top` of the heights and also stops
  once `height` reaches it. While the map lies below `top`, that stop never
  decides anything (`Canyon.TopIdle`). It exists only to measure the
  recursion's depth.
- Canyon.Canyon: the start row `cY` and the row steps may be any integers. The
  source's ranges `Random.Range(10, R - 10)` and `Random.Range(-2, 3)` are not
  required, since nothing depends on them.
