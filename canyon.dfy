/** `Canyon` and its recursive `CanyonCrawler`.  The crawler lowers a cell to
    `height` and spreads to six neighbours with `height` raised by a random
    bank slope; it stops off the map, at or below `maxDepth`, and where the
    terrain is already at or below `height`.  `Canyon` starts crawlers along a
    random walk from column 1 towards the far edge.

    The crawler recurses on `tempHeightMap`, a field of the component; here it
    is the array `hm` that `Canyon` passes down.  Each crawl also carries `top`,
    an upper bound of the heights: the height rises by at least the slope on
    every nested call, so `top` measures how deep the recursion can go.  The
    model's crawl also stops once `height` reaches `top`; while every cell is
    at most `top` that test never decides anything, because the crawler stops
    anyway where the terrain is at or below `height` (`TopIdle`). */
module Canyon {
  import opened Heightmap
  import opened Neighbours
  import opened Noise

  const DigDepth: real := 0.05
  const BankSlope: real := 0.001
  const MaxDepth: real := 0.0

  /** Every bank-slope draw is `Random.Range(slope, slope + 0.01f)`. */
  ghost predicate Rises(rise: nat -> real, slope: real) {
    forall k :: Between(rise(k), slope, slope + 0.01)
  }

  /** Every column step is `Random.Range(1, 3)`: 1 or 2. */
  ghost predicate Steps(stepX: nat -> int) {
    forall k :: 1 <= stepX(k) <= 2
  }

  /** The largest entry of s (0 for the empty row). */
  function MaxOf(s: seq<real>): (m: real)
    ensures forall i :: 0 <= i < |s| ==> s[i] <= m
  {
    if s == [] then 0.0
    else
      var r := MaxOf(s[..|s| - 1]);
      if s[|s| - 1] > r then s[|s| - 1] else r
  }

  /** A bound of every height of g. */
  function Highest(g: Grid): (m: real)
    requires IsGrid(g)
    ensures AtMost(g, m)
  {
    var rows := seq(|g|, i requires 0 <= i < |g| => MaxOf(g[i]));
    assert forall i, j :: 0 <= i < |g| && 0 <= j < |g| ==> g[i][j] <= rows[i];
    MaxOf(rows)
  }

  /** How many rises of `slope` it takes to close a gap (0 for a closed one). */
  function Rungs(gap: real, slope: real): nat
    requires slope > 0.0
    decreases (gap / slope).Floor
  {
    if gap <= 0.0 then 0
    else
      RungStep(gap, slope);
      1 + Rungs(gap - slope, slope)
  }

  /** Closing one rung of a positive gap lowers the rung count's measure by one. */
  lemma RungStep(gap: real, slope: real)
    requires slope > 0.0 && gap > 0.0
    ensures ((gap - slope) / slope).Floor == (gap / slope).Floor - 1
    ensures 0 <= (gap / slope).Floor
  {
    assert slope / slope == 1.0;
    assert (gap - slope) / slope == gap / slope - slope / slope;
  }

  /** A wider gap takes at least as many steps. */
  lemma {:induction false} RungsMono(a: real, b: real, slope: real)
    requires slope > 0.0 && a <= b
    ensures Rungs(a, slope) <= Rungs(b, slope)
    decreases Rungs(b, slope)
  {
    if a > 0.0 {
      RungsMono(a - slope, b - slope, slope);
    }
  }

  /** How many more times the height can rise by `slope` before it passes `top`. */
  function Depth(top: real, height: real, slope: real): nat
    requires slope > 0.0
  {
    Rungs(top - height, slope)
  }

  /** A rise of at least `slope` from below `top` uses up a step. */
  lemma DepthDrops(top: real, height: real, r: real, slope: real)
    requires slope > 0.0 && r >= slope && height < top
    ensures Depth(top, height + r, slope) < Depth(top, height, slope)
  {
    RungsMono(top - (height + r), top - height - slope, slope);
  }

  /** The height never reaches `top` where the crawler would dig: with every
      cell at most `top`, the stop at `top` of `Crawl` is never the one taken. */
  lemma TopIdle(g: Grid, top: real, x: int, y: int, height: real)
    requires IsGrid(g) && AtMost(g, top) && InGrid(g, x, y) && g[x][y] > height
    ensures height < top
  {
  }

  /** r differs from g only where it has been dug: each cell of r is the cell of
      g, or strictly lower than it and still above `maxDepth`. */
  predicate Dug(g: Grid, r: Grid, maxDepth: real)
    requires IsGrid(g) && IsGrid(r) && |r| == |g|
  {
    forall i, j :: 0 <= i < |g| && 0 <= j < |g| ==> r[i][j] == g[i][j] || maxDepth < r[i][j] < g[i][j]
  }

  lemma DugTrans(a: Grid, b: Grid, c: Grid, maxDepth: real)
    requires IsGrid(a) && IsGrid(b) && IsGrid(c) && |a| == |b| == |c|
    requires Dug(a, b, maxDepth) && Dug(b, c, maxDepth)
    ensures Dug(a, c, maxDepth)
  {
  }

  /** The six calls of `CanyonCrawler`, in order. */
  const Branches: seq<Pos> := [Pos(1, 0), Pos(-1, 0), Pos(1, 1), Pos(-1, 1), Pos(0, -1), Pos(0, 1)]

  /** The outcome of a crawl: the heightmap and the number of slope draws used. */
  datatype Crawled = Crawled(grid: Grid, draws: nat)

  /** The crawler stops: off the map, at or below `maxDepth`, where the terrain
      is at or below `height`, or (never, below `top`) at `top`. */
  predicate Stops(g: Grid, top: real, x: int, y: int, height: real, maxDepth: real)
    requires IsGrid(g)
  {
    x < 0 || x >= |g| || y < 0 || y >= |g| || height <= maxDepth || g[x][y] <= height || top <= height
  }

  /** `CanyonCrawler(x, y, height, slope, maxDepth)` on g, drawing the bank
      slopes `rise(t)`, `rise(t + 1)`, ... */
  function Crawl(g: Grid, top: real, x: int, y: int, height: real, slope: real, maxDepth: real,
                 rise: nat -> real, t: nat): (c: Crawled)
    requires IsGrid(g) && slope > 0.0 && Rises(rise, slope)
    ensures IsGrid(c.grid) && |c.grid| == |g|
    decreases Depth(top, height, slope), 1, 0
  {
    if Stops(g, top, x, y, height, maxDepth) then Crawled(g, t)
    else Spread(Set(g, x, y, height), top, x, y, height, slope, maxDepth, rise, t, 0)
  }

  /** The calls of `CanyonCrawler` from the k-th branch on. */
  function Spread(g: Grid, top: real, x: int, y: int, height: real, slope: real, maxDepth: real,
                  rise: nat -> real, t: nat, k: nat): (c: Crawled)
    requires IsGrid(g) && slope > 0.0 && Rises(rise, slope) && height < top && k <= 6
    ensures IsGrid(c.grid) && |c.grid| == |g|
    decreases Depth(top, height, slope), 0, 6 - k
  {
    if k == 6 then Crawled(g, t)
    else
      var o := Branches[k];
      DepthDrops(top, height, rise(t), slope);
      var c := Crawl(g, top, x + o.x, y + o.y, height + rise(t), slope, maxDepth, rise, t + 1);
      Spread(c.grid, top, x, y, height, slope, maxDepth, rise, c.draws, k + 1)
  }

  /** A crawl only digs: every cell it changes ends strictly lower and above
      `maxDepth`. */
  lemma {:induction false} CrawlDigs(g: Grid, top: real, x: int, y: int, height: real, slope: real, maxDepth: real,
                                     rise: nat -> real, t: nat)
    requires IsGrid(g) && slope > 0.0 && Rises(rise, slope)
    ensures Dug(g, Crawl(g, top, x, y, height, slope, maxDepth, rise, t).grid, maxDepth)
    decreases Depth(top, height, slope), 1, 0
  {
    if !Stops(g, top, x, y, height, maxDepth) {
      var g0 := Set(g, x, y, height);
      SetAt(g, x, y, height);
      SpreadDigs(g0, top, x, y, height, slope, maxDepth, rise, t, 0);
      DugTrans(g, g0, Spread(g0, top, x, y, height, slope, maxDepth, rise, t, 0).grid, maxDepth);
    }
  }

  lemma {:induction false} SpreadDigs(g: Grid, top: real, x: int, y: int, height: real, slope: real, maxDepth: real,
                                      rise: nat -> real, t: nat, k: nat)
    requires IsGrid(g) && slope > 0.0 && Rises(rise, slope) && height < top && k <= 6
    ensures Dug(g, Spread(g, top, x, y, height, slope, maxDepth, rise, t, k).grid, maxDepth)
    decreases Depth(top, height, slope), 0, 6 - k
  {
    if k < 6 {
      var o := Branches[k];
      DepthDrops(top, height, rise(t), slope);
      var c := Crawl(g, top, x + o.x, y + o.y, height + rise(t), slope, maxDepth, rise, t + 1);
      CrawlDigs(g, top, x + o.x, y + o.y, height + rise(t), slope, maxDepth, rise, t + 1);
      SpreadDigs(c.grid, top, x, y, height, slope, maxDepth, rise, c.draws, k + 1);
      DugTrans(g, c.grid, Spread(c.grid, top, x, y, height, slope, maxDepth, rise, c.draws, k + 1).grid, maxDepth);
    }
  }

  /** Where the crawler digs, its own cell ends at most `height`. */
  lemma CrawlLowersCell(g: Grid, top: real, x: int, y: int, height: real, slope: real, maxDepth: real,
                        rise: nat -> real, t: nat)
    requires IsGrid(g) && slope > 0.0 && Rises(rise, slope) && AtMost(g, top)
    requires InGrid(g, x, y) && maxDepth < height < g[x][y]
    ensures Crawl(g, top, x, y, height, slope, maxDepth, rise, t).grid[x][y] <= height
  {
    TopIdle(g, top, x, y, height);
    var g0 := Set(g, x, y, height);
    SetAt(g, x, y, height);
    SpreadDigs(g0, top, x, y, height, slope, maxDepth, rise, t, 0);
  }

  /** One branch of the crawler, as the method takes it. */
  lemma SpreadStep(g: Grid, top: real, x: int, y: int, height: real, slope: real, maxDepth: real,
                   rise: nat -> real, t: nat, k: nat)
    requires IsGrid(g) && slope > 0.0 && Rises(rise, slope) && height < top && k < 6
    ensures var c := Crawl(g, top, x + Branches[k].x, y + Branches[k].y, height + rise(t), slope, maxDepth, rise, t + 1);
      Spread(g, top, x, y, height, slope, maxDepth, rise, t, k) == Spread(c.grid, top, x, y, height, slope, maxDepth, rise, c.draws, k + 1)
  {
  }

  /** The walk of `Canyon` from column cX and row cY, the k-th column and row
      steps and the t-th slope draw being next. */
  function Canyoned(g: Grid, top: real, cX: int, cY: int, stepX: nat -> int, stepY: nat -> int, k: nat,
                    rise: nat -> real, t: nat): (c: Crawled)
    requires IsGrid(g) && Steps(stepX) && Rises(rise, BankSlope)
    ensures IsGrid(c.grid) && |c.grid| == |g|
    decreases |g| - cX
  {
    if 0 <= cY < |g| && 0 < cX < |g| then
      var c := Crawl(g, top, cX, cY, g[cX][cY] - DigDepth, BankSlope, MaxDepth, rise, t);
      Canyoned(c.grid, top, cX + stepX(k), cY + stepY(k), stepX, stepY, k + 1, rise, c.draws)
    else Crawled(g, t)
  }

  /** `Canyon` only digs, and never down to `maxDepth`. */
  lemma {:induction false} CanyonedDigs(g: Grid, top: real, cX: int, cY: int, stepX: nat -> int, stepY: nat -> int, k: nat,
                                        rise: nat -> real, t: nat)
    requires IsGrid(g) && Steps(stepX) && Rises(rise, BankSlope)
    ensures Dug(g, Canyoned(g, top, cX, cY, stepX, stepY, k, rise, t).grid, MaxDepth)
    decreases |g| - cX
  {
    if 0 <= cY < |g| && 0 < cX < |g| {
      var c := Crawl(g, top, cX, cY, g[cX][cY] - DigDepth, BankSlope, MaxDepth, rise, t);
      CrawlDigs(g, top, cX, cY, g[cX][cY] - DigDepth, BankSlope, MaxDepth, rise, t);
      CanyonedDigs(c.grid, top, cX + stepX(k), cY + stepY(k), stepX, stepY, k + 1, rise, c.draws);
      DugTrans(g, c.grid, Canyoned(c.grid, top, cX + stepX(k), cY + stepY(k), stepX, stepY, k + 1, rise, c.draws).grid, MaxDepth);
    }
  }

  /** One crawler of `Canyon`, as the method's loop takes it. */
  lemma CanyonedStep(g: Grid, top: real, cX: int, cY: int, dx: int, dy: int, stepX: nat -> int, stepY: nat -> int,
                     k: nat, height: real, rise: nat -> real, t: nat)
    requires IsGrid(g) && Steps(stepX) && Rises(rise, BankSlope)
    requires 0 <= cY < |g| && 0 < cX < |g| && dx == stepX(k) && dy == stepY(k) && height == g[cX][cY] - DigDepth
    ensures Canyoned(g, top, cX, cY, stepX, stepY, k, rise, t) ==
      Canyoned(Crawl(g, top, cX, cY, height, BankSlope, MaxDepth, rise, t).grid, top, cX + dx, cY + dy,
               stepX, stepY, k + 1, rise, Crawl(g, top, cX, cY, height, BankSlope, MaxDepth, rise, t).draws)
  {
  }

  /** `CanyonCrawler`; returns the number of the next unused slope draw. */
  method CanyonCrawler(hm: array2<real>, ghost top: real, x: int, y: int, height: real, slope: real, maxDepth: real,
                       rise: nat -> real, t: nat) returns (next: nat)
    requires hm.Length0 == hm.Length1 && AtMost(View(hm), top) && slope > 0.0 && Rises(rise, slope)
    modifies hm
    ensures AtMost(View(hm), top)
    ensures View(hm) == Crawl(old(View(hm)), top, x, y, height, slope, maxDepth, rise, t).grid
    ensures next == Crawl(old(View(hm)), top, x, y, height, slope, maxDepth, rise, t).draws
    decreases Depth(top, height, slope), 1, 0
  {
    next := t;
    var n := hm.Length0;
    if x < 0 || x >= n { return; }
    if y < 0 || y >= n { return; }
    if height <= maxDepth { return; }
    if hm[x, y] <= height { return; }
    ghost var g := View(hm);
    TopIdle(g, top, x, y, height);
    Put(hm, x, y, height);
    SetAt(g, x, y, height);
    next := CrawlerBranches(hm, top, x, y, height, slope, maxDepth, rise, next, 0);
  }

  /** The recursive calls of `CanyonCrawler` from the k-th on: (x + 1, y),
      (x - 1, y), (x + 1, y + 1), (x - 1, y + 1), (x, y - 1) and (x, y + 1) in
      turn, each with the height raised by a fresh bank-slope draw. */
  method CrawlerBranches(hm: array2<real>, ghost top: real, x: int, y: int, height: real, slope: real, maxDepth: real,
                         rise: nat -> real, t: nat, k: nat) returns (next: nat)
    requires hm.Length0 == hm.Length1 && AtMost(View(hm), top) && slope > 0.0 && Rises(rise, slope) && height < top && k <= 6
    modifies hm
    ensures AtMost(View(hm), top)
    ensures View(hm) == Spread(old(View(hm)), top, x, y, height, slope, maxDepth, rise, t, k).grid
    ensures next == Spread(old(View(hm)), top, x, y, height, slope, maxDepth, rise, t, k).draws
    decreases Depth(top, height, slope), 0, 2 * (6 - k) + 1
  {
    next := t;
    if k < 6 {
      next := CrawlerBranch(hm, top, x, y, height, slope, maxDepth, rise, t, k);
      next := CrawlerBranches(hm, top, x, y, height, slope, maxDepth, rise, next, k + 1);
    }
  }

  /** The k-th recursive call of `CanyonCrawler`. */
  method CrawlerBranch(hm: array2<real>, ghost top: real, x: int, y: int, height: real, slope: real, maxDepth: real,
                       rise: nat -> real, t: nat, k: nat) returns (next: nat)
    requires hm.Length0 == hm.Length1 && AtMost(View(hm), top) && slope > 0.0 && Rises(rise, slope) && height < top && k < 6
    modifies hm
    ensures AtMost(View(hm), top)
    ensures Spread(old(View(hm)), top, x, y, height, slope, maxDepth, rise, t, k)
         == Spread(View(hm), top, x, y, height, slope, maxDepth, rise, next, k + 1)
    decreases Depth(top, height, slope), 0, 2 * (6 - k)
  {
    var o := Branches[k];
    var r := rise(t);
    SpreadStep(View(hm), top, x, y, height, slope, maxDepth, rise, t, k);
    DepthDrops(top, height, r, slope);
    next := CanyonCrawler(hm, top, x + o.x, y + o.y, height + r, slope, maxDepth, rise, t + 1);
  }

  /** `Canyon`: `cY` is the draw `Random.Range(10, R - 10)`, `stepX(k)` and
      `stepY(k)` the k-th draws `Random.Range(1, 3)` and `Random.Range(-2, 3)`. */
  method Canyon(hm: array2<real>, cY: int, stepX: nat -> int, stepY: nat -> int, rise: nat -> real)
    requires hm.Length0 == hm.Length1 && Steps(stepX) && Rises(rise, BankSlope)
    modifies hm
    ensures View(hm) == Canyoned(old(View(hm)), Highest(old(View(hm))), 1, cY, stepX, stepY, 0, rise, 0).grid
  {
    CanyonWalk(hm, Highest(View(hm)), cY, stepX, stepY, rise);
  }

  /** The loop of `Canyon`, for heights all at most `top`. */
  method CanyonWalk(hm: array2<real>, ghost top: real, cY: int, stepX: nat -> int, stepY: nat -> int, rise: nat -> real)
    requires hm.Length0 == hm.Length1 && AtMost(View(hm), top) && Steps(stepX) && Rises(rise, BankSlope)
    modifies hm
    ensures View(hm) == Canyoned(old(View(hm)), top, 1, cY, stepX, stepY, 0, rise, 0).grid
  {
    var n := hm.Length0;
    ghost var goal := Canyoned(View(hm), top, 1, cY, stepX, stepY, 0, rise, 0).grid;
    var cX := 1;
    var cy := cY;
    var k: nat := 0;
    var t: nat := 0;
    while 0 <= cy < n && 0 < cX < n
      invariant AtMost(View(hm), top)
      invariant Canyoned(View(hm), top, cX, cy, stepX, stepY, k, rise, t).grid == goal
      decreases n - cX
    {
      var dx, dy := stepX(k), stepY(k);
      t := CanyonStepAt(hm, top, cX, cy, dx, dy, stepX, stepY, k, rise, t, goal);
      cX := cX + dx;
      cy := cy + dy;
      k := k + 1;
    }
  }

  /** One iteration of the loop of `Canyon`: a crawler from (cX, cY), dug
      `digDepth` below the cell. */
  method CanyonStepAt(hm: array2<real>, ghost top: real, cX: int, cY: int, dx: int, dy: int,
                      stepX: nat -> int, stepY: nat -> int, k: nat, rise: nat -> real, t: nat, ghost goal: Grid)
    returns (next: nat)
    requires hm.Length0 == hm.Length1 && AtMost(View(hm), top) && Steps(stepX) && Rises(rise, BankSlope)
    requires 0 <= cY < hm.Length0 && 0 < cX < hm.Length0 && dx == stepX(k) && dy == stepY(k)
    requires Canyoned(View(hm), top, cX, cY, stepX, stepY, k, rise, t).grid == goal
    modifies hm
    ensures AtMost(View(hm), top)
    ensures Canyoned(View(hm), top, cX + dx, cY + dy, stepX, stepY, k + 1, rise, next).grid == goal
  {
    var digDepth := DigDepth;
    var bankSlope := BankSlope;
    var maxDepth := MaxDepth;
    var height := hm[cX, cY] - digDepth;
    CanyonedStep(View(hm), top, cX, cY, dx, dy, stepX, stepY, k, height, rise, t);
    next := CanyonCrawler(hm, top, cX, cY, height, bankSlope, maxDepth, rise, t);
  }
}
