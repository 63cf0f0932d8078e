/** The raster sweep shared by `SmoothTerrain`, `Thermal` and `Tidal`: y outer,
    x inner, and at each cell (x, y) a rule that reads and rewrites the grid in
    place through the cell's neighbour list.  Because the sweep is in place, a
    cell sees the already rewritten values of the cells before it. */
module Sweep {
  import opened Heightmap
  import opened Neighbours

  /** The neighbour list of a grid cell lies inside the grid. */
  lemma NeighboursInside(p: Pos, n: int)
    requires n >= 1
    ensures forall k :: 0 <= k < |Neighbours.Neighbours(p, n, n)| ==> InRect(Neighbours.Neighbours(p, n, n)[k], n, n)
  {
    NeighboursSound(p, n, n);
  }

  predicate AllIn(g: Grid, ns: seq<Pos>) {
    forall k :: 0 <= k < |ns| ==> InGrid(g, ns[k].x, ns[k].y)
  }

  /** `GenerateNeighbours(new Vector2(x, y), R, R)` for the R x R grid g. */
  function Around(g: Grid, x: int, y: int): (ns: seq<Pos>)
    requires InGrid(g, x, y)
    ensures AllIn(g, ns)
  {
    NeighboursInside(Pos(x, y), |g|);
    Neighbours.Neighbours(Pos(x, y), |g|, |g|)
  }

  /** What each sweep does at one cell. */
  datatype Rule =
    | Smoothing
    | ThermalRule(strength: real, amount: real)
    | TidalRule(waterHeight: real)

  /** The heights of the listed cells, added in list order. */
  function NeighbourSum(g: Grid, ns: seq<Pos>): real
    requires IsGrid(g) && AllIn(g, ns)
  {
    if ns == [] then 0.0
    else
      var q := ns[|ns| - 1];
      NeighbourSum(g, ns[..|ns| - 1]) + g[q.x][q.y]
  }

  /** `SmoothTerrain` at (x, y): the mean of the cell and its listed neighbours. */
  function SmoothCell(g: Grid, x: int, y: int): (r: Grid)
    requires IsGrid(g) && InGrid(g, x, y)
    ensures IsGrid(r) && |r| == |g|
  {
    var ns := Around(g, x, y);
    Set(g, x, y, Mean(g[x][y], NeighbourSum(g, ns), |ns|))
  }

  /** The mean of a height a and m further heights whose sum is s. */
  function Mean(a: real, s: real, m: nat): real {
    (a + s) / (m as real + 1.0)
  }

  /** The part of height h that one `Thermal` move carries away. */
  function Share(h: real, amount: real): real {
    h * amount
  }

  /** `Thermal` for one neighbour q of (x, y): when the cell stands more than
      `strength` above q, the share `h * amount` of its height h moves to q. */
  function ThermalMove(g: Grid, x: int, y: int, q: Pos, strength: real, amount: real): (r: Grid)
    requires IsGrid(g) && InGrid(g, x, y) && InGrid(g, q.x, q.y)
    ensures IsGrid(r) && |r| == |g|
  {
    if g[x][y] > g[q.x][q.y] + strength then
      var moved := Share(g[x][y], amount);
      var g1 := Set(g, x, y, g[x][y] - moved);
      Set(g1, q.x, q.y, g1[q.x][q.y] + moved)
    else g
  }

  /** `Thermal` at (x, y): the moves for the listed neighbours, in list order. */
  function ThermalOver(g: Grid, x: int, y: int, ns: seq<Pos>, strength: real, amount: real): (r: Grid)
    requires IsGrid(g) && InGrid(g, x, y) && AllIn(g, ns)
    ensures IsGrid(r) && |r| == |g|
  {
    if ns == [] then g
    else
      var pre := ThermalOver(g, x, y, ns[..|ns| - 1], strength, amount);
      ThermalMove(pre, x, y, ns[|ns| - 1], strength, amount)
  }

  /** `Tidal` for one neighbour q of (x, y): a cell below the water line next to
      a cell above it sets both to the water line. */
  function TidalMove(g: Grid, x: int, y: int, q: Pos, w: real): (r: Grid)
    requires IsGrid(g) && InGrid(g, x, y) && InGrid(g, q.x, q.y)
    ensures IsGrid(r) && |r| == |g|
  {
    if g[x][y] < w && g[q.x][q.y] > w then Set(Set(g, x, y, w), q.x, q.y, w) else g
  }

  /** `Tidal` at (x, y): the moves for the listed neighbours, in list order. */
  function TidalOver(g: Grid, x: int, y: int, ns: seq<Pos>, w: real): (r: Grid)
    requires IsGrid(g) && InGrid(g, x, y) && AllIn(g, ns)
    ensures IsGrid(r) && |r| == |g|
  {
    if ns == [] then g
    else TidalMove(TidalOver(g, x, y, ns[..|ns| - 1], w), x, y, ns[|ns| - 1], w)
  }

  /** The rule applied at one cell. */
  function Cell(rule: Rule, g: Grid, x: int, y: int): (r: Grid)
    requires IsGrid(g) && InGrid(g, x, y)
    ensures IsGrid(r) && |r| == |g|
  {
    match rule
    case Smoothing => SmoothCell(g, x, y)
    case ThermalRule(s, a) => ThermalOver(g, x, y, Around(g, x, y), s, a)
    case TidalRule(w) => TidalOver(g, x, y, Around(g, x, y), w)
  }

  /** The cells (x, y), (x + 1, y), ..., (R - 1, y) of row y, in that order. */
  function Row(rule: Rule, g: Grid, x: int, y: int): (r: Grid)
    requires IsGrid(g) && 0 <= x <= |g| && 0 <= y < |g|
    ensures IsGrid(r) && |r| == |g|
    decreases |g| - x
  {
    if x == |g| then g else Row(rule, Cell(rule, g, x, y), x + 1, y)
  }

  /** The rows y, y + 1, ..., R - 1, in that order. */
  function Pass(rule: Rule, g: Grid, y: int): (r: Grid)
    requires IsGrid(g) && 0 <= y <= |g|
    ensures IsGrid(r) && |r| == |g|
    decreases |g| - y
  {
    if y == |g| then g else Pass(rule, Row(rule, g, 0, y), y + 1)
  }

  lemma PassStep(rule: Rule, g: Grid, y: int)
    requires IsGrid(g) && 0 <= y < |g|
    ensures Pass(rule, g, y) == Pass(rule, Row(rule, g, 0, y), y + 1)
  {
  }

  lemma PassDone(rule: Rule, g: Grid)
    requires IsGrid(g)
    ensures Pass(rule, g, |g|) == g
  {
  }

  /** One whole sweep. */
  function SweepOnce(rule: Rule, g: Grid): (r: Grid)
    requires IsGrid(g)
    ensures IsGrid(r) && |r| == |g|
  {
    Pass(rule, g, 0)
  }

  method SmoothCellAt(hm: array2<real>, x: int, y: int)
    requires hm.Length0 == hm.Length1
    requires 0 <= x < hm.Length0 && 0 <= y < hm.Length1
    modifies hm
    ensures View(hm) == SmoothCell(old(View(hm)), x, y)
  {
    ghost var g := View(hm);
    var n := hm.Length0;
    var avgHeight := hm[x, y];
    var neighbours := GenerateNeighbours(Pos(x, y), n, n);
    assert neighbours == Around(g, x, y);
    for i := 0 to |neighbours|
      invariant avgHeight == g[x][y] + NeighbourSum(g, neighbours[..i])
    {
      assert neighbours[..i + 1][..i] == neighbours[..i];
      var q := neighbours[i];
      avgHeight := avgHeight + hm[q.x, q.y];
    }
    assert neighbours[..|neighbours|] == neighbours;
    Put(hm, x, y, avgHeight / (|neighbours| as real + 1.0));
    assert avgHeight / (|neighbours| as real + 1.0) == Mean(g[x][y], NeighbourSum(g, neighbours), |neighbours|);
  }

  method ThermalCellAt(hm: array2<real>, x: int, y: int, strength: real, amount: real)
    requires hm.Length0 == hm.Length1
    requires 0 <= x < hm.Length0 && 0 <= y < hm.Length1
    modifies hm
    ensures View(hm) == ThermalOver(old(View(hm)), x, y, Around(old(View(hm)), x, y), strength, amount)
  {
    ghost var g := View(hm);
    var n := hm.Length0;
    var neighbours := GenerateNeighbours(Pos(x, y), n, n);
    assert neighbours == Around(g, x, y);
    for i := 0 to |neighbours|
      invariant View(hm) == ThermalOver(g, x, y, neighbours[..i], strength, amount)
    {
      assert neighbours[..i + 1][..i] == neighbours[..i];
      var q := neighbours[i];
      ThermalMoveAt(hm, x, y, q, strength, amount);
    }
    assert neighbours[..|neighbours|] == neighbours;
  }

  /** One neighbour of the `Thermal` loop. */
  method ThermalMoveAt(hm: array2<real>, x: int, y: int, q: Pos, strength: real, amount: real)
    requires hm.Length0 == hm.Length1
    requires 0 <= x < hm.Length0 && 0 <= y < hm.Length1
    requires 0 <= q.x < hm.Length0 && 0 <= q.y < hm.Length1
    modifies hm
    ensures View(hm) == ThermalMove(old(View(hm)), x, y, q, strength, amount)
  {
    if hm[x, y] > hm[q.x, q.y] + strength {
      var currentHeight := hm[x, y];
      Put(hm, x, y, hm[x, y] - Share(currentHeight, amount));
      Put(hm, q.x, q.y, hm[q.x, q.y] + Share(currentHeight, amount));
    }
  }

  method TidalCellAt(hm: array2<real>, x: int, y: int, waterHeight: real)
    requires hm.Length0 == hm.Length1
    requires 0 <= x < hm.Length0 && 0 <= y < hm.Length1
    modifies hm
    ensures View(hm) == TidalOver(old(View(hm)), x, y, Around(old(View(hm)), x, y), waterHeight)
  {
    ghost var g := View(hm);
    var n := hm.Length0;
    var neighbours := GenerateNeighbours(Pos(x, y), n, n);
    assert neighbours == Around(g, x, y);
    for i := 0 to |neighbours|
      invariant View(hm) == TidalOver(g, x, y, neighbours[..i], waterHeight)
    {
      assert neighbours[..i + 1][..i] == neighbours[..i];
      var q := neighbours[i];
      if hm[x, y] < waterHeight && hm[q.x, q.y] > waterHeight {
        Put(hm, x, y, waterHeight);
        Put(hm, q.x, q.y, waterHeight);
      }
    }
    assert neighbours[..|neighbours|] == neighbours;
  }

  method CellAt(hm: array2<real>, rule: Rule, x: int, y: int)
    requires hm.Length0 == hm.Length1
    requires 0 <= x < hm.Length0 && 0 <= y < hm.Length1
    modifies hm
    ensures View(hm) == Cell(rule, old(View(hm)), x, y)
  {
    match rule
    case Smoothing => SmoothCellAt(hm, x, y);
    case ThermalRule(s, a) => ThermalCellAt(hm, x, y, s, a);
    case TidalRule(w) => TidalCellAt(hm, x, y, w);
  }

  /** The inner `for x` loop for row y. */
  method RowAt(hm: array2<real>, rule: Rule, y: int)
    requires hm.Length0 == hm.Length1
    requires 0 <= y < hm.Length1
    modifies hm
    ensures View(hm) == Row(rule, old(View(hm)), 0, y)
  {
    ghost var goal := Row(rule, View(hm), 0, y);
    ghost var current := View(hm);
    for x := 0 to hm.Length0
      invariant IsGrid(current) && |current| == hm.Length0 && View(hm) == current
      invariant Row(rule, current, x, y) == goal
    {
      RowStepAt(hm, rule, x, y, goal);
      current := View(hm);
    }
  }

  /** One cell of the row: the rest of the row is what is left to do. */
  method RowStepAt(hm: array2<real>, rule: Rule, x: int, y: int, ghost goal: Grid)
    requires hm.Length0 == hm.Length1
    requires 0 <= x < hm.Length0 && 0 <= y < hm.Length1
    requires Row(rule, View(hm), x, y) == goal
    modifies hm
    ensures Row(rule, View(hm), x + 1, y) == goal
  {
    CellAt(hm, rule, x, y);
  }

  /** Both loops: one sweep of the rule over the whole grid. */
  method SweepAt(hm: array2<real>, rule: Rule)
    requires hm.Length0 == hm.Length1
    modifies hm
    ensures View(hm) == SweepOnce(rule, old(View(hm)))
  {
    ghost var g := View(hm);
    ghost var current := g;
    var n := hm.Length0;
    for y := 0 to n
      invariant IsGrid(current) && |current| == n
      invariant View(hm) == current
      invariant Pass(rule, current, y) == Pass(rule, g, 0)
    {
      PassStep(rule, current, y);
      RowAt(hm, rule, y);
      current := Row(rule, current, 0, y);
    }
    PassDone(rule, current);
  }
}
