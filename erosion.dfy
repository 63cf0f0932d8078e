/** The local erosion models of CustomTerrain: `Rain` (droplets remove a fixed
    amount where they land), `Thermal` (material slides from a cell to lower
    neighbours) and `Tidal` (cells next to the water line are flattened to it). */
module Erosion {
  import opened Heightmap
  import opened Neighbours
  import opened Sweep

  // ----- Rain -----

  /** The grid after the droplets have landed, in order, each lowering its cell
      by `strength`.  A droplet off the grid is passed over; `Rain` draws every
      droplet on the grid, so this never happens there. */
  function Rained(g: Grid, drops: seq<Pos>, strength: real): (r: Grid)
    requires IsGrid(g)
    ensures IsGrid(r) && |r| == |g|
  {
    if drops == [] then g
    else
      var pre := Rained(g, drops[..|drops| - 1], strength);
      var d := drops[|drops| - 1];
      if InGrid(pre, d.x, d.y) then Set(pre, d.x, d.y, pre[d.x][d.y] - strength) else pre
  }

  /** How many droplets land on p. */
  function Hits(drops: seq<Pos>, p: Pos): nat {
    if drops == [] then 0
    else Hits(drops[..|drops| - 1], p) + (if drops[|drops| - 1] == p then 1 else 0)
  }

  /** `Rain`: `droplets` times, a cell drawn by `Random.Range(0, R)` twice loses
      `erosionStrength`.  The draws are the list `drops`, one position per droplet. */
  method Rain(hm: array2<real>, drops: seq<Pos>, erosionStrength: real)
    requires hm.Length0 == hm.Length1
    requires forall k :: 0 <= k < |drops| ==> 0 <= drops[k].x < hm.Length0 && 0 <= drops[k].y < hm.Length0
    modifies hm
    ensures View(hm) == Rained(old(View(hm)), drops, erosionStrength)
  {
    ghost var g := View(hm);
    for i := 0 to |drops|
      invariant View(hm) == Rained(g, drops[..i], erosionStrength)
    {
      assert drops[..i + 1][..i] == drops[..i];
      var d := drops[i];
      Put(hm, d.x, d.y, hm[d.x, d.y] - erosionStrength);
    }
    assert drops[..|drops|] == drops;
  }

  /** Rain removes exactly `droplets * erosionStrength` from the terrain. */
  lemma {:induction false} RainSum(g: Grid, drops: seq<Pos>, strength: real)
    requires IsGrid(g) && AllIn(g, drops)
    ensures Sum(Rained(g, drops, strength)) == Sum(g) - |drops| as real * strength
  {
    if drops != [] {
      var n := |drops| - 1;
      RainSum(g, drops[..n], strength);
      RainStepSum(g, drops, strength);
      MulStep(n, strength);
    }
  }

  /** The last droplet lowers the sum by `strength`. */
  lemma RainStepSum(g: Grid, drops: seq<Pos>, strength: real)
    requires IsGrid(g) && drops != [] && AllIn(g, drops)
    ensures Sum(Rained(g, drops, strength)) == Sum(Rained(g, drops[..|drops| - 1], strength)) - strength
  {
    var pre := Rained(g, drops[..|drops| - 1], strength);
    var d := drops[|drops| - 1];
    SumSet(pre, d.x, d.y, pre[d.x][d.y] - strength);
  }

  lemma MulStep(n: nat, v: real)
    ensures (n + 1) as real * v == n as real * v + v
  {
  }

  /** The loss of cell (i, j), added up droplet by droplet. */
  lemma {:induction false} RainLoss(g: Grid, drops: seq<Pos>, strength: real, i: int, j: int)
    requires IsGrid(g) && AllIn(g, drops) && InGrid(g, i, j)
    ensures Rained(g, drops, strength)[i][j] == g[i][j] - Loss(drops, Pos(i, j), strength)
  {
    if drops != [] {
      RainLoss(g, drops[..|drops| - 1], strength, i, j);
      RainStepCell(g, drops, strength, i, j);
    }
  }

  /** What the droplets take from p: `strength` for each one landing on it. */
  function Loss(drops: seq<Pos>, p: Pos, strength: real): real {
    if drops == [] then 0.0
    else Loss(drops[..|drops| - 1], p, strength) + (if drops[|drops| - 1] == p then strength else 0.0)
  }

  lemma {:induction false} LossIsHits(drops: seq<Pos>, p: Pos, strength: real)
    ensures Loss(drops, p, strength) == Hits(drops, p) as real * strength
  {
    if drops != [] {
      var n := |drops| - 1;
      LossIsHits(drops[..n], p, strength);
      MulStep(Hits(drops[..n], p), strength);
    }
  }

  /** Each cell (i, j) loses `strength` once per droplet that lands on it; a
      cell no droplet hits is unchanged. */
  lemma RainCells(g: Grid, drops: seq<Pos>, strength: real, i: int, j: int)
    requires IsGrid(g) && AllIn(g, drops) && InGrid(g, i, j)
    ensures Rained(g, drops, strength)[i][j] == g[i][j] - Hits(drops, Pos(i, j)) as real * strength
  {
    RainLoss(g, drops, strength, i, j);
    LossIsHits(drops, Pos(i, j), strength);
  }

  /** The last droplet lowers its own cell by `strength` and no other cell. */
  lemma RainStepCell(g: Grid, drops: seq<Pos>, strength: real, i: int, j: int)
    requires IsGrid(g) && drops != [] && AllIn(g, drops) && InGrid(g, i, j)
    ensures Rained(g, drops, strength)[i][j] ==
      Rained(g, drops[..|drops| - 1], strength)[i][j] - (if drops[|drops| - 1] == Pos(i, j) then strength else 0.0)
  {
    var pre := Rained(g, drops[..|drops| - 1], strength);
    var d := drops[|drops| - 1];
    SetAt(pre, d.x, d.y, pre[d.x][d.y] - strength);
  }

  // ----- Thermal -----

  /** `Thermal`: one sweep moving material from each cell to the neighbours it
      stands more than `erosionStrength` above. */
  method Thermal(hm: array2<real>, erosionStrength: real, erosionAmount: real)
    requires hm.Length0 == hm.Length1
    modifies hm
    ensures View(hm) == SweepOnce(ThermalRule(erosionStrength, erosionAmount), old(View(hm)))
  {
    SweepAt(hm, ThermalRule(erosionStrength, erosionAmount));
  }

  /** A move takes from one cell exactly what it gives to the other. */
  lemma ThermalMoveSum(g: Grid, x: int, y: int, q: Pos, strength: real, amount: real)
    requires IsGrid(g) && InGrid(g, x, y) && InGrid(g, q.x, q.y)
    ensures Sum(ThermalMove(g, x, y, q, strength, amount)) == Sum(g)
  {
    if g[x][y] > g[q.x][q.y] + strength {
      var moved := Share(g[x][y], amount);
      var g1 := Set(g, x, y, g[x][y] - moved);
      SumSet(g, x, y, g[x][y] - moved);
      SumSet(g1, q.x, q.y, g1[q.x][q.y] + moved);
    }
  }

  lemma {:induction false} ThermalOverSum(g: Grid, x: int, y: int, ns: seq<Pos>, strength: real, amount: real)
    requires IsGrid(g) && InGrid(g, x, y) && AllIn(g, ns)
    ensures Sum(ThermalOver(g, x, y, ns, strength, amount)) == Sum(g)
  {
    if ns != [] {
      var n := |ns| - 1;
      ThermalOverSum(g, x, y, ns[..n], strength, amount);
      ThermalMoveSum(ThermalOver(g, x, y, ns[..n], strength, amount), x, y, ns[n], strength, amount);
    }
  }

  lemma {:induction false} ThermalRowSum(g: Grid, x: int, y: int, strength: real, amount: real)
    requires IsGrid(g) && 0 <= x <= |g| && 0 <= y < |g|
    ensures Sum(Row(ThermalRule(strength, amount), g, x, y)) == Sum(g)
    decreases |g| - x
  {
    if x < |g| {
      var rule := ThermalRule(strength, amount);
      ThermalOverSum(g, x, y, Around(g, x, y), strength, amount);
      ThermalRowSum(Cell(rule, g, x, y), x + 1, y, strength, amount);
    }
  }

  lemma {:induction false} ThermalPassSum(g: Grid, y: int, strength: real, amount: real)
    requires IsGrid(g) && 0 <= y <= |g|
    ensures Sum(Pass(ThermalRule(strength, amount), g, y)) == Sum(g)
    decreases |g| - y
  {
    if y < |g| {
      ThermalRowSum(g, 0, y, strength, amount);
      ThermalPassSum(Row(ThermalRule(strength, amount), g, 0, y), y + 1, strength, amount);
    }
  }

  /** Thermal erosion only moves material: the total is unchanged. */
  lemma ThermalConserves(g: Grid, strength: real, amount: real)
    requires IsGrid(g)
    ensures Sum(SweepOnce(ThermalRule(strength, amount), g)) == Sum(g)
  {
    ThermalPassSum(g, 0, strength, amount);
  }

  // ----- Tidal -----

  /** `Tidal`: one sweep flattening the cells along the water line. */
  method Tidal(hm: array2<real>, waterHeight: real)
    requires hm.Length0 == hm.Length1
    modifies hm
    ensures View(hm) == SweepOnce(TidalRule(waterHeight), old(View(hm)))
  {
    SweepAt(hm, TidalRule(waterHeight));
  }

  /** Every cell of h is the same cell of g or the water line w. */
  predicate Toward(g: Grid, h: Grid, w: real)
    requires IsGrid(g) && IsGrid(h) && |g| == |h|
  {
    forall i, j :: 0 <= i < |g| && 0 <= j < |g| ==> h[i][j] == g[i][j] || h[i][j] == w
  }

  /** Cell (x, y) is settled: it is not below the water line, or none of its
      listed neighbours is above it. */
  predicate Calm(g: Grid, w: real, x: int, y: int)
    requires IsGrid(g) && InGrid(g, x, y)
  {
    var ns := Around(g, x, y);
    g[x][y] >= w || forall k :: 0 <= k < |ns| ==> g[ns[k].x][ns[k].y] <= w
  }

  /** Every cell before (x, y) in sweep order is settled. */
  predicate CalmBefore(g: Grid, w: real, x: int, y: int)
    requires IsGrid(g)
  {
    forall i, j :: 0 <= i < |g| && 0 <= j < |g| && (j < y || (j == y && i < x)) ==> Calm(g, w, i, j)
  }

  lemma TowardTrans(g: Grid, h: Grid, k: Grid, w: real)
    requires IsGrid(g) && IsGrid(h) && IsGrid(k) && |g| == |h| == |k|
    requires Toward(g, h, w) && Toward(h, k, w)
    ensures Toward(g, k, w)
  {
    forall i, j | 0 <= i < |g| && 0 <= j < |g| ensures k[i][j] == g[i][j] || k[i][j] == w {
      assert k[i][j] == h[i][j] || k[i][j] == w;
    }
  }

  /** A settled cell stays settled when cells only move to the water line. */
  lemma CalmStable(g: Grid, h: Grid, w: real, x: int, y: int)
    requires IsGrid(g) && IsGrid(h) && |g| == |h| && InGrid(g, x, y)
    requires Toward(g, h, w) && Calm(g, w, x, y)
    ensures Calm(h, w, x, y)
  {
    var ns := Around(g, x, y);
    assert ns == Around(h, x, y);
    if g[x][y] < w {
      forall k | 0 <= k < |ns| ensures h[ns[k].x][ns[k].y] <= w {
        assert g[ns[k].x][ns[k].y] <= w;
      }
    }
  }

  lemma TidalMoveToward(g: Grid, x: int, y: int, q: Pos, w: real)
    requires IsGrid(g) && InGrid(g, x, y) && InGrid(g, q.x, q.y)
    ensures Toward(g, TidalMove(g, x, y, q, w), w)
  {
    if g[x][y] < w && g[q.x][q.y] > w {
      SetAt(g, x, y, w);
      SetAt(Set(g, x, y, w), q.x, q.y, w);
    }
  }

  /** Over the first neighbours ns of (x, y): cells only move to the water line,
      and afterwards the cell is at or above it or none of ns is above it. */
  lemma {:induction false} TidalOverSettles(g: Grid, x: int, y: int, ns: seq<Pos>, w: real)
    requires IsGrid(g) && InGrid(g, x, y) && AllIn(g, ns)
    ensures Toward(g, TidalOver(g, x, y, ns, w), w)
    ensures var r := TidalOver(g, x, y, ns, w);
      r[x][y] >= w || forall k :: 0 <= k < |ns| ==> r[ns[k].x][ns[k].y] <= w
  {
    var r := TidalOver(g, x, y, ns, w);
    if ns == [] {
      assert Toward(g, r, w);
    } else {
      var n := |ns| - 1;
      var pre := TidalOver(g, x, y, ns[..n], w);
      var q := ns[n];
      TidalOverSettles(g, x, y, ns[..n], w);
      TidalMoveToward(pre, x, y, q, w);
      TowardTrans(g, pre, r, w);
      if pre[x][y] < w && pre[q.x][q.y] > w {
        SetAt(pre, x, y, w);
        SetAt(Set(pre, x, y, w), q.x, q.y, w);
      } else if r[x][y] < w {
        forall k | 0 <= k < |ns| ensures r[ns[k].x][ns[k].y] <= w {
          if k < n {
            assert ns[k] == ns[..n][k];
          }
        }
      }
    }
  }

  lemma TidalCellSettles(g: Grid, x: int, y: int, w: real)
    requires IsGrid(g) && InGrid(g, x, y)
    ensures Toward(g, Cell(TidalRule(w), g, x, y), w)
    ensures Calm(Cell(TidalRule(w), g, x, y), w, x, y)
  {
    var r := Cell(TidalRule(w), g, x, y);
    TidalOverSettles(g, x, y, Around(g, x, y), w);
    assert Around(r, x, y) == Around(g, x, y);
  }

  lemma {:induction false} TidalRowSettles(g: Grid, x: int, y: int, w: real)
    requires IsGrid(g) && 0 <= x <= |g| && 0 <= y < |g| && CalmBefore(g, w, x, y)
    ensures Toward(g, Row(TidalRule(w), g, x, y), w)
    ensures CalmBefore(Row(TidalRule(w), g, x, y), w, 0, y + 1)
    decreases |g| - x
  {
    var r := Row(TidalRule(w), g, x, y);
    if x == |g| {
      assert Toward(g, r, w);
    } else {
      var c := Cell(TidalRule(w), g, x, y);
      TidalCellSettles(g, x, y, w);
      forall i, j | 0 <= i < |g| && 0 <= j < |g| && (j < y || (j == y && i < x + 1))
        ensures Calm(c, w, i, j)
      {
        if i != x || j != y {
          CalmStable(g, c, w, i, j);
        }
      }
      TidalRowSettles(c, x + 1, y, w);
      TowardTrans(g, c, r, w);
    }
  }

  lemma {:induction false} TidalPassSettles(g: Grid, y: int, w: real)
    requires IsGrid(g) && 0 <= y <= |g| && CalmBefore(g, w, 0, y)
    ensures Toward(g, Pass(TidalRule(w), g, y), w)
    ensures CalmBefore(Pass(TidalRule(w), g, y), w, 0, |g|)
    decreases |g| - y
  {
    var r := Pass(TidalRule(w), g, y);
    if y == |g| {
      assert Toward(g, r, w);
    } else {
      var row := Row(TidalRule(w), g, 0, y);
      TidalRowSettles(g, 0, y, w);
      TidalPassSettles(row, y + 1, w);
      TowardTrans(g, row, r, w);
    }
  }

  /** After one tidal sweep every cell is settled, and the only value ever
      written is the water line itself. */
  lemma TidalSettles(g: Grid, w: real)
    requires IsGrid(g)
    ensures Toward(g, SweepOnce(TidalRule(w), g), w)
    ensures CalmBefore(SweepOnce(TidalRule(w), g), w, 0, |g|)
  {
    TidalPassSettles(g, 0, w);
  }

  /** At a settled cell, no neighbour triggers a move. */
  lemma {:induction false} TidalOverCalm(g: Grid, x: int, y: int, ns: seq<Pos>, w: real)
    requires IsGrid(g) && InGrid(g, x, y) && AllIn(g, ns)
    requires g[x][y] >= w || forall k :: 0 <= k < |ns| ==> g[ns[k].x][ns[k].y] <= w
    ensures TidalOver(g, x, y, ns, w) == g
  {
    if ns != [] {
      var n := |ns| - 1;
      assert forall k :: 0 <= k < n ==> ns[..n][k] == ns[k];
      TidalOverCalm(g, x, y, ns[..n], w);
    }
  }

  lemma {:induction false} TidalRowCalm(g: Grid, x: int, y: int, w: real)
    requires IsGrid(g) && 0 <= x <= |g| && 0 <= y < |g| && CalmBefore(g, w, 0, |g|)
    ensures Row(TidalRule(w), g, x, y) == g
    decreases |g| - x
  {
    if x < |g| {
      assert Calm(g, w, x, y);
      TidalOverCalm(g, x, y, Around(g, x, y), w);
      TidalRowCalm(g, x + 1, y, w);
    }
  }

  lemma {:induction false} TidalPassCalm(g: Grid, y: int, w: real)
    requires IsGrid(g) && 0 <= y <= |g| && CalmBefore(g, w, 0, |g|)
    ensures Pass(TidalRule(w), g, y) == g
    decreases |g| - y
  {
    if y < |g| {
      TidalRowCalm(g, 0, y, w);
      TidalPassCalm(g, y + 1, w);
    }
  }

  /** `Tidal` is idempotent: a second sweep changes nothing. */
  lemma TidalIdempotent(g: Grid, w: real)
    requires IsGrid(g)
    ensures SweepOnce(TidalRule(w), SweepOnce(TidalRule(w), g)) == SweepOnce(TidalRule(w), g)
  {
    TidalSettles(g, w);
    TidalPassCalm(SweepOnce(TidalRule(w), g), 0, w);
  }
}
