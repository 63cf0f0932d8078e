/** `SmoothTerrain`: `smoothAmount` sweeps, each replacing every cell in place by
    the mean of itself and its neighbour list. */
module Smooth {
  import opened Heightmap
  import opened Neighbours
  import opened Sweep

  /** The grid after k smoothing sweeps. */
  function SmoothTimes(g: Grid, k: int): (r: Grid)
    requires IsGrid(g)
    ensures IsGrid(r) && |r| == |g|
    decreases k
  {
    if k <= 0 then g else SweepOnce(Smoothing, SmoothTimes(g, k - 1))
  }

  method SmoothTerrain(hm: array2<real>, smoothAmount: int)
    requires hm.Length0 == hm.Length1
    modifies hm
    ensures View(hm) == SmoothTimes(old(View(hm)), smoothAmount)
  {
    ghost var g := View(hm);
    var s := 0;
    while s < smoothAmount
      invariant 0 <= s && (s <= smoothAmount || s == 0)
      invariant View(hm) == SmoothTimes(g, s)
    {
      SmoothOnce(hm, g, s);
      s := s + 1;
    }
  }

  /** One pass of the `smoothAmount` loop. */
  method SmoothOnce(hm: array2<real>, ghost g: Grid, s: nat)
    requires hm.Length0 == hm.Length1 && IsGrid(g)
    requires View(hm) == SmoothTimes(g, s)
    modifies hm
    ensures View(hm) == SmoothTimes(g, s + 1)
  {
    SweepAt(hm, Smoothing);
  }

  /** A sum of m heights from [lo, hi] lies in [m * lo, m * hi]. */
  lemma {:induction false} NeighbourSumBounded(g: Grid, ns: seq<Pos>, lo: real, hi: real)
    requires IsGrid(g) && AllIn(g, ns) && Bounded(g, lo, hi)
    ensures |ns| as real * lo <= NeighbourSum(g, ns) <= |ns| as real * hi
  {
    if ns != [] {
      var m := |ns| - 1;
      NeighbourSumBounded(g, ns[..m], lo, hi);
      assert (m + 1) as real * lo == m as real * lo + lo;
      assert (m + 1) as real * hi == m as real * hi + hi;
    }
  }

  /** The mean of a cell and its neighbours, all from [lo, hi], lies in [lo, hi]. */
  lemma MeanBetween(g: Grid, x: int, y: int, lo: real, hi: real)
    requires IsGrid(g) && InGrid(g, x, y) && Bounded(g, lo, hi)
    ensures lo <= Mean(g[x][y], NeighbourSum(g, Around(g, x, y)), |Around(g, x, y)|) <= hi
  {
    var ns := Around(g, x, y);
    NeighbourSumBounded(g, ns, lo, hi);
    AverageBetween(g[x][y], NeighbourSum(g, ns), |ns|, lo, hi);
  }

  lemma AverageBetween(a: real, s: real, m: nat, lo: real, hi: real)
    requires lo <= a <= hi && m as real * lo <= s <= m as real * hi
    ensures lo <= Mean(a, s, m) <= hi
  {
    var k := m as real;
    var d := k + 1.0;
    assert d * lo == k * lo + lo && d * hi == k * hi + hi;
    assert (a + s) / d - lo == (a + s - d * lo) / d;
    assert hi - (a + s) / d == (d * hi - (a + s)) / d;
  }

  /** Writing a value from [lo, hi] keeps the grid within [lo, hi]. */
  lemma SetBounded(g: Grid, x: int, y: int, v: real, lo: real, hi: real)
    requires IsGrid(g) && InGrid(g, x, y) && Bounded(g, lo, hi) && lo <= v <= hi
    ensures Bounded(Set(g, x, y, v), lo, hi)
  {
    SetAt(g, x, y, v);
  }

  /** Smoothing one cell keeps every cell within [lo, hi]. */
  lemma SmoothCellBounded(g: Grid, x: int, y: int, lo: real, hi: real)
    requires IsGrid(g) && InGrid(g, x, y) && Bounded(g, lo, hi)
    ensures Bounded(SmoothCell(g, x, y), lo, hi)
  {
    var ns := Around(g, x, y);
    MeanBetween(g, x, y, lo, hi);
    SetBounded(g, x, y, Mean(g[x][y], NeighbourSum(g, ns), |ns|), lo, hi);
  }

  lemma {:induction false} RowBounded(g: Grid, x: int, y: int, lo: real, hi: real)
    requires IsGrid(g) && 0 <= x <= |g| && 0 <= y < |g| && Bounded(g, lo, hi)
    ensures Bounded(Row(Smoothing, g, x, y), lo, hi)
    decreases |g| - x
  {
    if x < |g| {
      SmoothCellBounded(g, x, y, lo, hi);
      RowBounded(SmoothCell(g, x, y), x + 1, y, lo, hi);
    }
  }

  lemma {:induction false} PassBounded(g: Grid, y: int, lo: real, hi: real)
    requires IsGrid(g) && 0 <= y <= |g| && Bounded(g, lo, hi)
    ensures Bounded(Pass(Smoothing, g, y), lo, hi)
    decreases |g| - y
  {
    if y < |g| {
      RowBounded(g, 0, y, lo, hi);
      PassBounded(Row(Smoothing, g, 0, y), y + 1, lo, hi);
    }
  }

  /** Smoothing never moves a height outside the range the grid started in:
      every mean is taken over heights from that range. */
  lemma {:induction false} SmoothBounded(g: Grid, k: int, lo: real, hi: real)
    requires IsGrid(g) && Bounded(g, lo, hi)
    ensures Bounded(SmoothTimes(g, k), lo, hi)
    decreases k
  {
    if k > 0 {
      SmoothBounded(g, k - 1, lo, hi);
      PassBounded(SmoothTimes(g, k - 1), 0, lo, hi);
    }
  }

  /** Two grids of the same size that agree cell by cell are equal. */
  lemma GridsEqual(g: Grid, h: Grid)
    requires IsGrid(g) && IsGrid(h) && |g| == |h|
    requires forall i, j :: 0 <= i < |g| && 0 <= j < |g| ==> g[i][j] == h[i][j]
    ensures g == h
  {
    assert forall i | 0 <= i < |g| :: g[i] == h[i];
  }

  /** A flat grid stays flat: smoothing a grid whose every cell is c changes nothing. */
  lemma SmoothConstant(g: Grid, k: int, c: real)
    requires IsGrid(g) && Bounded(g, c, c)
    ensures SmoothTimes(g, k) == g
  {
    SmoothBounded(g, k, c, c);
    GridsEqual(SmoothTimes(g, k), g);
  }
}
