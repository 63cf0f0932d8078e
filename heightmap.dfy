/** The square heightfield that every generator and erosion model of CustomTerrain
    works on.  The source keeps it in a `float[,]` indexed `heightMap[x, y]`; the
    methods of this model keep it in an `array2<real>` and specify what they do
    through `View`, the grid as a value (`View(hm)[x][y] == hm[x, y]`). */
module Heightmap {

  /** A heightfield as a value: `g[x][y]` is the height of cell (x, y). */
  type Grid = seq<seq<real>>

  /** Every row has as many cells as there are rows (an R x R grid, R == |g|). */
  predicate IsGrid(g: Grid) {
    forall i :: 0 <= i < |g| ==> |g[i]| == |g|
  }

  predicate InGrid(g: Grid, x: int, y: int) {
    0 <= x < |g| && 0 <= y < |g|
  }

  /** The grid with the single cell (x, y) replaced by v. */
  function Set(g: Grid, x: int, y: int, v: real): (r: Grid)
    requires IsGrid(g) && InGrid(g, x, y)
    ensures IsGrid(r) && |r| == |g|
  {
    g[x := g[x][y := v]]
  }

  /** Set changes cell (x, y) to v and no other cell. */
  lemma SetAt(g: Grid, x: int, y: int, v: real)
    requires IsGrid(g) && InGrid(g, x, y)
    ensures forall i, j :: InGrid(g, i, j) ==> Set(g, x, y, v)[i][j] == if i == x && j == y then v else g[i][j]
  {
  }

  /** Every cell of g lies in [lo, hi]. */
  predicate Bounded(g: Grid, lo: real, hi: real)
    requires IsGrid(g)
  {
    forall i, j :: 0 <= i < |g| && 0 <= j < |g| ==> lo <= g[i][j] <= hi
  }

  /** Every cell of g is at most m. */
  predicate AtMost(g: Grid, m: real)
    requires IsGrid(g)
  {
    forall i, j :: 0 <= i < |g| && 0 <= j < |g| ==> g[i][j] <= m
  }

  /** Every cell of g is at most the same cell of h (g lies nowhere above h). */
  predicate Below(g: Grid, h: Grid)
    requires IsGrid(g) && IsGrid(h) && |g| == |h|
  {
    forall i, j :: 0 <= i < |g| && 0 <= j < |g| ==> g[i][j] <= h[i][j]
  }

  /** The all-zero R x R grid (what `new float[R, R]` holds). */
  function Zeros(n: nat): (g: Grid)
    ensures IsGrid(g) && |g| == n && Bounded(g, 0.0, 0.0)
  {
    seq(n, i => seq(n, j => 0.0))
  }

  /** Sum of the first n heights of a row, added left to right. */
  function RowSumTo(s: seq<real>, n: nat): real
    requires n <= |s|
  {
    if n == 0 then 0.0 else RowSumTo(s, n - 1) + s[n - 1]
  }

  /** Sum of a row. */
  function RowSum(s: seq<real>): real {
    RowSumTo(s, |s|)
  }

  /** Sum of the first n rows, added top to bottom. */
  function SumTo(g: seq<seq<real>>, n: nat): real
    requires n <= |g|
  {
    if n == 0 then 0.0 else SumTo(g, n - 1) + RowSum(g[n - 1])
  }

  /** Sum of every cell of the grid: the total amount of terrain. */
  function Sum(g: seq<seq<real>>): real {
    SumTo(g, |g|)
  }

  lemma {:induction false} RowSumToUpdate(s: seq<real>, i: int, v: real, n: nat)
    requires 0 <= i < |s| && n <= |s|
    ensures RowSumTo(s[i := v], n) == RowSumTo(s, n) - (if i < n then s[i] - v else 0.0)
  {
    if n > 0 {
      RowSumToUpdate(s, i, v, n - 1);
    }
  }

  lemma RowSumUpdate(s: seq<real>, i: int, v: real)
    requires 0 <= i < |s|
    ensures RowSum(s[i := v]) == RowSum(s) - s[i] + v
  {
    RowSumToUpdate(s, i, v, |s|);
  }

  lemma {:induction false} SumToUpdate(g: seq<seq<real>>, x: int, row: seq<real>, n: nat)
    requires 0 <= x < |g| && n <= |g|
    ensures SumTo(g[x := row], n) == SumTo(g, n) - (if x < n then RowSum(g[x]) - RowSum(row) else 0.0)
  {
    if n > 0 {
      SumToUpdate(g, x, row, n - 1);
    }
  }

  lemma SumUpdateRow(g: seq<seq<real>>, x: int, row: seq<real>)
    requires 0 <= x < |g|
    ensures Sum(g[x := row]) == Sum(g) - RowSum(g[x]) + RowSum(row)
  {
    SumToUpdate(g, x, row, |g|);
  }

  /** Changing one cell changes the total by exactly the change of that cell. */
  lemma SumSet(g: Grid, x: int, y: int, v: real)
    requires IsGrid(g) && InGrid(g, x, y)
    ensures Sum(Set(g, x, y, v)) == Sum(g) - g[x][y] + v
  {
    SumUpdateRow(g, x, g[x][y := v]);
    RowSumUpdate(g[x], y, v);
  }

  /** The current contents of a height array, as a grid value. */
  ghost function View(hm: array2<real>): (g: Grid)
    reads hm
    ensures |g| == hm.Length0
    ensures forall i :: 0 <= i < |g| ==> |g[i]| == hm.Length1
    ensures forall i, j :: 0 <= i < hm.Length0 && 0 <= j < hm.Length1 ==> g[i][j] == hm[i, j]
  {
    RowsOf(hm, hm.Length0)
  }

  /** The first k rows of a height array. */
  ghost function RowsOf(hm: array2<real>, k: nat): (g: seq<seq<real>>)
    reads hm
    requires k <= hm.Length0
    ensures |g| == k
    ensures forall i :: 0 <= i < k ==> |g[i]| == hm.Length1
    ensures forall i, j :: 0 <= i < k && 0 <= j < hm.Length1 ==> g[i][j] == hm[i, j]
  {
    if k == 0 then [] else RowsOf(hm, k - 1) + [CellsOf(hm, k - 1, hm.Length1)]
  }

  /** The first k cells of row i of a height array. */
  ghost function CellsOf(hm: array2<real>, i: nat, k: nat): (r: seq<real>)
    reads hm
    requires i < hm.Length0 && k <= hm.Length1
    ensures |r| == k
    ensures forall j :: 0 <= j < k ==> r[j] == hm[i, j]
  {
    if k == 0 then [] else CellsOf(hm, i, k - 1) + [hm[i, k - 1]]
  }

  /** A grid that agrees with the array cell by cell is its view. */
  lemma ViewIs(hm: array2<real>, g: Grid)
    requires IsGrid(g) && |g| == hm.Length0 == hm.Length1
    requires forall i, j :: 0 <= i < hm.Length0 && 0 <= j < hm.Length1 ==> g[i][j] == hm[i, j]
    ensures View(hm) == g
  {
    var v := View(hm);
    assert forall i | 0 <= i < |g| :: v[i] == g[i];
  }

  /** `hm[x, y] := v`, with its effect on the view. */
  method Put(hm: array2<real>, x: int, y: int, v: real)
    requires hm.Length0 == hm.Length1
    requires 0 <= x < hm.Length0 && 0 <= y < hm.Length1
    modifies hm
    ensures View(hm) == Set(old(View(hm)), x, y, v)
  {
    ghost var before := View(hm);
    hm[x, y] := v;
    SetAt(before, x, y, v);
    ViewIs(hm, Set(before, x, y, v));
  }
}
