/** `MidPointDisplacement`: the square and diamond passes, repeated with the
    square size halved and the random range damped after every round. */
module Midpoint {
  import opened Heightmap
  import opened Noise

  /** x is a non-negative multiple of s (s > 0). */
  predicate Multiple(x: int, s: int)
    decreases x
  {
    s > 0 && (x == 0 || (x >= s && Multiple(x - s, s)))
  }

  /** Stepping from one multiple of s below w to the next stays within w. */
  lemma {:induction false} StepWithin(x: int, s: int, w: int)
    requires Multiple(x, s) && Multiple(w, s) && x < w
    ensures x + s <= w
    decreases x
  {
    if x != 0 {
      StepWithin(x - s, s, w - s);
    }
  }

  /** The next multiple of s after one below w. */
  lemma NextMultiple(x: int, s: int, w: int)
    requires Multiple(x, s) && Multiple(w, s) && x < w
    ensures 0 <= x && 0 < s && x + s <= w && Multiple(x + s, s)
  {
    StepWithin(x, s, w);
    assert Multiple(x + s - s, s);
  }

  lemma {:induction false} MultipleAdd(a: int, b: int, s: int)
    requires Multiple(a, s) && Multiple(b, s)
    ensures Multiple(a + b, s)
    decreases a
  {
    if a != 0 {
      MultipleAdd(a - s, b, s);
    }
  }

  lemma {:induction false} HalfMultiple(w: int, s: int)
    requires s > 0 && s % 2 == 0 && Multiple(w, s)
    ensures Multiple(w, s / 2)
    decreases w
  {
    if w != 0 {
      HalfMultiple(w - s, s);
      assert Multiple(w - s + s / 2, s / 2);
    }
  }

  /** Every square size the loop visits, s, s / 2, ..., 1, tiles the width w.
      Without this, `cornerX = x + squareSize` leaves the array. */
  predicate Tiles(w: int, s: int)
    decreases s
  {
    s <= 0 || (Multiple(w, s) && Tiles(w, s / 2))
  }

  function Pow2(k: nat): (r: nat)
    ensures r >= 1
  {
    if k == 0 then 1 else 2 * Pow2(k - 1)
  }

  function Power(d: real, i: nat): real {
    if i == 0 then 1.0 else d * Power(d, i - 1)
  }

  lemma {:induction false} Pow2Multiple(j: nat, k: nat)
    requires j <= k
    ensures Multiple(Pow2(k), Pow2(j))
  {
    if j == k {
      assert Multiple(Pow2(k) - Pow2(j), Pow2(j));
    } else {
      Pow2Multiple(j, k - 1);
      MultipleAdd(Pow2(k - 1), Pow2(k - 1), Pow2(j));
    }
  }

  lemma {:induction false} Pow2TilesFrom(j: nat, k: nat)
    requires j <= k
    ensures Tiles(Pow2(k), Pow2(j))
  {
    Pow2Multiple(j, k);
    if j > 0 {
      assert Pow2(j) / 2 == Pow2(j - 1);
      Pow2TilesFrom(j - 1, k);
    } else {
      assert Tiles(Pow2(k), 0);
    }
  }

  /** A heightmap of resolution 2^k + 1 (every resolution a terrain can have) is
      tiled by all square sizes. */
  lemma Pow2Tiles(k: nat)
    ensures Tiles(Pow2(k), Pow2(k))
  {
    Pow2TilesFrom(k, k);
  }

  /** One round: its square size and the range of its random offsets. */
  datatype Stage = Stage(size: int, lo: real, hi: real)

  /** The rounds the `while (squareSize > 0)` loop runs, from square size s and
      range [lo, hi], damped by d after each round. */
  function Schedule(s: int, lo: real, hi: real, d: real): seq<Stage>
    decreases s
  {
    if s <= 0 then [] else [Stage(s, lo, hi)] + Schedule(s / 2, lo * d, hi * d, d)
  }

  /** v multiplied by d, i times over (as `heightMin *= heightDampener` does). */
  function Damped(v: real, d: real, i: nat): real
    decreases i
  {
    if i == 0 then v else Damped(v * d, d, i - 1)
  }

  /** Damping i times is scaling by d^i. */
  lemma {:induction false} DampedIsPower(v: real, d: real, i: nat)
    ensures Damped(v, d, i) == v * Power(d, i)
    decreases i
  {
    if i > 0 {
      DampedIsPower(v * d, d, i - 1);
      var p := Power(d, i - 1);
      assert v * d * p == v * (d * p);
    }
  }

  /** For width 2^k there are k + 1 rounds; round i uses squares of size 2^(k-i)
      and the range [lo, hi] damped i times, that is, once per earlier round. */
  lemma {:induction false} ScheduleOfPow2(k: nat, lo: real, hi: real, d: real)
    ensures |Schedule(Pow2(k), lo, hi, d)| == k + 1
    ensures forall i :: 0 <= i <= k ==>
      Schedule(Pow2(k), lo, hi, d)[i] == Stage(Pow2(k - i), Damped(lo, d, i), Damped(hi, d, i))
  {
    var sc := Schedule(Pow2(k), lo, hi, d);
    if k == 0 {
      assert sc == [Stage(1, lo, hi)] + Schedule(0, lo * d, hi * d, d);
    } else {
      assert Pow2(k) / 2 == Pow2(k - 1);
      var rest := Schedule(Pow2(k - 1), lo * d, hi * d, d);
      assert sc == [Stage(Pow2(k), lo, hi)] + rest;
      ScheduleOfPow2(k - 1, lo * d, hi * d, d);
      forall i | 0 <= i <= k
        ensures sc[i] == Stage(Pow2(k - i), Damped(lo, d, i), Damped(hi, d, i))
      {
        if i > 0 {
          assert sc[i] == rest[i - 1];
          assert k - i == (k - 1) - (i - 1);
        }
      }
    }
  }

  /** Every round of a schedule has a positive size that tiles w. */
  predicate Fits(stages: seq<Stage>, w: int) {
    forall i :: 0 <= i < |stages| ==> stages[i].size > 0 && Multiple(w, stages[i].size)
  }

  lemma {:induction false} ScheduleFits(w: int, s: int, lo: real, hi: real, d: real)
    requires Tiles(w, s)
    ensures Fits(Schedule(s, lo, hi, d), w)
    decreases s
  {
    if s > 0 {
      ScheduleFits(w, s / 2, lo * d, hi * d, d);
    }
  }

  /** `Random.Range(lo, hi)` as drawn in round t for the square at (x, y); slot 0
      is the square pass, slots 1 to 4 the four writes of the diamond pass. */
  type Draw = (real, real, int, int, int, int) -> real

  function Avg4(a: real, b: real, c: real, d: real): real {
    (a + b + c + d) / 4.0
  }

  /** The two passes of a round. */
  datatype Pass = SquarePass | DiamondPass

  /** Square (x, y) of size s lies inside an n x n grid. */
  predicate SquareIn(n: int, s: int, x: int, y: int) {
    s > 0 && 0 <= x && 0 <= y && x + s < n && y + s < n
  }

  /** Square pass, one square: its centre becomes the corners' mean plus a draw. */
  function SquareStep(g: Grid, st: Stage, t: int, rnd: Draw, x: int, y: int): (r: Grid)
    requires IsGrid(g) && SquareIn(|g|, st.size, x, y)
    ensures IsGrid(r) && |r| == |g|
  {
    var s := st.size;
    Set(g, x + s / 2, y + s / 2,
        Avg4(g[x][y], g[x + s][y], g[x][y + s], g[x + s][y + s]) + rnd(st.lo, st.hi, t, x, y, 0))
  }

  /** The diamond pass writes around square (x, y) only when none of the
      neighbouring centres it reads falls on or outside the band next to the border
      (the `continue` test of the source). */
  predicate DiamondInside(n: int, s: int, x: int, y: int) {
    var midX := x + s / 2;
    var midY := y + s / 2;
    SquareIn(n, s, x, y)
    && !(midX - s <= 0 || midY - s <= 0 || midX + s >= n - 2 || midY + s >= n - 2)
  }

  /** The four writes of the diamond pass, in order: (midX, y), (midX, cornerY),
      (x, midY), (cornerX, midY), each the mean of its diamond's corners plus a draw. */
  function DiamondBottom(g: Grid, st: Stage, t: int, rnd: Draw, x: int, y: int): (r: Grid)
    requires IsGrid(g) && DiamondInside(|g|, st.size, x, y)
    ensures IsGrid(r) && |r| == |g|
  {
    var s := st.size;
    var midX := x + s / 2;
    var midY := y + s / 2;
    Set(g, midX, y, Avg4(g[midX][midY], g[x][y], g[midX][midY - s], g[x + s][y]) + rnd(st.lo, st.hi, t, x, y, 1))
  }

  function DiamondTop(g: Grid, st: Stage, t: int, rnd: Draw, x: int, y: int): (r: Grid)
    requires IsGrid(g) && DiamondInside(|g|, st.size, x, y)
    ensures IsGrid(r) && |r| == |g|
  {
    var s := st.size;
    var midX := x + s / 2;
    var midY := y + s / 2;
    Set(g, midX, y + s, Avg4(g[x][y + s], g[midX][midY], g[x + s][y + s], g[midX][midY + s]) + rnd(st.lo, st.hi, t, x, y, 2))
  }

  function DiamondLeft(g: Grid, st: Stage, t: int, rnd: Draw, x: int, y: int): (r: Grid)
    requires IsGrid(g) && DiamondInside(|g|, st.size, x, y)
    ensures IsGrid(r) && |r| == |g|
  {
    var s := st.size;
    var midX := x + s / 2;
    var midY := y + s / 2;
    Set(g, x, midY, Avg4(g[x][y], g[midX - s][midY], g[x][y + s], g[midX][midY]) + rnd(st.lo, st.hi, t, x, y, 3))
  }

  function DiamondRight(g: Grid, st: Stage, t: int, rnd: Draw, x: int, y: int): (r: Grid)
    requires IsGrid(g) && DiamondInside(|g|, st.size, x, y)
    ensures IsGrid(r) && |r| == |g|
  {
    var s := st.size;
    var midX := x + s / 2;
    var midY := y + s / 2;
    Set(g, x + s, midY, Avg4(g[midX][y], g[midX][midY], g[x + s][y + s], g[midX + s][midY]) + rnd(st.lo, st.hi, t, x, y, 4))
  }

  /** Diamond pass, one square. */
  function DiamondStep(g: Grid, st: Stage, t: int, rnd: Draw, x: int, y: int): (r: Grid)
    requires IsGrid(g) && SquareIn(|g|, st.size, x, y)
    ensures IsGrid(r) && |r| == |g|
  {
    if !DiamondInside(|g|, st.size, x, y) then g
    else
      DiamondRight(DiamondLeft(DiamondTop(DiamondBottom(g, st, t, rnd, x, y), st, t, rnd, x, y), st, t, rnd, x, y), st, t, rnd, x, y)
  }

  /** The body of either pass for square (x, y). */
  function Step(pass: Pass, g: Grid, st: Stage, t: int, rnd: Draw, x: int, y: int): (r: Grid)
    requires IsGrid(g) && SquareIn(|g|, st.size, x, y)
    ensures IsGrid(r) && |r| == |g|
  {
    match pass
    case SquarePass => SquareStep(g, st, t, rnd, x, y)
    case DiamondPass => DiamondStep(g, st, t, rnd, x, y)
  }

  /** A pass over an n x n map with squares of size s has reached column x. */
  predicate InPass(n: int, s: int, x: int) {
    n >= 1 && Multiple(n - 1, s) && Multiple(x, s) && x <= n - 1
  }

  /** The inner loop of a pass at column x has reached row y. */
  predicate InColumn(n: int, s: int, x: int, y: int) {
    n >= 1 && Multiple(n - 1, s) && 0 <= x && x + s <= n - 1 && Multiple(y, s) && y <= n - 1
  }

  /** Square (x, y) is one the inner loop visits: it lies on the map and the loop
      goes on from row y + s. */
  predicate Slot(n: int, s: int, x: int, y: int) {
    InColumn(n, s, x, y) && y + s <= n - 1 && Multiple(y + s, s)
  }

  lemma SlotOf(n: int, s: int, x: int, y: int)
    requires InColumn(n, s, x, y) && y < n - 1
    ensures Slot(n, s, x, y) && SquareIn(n, s, x, y)
  {
    NextMultiple(y, s, n - 1);
  }

  lemma ColumnOf(n: int, s: int, x: int)
    requires InPass(n, s, x) && x < n - 1
    ensures InColumn(n, s, x, 0) && InPass(n, s, x + s)
  {
    assert Multiple(0, s);
    NextMultiple(x, s, n - 1);
  }

  /** The body of a pass as a function value: the grid after the body has run
      for the square at (x, y). */
  type Body = (Grid, int, int) -> Grid

  /** The body keeps the grid square and its size. */
  ghost predicate Keeps(body: Body) {
    forall g: Grid, x: int, y: int :: IsGrid(g) ==> IsGrid(body(g, x, y)) && |body(g, x, y)| == |g|
  }

  /** body does for every square inside the map what `pass` does. */
  ghost predicate Performs(body: Body, pass: Pass, st: Stage, t: int, rnd: Draw) {
    forall g: Grid, x: int, y: int {:trigger Step(pass, g, st, t, rnd, x, y)} ::
      IsGrid(g) && SquareIn(|g|, st.size, x, y) ==> body(g, x, y) == Step(pass, g, st, t, rnd, x, y)
  }

  /** The body of `pass` in round t with stage st. */
  function BodyOf(pass: Pass, st: Stage, t: int, rnd: Draw): (body: Body)
    ensures Keeps(body) && Performs(body, pass, st, t, rnd)
  {
    (g: Grid, x: int, y: int) => if IsGrid(g) && SquareIn(|g|, st.size, x, y) then Step(pass, g, st, t, rnd, x, y) else g
  }

  /** The rest of the inner `y` loop of a pass, from square (x, y). */
  function ColumnFrom(body: Body, g: Grid, s: int, x: int, y: int): (r: Grid)
    requires Keeps(body) && IsGrid(g) && InColumn(|g|, s, x, y)
    ensures IsGrid(r) && |r| == |g|
    decreases |g| - y
  {
    if y >= |g| - 1 then g
    else
      SlotOf(|g|, s, x, y);
      ColumnFrom(body, body(g, x, y), s, x, y + s)
  }

  /** The rest of a pass, from column x. */
  function PassFrom(body: Body, g: Grid, s: int, x: int): (r: Grid)
    requires Keeps(body) && IsGrid(g) && InPass(|g|, s, x)
    ensures IsGrid(r) && |r| == |g|
    decreases |g| - x
  {
    if x >= |g| - 1 then g
    else
      ColumnOf(|g|, s, x);
      PassFrom(body, ColumnFrom(body, g, s, x, 0), s, x + s)
  }

  /** One round: the square pass, then the diamond pass. */
  function Round(g: Grid, st: Stage, t: int, rnd: Draw): (r: Grid)
    requires IsGrid(g) && |g| >= 1 && st.size > 0 && Multiple(|g| - 1, st.size)
    ensures IsGrid(r) && |r| == |g|
  {
    assert Multiple(0, st.size);
    PassFrom(BodyOf(DiamondPass, st, t, rnd), PassFrom(BodyOf(SquarePass, st, t, rnd), g, st.size, 0), st.size, 0)
  }

  /** The rounds of a schedule, the first being round number t. */
  function Run(g: Grid, stages: seq<Stage>, t: int, rnd: Draw): (r: Grid)
    requires IsGrid(g) && (stages != [] ==> |g| >= 1) && Fits(stages, |g| - 1)
    ensures IsGrid(r) && |r| == |g|
    decreases |stages|
  {
    if stages == [] then g else Run(Round(g, stages[0], t, rnd), stages[1..], t + 1, rnd)
  }

  /** h agrees with g on the last row and the last column. */
  predicate FarEdges(g: Grid, h: Grid)
    requires IsGrid(g) && IsGrid(h) && |g| == |h| >= 1
  {
    forall i :: 0 <= i < |g| ==> h[|g| - 1][i] == g[|g| - 1][i] && h[i][|g| - 1] == g[i][|g| - 1]
  }

  lemma EdgesTrans(a: Grid, b: Grid, c: Grid)
    requires IsGrid(a) && IsGrid(b) && IsGrid(c) && |a| == |b| == |c| >= 1
    requires FarEdges(a, b) && FarEdges(b, c)
    ensures FarEdges(a, c)
  {
    var n := |a| - 1;
    forall i | 0 <= i < |a| ensures c[n][i] == a[n][i] && c[i][n] == a[i][n] {
      assert c[n][i] == b[n][i] && b[n][i] == a[n][i];
      assert c[i][n] == b[i][n] && b[i][n] == a[i][n];
    }
  }

  /** Neither pass writes a cell of the last row or column: the square pass writes
      centres only, and the diamond pass skips every square whose far neighbour
      reaches the band next to the border. */
  lemma StepEdges(pass: Pass, g: Grid, st: Stage, t: int, rnd: Draw, x: int, y: int)
    requires IsGrid(g) && SquareIn(|g|, st.size, x, y)
    ensures FarEdges(g, Step(pass, g, st, t, rnd, x, y))
  {
    assert x + st.size / 2 < |g| - 1 && y + st.size / 2 < |g| - 1;
  }

  lemma {:induction false} ColumnEdges(body: Body, pass: Pass, g: Grid, st: Stage, t: int, rnd: Draw, x: int, y: int)
    requires Keeps(body) && Performs(body, pass, st, t, rnd)
    requires IsGrid(g) && InColumn(|g|, st.size, x, y)
    ensures FarEdges(g, ColumnFrom(body, g, st.size, x, y))
    decreases |g| - y
  {
    if y < |g| - 1 {
      SlotOf(|g|, st.size, x, y);
      var g1 := Step(pass, g, st, t, rnd, x, y);
      StepEdges(pass, g, st, t, rnd, x, y);
      var r := ColumnFrom(body, g1, st.size, x, y + st.size);
      assert ColumnFrom(body, g, st.size, x, y) == r;
      ColumnEdges(body, pass, g1, st, t, rnd, x, y + st.size);
      EdgesTrans(g, g1, r);
    }
  }

  lemma {:induction false} PassEdges(body: Body, pass: Pass, g: Grid, st: Stage, t: int, rnd: Draw, x: int)
    requires Keeps(body) && Performs(body, pass, st, t, rnd)
    requires IsGrid(g) && InPass(|g|, st.size, x)
    ensures FarEdges(g, PassFrom(body, g, st.size, x))
    decreases |g| - x
  {
    if x < |g| - 1 {
      ColumnOf(|g|, st.size, x);
      var g1 := ColumnFrom(body, g, st.size, x, 0);
      ColumnEdges(body, pass, g, st, t, rnd, x, 0);
      var r := PassFrom(body, g1, st.size, x + st.size);
      assert PassFrom(body, g, st.size, x) == r;
      PassEdges(body, pass, g1, st, t, rnd, x + st.size);
      EdgesTrans(g, g1, r);
    }
  }

  /** Midpoint displacement never writes the last row or the last column. */
  lemma {:induction false} RunKeepsFarEdges(g: Grid, stages: seq<Stage>, t: int, rnd: Draw)
    requires IsGrid(g) && |g| >= 1 && Fits(stages, |g| - 1)
    ensures FarEdges(g, Run(g, stages, t, rnd))
    decreases |stages|
  {
    if stages != [] {
      var st := stages[0];
      assert Multiple(0, st.size);
      var sq := PassFrom(BodyOf(SquarePass, st, t, rnd), g, st.size, 0);
      PassEdges(BodyOf(SquarePass, st, t, rnd), SquarePass, g, st, t, rnd, 0);
      PassEdges(BodyOf(DiamondPass, st, t, rnd), DiamondPass, sq, st, t, rnd, 0);
      var r1 := Round(g, st, t, rnd);
      EdgesTrans(g, sq, r1);
      RunKeepsFarEdges(r1, stages[1..], t + 1, rnd);
      EdgesTrans(g, r1, Run(r1, stages[1..], t + 1, rnd));
    }
  }

  /** Running a schedule is running its first round, then the rest. */
  lemma RunOneRound(g: Grid, s: int, lo: real, hi: real, d: real, t: int, rnd: Draw)
    requires IsGrid(g) && |g| >= 1 && s > 0 && Fits(Schedule(s, lo, hi, d), |g| - 1)
    ensures Multiple(|g| - 1, s) && Fits(Schedule(s / 2, lo * d, hi * d, d), |g| - 1)
    ensures Run(g, Schedule(s, lo, hi, d), t, rnd)
      == Run(Round(g, Stage(s, lo, hi), t, rnd), Schedule(s / 2, lo * d, hi * d, d), t + 1, rnd)
  {
    var sc := Schedule(s, lo, hi, d);
    assert sc == [Stage(s, lo, hi)] + Schedule(s / 2, lo * d, hi * d, d);
    assert sc[0] == Stage(s, lo, hi);
    assert sc[1..] == Schedule(s / 2, lo * d, hi * d, d);
  }

  /** `mpdHeightMin`, `mpdHeightMax`, `mpdHeightDampenerPower`, `mpdRoughness`. */
  datatype MpdParams = MpdParams(heightMin: real, heightMax: real, dampenerPower: real, roughness: real)

  /** `Mathf.Pow(mpdHeightDampenerPower, -1 * mpdRoughness)`. */
  function Dampener(p: MpdParams, math: MathLib): real {
    math.pow(p.dampenerPower, -1.0 * p.roughness)
  }

  /** The whole algorithm on grid g: every round of the schedule that starts at
      square size R - 1 with the configured range. */
  function Displaced(g: Grid, p: MpdParams, math: MathLib, rnd: Draw): (r: Grid)
    requires IsGrid(g) && Tiles(|g| - 1, |g| - 1)
    ensures IsGrid(r) && |r| == |g|
  {
    ScheduleFits(|g| - 1, |g| - 1, p.heightMin, p.heightMax, Dampener(p, math));
    Run(g, Schedule(|g| - 1, p.heightMin, p.heightMax, Dampener(p, math)), 0, rnd)
  }

  /** `hm[a, b] = (hm[p] + hm[q] + hm[u] + hm[v]) / 4.0f + r`, the assignment both
      passes repeat. */
  method PutMean(hm: array2<real>, a: int, b: int, px: int, py: int, qx: int, qy: int,
                 ux: int, uy: int, vx: int, vy: int, r: real)
    requires hm.Length0 == hm.Length1
    requires 0 <= a < hm.Length0 && 0 <= b < hm.Length0
    requires 0 <= px < hm.Length0 && 0 <= py < hm.Length0 && 0 <= qx < hm.Length0 && 0 <= qy < hm.Length0
    requires 0 <= ux < hm.Length0 && 0 <= uy < hm.Length0 && 0 <= vx < hm.Length0 && 0 <= vy < hm.Length0
    modifies hm
    ensures View(hm) == Set(old(View(hm)), a, b,
      Avg4(old(View(hm))[px][py], old(View(hm))[qx][qy], old(View(hm))[ux][uy], old(View(hm))[vx][vy]) + r)
  {
    Put(hm, a, b, Avg4(hm[px, py], hm[qx, qy], hm[ux, uy], hm[vx, vy]) + r);
  }

  /** The body of the square loop for the square at (x, y). */
  method SquareAt(hm: array2<real>, st: Stage, t: int, rnd: Draw, x: int, y: int)
    requires hm.Length0 == hm.Length1 && SquareIn(hm.Length0, st.size, x, y)
    modifies hm
    ensures View(hm) == SquareStep(old(View(hm)), st, t, rnd, x, y)
  {
    var squareSize := st.size;
    var cornerX := x + squareSize;
    var cornerY := y + squareSize;
    // (int)(x + squareSize / 2.0f) on non-negative operands
    var midX := x + squareSize / 2;
    var midY := y + squareSize / 2;
    PutMean(hm, midX, midY, x, y, cornerX, y, x, cornerY, cornerX, cornerY, rnd(st.lo, st.hi, t, x, y, 0));
  }

  /** The body of the diamond loop for the square at (x, y). */
  method DiamondAt(hm: array2<real>, st: Stage, t: int, rnd: Draw, x: int, y: int)
    requires hm.Length0 == hm.Length1 && SquareIn(hm.Length0, st.size, x, y)
    modifies hm
    ensures View(hm) == DiamondStep(old(View(hm)), st, t, rnd, x, y)
  {
    var width := hm.Length0 - 1;
    var squareSize := st.size;
    var midX := x + squareSize / 2;
    var midY := y + squareSize / 2;
    var pmidXL := midX - squareSize;
    var pmidXR := midX + squareSize;
    var pmidYU := midY + squareSize;
    var pmidYD := midY - squareSize;
    if pmidXL <= 0 || pmidYD <= 0 || pmidXR >= width - 1 || pmidYU >= width - 1 {
      return;
    }
    assert DiamondInside(hm.Length0, squareSize, x, y);
    PutBottom(hm, st, t, rnd, x, y);
    PutTop(hm, st, t, rnd, x, y);
    PutLeft(hm, st, t, rnd, x, y);
    PutRight(hm, st, t, rnd, x, y);
  }

  method PutBottom(hm: array2<real>, st: Stage, t: int, rnd: Draw, x: int, y: int)
    requires hm.Length0 == hm.Length1 && DiamondInside(hm.Length0, st.size, x, y)
    modifies hm
    ensures View(hm) == DiamondBottom(old(View(hm)), st, t, rnd, x, y)
  {
    var s := st.size;
    var midX := x + s / 2;
    var midY := y + s / 2;
    PutMean(hm, midX, y, midX, midY, x, y, midX, midY - s, x + s, y, rnd(st.lo, st.hi, t, x, y, 1));
  }

  method PutTop(hm: array2<real>, st: Stage, t: int, rnd: Draw, x: int, y: int)
    requires hm.Length0 == hm.Length1 && DiamondInside(hm.Length0, st.size, x, y)
    modifies hm
    ensures View(hm) == DiamondTop(old(View(hm)), st, t, rnd, x, y)
  {
    var s := st.size;
    var midX := x + s / 2;
    var midY := y + s / 2;
    PutMean(hm, midX, y + s, x, y + s, midX, midY, x + s, y + s, midX, midY + s, rnd(st.lo, st.hi, t, x, y, 2));
  }

  method PutLeft(hm: array2<real>, st: Stage, t: int, rnd: Draw, x: int, y: int)
    requires hm.Length0 == hm.Length1 && DiamondInside(hm.Length0, st.size, x, y)
    modifies hm
    ensures View(hm) == DiamondLeft(old(View(hm)), st, t, rnd, x, y)
  {
    var s := st.size;
    var midX := x + s / 2;
    var midY := y + s / 2;
    PutMean(hm, x, midY, x, y, midX - s, midY, x, y + s, midX, midY, rnd(st.lo, st.hi, t, x, y, 3));
  }

  method PutRight(hm: array2<real>, st: Stage, t: int, rnd: Draw, x: int, y: int)
    requires hm.Length0 == hm.Length1 && DiamondInside(hm.Length0, st.size, x, y)
    modifies hm
    ensures View(hm) == DiamondRight(old(View(hm)), st, t, rnd, x, y)
  {
    var s := st.size;
    var midX := x + s / 2;
    var midY := y + s / 2;
    PutMean(hm, x + s, midY, midX, y, midX, midY, x + s, y + s, midX + s, midY, rnd(st.lo, st.hi, t, x, y, 4));
  }

  /** The body of the inner loop of either pass. */
  method StepAt(hm: array2<real>, pass: Pass, st: Stage, t: int, rnd: Draw, x: int, y: int)
    requires hm.Length0 == hm.Length1 && SquareIn(hm.Length0, st.size, x, y)
    modifies hm
    ensures View(hm) == Step(pass, old(View(hm)), st, t, rnd, x, y)
  {
    match pass {
      case SquarePass => SquareAt(hm, st, t, rnd, x, y);
      case DiamondPass => DiamondAt(hm, st, t, rnd, x, y);
    }
  }

  /** The inner `for (y = 0; y < width; y += squareSize)` loop of a pass, column x. */
  method PassColumn(hm: array2<real>, ghost body: Body, pass: Pass, st: Stage, t: int, rnd: Draw, x: int)
    requires hm.Length0 == hm.Length1 && InColumn(hm.Length0, st.size, x, 0)
    requires Keeps(body) && Performs(body, pass, st, t, rnd)
    modifies hm
    ensures View(hm) == ColumnFrom(body, old(View(hm)), st.size, x, 0)
  {
    var width := hm.Length0 - 1;
    var squareSize := st.size;
    ghost var goal := ColumnFrom(body, View(hm), squareSize, x, 0);
    var y := 0;
    while y < width
      invariant InColumn(width + 1, squareSize, x, y)
      invariant ColumnFrom(body, View(hm), squareSize, x, y) == goal
      decreases width - y
    {
      SlotOf(width + 1, squareSize, x, y);
      ColumnStepAt(hm, body, pass, st, t, rnd, x, y, goal);
      y := y + squareSize;
    }
  }

  /** One iteration of the inner loop: square (x, y) is done and the column
      goes on from y + squareSize. */
  method ColumnStepAt(hm: array2<real>, ghost body: Body, pass: Pass, st: Stage, t: int, rnd: Draw, x: int, y: int, ghost goal: Grid)
    requires hm.Length0 == hm.Length1 && Slot(hm.Length0, st.size, x, y)
    requires Keeps(body) && Performs(body, pass, st, t, rnd)
    requires ColumnFrom(body, View(hm), st.size, x, y) == goal
    modifies hm
    ensures ColumnFrom(body, View(hm), st.size, x, y + st.size) == goal
  {
    StepAt(hm, pass, st, t, rnd, x, y);
  }

  /** The outer `for (x = 0; x < width; x += squareSize)` loop of a pass (the
      square pass and the diamond pass each have one). */
  method PassLoop(hm: array2<real>, ghost body: Body, pass: Pass, st: Stage, t: int, rnd: Draw)
    requires hm.Length0 == hm.Length1 && InPass(hm.Length0, st.size, 0)
    requires Keeps(body) && Performs(body, pass, st, t, rnd)
    modifies hm
    ensures View(hm) == PassFrom(body, old(View(hm)), st.size, 0)
  {
    var width := hm.Length0 - 1;
    var squareSize := st.size;
    ghost var goal := PassFrom(body, View(hm), squareSize, 0);
    var x := 0;
    while x < width
      invariant InPass(width + 1, squareSize, x)
      invariant PassFrom(body, View(hm), squareSize, x) == goal
      decreases width - x
    {
      ColumnOf(width + 1, squareSize, x);
      PassColumn(hm, body, pass, st, t, rnd, x);
      x := x + squareSize;
    }
  }

  /** The body of the `while (squareSize > 0)` loop: both passes. */
  method OneRound(hm: array2<real>, st: Stage, t: int, rnd: Draw)
    requires hm.Length0 == hm.Length1 >= 1 && st.size > 0 && Multiple(hm.Length0 - 1, st.size)
    modifies hm
    ensures View(hm) == Round(old(View(hm)), st, t, rnd)
  {
    PassLoop(hm, BodyOf(SquarePass, st, t, rnd), SquarePass, st, t, rnd);
    PassLoop(hm, BodyOf(DiamondPass, st, t, rnd), DiamondPass, st, t, rnd);
  }

  /** The source's `while (squareSize > 0)` loop.  `rnd` supplies the
      `Random.Range(heightMin, heightMax)` draws; `round` counts the rounds so
      that each draw has its own key. */
  method MidPointDisplacement(hm: array2<real>, p: MpdParams, math: MathLib, rnd: Draw)
    requires hm.Length0 == hm.Length1 && Tiles(hm.Length0 - 1, hm.Length0 - 1)
    modifies hm
    ensures View(hm) == Displaced(old(View(hm)), p, math, rnd)
  {
    var width := hm.Length0 - 1;
    var squareSize := width;
    var heightMin := p.heightMin;
    var heightMax := p.heightMax;
    var heightDampener := math.pow(p.dampenerPower, -1.0 * p.roughness);
    var round := 0;
    ghost var goal := Displaced(View(hm), p, math, rnd);
    ghost var current := View(hm);
    ScheduleFits(width, squareSize, heightMin, heightMax, heightDampener);
    while squareSize > 0
      invariant IsGrid(current) && |current| == width + 1 && View(hm) == current
      invariant Fits(Schedule(squareSize, heightMin, heightMax, heightDampener), width)
      invariant Run(current, Schedule(squareSize, heightMin, heightMax, heightDampener), round, rnd) == goal
      decreases squareSize
    {
      var st := Stage(squareSize, heightMin, heightMax);
      RunOneRound(current, squareSize, heightMin, heightMax, heightDampener, round, rnd);
      OneRound(hm, st, round, rnd);
      current := Round(current, st, round, rnd);
      // (int)(squareSize / 2.0f) on a positive size
      squareSize := squareSize / 2;
      heightMin := heightMin * heightDampener;
      heightMax := heightMax * heightDampener;
      round := round + 1;
    }
  }
}
