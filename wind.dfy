/** `Wind`: a rotated raster of sample points, ten rows apart, sweeps over and
    beyond the map; at each point a Perlin value shifts a "dig" cell and a
    "pile" cell five rows further along the wind, and when both land on the
    map a grain of 0.001 moves from the dig cell to the pile cell. */
module Wind {
  import opened Heightmap
  import opened Neighbours
  import opened Noise

  /** The wind direction in degrees. */
  const WindDir: real := 30.0

  /** `Mathf.Deg2Rad` (the single-precision value). */
  const Deg2Rad: real := 0.01745329238474369049072265625

  /** The height one sample moves. */
  const Grain: real := 0.001

  /** C#'s `(int)` cast of a float: truncation toward zero. */
  function Trunc(r: real): (i: int)
    ensures r >= 0.0 ==> 0 <= i && i as real <= r < i as real + 1.0
    ensures r < 0.0 ==> i <= 0 && i as real - 1.0 < r <= i as real
  {
    if r >= 0.0 then r.Floor else -((-r).Floor)
  }

  /** `sinAngle` and `cosAngle` of `Wind`. */
  datatype Angles = Angles(sin: real, cos: real)

  function WindAngles(math: MathLib): Angles {
    Angles(-math.sin(Deg2Rad * WindDir), math.cos(Deg2Rad * WindDir))
  }

  /** A `Vector2`. */
  datatype Point = Point(x: real, y: real)

  /** (u, v) turned by the wind's angles, as `digCoords` and `pileCoords` are built. */
  function Rotate(a: Angles, u: int, v: int): Point {
    Point(u as real * a.cos - v as real * a.sin, v as real * a.cos + u as real * a.sin)
  }

  /** The raster runs from -(R - 1) * 2 to R * 2 inclusive in both directions. */
  function Lo(n: int): int { -(n - 1) * 2 }
  function Hi(n: int): int { n * 2 }

  /** The guard of `Wind`: the pile point lies in [0, R - 1] on both axes and
      the truncated dig point lies on the map. */
  predicate Lands(n: int, dig: Point, pile: Point) {
    0.0 <= pile.x <= (n - 1) as real && 0.0 <= pile.y <= (n - 1) as real &&
    0 <= Trunc(dig.x) <= n - 1 && 0 <= Trunc(dig.y) <= n - 1
  }

  /** `thisNoise` at raster point (x, y). */
  function Gust(math: MathLib, strength: real, x: int, y: int): real {
    math.perlinNoise(x as real * 0.06, y as real * 0.06) * 20.0 * strength
  }

  /** One grain from cell d to cell p (d is lowered first, so d == p is a no-op). */
  function Transfer(g: Grid, d: Pos, p: Pos): (r: Grid)
    requires IsGrid(g) && InGrid(g, d.x, d.y) && InGrid(g, p.x, p.y)
    ensures IsGrid(r) && |r| == |g|
  {
    var g1 := Set(g, d.x, d.y, g[d.x][d.y] - Grain);
    Set(g1, p.x, p.y, g1[p.x][p.y] + Grain)
  }

  /** The dig and pile points of raster point (x, y) for a given noise value. */
  function Dig(a: Angles, noise: real, x: int, y: int): Point {
    Rotate(a, x, y + Trunc(noise))
  }

  function Pile(a: Angles, noise: real, x: int, y: int): Point {
    Rotate(a, x, y + 5 + Trunc(noise))
  }

  /** The body of the inner loop of `Wind` at raster point (x, y). */
  function WindCell(g: Grid, a: Angles, noise: real, x: int, y: int): (r: Grid)
    requires IsGrid(g)
    ensures IsGrid(r) && |r| == |g|
  {
    var dig := Dig(a, noise, x, y);
    var pile := Pile(a, noise, x, y);
    if Lands(|g|, dig, pile) then
      Transfer(g, Pos(Trunc(dig.x), Trunc(dig.y)), Pos(Trunc(pile.x), Trunc(pile.y)))
    else g
  }

  /** The inner loop from x on, for the raster row y. */
  function WindRow(g: Grid, a: Angles, math: MathLib, strength: real, x: int, y: int): (r: Grid)
    requires IsGrid(g)
    ensures IsGrid(r) && |r| == |g|
    decreases Hi(|g|) + 1 - x
  {
    if x > Hi(|g|) then g
    else WindRow(WindCell(g, a, Gust(math, strength, x, y), x, y), a, math, strength, x + 1, y)
  }

  /** The outer loop from raster row y on. */
  function WindPass(g: Grid, a: Angles, math: MathLib, strength: real, y: int): (r: Grid)
    requires IsGrid(g)
    ensures IsGrid(r) && |r| == |g|
    decreases Hi(|g|) + 10 - y
  {
    if y > Hi(|g|) then g
    else WindPass(WindRow(g, a, math, strength, Lo(|g|), y), a, math, strength, y + 10)
  }

  /** The heightmap after `Wind`. */
  function Blown(g: Grid, math: MathLib, strength: real): (r: Grid)
    requires IsGrid(g)
    ensures IsGrid(r) && |r| == |g|
  {
    WindPass(g, WindAngles(math), math, strength, Lo(|g|))
  }

  /** A transfer moves height and makes none: the sum is kept, and only the two
      cells involved change. */
  lemma TransferSum(g: Grid, d: Pos, p: Pos)
    requires IsGrid(g) && InGrid(g, d.x, d.y) && InGrid(g, p.x, p.y)
    ensures Sum(Transfer(g, d, p)) == Sum(g)
    ensures forall i, j :: InGrid(g, i, j) && Pos(i, j) != d && Pos(i, j) != p ==> Transfer(g, d, p)[i][j] == g[i][j]
  {
    var g1 := Set(g, d.x, d.y, g[d.x][d.y] - Grain);
    SumSet(g, d.x, d.y, g[d.x][d.y] - Grain);
    SumSet(g1, p.x, p.y, g1[p.x][p.y] + Grain);
    SetAt(g, d.x, d.y, g[d.x][d.y] - Grain);
    SetAt(g1, p.x, p.y, g1[p.x][p.y] + Grain);
  }

  lemma WindCellSum(g: Grid, a: Angles, noise: real, x: int, y: int)
    requires IsGrid(g)
    ensures Sum(WindCell(g, a, noise, x, y)) == Sum(g)
  {
    var dig := Dig(a, noise, x, y);
    var pile := Pile(a, noise, x, y);
    if Lands(|g|, dig, pile) {
      TransferSum(g, Pos(Trunc(dig.x), Trunc(dig.y)), Pos(Trunc(pile.x), Trunc(pile.y)));
    }
  }

  lemma {:induction false} WindRowSum(g: Grid, a: Angles, math: MathLib, strength: real, x: int, y: int)
    requires IsGrid(g)
    ensures Sum(WindRow(g, a, math, strength, x, y)) == Sum(g)
    decreases Hi(|g|) + 1 - x
  {
    if x <= Hi(|g|) {
      var g1 := WindCell(g, a, Gust(math, strength, x, y), x, y);
      WindCellSum(g, a, Gust(math, strength, x, y), x, y);
      WindRowSum(g1, a, math, strength, x + 1, y);
    }
  }

  lemma {:induction false} WindPassSum(g: Grid, a: Angles, math: MathLib, strength: real, y: int)
    requires IsGrid(g)
    ensures Sum(WindPass(g, a, math, strength, y)) == Sum(g)
    decreases Hi(|g|) + 10 - y
  {
    if y <= Hi(|g|) {
      WindRowSum(g, a, math, strength, Lo(|g|), y);
      WindPassSum(WindRow(g, a, math, strength, Lo(|g|), y), a, math, strength, y + 10);
    }
  }

  /** `Wind` conserves the total height of the map: every grain taken from a
      dig cell is put on a pile cell. */
  lemma WindConserves(g: Grid, math: MathLib, strength: real)
    requires IsGrid(g)
    ensures Sum(Blown(g, math, strength)) == Sum(g)
  {
    WindPassSum(g, WindAngles(math), math, strength, Lo(|g|));
  }

  /** One raster point of `Wind`. */
  method WindCellAt(hm: array2<real>, a: Angles, noise: real, x: int, y: int)
    requires hm.Length0 == hm.Length1
    modifies hm
    ensures View(hm) == WindCell(old(View(hm)), a, noise, x, y)
  {
    var n := hm.Length0;
    var nx := x;
    var digy := y + Trunc(noise);
    var ny := y + 5 + Trunc(noise);
    var digCoords := Rotate(a, x, digy);
    var pileCoords := Rotate(a, nx, ny);
    if !(pileCoords.x < 0.0 || pileCoords.x > (n - 1) as real ||
         pileCoords.y < 0.0 || pileCoords.y > (n - 1) as real ||
         Trunc(digCoords.x) < 0 || Trunc(digCoords.x) > n - 1 ||
         Trunc(digCoords.y) < 0 || Trunc(digCoords.y) > n - 1)
    {
      var dx, dy := Trunc(digCoords.x), Trunc(digCoords.y);
      var px, py := Trunc(pileCoords.x), Trunc(pileCoords.y);
      Put(hm, dx, dy, hm[dx, dy] - Grain);
      Put(hm, px, py, hm[px, py] + Grain);
    }
  }

  /** The inner loop of `Wind` for raster row y. */
  method WindRowAt(hm: array2<real>, a: Angles, math: MathLib, strength: real, y: int)
    requires hm.Length0 == hm.Length1
    modifies hm
    ensures View(hm) == WindRow(old(View(hm)), a, math, strength, Lo(hm.Length0), y)
  {
    var n := hm.Length0;
    ghost var goal := WindRow(View(hm), a, math, strength, Lo(n), y);
    ghost var current := View(hm);
    var x := Lo(n);
    while x <= Hi(n)
      invariant IsGrid(current) && |current| == n && View(hm) == current
      invariant WindRow(current, a, math, strength, x, y) == goal
      decreases Hi(n) + 1 - x
    {
      var thisNoise := Gust(math, strength, x, y);
      WindCellAt(hm, a, thisNoise, x, y);
      current := WindCell(current, a, thisNoise, x, y);
      x := x + 1;
    }
  }

  method Wind(hm: array2<real>, math: MathLib, erosionStrength: real)
    requires hm.Length0 == hm.Length1
    modifies hm
    ensures View(hm) == Blown(old(View(hm)), math, erosionStrength)
  {
    var n := hm.Length0;
    var a := WindAngles(math);
    ghost var goal := Blown(View(hm), math, erosionStrength);
    ghost var current := View(hm);
    var y := Lo(n);
    while y <= Hi(n)
      invariant IsGrid(current) && |current| == n && View(hm) == current
      invariant WindPass(current, a, math, erosionStrength, y) == goal
      decreases Hi(n) + 10 - y
    {
      WindRowAt(hm, a, math, erosionStrength, y);
      current := WindRow(current, a, math, erosionStrength, Lo(n), y);
      y := y + 10;
    }
  }
}
