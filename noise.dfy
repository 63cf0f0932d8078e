/** The additive generators of CustomTerrain: uniform random heights, one fBM
    layer, a list of fBM layers, and the ridged variant that folds the summed
    layers about 0.5. */
module Noise {
  import opened Heightmap
  import opened Config

  /** The library functions the core calls but this model does not define:
      `Utils.fBM(x, y, octaves, persistance)`, `Mathf.PerlinNoise(x, y)`,
      `Mathf.Pow`, `Mathf.Sin`, `Mathf.Cos` and `Vector2.Distance(a, b)`. */
  datatype MathLib = MathLib(
    fbm: (real, real, int, real) -> real,
    perlinNoise: (real, real) -> real,
    pow: (real, real) -> real,
    sin: real -> real,
    cos: real -> real,
    distance: (real, real, real, real) -> real)

  /** `Mathf.PI` (the single-precision value). */
  const PI: real := 3.1415927410125732421875

  /** What `Random.Range(lo, hi)` may return for floats: a value between the bounds. */
  predicate Between(v: real, lo: real, hi: real) {
    if lo <= hi then lo <= v <= hi else hi <= v <= lo
  }

  /** `randomHeightRange`: each cell gets one draw, `draw(x, z)`, added to it. */
  method RandomTerrain(hm: array2<real>, rangeLo: real, rangeHi: real, draw: (int, int) -> real)
    requires hm.Length0 == hm.Length1
    requires forall x, z :: 0 <= x < hm.Length0 && 0 <= z < hm.Length0 ==> Between(draw(x, z), rangeLo, rangeHi)
    modifies hm
    ensures forall x, z :: 0 <= x < hm.Length0 && 0 <= z < hm.Length1 ==> hm[x, z] == old(hm[x, z]) + draw(x, z)
    ensures rangeLo <= rangeHi ==>
      forall x, z :: 0 <= x < hm.Length0 && 0 <= z < hm.Length1 ==>
        old(hm[x, z]) + rangeLo <= hm[x, z] <= old(hm[x, z]) + rangeHi
  {
    var n := hm.Length0;
    for x := 0 to n
      invariant forall i, j :: 0 <= i < n && 0 <= j < n ==>
        hm[i, j] == old(hm[i, j]) + (if i < x then draw(i, j) else 0.0)
    {
      for z := 0 to n
        invariant forall i, j :: 0 <= i < n && 0 <= j < n ==>
          hm[i, j] == old(hm[i, j]) + (if i < x || (i == x && j < z) then draw(i, j) else 0.0)
      {
        hm[x, z] := hm[x, z] + draw(x, z);
      }
    }
  }

  /** The contribution of one layer to cell (x, y). */
  function Sample(p: PerlinParameters, math: MathLib, x: int, y: int): real {
    math.fbm((x + p.offsetX) as real * p.xScale, (y + p.offsetY) as real * p.yScale, p.octaves, p.persistance) * p.heightScale
  }

  /** The contributions of all layers to cell (x, y), added in list order. */
  function LayerSum(layers: seq<PerlinParameters>, math: MathLib, x: int, y: int): real {
    if layers == [] then 0.0
    else LayerSum(layers[..|layers| - 1], math, x, y) + Sample(layers[|layers| - 1], math, x, y)
  }

  /** Layers compose additively: adding the layers of a and then those of b is
      the same as adding the layers of a + b. */
  lemma {:induction false} LayerSumAppend(a: seq<PerlinParameters>, b: seq<PerlinParameters>, math: MathLib, x: int, y: int)
    ensures LayerSum(a + b, math, x, y) == LayerSum(a, math, x, y) + LayerSum(b, math, x, y)
  {
    if b != [] {
      var n := |b| - 1;
      assert (a + b)[..|a + b| - 1] == a + b[..n];
      LayerSumAppend(a, b[..n], math, x, y);
    } else {
      assert a + b == a;
    }
  }

  /** The single-layer generator (the `perlin*` fields, carried here in `p`). */
  method PerlinTerrain(hm: array2<real>, p: PerlinParameters, math: MathLib)
    requires hm.Length0 == hm.Length1
    modifies hm
    ensures forall x, y :: 0 <= x < hm.Length0 && 0 <= y < hm.Length1 ==> hm[x, y] == old(hm[x, y]) + Sample(p, math, x, y)
  {
    var n := hm.Length0;
    for y := 0 to n
      invariant forall i, j :: 0 <= i < n && 0 <= j < n ==>
        hm[i, j] == old(hm[i, j]) + (if j < y then Sample(p, math, i, j) else 0.0)
    {
      for x := 0 to n
        invariant forall i, j :: 0 <= i < n && 0 <= j < n ==>
          hm[i, j] == old(hm[i, j]) + (if j < y || (j == y && i < x) then Sample(p, math, i, j) else 0.0)
      {
        hm[x, y] := hm[x, y] + Sample(p, math, x, y);
      }
    }
  }

  /** Adds every layer of the list to every cell. */
  method MultiplePerlinTerrain(hm: array2<real>, layers: seq<PerlinParameters>, math: MathLib)
    requires hm.Length0 == hm.Length1
    modifies hm
    ensures forall x, y :: 0 <= x < hm.Length0 && 0 <= y < hm.Length1 ==>
      hm[x, y] == old(hm[x, y]) + LayerSum(layers, math, x, y)
  {
    var n := hm.Length0;
    for y := 0 to n
      invariant forall i, j :: 0 <= i < n && 0 <= j < n ==>
        hm[i, j] == old(hm[i, j]) + (if j < y then LayerSum(layers, math, i, j) else 0.0)
    {
      for x := 0 to n
        invariant forall i, j :: 0 <= i < n && 0 <= j < n ==>
          hm[i, j] == old(hm[i, j]) + (if j < y || (j == y && i < x) then LayerSum(layers, math, i, j) else 0.0)
      {
        var k := 0;
        while k < |layers|
          invariant 0 <= k <= |layers|
          invariant hm[x, y] == old(hm[x, y]) + LayerSum(layers[..k], math, x, y)
          invariant forall i, j :: 0 <= i < n && 0 <= j < n && (i != x || j != y) ==>
            hm[i, j] == old(hm[i, j]) + (if j < y || (j == y && i < x) then LayerSum(layers, math, i, j) else 0.0)
        {
          assert layers[..k + 1][..k] == layers[..k];
          hm[x, y] := hm[x, y] + Sample(layers[k], math, x, y);
          k := k + 1;
        }
        assert layers[..k] == layers;
      }
    }
  }

  /** The ridge fold of line 232: `1 - |h - 0.5|`. */
  function Ridge(h: real): (r: real)
    ensures r <= 1.0
    ensures 0.0 <= h <= 1.0 ==> 0.5 <= r
  {
    1.0 - (if h >= 0.5 then h - 0.5 else 0.5 - h)
  }

  /** The fold applied n times, as `RidgeNoise` does once per layer. */
  function RidgeTimes(h: real, n: nat): real {
    if n == 0 then h else Ridge(RidgeTimes(h, n - 1))
  }

  /** On [0, 1], one fold lands in [0.5, 1], and further
      folds only alternate between Ridge(h) and 1.5 - Ridge(h): the number of
      layers matters only through its parity. */
  lemma {:induction false} RidgeTimesParity(h: real, n: nat)
    requires 0.0 <= h <= 1.0
    ensures n >= 1 ==> 0.5 <= RidgeTimes(h, n) <= 1.0
    ensures n >= 1 && n % 2 == 1 ==> RidgeTimes(h, n) == Ridge(h)
    ensures n >= 2 && n % 2 == 0 ==> RidgeTimes(h, n) == 1.5 - Ridge(h)
  {
    if n >= 2 {
      RidgeTimesParity(h, n - 1);
    }
  }

  /** Clears the grid (`ResetTerrain`), adds the layers, then folds every cell once
      per layer. */
  method RidgeNoise(hm: array2<real>, layers: seq<PerlinParameters>, math: MathLib)
    requires hm.Length0 == hm.Length1
    modifies hm
    ensures forall x, y :: 0 <= x < hm.Length0 && 0 <= y < hm.Length1 ==>
      hm[x, y] == RidgeTimes(LayerSum(layers, math, x, y), |layers|)
  {
    var n := hm.Length0;
    ResetTerrain(hm);
    MultiplePerlinTerrain(hm, layers, math);
    for y := 0 to n
      invariant forall i, j :: 0 <= i < n && 0 <= j < n ==>
        hm[i, j] == if j < y then RidgeTimes(LayerSum(layers, math, i, j), |layers|) else LayerSum(layers, math, i, j)
    {
      for x := 0 to n
        invariant forall i, j :: 0 <= i < n && 0 <= j < n ==>
          hm[i, j] == if j < y || (j == y && i < x) then RidgeTimes(LayerSum(layers, math, i, j), |layers|)
                      else LayerSum(layers, math, i, j)
      {
        for k := 0 to |layers|
          invariant hm[x, y] == RidgeTimes(LayerSum(layers, math, x, y), k)
          invariant forall i, j :: 0 <= i < n && 0 <= j < n && (i != x || j != y) ==>
            hm[i, j] == if j < y || (j == y && i < x) then RidgeTimes(LayerSum(layers, math, i, j), |layers|)
                        else LayerSum(layers, math, i, j)
        {
          hm[x, y] := 1.0 - (if hm[x, y] - 0.5 >= 0.0 then hm[x, y] - 0.5 else -(hm[x, y] - 0.5));
        }
      }
    }
  }

  /** `ResetTerrain`: every cell set to 0. */
  method ResetTerrain(hm: array2<real>)
    modifies hm
    ensures forall x, y :: 0 <= x < hm.Length0 && 0 <= y < hm.Length1 ==> hm[x, y] == 0.0
  {
    for x := 0 to hm.Length0
      invariant forall i, j :: 0 <= i < x && 0 <= j < hm.Length1 ==> hm[i, j] == 0.0
    {
      for y := 0 to hm.Length1
        invariant forall i, j :: 0 <= i < hm.Length0 && 0 <= j < hm.Length1 && (i < x || (i == x && j < y)) ==> hm[i, j] == 0.0
      {
        hm[x, y] := 0.0;
      }
    }
  }
}
