/** `Voronoi`: drop peaks at random cells and let every other cell take the
    larger of its height and the peak's falloff there. */
module Voronoi {
  import opened Heightmap
  import opened Config
  import opened Noise

  /** `VoronoiType`. */
  datatype VoronoiType = Linear | Power | SinPow | Combined | Perlin

  /** `voronoiFallOff`, `voronoiDropOff`, `voronoiMinHeight`, `voronoiMaxHeight`, `voronoiType`. */
  datatype VoronoiParams = VoronoiParams(fallOff: real, dropOff: real, minHeight: real, maxHeight: real, kind: VoronoiType)

  /** A peak as drawn: column `x`, height, row `z`. */
  datatype Peak = Peak(x: int, height: real, z: int)

  /** The height a peak of height `peakHeight` gives a cell at normalised distance
      `d` (lines 275-294); `perlin` is the fBM term the Perlin variant adds. */
  function Falloff(v: VoronoiParams, math: MathLib, peakHeight: real, d: real, perlin: real): real
    requires v.kind == SinPow ==> v.dropOff != 0.0
  {
    match v.kind
    case Power => peakHeight - math.pow(d, v.dropOff) * v.fallOff
    case SinPow => peakHeight - math.pow(d * 3.0, v.fallOff) - math.sin(d * 2.0 * PI) / v.dropOff
    case Combined => peakHeight - d * v.fallOff - math.pow(d, v.dropOff)
    case Perlin => (peakHeight - d * v.fallOff) + perlin
    case Linear => peakHeight - d * v.fallOff
  }

  /** The falloff height of `peak` at cell (x, y) of an n x n grid: the distance is
      divided by the length of the grid's diagonal. */
  function FalloffAt(v: VoronoiParams, math: MathLib, layer: PerlinParameters, n: nat, peak: Peak, x: int, y: int): real
    requires v.kind == SinPow ==> v.dropOff != 0.0
    requires math.distance(0.0, 0.0, n as real, n as real) != 0.0
  {
    var d := math.distance(peak.x as real, peak.z as real, x as real, y as real) / math.distance(0.0, 0.0, n as real, n as real);
    Falloff(v, math, peak.height, d, Sample(layer, math, x, y))
  }

  predicate Admissible(v: VoronoiParams, math: MathLib, n: nat) {
    (v.kind == SinPow ==> v.dropOff != 0.0) && math.distance(0.0, 0.0, n as real, n as real) != 0.0
  }

  /** Every peak lies on the n x n grid. */
  predicate PeaksOn(peaks: seq<Peak>, n: nat) {
    forall k :: 0 <= k < |peaks| ==> 0 <= peaks[k].x < n && 0 <= peaks[k].z < n
  }

  /** What a peak that is not skipped leaves in cell (x, y) of height h, where
      the peak's falloff is f: the peak height at its own cell, the larger of h
      and f elsewhere. */
  function Raised(peak: Peak, h: real, f: real, x: int, y: int): (r: real)
    ensures !(x == peak.x && y == peak.z) ==> h <= r && f <= r
  {
    if x == peak.x && y == peak.z then peak.height
    else if h < f then f else h
  }

  /** The falloff of a peak over the whole grid, as a function of the cell. */
  type Falloffs = (int, int) -> real

  function FalloffsOf(v: VoronoiParams, math: MathLib, layer: PerlinParameters, n: nat, peak: Peak): (fall: Falloffs)
    requires Admissible(v, math, n)
    ensures forall x, y {:trigger FalloffAt(v, math, layer, n, peak, x, y)} :: fall(x, y) == FalloffAt(v, math, layer, n, peak, x, y)
  {
    (x: int, y: int) => FalloffAt(v, math, layer, n, peak, x, y)
  }

  /** One peak.  It is skipped when its cell is already at least as high;
      otherwise every cell takes its `Raised` value. */
  function DropPeak(g: Grid, v: VoronoiParams, math: MathLib, layer: PerlinParameters, peak: Peak): (r: Grid)
    requires IsGrid(g) && InGrid(g, peak.x, peak.z) && Admissible(v, math, |g|)
    ensures IsGrid(r) && |r| == |g|
    ensures forall x, y :: InGrid(g, x, y) ==>
      r[x][y] == if g[peak.x][peak.z] < peak.height then Raised(peak, g[x][y], FalloffAt(v, math, layer, |g|, peak, x, y), x, y) else g[x][y]
  {
    if g[peak.x][peak.z] < peak.height then
      seq(|g|, x requires 0 <= x < |g| =>
        seq(|g|, y requires 0 <= y < |g| => Raised(peak, g[x][y], FalloffAt(v, math, layer, |g|, peak, x, y), x, y)))
    else g
  }

  /** A peak never lowers a cell; afterwards its own cell is at least as high as
      the peak, and a skipped peak changes nothing. */
  lemma DropPeakRaises(g: Grid, v: VoronoiParams, math: MathLib, layer: PerlinParameters, peak: Peak)
    requires IsGrid(g) && InGrid(g, peak.x, peak.z) && Admissible(v, math, |g|)
    ensures Below(g, DropPeak(g, v, math, layer, peak))
    ensures DropPeak(g, v, math, layer, peak)[peak.x][peak.z] >= peak.height
    ensures g[peak.x][peak.z] >= peak.height ==> DropPeak(g, v, math, layer, peak) == g
    ensures g[peak.x][peak.z] < peak.height ==> DropPeak(g, v, math, layer, peak)[peak.x][peak.z] == peak.height
  {
  }

  /** All peaks, in order. */
  function DropPeaks(g: Grid, v: VoronoiParams, math: MathLib, layer: PerlinParameters, peaks: seq<Peak>): (r: Grid)
    requires IsGrid(g) && Admissible(v, math, |g|) && PeaksOn(peaks, |g|)
    ensures IsGrid(r) && |r| == |g|
  {
    if peaks == [] then g
    else DropPeak(DropPeaks(g, v, math, layer, peaks[..|peaks| - 1]), v, math, layer, peaks[|peaks| - 1])
  }

  /** Voronoi never lowers a cell, whatever the falloff variant, and every peak's
      cell ends at least as high as that peak. */
  lemma {:induction false} DropPeaksRaise(g: Grid, v: VoronoiParams, math: MathLib, layer: PerlinParameters, peaks: seq<Peak>)
    requires IsGrid(g) && Admissible(v, math, |g|) && PeaksOn(peaks, |g|)
    ensures Below(g, DropPeaks(g, v, math, layer, peaks))
    ensures forall k :: 0 <= k < |peaks| ==> DropPeaks(g, v, math, layer, peaks)[peaks[k].x][peaks[k].z] >= peaks[k].height
  {
    if peaks != [] {
      var n := |peaks| - 1;
      var pre := DropPeaks(g, v, math, layer, peaks[..n]);
      DropPeaksRaise(g, v, math, layer, peaks[..n]);
      DropPeakRaises(pre, v, math, layer, peaks[n]);
      var r := DropPeak(pre, v, math, layer, peaks[n]);
      forall k | 0 <= k < |peaks| ensures r[peaks[k].x][peaks[k].z] >= peaks[k].height {
        if k < n {
          assert peaks[..n][k] == peaks[k];
        }
      }
    }
  }

  /** Cells before (x, y) in raster order, and the peak's own cell, hold their
      `Raised` value; the others still hold their value in `before`. */
  ghost predicate RaisedTo(hm: array2<real>, fall: Falloffs, peak: Peak, before: Grid, x: int, y: int)
    requires IsGrid(before) && |before| == hm.Length0 == hm.Length1
    reads hm
  {
    forall i, j :: 0 <= i < hm.Length0 && 0 <= j < hm.Length0 ==>
      hm[i, j] == if j < y || (j == y && i < x) || (i == peak.x && j == peak.z)
                  then Raised(peak, before[i][j], fall(i, j), i, j) else before[i][j]
  }

  /** The body of the peak loop for one peak. */
  method PlacePeak(hm: array2<real>, v: VoronoiParams, math: MathLib, layer: PerlinParameters, peak: Peak)
    requires hm.Length0 == hm.Length1
    requires Admissible(v, math, hm.Length0)
    requires 0 <= peak.x < hm.Length0 && 0 <= peak.z < hm.Length0
    modifies hm
    ensures View(hm) == DropPeak(old(View(hm)), v, math, layer, peak)
  {
    var n := hm.Length0;
    ghost var before := View(hm);
    if hm[peak.x, peak.z] < peak.height {
      hm[peak.x, peak.z] := peak.height;
    } else {
      return;
    }
    var maxDistance := math.distance(0.0, 0.0, n as real, n as real);
    ghost var fall := FalloffsOf(v, math, layer, n, peak);
    for y := 0 to n
      invariant RaisedTo(hm, fall, peak, before, 0, y)
    {
      RaiseRow(hm, v, math, layer, peak, fall, before, maxDistance, y);
    }
    ViewIs(hm, DropPeak(before, v, math, layer, peak));
  }

  /** The inner loop of one peak, over the cells of row y. */
  method RaiseRow(hm: array2<real>, v: VoronoiParams, math: MathLib, layer: PerlinParameters, peak: Peak,
                  ghost fall: Falloffs, ghost before: Grid, maxDistance: real, y: int)
    requires hm.Length0 == hm.Length1 && Admissible(v, math, hm.Length0)
    requires fall == FalloffsOf(v, math, layer, hm.Length0, peak)
    requires IsGrid(before) && |before| == hm.Length0 && 0 <= y < hm.Length0
    requires maxDistance == math.distance(0.0, 0.0, hm.Length0 as real, hm.Length0 as real)
    requires RaisedTo(hm, fall, peak, before, 0, y)
    modifies hm
    ensures RaisedTo(hm, fall, peak, before, 0, y + 1)
  {
    var n := hm.Length0;
    for x := 0 to n
      invariant RaisedTo(hm, fall, peak, before, x, y)
    {
      RaiseCell(hm, v, math, layer, peak, fall, before, maxDistance, x, y);
    }
  }

  /** The body of the inner loop at cell (x, y). */
  method RaiseCell(hm: array2<real>, v: VoronoiParams, math: MathLib, layer: PerlinParameters, peak: Peak,
                   ghost fall: Falloffs, ghost before: Grid, maxDistance: real, x: int, y: int)
    requires hm.Length0 == hm.Length1 && Admissible(v, math, hm.Length0)
    requires fall == FalloffsOf(v, math, layer, hm.Length0, peak)
    requires IsGrid(before) && |before| == hm.Length0 && 0 <= x < hm.Length0 && 0 <= y < hm.Length0
    requires maxDistance == math.distance(0.0, 0.0, hm.Length0 as real, hm.Length0 as real)
    requires RaisedTo(hm, fall, peak, before, x, y)
    modifies hm
    ensures RaisedTo(hm, fall, peak, before, x + 1, y)
  {
    if !(x == peak.x && y == peak.z) {
      var distanceToPeak := math.distance(peak.x as real, peak.z as real, x as real, y as real) / maxDistance;
      var h := Falloff(v, math, peak.height, distanceToPeak, Sample(layer, math, x, y));
      assert h == fall(x, y) by {
        assert h == FalloffAt(v, math, layer, hm.Length0, peak, x, y);
      }
      if hm[x, y] < h {
        hm[x, y] := h;
      }
    }
  }

  /** The source's peak loop.  `peaks` holds the draws `Random.Range(0, R)`,
      `Random.Range(minHeight, maxHeight)`, `Random.Range(0, R)` of each iteration;
      `layer` holds the single-layer `perlin*` fields the Perlin variant reads. */
  method Voronoi(hm: array2<real>, v: VoronoiParams, math: MathLib, layer: PerlinParameters, peaks: seq<Peak>)
    requires hm.Length0 == hm.Length1
    requires Admissible(v, math, hm.Length0) && PeaksOn(peaks, hm.Length0)
    requires forall k :: 0 <= k < |peaks| ==> Between(peaks[k].height, v.minHeight, v.maxHeight)
    modifies hm
    ensures View(hm) == DropPeaks(old(View(hm)), v, math, layer, peaks)
  {
    ghost var g0 := View(hm);
    for p := 0 to |peaks|
      invariant View(hm) == DropPeaks(g0, v, math, layer, peaks[..p])
    {
      assert peaks[..p + 1][..p] == peaks[..p];
      PlacePeak(hm, v, math, layer, peaks[p]);
    }
    assert peaks[..|peaks|] == peaks;
  }
}
