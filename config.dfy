/** The configuration lists of CustomTerrain (noise layers, splat heights,
    vegetation, details) and their `Remove*` operations: keep the entries whose
    `remove` flag is clear, in order, and never leave a non-empty list empty. */
module Config {

  /** One noise layer of `MultiplePerlinTerrain` (`PerlinParameters`). */
  datatype PerlinParameters = PerlinParameters(
    xScale: real, yScale: real, octaves: int, persistance: real,
    heightScale: real, offsetX: int, offsetY: int, remove: bool)

  /** One texture band (`SplatHeights`); the two textures are not modelled. */
  datatype SplatHeights = SplatHeights(
    minHeight: real, maxHeight: real, splatOffset: real,
    splatNoiseXScale: real, splatNoiseYScale: real, splatNoiseZScale: real,
    minSlope: real, maxSlope: real,
    tileOffset: (real, real), tileSize: (real, real), remove: bool)

  /** One tree kind (`Vegetation`); the prefab and the colours are not modelled. */
  datatype Vegetation = Vegetation(
    minHeight: real, maxHeight: real, minSlope: real, maxSlope: real,
    minScale: real, maxScale: real, minRotation: real, maxRotation: real,
    density: real, remove: bool)

  /** One detail kind (`Detail`); the prototype, its texture and the colours are not modelled. */
  datatype Detail = Detail(
    minHeight: real, maxHeight: real, minSlope: real, maxSlope: real,
    heightRange: (real, real), widthRange: (real, real),
    noiseSpread: real, overlap: real, feather: real, density: real, remove: bool)

  /** The field initialisers of the four entry classes. */
  const DefaultPerlin := PerlinParameters(0.01, 0.01, 3, 8.0, 0.09, 0, 0, false)
  const DefaultSplat := SplatHeights(0.1, 0.2, 0.1, 0.01, 0.01, 0.1, 0.0, 90.0, (0.0, 0.0), (50.0, 50.0), false)
  const DefaultVegetation := Vegetation(0.1, 0.2, 0.0, 90.0, 0.5, 1.0, 0.0, 360.0, 0.5, false)
  const DefaultDetail := Detail(0.1, 0.2, 0.0, 90.0, (1.0, 1.0), (1.0, 1.0), 0.5, 0.01, 0.05, 0.5, false)

  function PerlinRemoved(p: PerlinParameters): bool { p.remove }
  function SplatRemoved(p: SplatHeights): bool { p.remove }
  function VegetationRemoved(p: Vegetation): bool { p.remove }
  function DetailRemoved(p: Detail): bool { p.remove }

  /** The entries whose flag is clear, in their original order. */
  function Kept<T>(s: seq<T>, removed: T -> bool): (r: seq<T>)
    ensures |r| <= |s|
    ensures forall i :: 0 <= i < |r| ==> !removed(r[i])
  {
    if s == [] then []
    else Kept(s[..|s| - 1], removed) + (if removed(s[|s| - 1]) then [] else [s[|s| - 1]])
  }

  /** How many entries have their flag clear. */
  function CountKept<T>(s: seq<T>, removed: T -> bool): nat {
    if s == [] then 0
    else CountKept(s[..|s| - 1], removed) + (if removed(s[|s| - 1]) then 0 else 1)
  }

  /** a is obtained from b by deleting entries (order preserved). */
  predicate IsSubsequence<T(==)>(a: seq<T>, b: seq<T>) {
    if a == [] then true
    else if b == [] then false
    else (a[|a| - 1] == b[|b| - 1] && IsSubsequence(a[..|a| - 1], b[..|b| - 1]))
         || IsSubsequence(a, b[..|b| - 1])
  }

  /** What a `Remove*` method stores: the kept entries, or the original first
      entry alone when every entry was flagged. */
  function Pruned<T>(s: seq<T>, removed: T -> bool): (r: seq<T>)
    requires |s| > 0
    ensures |r| > 0
    ensures forall i :: 0 <= i < |r| ==> r[i] in s
  {
    KeptFromList(s, removed);
    var k := Kept(s, removed);
    if |k| == 0 then [s[0]] else k
  }

  lemma {:induction false} KeptFromList<T>(s: seq<T>, removed: T -> bool)
    ensures forall i :: 0 <= i < |Kept(s, removed)| ==> Kept(s, removed)[i] in s
  {
    if s != [] {
      var n := |s| - 1;
      KeptFromList(s[..n], removed);
      forall i | 0 <= i < |Kept(s, removed)| ensures Kept(s, removed)[i] in s {
        if i < |Kept(s[..n], removed)| {
          assert Kept(s, removed)[i] == Kept(s[..n], removed)[i];
          assert Kept(s[..n], removed)[i] in s[..n];
        }
      }
    }
  }

  /** Kept(s) is the in-order subsequence of unflagged entries: it is a
      subsequence of s, none of its entries is flagged, and it has as many entries
      as s has unflagged ones (so no unflagged entry is missing). */
  lemma {:induction false} KeptIsFilter<T>(s: seq<T>, removed: T -> bool)
    ensures IsSubsequence(Kept(s, removed), s)
    ensures forall i :: 0 <= i < |Kept(s, removed)| ==> !removed(Kept(s, removed)[i])
    ensures |Kept(s, removed)| == CountKept(s, removed)
  {
    if s != [] {
      var n := |s| - 1;
      KeptIsFilter(s[..n], removed);
      var k := Kept(s, removed);
      if removed(s[n]) {
        assert k == Kept(s[..n], removed);
      } else {
        assert k[..|k| - 1] == Kept(s[..n], removed);
      }
    }
  }

  /** When no entry survives, every entry was flagged. */
  lemma {:induction false} KeptEmpty<T>(s: seq<T>, removed: T -> bool)
    requires Kept(s, removed) == []
    ensures forall i :: 0 <= i < |s| ==> removed(s[i])
  {
    if s != [] {
      var n := |s| - 1;
      KeptEmpty(s[..n], removed);
      assert forall i :: 0 <= i < n ==> s[i] == s[..n][i];
    }
  }

  /** Filtering an already filtered list keeps all of it. */
  lemma {:induction false} KeptTwice<T>(s: seq<T>, removed: T -> bool)
    ensures Kept(Kept(s, removed), removed) == Kept(s, removed)
  {
    if s != [] {
      var n := |s| - 1;
      KeptTwice(s[..n], removed);
      var pre := Kept(s[..n], removed);
      if !removed(s[n]) {
        var k := pre + [s[n]];
        assert k[..|k| - 1] == pre;
        assert Kept(k, removed) == Kept(pre, removed) + [s[n]];
      } else {
        assert Kept(s, removed) == pre;
      }
    }
  }

  /** Pruning is idempotent: a second `Remove*` changes nothing, even when the
      first one had to fall back on the flagged first entry. */
  lemma PruneTwice<T>(s: seq<T>, removed: T -> bool)
    requires |s| > 0
    ensures Pruned(Pruned(s, removed), removed) == Pruned(s, removed)
  {
    KeptTwice(s, removed);
    if Kept(s, removed) == [] {
      KeptEmpty(s, removed);
      assert [s[0]][..0] == [];
    }
  }

  /** The loop shared by the four `Remove*` methods.  On an empty list the source
      fails at `list[0]` (an index exception); that is the `ok == false` outcome. */
  method PruneList<T>(entries: seq<T>, removed: T -> bool) returns (ok: bool, kept: seq<T>)
    ensures ok <==> |entries| > 0
    ensures ok ==> kept == Pruned(entries, removed)
    ensures !ok ==> kept == []
  {
    kept := [];
    var i := 0;
    while i < |entries|
      invariant 0 <= i <= |entries|
      invariant kept == Kept(entries[..i], removed)
    {
      assert entries[..i + 1][..i] == entries[..i];
      if !removed(entries[i]) {
        kept := kept + [entries[i]];
      }
      i := i + 1;
    }
    assert entries[..i] == entries;
    ok := |entries| > 0;
    if ok && |kept| == 0 {
      kept := kept + [entries[0]];
    }
  }

  /** The owner of the configuration lists (the list fields of `CustomTerrain`). */
  class CustomTerrain {
    var perlinParameters: seq<PerlinParameters>
    var splatHeights: seq<SplatHeights>
    var vegetation: seq<Vegetation>
    var details: seq<Detail>

    /** No list is empty. */
    predicate Valid()
      reads this
    {
      |perlinParameters| > 0 && |splatHeights| > 0 && |vegetation| > 0 && |details| > 0
    }

    /** Each list starts with one default entry. */
    constructor ()
      ensures Valid()
      ensures perlinParameters == [DefaultPerlin] && splatHeights == [DefaultSplat]
      ensures vegetation == [DefaultVegetation] && details == [DefaultDetail]
    {
      perlinParameters := [DefaultPerlin];
      splatHeights := [DefaultSplat];
      vegetation := [DefaultVegetation];
      details := [DefaultDetail];
    }

    method RemovePerlin() returns (ok: bool)
      modifies this`perlinParameters
      ensures ok <==> |old(perlinParameters)| > 0
      ensures ok ==> perlinParameters == Pruned(old(perlinParameters), PerlinRemoved)
      ensures !ok ==> perlinParameters == old(perlinParameters)
      ensures old(Valid()) ==> ok && Valid()
    {
      var kept;
      ok, kept := PruneList(perlinParameters, PerlinRemoved);
      if ok {
        perlinParameters := kept;
      }
    }

    method RemoveSplatHeight() returns (ok: bool)
      modifies this`splatHeights
      ensures ok <==> |old(splatHeights)| > 0
      ensures ok ==> splatHeights == Pruned(old(splatHeights), SplatRemoved)
      ensures !ok ==> splatHeights == old(splatHeights)
      ensures old(Valid()) ==> ok && Valid()
    {
      var kept;
      ok, kept := PruneList(splatHeights, SplatRemoved);
      if ok {
        splatHeights := kept;
      }
    }

    method RemoveVegetation() returns (ok: bool)
      modifies this`vegetation
      ensures ok <==> |old(vegetation)| > 0
      ensures ok ==> vegetation == Pruned(old(vegetation), VegetationRemoved)
      ensures !ok ==> vegetation == old(vegetation)
      ensures old(Valid()) ==> ok && Valid()
    {
      var kept;
      ok, kept := PruneList(vegetation, VegetationRemoved);
      if ok {
        vegetation := kept;
      }
    }

    method RemoveDetail() returns (ok: bool)
      modifies this`details
      ensures ok <==> |old(details)| > 0
      ensures ok ==> details == Pruned(old(details), DetailRemoved)
      ensures !ok ==> details == old(details)
      ensures old(Valid()) ==> ok && Valid()
    {
      var kept;
      ok, kept := PruneList(details, DetailRemoved);
      if ok {
        details := kept;
      }
    }
  }
}
