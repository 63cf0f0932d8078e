/** `River` and its `RunRiver` walk.  Each droplet marks its start cell with
    `erosionStrength` in a separate erosion map and then runs `springsPerRiver`
    walks from it: a walk repeatedly moves to the first strictly lower neighbour
    in a shuffled neighbour list, carrying its erosion value minus `solubility`,
    or, when no neighbour is lower, loses `solubility` in place; it stops when the
    value at its position is no longer positive.  Finally every positive entry
    of the erosion map is subtracted from the height of its cell. */
module River {
  import opened Heightmap
  import opened Neighbours
  import opened Sweep

  /** `OrderBy(a => rng.Next())` applied to a neighbour list: the t-th shuffle,
      taken for position p. */
  type Shuffle = (Pos, nat) -> seq<Pos>

  /** Every shuffle of the neighbours of an in-grid position p is a permutation
      of `GenerateNeighbours(p, n, n)`. */
  ghost predicate Shuffles(shuffle: Shuffle, n: int)
    requires n >= 1
  {
    forall p, t :: InRect(p, n, n) ==> multiset(shuffle(p, t)) == multiset(Neighbours.Neighbours(p, n, n))
  }

  /** What the walk relies on: every cell a shuffle lists is in the grid and
      adjacent to p. */
  ghost predicate Neighbourly(shuffle: Shuffle, n: int) {
    forall p, t :: InRect(p, n, n) ==>
      forall k :: 0 <= k < |shuffle(p, t)| ==> InRect(shuffle(p, t)[k], n, n) && Adjacent(p, shuffle(p, t)[k])
  }

  /** Shuffles of the neighbour lists are neighbourly. */
  lemma ShufflesNeighbourly(shuffle: Shuffle, n: int)
    requires n >= 1 && Shuffles(shuffle, n)
    ensures Neighbourly(shuffle, n)
  {
    forall p, t, k | InRect(p, n, n) && 0 <= k < |shuffle(p, t)|
      ensures InRect(shuffle(p, t)[k], n, n) && Adjacent(p, shuffle(p, t)[k])
    {
      NeighboursSound(p, n, n);
      assert shuffle(p, t)[k] in multiset(shuffle(p, t));
    }
  }

  /** A shuffled list lies inside the grid. */
  lemma ShuffledInside(g: Grid, shuffle: Shuffle, p: Pos, t: nat)
    requires Neighbourly(shuffle, |g|) && InGrid(g, p.x, p.y)
    ensures AllIn(g, shuffle(p, t))
  {
    var sh := shuffle(p, t);
    assert InRect(p, |g|, |g|);
    forall k | 0 <= k < |sh| ensures InGrid(g, sh[k].x, sh[k].y) {
      assert InRect(sh[k], |g|, |g|);
    }
  }

  /** A cell a shuffle lists is adjacent to p. */
  lemma ShuffledAdjacent(g: Grid, shuffle: Shuffle, p: Pos, t: nat, k: int)
    requires Neighbourly(shuffle, |g|) && InGrid(g, p.x, p.y) && 0 <= k < |shuffle(p, t)|
    ensures Adjacent(p, shuffle(p, t)[k])
  {
    assert InRect(p, |g|, |g|);
  }

  /** The index of the first listed cell strictly lower than p, or |ns| when
      there is none (the `foreach ... break` of `RunRiver`).  A listed cell off
      the grid is passed over; the shuffled lists of `RunRiver` hold none. */
  function FirstLower(h: Grid, ns: seq<Pos>, p: Pos): (k: nat)
    requires IsGrid(h) && InGrid(h, p.x, p.y)
    ensures k <= |ns|
    ensures k < |ns| ==> InGrid(h, ns[k].x, ns[k].y) && h[ns[k].x][ns[k].y] < h[p.x][p.y]
    ensures forall i :: 0 <= i < k && InGrid(h, ns[i].x, ns[i].y) ==> h[ns[i].x][ns[i].y] >= h[p.x][p.y]
  {
    if ns == [] then 0
    else if InGrid(h, ns[0].x, ns[0].y) && h[ns[0].x][ns[0].y] < h[p.x][p.y] then 0
    else 1 + FirstLower(h, ns[1..], p)
  }

  /** The outcome of a walk: the erosion map it leaves, the cells it moved
      through (start first), and how many shuffles have been drawn in all. */
  datatype Walked = Walked(erosion: Grid, path: seq<Pos>, draws: nat)

  lemma DivStep(e: real, solubility: real)
    requires solubility > 0.0
    ensures (e - solubility) / solubility == e / solubility - 1.0
  {
    assert solubility / solubility == 1.0;
    assert (e - solubility) / solubility == e / solubility - solubility / solubility;
  }

  /** Where the walk goes from p with the t-th shuffle: the first strictly
      lower cell of the shuffled list, or p itself when none is lower. */
  function Target(h: Grid, p: Pos, shuffle: Shuffle, t: nat): (q: Pos)
    requires IsGrid(h) && InGrid(h, p.x, p.y)
    ensures InGrid(h, q.x, q.y)
    ensures q == p || (q in shuffle(p, t) && h[q.x][q.y] < h[p.x][p.y])
  {
    var ns := shuffle(p, t);
    var k := FirstLower(h, ns, p);
    if k < |ns| then ns[k] else p
  }

  /** With neighbourly shuffles the walk's target is p or adjacent to it. */
  lemma TargetAdjacent(h: Grid, p: Pos, shuffle: Shuffle, t: nat)
    requires IsGrid(h) && InGrid(h, p.x, p.y) && Neighbourly(shuffle, |h|)
    ensures Target(h, p, shuffle, t) == p || Adjacent(p, Target(h, p, shuffle, t))
  {
    var k := FirstLower(h, shuffle(p, t), p);
    if k < |shuffle(p, t)| {
      ShuffledAdjacent(h, shuffle, p, t, k);
    }
  }

  /** `RunRiver` from p on heights h and erosion map e, the shuffles numbered
      from t.  Every step lowers the erosion value at the walk's position by
      exactly `solubility`, which is what makes the walk end. */
  function Walk(h: Grid, e: Grid, p: Pos, solubility: real, shuffle: Shuffle, t: nat): (w: Walked)
    requires IsGrid(h) && IsGrid(e) && |e| == |h| && InGrid(h, p.x, p.y)
    requires solubility > 0.0
    ensures IsGrid(w.erosion) && |w.erosion| == |h|
    decreases (e[p.x][p.y] / solubility).Floor
  {
    if e[p.x][p.y] <= 0.0 then Walked(e, [p], t)
    else
      var q := Target(h, p, shuffle, t);
      DivStep(e[p.x][p.y], solubility);
      var rest := Walk(h, Set(e, q.x, q.y, e[p.x][p.y] - solubility), q, solubility, shuffle, t + 1);
      if q != p then Walked(rest.erosion, [p] + rest.path, rest.draws) else rest
  }

  /** One step of the walk, as the loop of `RunRiver` takes it: q is the
      target and v the value carried there. */
  lemma WalkStep(h: Grid, e: Grid, p: Pos, q: Pos, v: real, solubility: real, shuffle: Shuffle, t: nat)
    requires IsGrid(h) && IsGrid(e) && |e| == |h| && InGrid(h, p.x, p.y)
    requires solubility > 0.0 && e[p.x][p.y] > 0.0
    requires q == Target(h, p, shuffle, t) && v == e[p.x][p.y] - solubility
    ensures Walk(h, e, p, solubility, shuffle, t).erosion == Walk(h, Set(e, q.x, q.y, v), q, solubility, shuffle, t + 1).erosion
    ensures Walk(h, e, p, solubility, shuffle, t).draws == Walk(h, Set(e, q.x, q.y, v), q, solubility, shuffle, t + 1).draws
    ensures Walk(h, e, p, solubility, shuffle, t).path ==
      if q != p then [p] + Walk(h, Set(e, q.x, q.y, v), q, solubility, shuffle, t + 1).path
      else Walk(h, Set(e, q.x, q.y, v), q, solubility, shuffle, t + 1).path
    ensures 0 <= (e[p.x][p.y] / solubility).Floor
    ensures (Set(e, q.x, q.y, v)[q.x][q.y] / solubility).Floor < (e[p.x][p.y] / solubility).Floor
  {
    DivStep(e[p.x][p.y], solubility);
    SetAt(e, q.x, q.y, v);
  }

  /** The walk's route: it starts at p, and every move goes to an adjacent cell
      strictly lower in h. */
  predicate Descends(h: Grid, path: seq<Pos>)
    requires IsGrid(h)
  {
    path == [] ||
    (InGrid(h, path[0].x, path[0].y) &&
     (|path| == 1 || (Downhill(h, path[0], path[1]) && Descends(h, path[1..]))))
  }

  /** A move from a to b: both on the grid, adjacent, and b strictly lower. */
  predicate Downhill(h: Grid, a: Pos, b: Pos)
    requires IsGrid(h)
  {
    InGrid(h, a.x, a.y) && InGrid(h, b.x, b.y) && Adjacent(a, b) && h[b.x][b.y] < h[a.x][a.y]
  }

  /** A downhill route, step by step: every cell of it is on the grid, and
      every move goes to an adjacent, strictly lower cell. */
  lemma {:induction false} DescendsSteps(h: Grid, path: seq<Pos>)
    requires IsGrid(h) && Descends(h, path)
    ensures forall i :: 0 <= i < |path| ==> InGrid(h, path[i].x, path[i].y)
    ensures forall i :: 0 <= i < |path| - 1 ==> Downhill(h, path[i], path[i + 1])
  {
    if |path| > 1 {
      DescendsSteps(h, path[1..]);
      assert forall i :: 1 <= i < |path| ==> path[i] == path[1..][i - 1];
    }
  }

  /** A downhill route stays downhill when it is entered from a higher
      adjacent cell. */
  lemma DescendsCons(h: Grid, p: Pos, rest: seq<Pos>)
    requires IsGrid(h) && Descends(h, rest) && |rest| >= 1
    requires Downhill(h, p, rest[0])
    ensures Descends(h, [p] + rest)
  {
    assert ([p] + rest)[1..] == rest;
  }

  /** A walk's route starts where the walk starts, and every step draws a
      shuffle. */
  lemma {:induction false} WalkStart(h: Grid, e: Grid, p: Pos, solubility: real, shuffle: Shuffle, t: nat)
    requires IsGrid(h) && IsGrid(e) && |e| == |h| && InGrid(h, p.x, p.y)
    requires solubility > 0.0
    ensures var w := Walk(h, e, p, solubility, shuffle, t);
      |w.path| >= 1 && w.path[0] == p && w.draws >= t
    decreases (e[p.x][p.y] / solubility).Floor
  {
    if e[p.x][p.y] > 0.0 {
      var q := Target(h, p, shuffle, t);
      WalkStep(h, e, p, q, e[p.x][p.y] - solubility, solubility, shuffle, t);
      WalkStart(h, Set(e, q.x, q.y, e[p.x][p.y] - solubility), q, solubility, shuffle, t + 1);
    }
  }

  /** Running a walk moves only downhill, between adjacent cells. */
  lemma {:induction false} WalkDescends(h: Grid, e: Grid, p: Pos, solubility: real, shuffle: Shuffle, t: nat)
    requires IsGrid(h) && IsGrid(e) && |e| == |h| && InGrid(h, p.x, p.y)
    requires solubility > 0.0 && Neighbourly(shuffle, |h|)
    ensures Descends(h, Walk(h, e, p, solubility, shuffle, t).path)
    decreases (e[p.x][p.y] / solubility).Floor
  {
    if e[p.x][p.y] > 0.0 {
      var q := Target(h, p, shuffle, t);
      var e1 := Set(e, q.x, q.y, e[p.x][p.y] - solubility);
      WalkStep(h, e, p, q, e[p.x][p.y] - solubility, solubility, shuffle, t);
      WalkDescends(h, e1, q, solubility, shuffle, t + 1);
      WalkStart(h, e1, q, solubility, shuffle, t + 1);
      TargetAdjacent(h, p, shuffle, t);
      if q != p {
        DescendsCons(h, p, Walk(h, e1, q, solubility, shuffle, t + 1).path);
      }
    }
  }

  /** A walk touches the erosion map only on the cells it passes through. */
  lemma {:induction false} WalkKeeps(h: Grid, e: Grid, p: Pos, solubility: real, shuffle: Shuffle, t: nat)
    requires IsGrid(h) && IsGrid(e) && |e| == |h| && InGrid(h, p.x, p.y)
    requires solubility > 0.0
    ensures var w := Walk(h, e, p, solubility, shuffle, t);
      forall i, j :: InGrid(h, i, j) && Pos(i, j) !in w.path ==> w.erosion[i][j] == e[i][j]
    decreases (e[p.x][p.y] / solubility).Floor
  {
    if e[p.x][p.y] > 0.0 {
      var q := Target(h, p, shuffle, t);
      var e1 := Set(e, q.x, q.y, e[p.x][p.y] - solubility);
      WalkStep(h, e, p, q, e[p.x][p.y] - solubility, solubility, shuffle, t);
      WalkKeeps(h, e1, q, solubility, shuffle, t + 1);
      WalkStart(h, e1, q, solubility, shuffle, t + 1);
      SetAt(e, q.x, q.y, e[p.x][p.y] - solubility);
      if q != p {
        var w := Walk(h, e, p, solubility, shuffle, t);
        var rest := Walk(h, e1, q, solubility, shuffle, t + 1);
        assert w.path == [p] + rest.path;
      }
    }
  }

  /** A walk writes only values below the current one, so it never raises the
      largest erosion value. */
  lemma {:induction false} WalkAtMost(h: Grid, e: Grid, p: Pos, solubility: real, shuffle: Shuffle, t: nat, m: real)
    requires IsGrid(h) && IsGrid(e) && |e| == |h| && InGrid(h, p.x, p.y)
    requires solubility > 0.0 && AtMost(e, m)
    ensures AtMost(Walk(h, e, p, solubility, shuffle, t).erosion, m)
    decreases (e[p.x][p.y] / solubility).Floor
  {
    if e[p.x][p.y] > 0.0 {
      var q := Target(h, p, shuffle, t);
      DivStep(e[p.x][p.y], solubility);
      SetAt(e, q.x, q.y, e[p.x][p.y] - solubility);
      WalkAtMost(h, Set(e, q.x, q.y, e[p.x][p.y] - solubility), q, solubility, shuffle, t + 1, m);
    }
  }

  /** The walks of one droplet: `springs` walks from the same start p. */
  function Springs(h: Grid, e: Grid, p: Pos, springs: int, solubility: real, shuffle: Shuffle, t: nat): (w: Walked)
    requires IsGrid(h) && IsGrid(e) && |e| == |h| && InGrid(h, p.x, p.y)
    requires solubility > 0.0
    ensures IsGrid(w.erosion) && |w.erosion| == |h|
    decreases springs
  {
    if springs <= 0 then Walked(e, [], t)
    else
      var pre := Springs(h, e, p, springs - 1, solubility, shuffle, t);
      Walk(h, pre.erosion, p, solubility, shuffle, pre.draws)
  }

  /** One more spring is one more walk from the same start. */
  lemma SpringsStep(h: Grid, e: Grid, p: Pos, j: nat, solubility: real, shuffle: Shuffle, t: nat)
    requires IsGrid(h) && IsGrid(e) && |e| == |h| && InGrid(h, p.x, p.y) && solubility > 0.0
    ensures var pre := Springs(h, e, p, j, solubility, shuffle, t);
      Springs(h, e, p, j + 1, solubility, shuffle, t) == Walk(h, pre.erosion, p, solubility, shuffle, pre.draws)
  {
  }

  /** The erosion map after all droplets: each one sets its start cell to
      `strength` and runs its springs.  A droplet off the grid is passed over;
      `River` draws every droplet on the grid, so this never happens there. */
  function Rivers(h: Grid, drops: seq<Pos>, springs: int, strength: real, solubility: real, shuffle: Shuffle): (w: Walked)
    requires IsGrid(h) && solubility > 0.0
    ensures IsGrid(w.erosion) && |w.erosion| == |h|
  {
    if drops == [] then Walked(Zeros(|h|), [], 0)
    else
      var pre := Rivers(h, drops[..|drops| - 1], springs, strength, solubility, shuffle);
      var p := drops[|drops| - 1];
      if InGrid(h, p.x, p.y) then
        Springs(h, Set(pre.erosion, p.x, p.y, strength), p, springs, solubility, shuffle, pre.draws)
      else pre
  }

  lemma {:induction false} SpringsAtMost(h: Grid, e: Grid, p: Pos, springs: int, solubility: real, shuffle: Shuffle, t: nat, m: real)
    requires IsGrid(h) && IsGrid(e) && |e| == |h| && InGrid(h, p.x, p.y)
    requires solubility > 0.0 && AtMost(e, m)
    ensures AtMost(Springs(h, e, p, springs, solubility, shuffle, t).erosion, m)
    decreases springs
  {
    if springs > 0 {
      var pre := Springs(h, e, p, springs - 1, solubility, shuffle, t);
      SpringsAtMost(h, e, p, springs - 1, solubility, shuffle, t, m);
      WalkAtMost(h, pre.erosion, p, solubility, shuffle, pre.draws, m);
    }
  }

  /** No erosion entry exceeds `erosionStrength` (or 0, the initial value). */
  lemma {:induction false} RiversAtMost(h: Grid, drops: seq<Pos>, springs: int, strength: real, solubility: real, shuffle: Shuffle)
    requires IsGrid(h) && solubility > 0.0
    ensures AtMost(Rivers(h, drops, springs, strength, solubility, shuffle).erosion, if strength > 0.0 then strength else 0.0)
  {
    var m := if strength > 0.0 then strength else 0.0;
    if drops != [] {
      var n := |drops| - 1;
      var pre := Rivers(h, drops[..n], springs, strength, solubility, shuffle);
      var p := drops[n];
      RiversAtMost(h, drops[..n], springs, strength, solubility, shuffle);
      if InGrid(h, p.x, p.y) {
        SetAt(pre.erosion, p.x, p.y, strength);
        SpringsAtMost(h, Set(pre.erosion, p.x, p.y, strength), p, springs, solubility, shuffle, pre.draws, m);
      }
    }
  }

  /** The final loop of `River`: subtract every positive erosion entry. */
  function Carved(h: Grid, e: Grid): (r: Grid)
    requires IsGrid(h) && IsGrid(e) && |e| == |h|
    ensures IsGrid(r) && |r| == |h|
  {
    seq(|h|, i requires 0 <= i < |h| => seq(|h|, j requires 0 <= j < |h| => if e[i][j] > 0.0 then h[i][j] - e[i][j] else h[i][j]))
  }

  /** Carving only lowers: a cell with a positive entry drops by exactly that
      entry, every other cell keeps its height. */
  lemma CarvedLowers(h: Grid, e: Grid)
    requires IsGrid(h) && IsGrid(e) && |e| == |h|
    ensures Below(Carved(h, e), h)
    ensures forall i, j :: InGrid(h, i, j) && e[i][j] <= 0.0 ==> Carved(h, e)[i][j] == h[i][j]
    ensures forall i, j :: InGrid(h, i, j) && e[i][j] > 0.0 ==> Carved(h, e)[i][j] == h[i][j] - e[i][j] < h[i][j]
  {
  }

  /** The whole of `River` as a function of the heights and the draws. */
  function Eroded(h: Grid, drops: seq<Pos>, springs: int, strength: real, solubility: real, shuffle: Shuffle): (r: Grid)
    requires IsGrid(h) && solubility > 0.0
    ensures IsGrid(r) && |r| == |h|
  {
    Carved(h, Rivers(h, drops, springs, strength, solubility, shuffle).erosion)
  }

  /** `River` never raises a cell, and lowers none by more than `erosionStrength`
      (nor at all when that is not positive). */
  lemma RiverBounds(h: Grid, drops: seq<Pos>, springs: int, strength: real, solubility: real, shuffle: Shuffle)
    requires IsGrid(h) && solubility > 0.0
    ensures Below(Eroded(h, drops, springs, strength, solubility, shuffle), h)
    ensures forall i, j :: InGrid(h, i, j) ==>
      h[i][j] - (if strength > 0.0 then strength else 0.0) <= Eroded(h, drops, springs, strength, solubility, shuffle)[i][j]
  {
    var e := Rivers(h, drops, springs, strength, solubility, shuffle).erosion;
    RiversAtMost(h, drops, springs, strength, solubility, shuffle);
    CarvedLowers(h, e);
  }

  /** The `foreach ... break` search of `RunRiver`. */
  method FindLower(heightMap: array2<real>, neighbours: seq<Pos>, p: Pos) returns (k: nat)
    requires heightMap.Length0 == heightMap.Length1
    requires 0 <= p.x < heightMap.Length0 && 0 <= p.y < heightMap.Length0
    requires forall i :: 0 <= i < |neighbours| ==> 0 <= neighbours[i].x < heightMap.Length0 && 0 <= neighbours[i].y < heightMap.Length0
    ensures k == FirstLower(View(heightMap), neighbours, p)
  {
    ghost var h := View(heightMap);
    k := 0;
    while k < |neighbours|
      invariant 0 <= k <= |neighbours|
      invariant FirstLower(h, neighbours, p) == k + FirstLower(h, neighbours[k..], p)
    {
      var n := neighbours[k];
      if heightMap[n.x, n.y] < heightMap[p.x, p.y] {
        break;
      }
      assert neighbours[k..][1..] == neighbours[k + 1..];
      k := k + 1;
    }
  }

  /** `RunRiver`: the walk from `dropletPosition`, drawing shuffles from number t
      on and returning the next unused number. */
  method RunRiver(dropletPosition: Pos, heightMap: array2<real>, erosionMap: array2<real>, heightmapResolution: int,
                  solubility: real, shuffle: Shuffle, t: nat) returns (next: nat)
    requires heightMap != erosionMap
    requires heightMap.Length0 == heightMap.Length1 == erosionMap.Length0 == erosionMap.Length1 == heightmapResolution
    requires 0 <= dropletPosition.x < heightmapResolution && 0 <= dropletPosition.y < heightmapResolution
    requires solubility > 0.0 && Neighbourly(shuffle, heightmapResolution)
    modifies erosionMap
    ensures var w := Walk(View(heightMap), old(View(erosionMap)), dropletPosition, solubility, shuffle, t);
      View(erosionMap) == w.erosion && next == w.draws
  {
    ghost var h := View(heightMap);
    ghost var goal := Walk(h, View(erosionMap), dropletPosition, solubility, shuffle, t);
    ghost var current := View(erosionMap);
    var p := dropletPosition;
    next := t;
    while erosionMap[p.x, p.y] > 0.0
      invariant 0 <= p.x < heightmapResolution && 0 <= p.y < heightmapResolution
      invariant View(heightMap) == h
      invariant IsGrid(current) && |current| == heightmapResolution && View(erosionMap) == current
      invariant Walk(h, current, p, solubility, shuffle, next).erosion == goal.erosion
      invariant Walk(h, current, p, solubility, shuffle, next).draws == goal.draws
      decreases (current[p.x][p.y] / solubility).Floor
    {
      var q := TargetAt(heightMap, p, shuffle, next);
      var left := erosionMap[p.x, p.y] - solubility;
      WalkStep(h, current, p, q, left, solubility, shuffle, next);
      Put(erosionMap, q.x, q.y, left);
      current := Set(current, q.x, q.y, left);
      p := q;
      next := next + 1;
    }
  }

  /** The neighbour search of one `RunRiver` step: build the neighbour list,
      shuffle it, take the first strictly lower cell. */
  method TargetAt(heightMap: array2<real>, p: Pos, shuffle: Shuffle, t: nat) returns (q: Pos)
    requires heightMap.Length0 == heightMap.Length1 >= 1
    requires 0 <= p.x < heightMap.Length0 && 0 <= p.y < heightMap.Length0
    requires Neighbourly(shuffle, heightMap.Length0)
    ensures q == Target(View(heightMap), p, shuffle, t)
  {
    var n := heightMap.Length0;
    var origNeighbours := GenerateNeighbours(p, n, n);
    var neighbours := shuffle(p, t);
    // `OrderBy(a => rng.Next())`: when the shuffles are permutations, this one is
    // a permutation of the list just built.
    assert Shuffles(shuffle, n) ==> multiset(neighbours) == multiset(origNeighbours);
    ShuffledInside(View(heightMap), shuffle, p, t);
    var k := FindLower(heightMap, neighbours, p);
    q := if k < |neighbours| then neighbours[k] else p;
  }

  /** `River`: the droplets' start cells are the caller-supplied list `drops`
      (two `Random.Range(0, R)` draws each), the shuffles come from `shuffle`. */
  method River(heightMap: array2<real>, drops: seq<Pos>, springsPerRiver: int, erosionStrength: real,
               solubility: real, shuffle: Shuffle)
    requires heightMap.Length0 == heightMap.Length1 >= 1
    requires forall k :: 0 <= k < |drops| ==> 0 <= drops[k].x < heightMap.Length0 && 0 <= drops[k].y < heightMap.Length0
    requires solubility > 0.0 && Shuffles(shuffle, heightMap.Length0)
    modifies heightMap
    ensures View(heightMap) == Eroded(old(View(heightMap)), drops, springsPerRiver, erosionStrength, solubility, shuffle)
  {
    ghost var h := View(heightMap);
    var n := heightMap.Length0;
    ShufflesNeighbourly(shuffle, n);
    var erosionMap := new real[n, n]((i, j) => 0.0);
    ViewIs(erosionMap, Zeros(n));
    ghost var current := Zeros(n);
    var t := 0;
    for i := 0 to |drops|
      invariant View(heightMap) == h
      invariant IsGrid(current) && |current| == n && View(erosionMap) == current
      invariant current == Rivers(h, drops[..i], springsPerRiver, erosionStrength, solubility, shuffle).erosion
      invariant t == Rivers(h, drops[..i], springsPerRiver, erosionStrength, solubility, shuffle).draws
    {
      RiversStep(h, drops, i, springsPerRiver, erosionStrength, solubility, shuffle);
      ghost var w := Springs(h, Set(current, drops[i].x, drops[i].y, erosionStrength), drops[i], springsPerRiver, solubility, shuffle, t);
      t := Droplet(drops[i], heightMap, erosionMap, n, springsPerRiver, erosionStrength, solubility, shuffle, t);
      current := w.erosion;
    }
    assert drops[..|drops|] == drops;
    CarveAt(heightMap, erosionMap);
  }

  /** The grid after droplet i, from the grid before it. */
  lemma RiversStep(h: Grid, drops: seq<Pos>, i: int, springs: int, strength: real, solubility: real, shuffle: Shuffle)
    requires IsGrid(h) && 0 <= i < |drops| && InGrid(h, drops[i].x, drops[i].y) && solubility > 0.0
    ensures var pre := Rivers(h, drops[..i], springs, strength, solubility, shuffle);
      Rivers(h, drops[..i + 1], springs, strength, solubility, shuffle) ==
      Springs(h, Set(pre.erosion, drops[i].x, drops[i].y, strength), drops[i], springs, solubility, shuffle, pre.draws)
  {
    assert drops[..i + 1][..i] == drops[..i];
  }

  /** One droplet of `River`: mark its start and run its `springsPerRiver` walks. */
  method Droplet(p: Pos, heightMap: array2<real>, erosionMap: array2<real>, n: int, springsPerRiver: int,
                 erosionStrength: real, solubility: real, shuffle: Shuffle, t: nat) returns (next: nat)
    requires heightMap != erosionMap
    requires heightMap.Length0 == heightMap.Length1 == erosionMap.Length0 == erosionMap.Length1 == n
    requires 0 <= p.x < n && 0 <= p.y < n
    requires solubility > 0.0 && Neighbourly(shuffle, n)
    modifies erosionMap
    ensures var w := Springs(View(heightMap), Set(old(View(erosionMap)), p.x, p.y, erosionStrength), p, springsPerRiver, solubility, shuffle, t);
      View(erosionMap) == w.erosion && next == w.draws
  {
    Put(erosionMap, p.x, p.y, erosionStrength);
    next := SpringsAt(p, heightMap, erosionMap, n, springsPerRiver, solubility, shuffle, t);
  }

  /** The `springsPerRiver` walks of one droplet. */
  method SpringsAt(p: Pos, heightMap: array2<real>, erosionMap: array2<real>, n: int, springsPerRiver: int,
                   solubility: real, shuffle: Shuffle, t: nat) returns (next: nat)
    requires heightMap != erosionMap
    requires heightMap.Length0 == heightMap.Length1 == erosionMap.Length0 == erosionMap.Length1 == n
    requires 0 <= p.x < n && 0 <= p.y < n
    requires solubility > 0.0 && Neighbourly(shuffle, n)
    modifies erosionMap
    ensures var w := Springs(View(heightMap), old(View(erosionMap)), p, springsPerRiver, solubility, shuffle, t);
      View(erosionMap) == w.erosion && next == w.draws
  {
    ghost var h := View(heightMap);
    ghost var e := View(erosionMap);
    next := t;
    var j := 0;
    ghost var w := Springs(h, e, p, 0, solubility, shuffle, t);
    while j < springsPerRiver
      invariant 0 <= j && (j <= springsPerRiver || j == 0)
      invariant View(heightMap) == h
      invariant w == Springs(h, e, p, j, solubility, shuffle, t)
      invariant View(erosionMap) == w.erosion && next == w.draws
    {
      SpringsStep(h, e, p, j, solubility, shuffle, t);
      next := RunRiver(p, heightMap, erosionMap, n, solubility, shuffle, next);
      w := Walk(h, w.erosion, p, solubility, shuffle, w.draws);
      j := j + 1;
    }
  }

  /** The final loops of `River`, over y and then x. */
  method CarveAt(heightMap: array2<real>, erosionMap: array2<real>)
    requires heightMap != erosionMap
    requires heightMap.Length0 == heightMap.Length1 == erosionMap.Length0 == erosionMap.Length1
    modifies heightMap
    ensures View(heightMap) == Carved(old(View(heightMap)), View(erosionMap))
  {
    ghost var h := View(heightMap);
    var n := heightMap.Length0;
    for y := 0 to n
      invariant forall i, j :: 0 <= i < n && 0 <= j < n ==>
        heightMap[i, j] == if j < y && erosionMap[i, j] > 0.0 then h[i][j] - erosionMap[i, j] else h[i][j]
    {
      for x := 0 to n
        invariant forall i, j :: 0 <= i < n && 0 <= j < n ==>
          heightMap[i, j] == if (j < y || (j == y && i < x)) && erosionMap[i, j] > 0.0 then h[i][j] - erosionMap[i, j] else h[i][j]
      {
        if erosionMap[x, y] > 0.0 {
          heightMap[x, y] := heightMap[x, y] - erosionMap[x, y];
        }
      }
    }
    ViewIs(heightMap, Carved(h, View(erosionMap)));
  }
}
