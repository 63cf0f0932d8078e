/** `GenerateNeighbours`: the border-clamped 8-neighbourhood of a cell, without
    repeats, in the order the source's two offset loops visit it. */
module Neighbours {

  /** A grid position; the source carries it in a `Vector2` whose coordinates are
      always whole numbers, so `(int)n.x` is exact. */
  datatype Pos = Pos(x: int, y: int)

  /** `Mathf.Clamp(v, lo, hi)`. */
  function Clamp(v: int, lo: int, hi: int): (r: int)
    requires lo <= hi
    ensures lo <= r <= hi
    ensures lo <= v <= hi ==> r == v
    ensures v < lo ==> r == lo
    ensures hi < v ==> r == hi
  {
    if v < lo then lo else if v > hi then hi else v
  }

  /** The offsets (x, y) in loop order: y outer from -1 to 1, x inner from -1 to 1. */
  const Offsets: seq<Pos> := [Pos(-1, -1), Pos(0, -1), Pos(1, -1),
                              Pos(-1, 0), Pos(0, 0), Pos(1, 0),
                              Pos(-1, 1), Pos(0, 1), Pos(1, 1)]

  predicate Unit(o: Pos) {
    -1 <= o.x <= 1 && -1 <= o.y <= 1
  }

  predicate InRect(q: Pos, w: int, h: int) {
    0 <= q.x < w && 0 <= q.y < h
  }

  /** The cell `pos + o` clamped into [0, w-1] x [0, h-1]. */
  function Shifted(pos: Pos, o: Pos, w: int, h: int): Pos
    requires w >= 1 && h >= 1
  {
    Pos(Clamp(pos.x + o.x, 0, w - 1), Clamp(pos.y + o.y, 0, h - 1))
  }

  /** The list built from the given offsets: skip the zero offset, clamp, and add
      the result only when it is not already listed. */
  function Collect(pos: Pos, offs: seq<Pos>, w: int, h: int): (r: seq<Pos>)
    requires w >= 1 && h >= 1
    ensures |r| <= |offs|
  {
    if offs == [] then []
    else AddNeighbour(Collect(pos, offs[..|offs| - 1], w, h), pos, offs[|offs| - 1], w, h)
  }

  /** One step of the source's loop body for offset o. */
  function AddNeighbour(pre: seq<Pos>, pos: Pos, o: Pos, w: int, h: int): seq<Pos>
    requires w >= 1 && h >= 1
  {
    if o == Pos(0, 0) then pre
    else
      var q := Shifted(pos, o, w, h);
      if q in pre then pre else pre + [q]
  }

  /** The neighbour list `GenerateNeighbours(pos, w, h)` returns. */
  function Neighbours(pos: Pos, w: int, h: int): seq<Pos>
    requires w >= 1 && h >= 1
  {
    Collect(pos, Offsets, w, h)
  }

  predicate NoDuplicates(s: seq<Pos>) {
    forall i, j :: 0 <= i < j < |s| ==> s[i] != s[j]
  }

  /** Chebyshev distance at most one. */
  predicate Adjacent(p: Pos, q: Pos) {
    -1 <= q.x - p.x <= 1 && -1 <= q.y - p.y <= 1
  }

  predicate OnBorder(p: Pos, w: int, h: int) {
    p.x == 0 || p.x == w - 1 || p.y == 0 || p.y == h - 1
  }

  /** The source's loops: for each offset, clamp and `Add` unless `Contains`. */
  method GenerateNeighbours(pos: Pos, width: int, height: int) returns (neighbours: seq<Pos>)
    requires width >= 1 && height >= 1
    ensures neighbours == Neighbours(pos, width, height)
  {
    neighbours := [];
    for y := -1 to 2
      invariant neighbours == Collect(pos, Offsets[..3 * (y + 1)], width, height)
    {
      neighbours := NeighbourRow(neighbours, pos, y, width, height);
    }
    assert Offsets[..9] == Offsets;
  }

  /** The inner loop for offset row y. */
  method NeighbourRow(neighbours: seq<Pos>, pos: Pos, y: int, width: int, height: int) returns (next: seq<Pos>)
    requires width >= 1 && height >= 1 && -1 <= y <= 1
    requires neighbours == Collect(pos, Offsets[..3 * (y + 1)], width, height)
    ensures next == Collect(pos, Offsets[..3 * (y + 2)], width, height)
  {
    next := neighbours;
    for x := -1 to 2
      invariant next == Collect(pos, Offsets[..3 * (y + 1) + (x + 1)], width, height)
    {
      CollectStep(pos, Offsets, 3 * (y + 1) + (x + 1), width, height);
      OffsetAt(x, y);
      next := NeighbourAt(next, pos, x, y, width, height);
    }
  }

  /** The body of the inner loop for offset (x, y). */
  method NeighbourAt(neighbours: seq<Pos>, pos: Pos, x: int, y: int, width: int, height: int) returns (next: seq<Pos>)
    requires width >= 1 && height >= 1
    ensures next == AddNeighbour(neighbours, pos, Pos(x, y), width, height)
  {
    next := neighbours;
    if !(x == 0 && y == 0) {
      var nPos := Pos(Clamp(pos.x + x, 0, width - 1), Clamp(pos.y + y, 0, height - 1));
      if nPos !in neighbours {
        next := neighbours + [nPos];
      }
    }
  }

  /** Where an offset sits in the loop order. */
  lemma OffsetAt(x: int, y: int)
    requires Unit(Pos(x, y))
    ensures Offsets[3 * (y + 1) + (x + 1)] == Pos(x, y)
  {
    if y == -1 {
      if x == -1 {} else if x == 0 {} else {}
    } else if y == 0 {
      if x == -1 {} else if x == 0 {} else {}
    } else {
      if x == -1 {} else if x == 0 {} else {}
    }
  }

  /** One more offset extends the list by at most its clamped cell. */
  lemma CollectStep(pos: Pos, offs: seq<Pos>, k: int, w: int, h: int)
    requires w >= 1 && h >= 1 && 0 <= k < |offs|
    ensures Collect(pos, offs[..k + 1], w, h) == AddNeighbour(Collect(pos, offs[..k], w, h), pos, offs[k], w, h)
  {
    assert offs[..k + 1][..k] == offs[..k];
  }

  /** What `Collect` lists: exactly the clamped non-zero offsets, each once. */
  lemma {:induction false} CollectMembers(pos: Pos, offs: seq<Pos>, w: int, h: int)
    requires w >= 1 && h >= 1
    ensures NoDuplicates(Collect(pos, offs, w, h))
    ensures |Collect(pos, offs, w, h)| <= |offs|
    ensures forall q :: q in Collect(pos, offs, w, h) <==>
              exists i :: 0 <= i < |offs| && offs[i] != Pos(0, 0) && q == Shifted(pos, offs[i], w, h)
  {
    if offs != [] {
      var n := |offs| - 1;
      CollectMembers(pos, offs[..n], w, h);
      forall q ensures q in Collect(pos, offs, w, h) <==>
                exists i :: 0 <= i < |offs| && offs[i] != Pos(0, 0) && q == Shifted(pos, offs[i], w, h)
      {
        if q in Collect(pos, offs[..n], w, h) {
          var i :| 0 <= i < n && offs[..n][i] != Pos(0, 0) && q == Shifted(pos, offs[..n][i], w, h);
          assert offs[i] == offs[..n][i];
        }
        if exists i :: 0 <= i < |offs| && offs[i] != Pos(0, 0) && q == Shifted(pos, offs[i], w, h) {
          var i :| 0 <= i < |offs| && offs[i] != Pos(0, 0) && q == Shifted(pos, offs[i], w, h);
          if i < n {
            assert offs[..n][i] == offs[i];
          }
        }
      }
    }
  }

  /** Where a clamped offset lands: inside the grid, and next to an in-grid cell. */
  lemma ShiftedInside(pos: Pos, o: Pos, w: int, h: int)
    requires w >= 1 && h >= 1
    ensures InRect(Shifted(pos, o, w, h), w, h)
    ensures InRect(pos, w, h) && Unit(o) ==> Adjacent(pos, Shifted(pos, o, w, h))
  {
  }

  /** Every listed neighbour is in the grid, within Chebyshev distance one of pos,
      listed once; there are at most eight; and a position is listed exactly when
      some non-zero offset clamps to it. */
  lemma NeighboursSound(pos: Pos, w: int, h: int)
    requires w >= 1 && h >= 1
    ensures NoDuplicates(Neighbours(pos, w, h))
    ensures |Neighbours(pos, w, h)| <= 8
    ensures forall q :: q in Neighbours(pos, w, h) ==> InRect(q, w, h)
    ensures InRect(pos, w, h) ==> forall q :: q in Neighbours(pos, w, h) ==> Adjacent(pos, q)
    ensures forall q :: q in Neighbours(pos, w, h) <==>
              exists o :: Unit(o) && o != Pos(0, 0) && q == Shifted(pos, o, w, h)
  {
    NeighboursCount(pos, w, h);
    NeighboursInRect(pos, w, h);
    NeighboursMembers(pos, w, h);
  }

  lemma NeighboursCount(pos: Pos, w: int, h: int)
    requires w >= 1 && h >= 1
    ensures NoDuplicates(Neighbours(pos, w, h))
    ensures |Neighbours(pos, w, h)| <= 8
  {
    assert Offsets[4] == Pos(0, 0);
    CollectMembers(pos, Offsets, w, h);
    CollectShorter(pos, Offsets, w, h);
  }

  lemma NeighboursMembers(pos: Pos, w: int, h: int)
    requires w >= 1 && h >= 1
    ensures forall q :: q in Neighbours(pos, w, h) <==>
              exists o :: Unit(o) && o != Pos(0, 0) && q == Shifted(pos, o, w, h)
  {
    CollectMembers(pos, Offsets, w, h);
    forall q ensures q in Neighbours(pos, w, h) <==>
              exists o :: Unit(o) && o != Pos(0, 0) && q == Shifted(pos, o, w, h)
    {
      if exists o :: Unit(o) && o != Pos(0, 0) && q == Shifted(pos, o, w, h) {
        var o :| Unit(o) && o != Pos(0, 0) && q == Shifted(pos, o, w, h);
        OffsetAt(o.x, o.y);
      }
      if q in Neighbours(pos, w, h) {
        var i :| 0 <= i < 9 && Offsets[i] != Pos(0, 0) && q == Shifted(pos, Offsets[i], w, h);
        assert Unit(Offsets[i]);
      }
    }
  }

  lemma NeighboursInRect(pos: Pos, w: int, h: int)
    requires w >= 1 && h >= 1
    ensures forall q :: q in Neighbours(pos, w, h) ==> InRect(q, w, h)
    ensures InRect(pos, w, h) ==> forall q :: q in Neighbours(pos, w, h) ==> Adjacent(pos, q)
  {
    CollectMembers(pos, Offsets, w, h);
    forall q | q in Neighbours(pos, w, h) ensures InRect(q, w, h) && (InRect(pos, w, h) ==> Adjacent(pos, q)) {
      var i :| 0 <= i < 9 && Offsets[i] != Pos(0, 0) && q == Shifted(pos, Offsets[i], w, h);
      assert Unit(Offsets[i]);
      ShiftedInside(pos, Offsets[i], w, h);
    }
  }

  /** Collect drops the zero offset, so it lists fewer entries than offsets when the zero offset occurs. */
  lemma {:induction false} CollectShorter(pos: Pos, offs: seq<Pos>, w: int, h: int)
    requires w >= 1 && h >= 1
    requires Pos(0, 0) in offs
    ensures |Collect(pos, offs, w, h)| < |offs|
  {
    var n := |offs| - 1;
    CollectMembers(pos, offs[..n], w, h);
    if offs[n] != Pos(0, 0) {
      assert Pos(0, 0) in offs[..n];
      CollectShorter(pos, offs[..n], w, h);
    }
  }

  /** With no clamping in play, distinct offsets give distinct cells, so nothing is dropped. */
  lemma {:induction false} CollectInterior(pos: Pos, offs: seq<Pos>, w: int, h: int)
    requires w >= 1 && h >= 1
    requires 0 < pos.x < w - 1 && 0 < pos.y < h - 1
    requires forall i :: 0 <= i < |offs| ==> Unit(offs[i])
    requires forall i, j :: 0 <= i < j < |offs| ==> offs[i] != offs[j]
    ensures |Collect(pos, offs, w, h)| == |offs| - (if Pos(0, 0) in offs then 1 else 0)
    ensures pos !in Collect(pos, offs, w, h)
  {
    if offs != [] {
      var n := |offs| - 1;
      CollectInterior(pos, offs[..n], w, h);
      CollectMembers(pos, offs[..n], w, h);
      var o := offs[n];
      if o != Pos(0, 0) {
        var q := Shifted(pos, o, w, h);
        assert q == Pos(pos.x + o.x, pos.y + o.y);
        forall i | 0 <= i < n && offs[..n][i] != Pos(0, 0) ensures q != Shifted(pos, offs[..n][i], w, h) {
          assert offs[..n][i] == offs[i] && Unit(offs[i]) && offs[i] != o;
        }
        assert q !in Collect(pos, offs[..n], w, h);
        assert Pos(0, 0) in offs <==> Pos(0, 0) in offs[..n];
      } else {
        assert Pos(0, 0) !in offs[..n];
      }
    }
  }

  /** An interior cell has exactly eight neighbours, and itself is not one of them. */
  lemma InteriorNeighbours(pos: Pos, w: int, h: int)
    requires w >= 1 && h >= 1
    requires 0 < pos.x < w - 1 && 0 < pos.y < h - 1
    ensures |Neighbours(pos, w, h)| == 8
    ensures pos !in Neighbours(pos, w, h)
  {
    assert Pos(0, 0) in Offsets;
    CollectInterior(pos, Offsets, w, h);
  }

  /** Because clamping happens after the zero-offset test, a cell lists itself as
      its own neighbour exactly when it lies on the border of the grid. */
  lemma SelfNeighbour(pos: Pos, w: int, h: int)
    requires w >= 1 && h >= 1 && InRect(pos, w, h)
    ensures pos in Neighbours(pos, w, h) <==> OnBorder(pos, w, h)
  {
    NeighboursSound(pos, w, h);
    if pos.x == 0 {
      assert pos == Shifted(pos, Pos(-1, 0), w, h);
    } else if pos.x == w - 1 {
      assert pos == Shifted(pos, Pos(1, 0), w, h);
    } else if pos.y == 0 {
      assert pos == Shifted(pos, Pos(0, -1), w, h);
    } else if pos.y == h - 1 {
      assert pos == Shifted(pos, Pos(0, 1), w, h);
    } else {
      InteriorNeighbours(pos, w, h);
    }
  }
}
