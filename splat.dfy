/** `NormalizeVector`: the splat weights of one map cell are scaled in place so
    that they add up to one, unless they add up to zero. */
module Splat {
  /** The sum of the weights, added from the first to the last. */
  function Total(s: seq<real>): real
  {
    if s == [] then 0.0 else Total(s[..|s| - 1]) + s[|s| - 1]
  }

  /** Every weight divided by c. */
  function Scaled(s: seq<real>, c: real): (r: seq<real>)
    requires c != 0.0
    ensures |r| == |s|
  {
    seq(|s|, i requires 0 <= i < |s| => s[i] / c)
  }

  /** The weights after `NormalizeVector`: left alone when their total is zero,
      otherwise each divided by the total. */
  function Normalized(s: seq<real>): (r: seq<real>)
    ensures |r| == |s|
  {
    if Total(s) == 0.0 then s else Scaled(s, Total(s))
  }

  lemma DivSum(a: real, b: real, c: real)
    requires c != 0.0
    ensures a / c + b / c == (a + b) / c
  {
  }

  /** Dividing every weight by c divides the total by c. */
  lemma {:induction false} TotalScaled(s: seq<real>, c: real)
    requires c != 0.0
    ensures Total(Scaled(s, c)) == Total(s) / c
  {
    if s != [] {
      var m := |s| - 1;
      assert Scaled(s, c)[..m] == Scaled(s[..m], c);
      TotalScaled(s[..m], c);
      DivSum(Total(s[..m]), s[m], c);
    }
  }

  /** Normalized weights of a non-zero total add up to one. */
  lemma NormalizedSumsToOne(s: seq<real>)
    requires Total(s) != 0.0
    ensures Total(Normalized(s)) == 1.0
  {
    TotalScaled(s, Total(s));
    assert Total(s) / Total(s) == 1.0;
  }

  /** Normalizing twice is normalizing once. */
  lemma NormalizedIdempotent(s: seq<real>)
    ensures Normalized(Normalized(s)) == Normalized(s)
  {
    if Total(s) != 0.0 {
      NormalizedSumsToOne(s);
      var r := Normalized(s);
      assert Scaled(r, 1.0) == r;
    }
  }

  method NormalizeVector(v: array<real>)
    modifies v
    ensures v[..] == Normalized(old(v[..]))
  {
    var total := 0.0;
    for i := 0 to v.Length
      invariant total == Total(v[..i])
    {
      assert v[..i + 1][..i] == v[..i];
      total := total + v[i];
    }
    assert v[..v.Length] == v[..];
    if total == 0.0 { return; }
    ghost var s := v[..];
    for i := 0 to v.Length
      invariant forall j :: 0 <= j < i ==> v[j] == s[j] / total
      invariant forall j :: i <= j < v.Length ==> v[j] == s[j]
    {
      v[i] := v[i] / total;
    }
  }
}
