/**
 * Per-batch min-max normalisation along dimension 0, over the reals.
 * A column whose maximum equals its minimum divides zero by zero; the model
 * keeps that outcome as the value NaN rather than excluding it.
 */
module Normalize {
  import opened Permutation

  /** One normalised entry: a real, or the NaN produced by 0 / 0. */
  datatype Cell = Val(x: real) | NaN

  function Min(s: seq<real>): (m: real)
    requires |s| > 0
    ensures m in s
    ensures forall i :: 0 <= i < |s| ==> m <= s[i]
  {
    if |s| == 1 then s[0]
    else
      var rest := Min(s[1..]);
      assert forall i :: 1 <= i < |s| ==> s[i] == s[1..][i - 1];
      if s[0] <= rest then s[0] else rest
  }

  function Max(s: seq<real>): (m: real)
    requires |s| > 0
    ensures m in s
    ensures forall i :: 0 <= i < |s| ==> s[i] <= m
  {
    if |s| == 1 then s[0]
    else
      var rest := Max(s[1..]);
      assert forall i :: 1 <= i < |s| ==> s[i] == s[1..][i - 1];
      if rest <= s[0] then s[0] else rest
  }

  /**
   * (x - lo) / (hi - lo). With hi == lo every x of the column equals lo, so the
   * quotient is 0 / 0, which is NaN.
   */
  function Scale(x: real, lo: real, hi: real): (r: Cell)
    ensures r == NaN <==> hi == lo
    ensures r.Val? ==> Denormalize(r.x, lo, hi) == x
  {
    if hi - lo == 0.0 then NaN else Val((x - lo) / (hi - lo))
  }

  lemma ScaleInRange(x: real, lo: real, hi: real)
    requires lo <= x <= hi && lo < hi
    ensures Scale(x, lo, hi).Val?
    ensures 0.0 <= Scale(x, lo, hi).x <= 1.0
    ensures Scale(x, lo, hi).x == 0.0 <==> x == lo
    ensures Scale(x, lo, hi).x == 1.0 <==> x == hi
  {
    var a, d := x - lo, hi - lo;
    assert Scale(x, lo, hi) == Val(a / d);
    QuotientInUnit(a, d);
  }

  lemma QuotientInUnit(a: real, d: real)
    requires 0.0 <= a <= d && 0.0 < d
    ensures 0.0 <= a / d <= 1.0
    ensures a / d == 0.0 <==> a == 0.0
    ensures a / d == 1.0 <==> a == d
  {
    assert a / d * d == a;
  }

  /** Min-max normalisation of a one-dimensional tensor. */
  function MinMaxNorm(v: seq<real>): (r: seq<Cell>)
    requires |v| > 0
    ensures |r| == |v|
    ensures Min(v) < Max(v) ==>
              forall i :: 0 <= i < |v| ==> r[i].Val? && 0.0 <= r[i].x <= 1.0
    ensures Min(v) < Max(v) ==>
              forall i :: 0 <= i < |v| ==> (r[i] == Val(0.0) <==> v[i] == Min(v))
    ensures Min(v) < Max(v) ==>
              forall i :: 0 <= i < |v| ==> (r[i] == Val(1.0) <==> v[i] == Max(v))
    ensures Min(v) == Max(v) ==> forall i :: 0 <= i < |v| ==> r[i] == NaN
  {
    var lo, hi := Min(v), Max(v);
    var r := seq(|v|, i requires 0 <= i < |v| => Scale(v[i], lo, hi));
    assert lo < hi ==> (forall i :: 0 <= i < |v| ==>
      && r[i].Val? && 0.0 <= r[i].x <= 1.0
      && (r[i] == Val(0.0) <==> v[i] == lo)
      && (r[i] == Val(1.0) <==> v[i] == hi)) by {
      if lo < hi {
        forall i | 0 <= i < |v|
          ensures r[i].Val? && 0.0 <= r[i].x <= 1.0
          ensures (r[i] == Val(0.0) <==> v[i] == lo) && (r[i] == Val(1.0) <==> v[i] == hi)
        {
          ScaleInRange(v[i], lo, hi);
        }
      }
    }
    r
  }

  /** The inverse of Scale on a positive range: map a normalised value back. */
  function Denormalize(y: real, lo: real, hi: real): real
  {
    lo + y * (hi - lo)
  }

  lemma ScaleRoundTrip(x: real, lo: real, hi: real)
    requires lo < hi
    ensures Scale(x, lo, hi).Val? && Denormalize(Scale(x, lo, hi).x, lo, hi) == x
  {
  }

  lemma ScaleMonotone(x: real, y: real, lo: real, hi: real)
    requires lo < hi
    ensures x <= y <==> Scale(x, lo, hi).x <= Scale(y, lo, hi).x
  {
    var d := hi - lo;
    var a, b := (x - lo) / d, (y - lo) / d;
    assert a * d == x - lo && b * d == y - lo;
    if a <= b {
      assert a * d <= b * d;
    } else {
      assert a * d > b * d;
    }
  }

  /** Normalisation is invertible on a column with a positive range. */
  lemma MinMaxNormRoundTrip(v: seq<real>, i: nat)
    requires i < |v| && Min(v) < Max(v)
    ensures MinMaxNorm(v)[i].Val? && Denormalize(MinMaxNorm(v)[i].x, Min(v), Max(v)) == v[i]
  {
    ScaleRoundTrip(v[i], Min(v), Max(v));
  }

  /** Normalisation keeps the order of the values of a column with a positive range. */
  lemma MinMaxNormMonotone(v: seq<real>, i: nat, j: nat)
    requires i < |v| && j < |v| && Min(v) < Max(v)
    ensures v[i] <= v[j] <==> MinMaxNorm(v)[i].x <= MinMaxNorm(v)[j].x
  {
    ScaleMonotone(v[i], v[j], Min(v), Max(v));
  }

  /** The minimum and the maximum do not depend on the order of the values. */
  lemma MinMaxReordered(v: seq<real>, p: seq<nat>)
    requires |v| > 0 && IsPermutation(p, |v|)
    ensures Min(Apply(v, p)) == Min(v) && Max(Apply(v, p)) == Max(v)
  {
    var w := Apply(v, p);
    var a :| 0 <= a < |v| && v[a] == Min(v);
    var ia := PermutationHits(p, |v|, a);
    assert w[ia] == Min(v);
    var b :| 0 <= b < |v| && v[b] == Max(v);
    var ib := PermutationHits(p, |v|, b);
    assert w[ib] == Max(v);
  }

  /** Reordering the values reorders their normalised values the same way. */
  lemma MinMaxNormReordered(v: seq<real>, p: seq<nat>)
    requires |v| > 0 && IsPermutation(p, |v|)
    ensures MinMaxNorm(Apply(v, p)) == Apply(MinMaxNorm(v), p)
  {
    MinMaxReordered(v, p);
  }

  /** Every row has `cols` entries. */
  ghost predicate IsMatrix(m: seq<seq<real>>, cols: nat)
  {
    forall i :: 0 <= i < |m| ==> |m[i]| == cols
  }

  function Column(m: seq<seq<real>>, cols: nat, j: nat): (c: seq<real>)
    requires IsMatrix(m, cols) && j < cols
    ensures |c| == |m|
    ensures forall i :: 0 <= i < |m| ==> c[i] == m[i][j]
  {
    seq(|m|, i requires 0 <= i < |m| => m[i][j])
  }

  /**
   * Min-max normalisation of a two-dimensional tensor along dimension 0: each
   * column is normalised by its own minimum and maximum over the rows.
   */
  function MinMaxNormRows(m: seq<seq<real>>, cols: nat): (r: seq<seq<Cell>>)
    requires |m| > 0 && IsMatrix(m, cols)
    ensures |r| == |m|
    ensures forall i :: 0 <= i < |r| ==> |r[i]| == cols
    ensures forall i, j :: 0 <= i < |m| && 0 <= j < cols ==>
              r[i][j] == MinMaxNorm(Column(m, cols, j))[i]
  {
    seq(|m|, i requires 0 <= i < |m| =>
      seq(cols, j requires 0 <= j < cols => MinMaxNorm(Column(m, cols, j))[i]))
  }
}
