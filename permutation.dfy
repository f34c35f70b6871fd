/**
 * Permutations of the index range [0, n), as produced by the dataset shuffler,
 * and the counting facts (pigeonhole) that make a permutation cover its range.
 */
module Permutation {

  /** The index range [0, n). */
  function Range(n: nat): (r: set<nat>)
    ensures forall i: nat :: i in r <==> i < n
  {
    if n == 0 then {} else Range(n - 1) + {n - 1}
  }

  /** The set of values a sequence takes. */
  function Elems(p: seq<nat>): set<nat>
  {
    set x | x in p
  }

  lemma ElemsConcat(p: seq<nat>, q: seq<nat>)
    ensures Elems(p + q) == Elems(p) + Elems(q)
  {
  }

  ghost predicate Distinct(p: seq<nat>)
  {
    forall i, j :: 0 <= i < j < |p| ==> p[i] != p[j]
  }

  /** p lists n distinct indices, each below n. */
  ghost predicate IsPermutation(p: seq<nat>, n: nat)
  {
    && |p| == n
    && (forall i :: 0 <= i < n ==> p[i] < n)
    && Distinct(p)
  }

  lemma {:induction false} RangeSize(n: nat)
    ensures |Range(n)| == n
  {
    if n > 0 {
      RangeSize(n - 1);
      assert n - 1 !in Range(n - 1);
    }
  }

  lemma {:induction false} DistinctSize(p: seq<nat>)
    requires Distinct(p)
    ensures |Elems(p)| == |p|
  {
    if |p| > 0 {
      var q := p[..|p| - 1];
      DistinctSize(q);
      assert Elems(p) == Elems(q) + {p[|p| - 1]};
      assert p[|p| - 1] !in Elems(q);
    }
  }

  /** Pigeonhole: n distinct indices below n are all of [0, n). */
  lemma PermutationCovers(p: seq<nat>, n: nat)
    requires IsPermutation(p, n)
    ensures Elems(p) == Range(n)
  {
    assert Elems(p) <= Range(n);
    DistinctSize(p);
    RangeSize(n);
    var missing := Range(n) - Elems(p);
    assert |missing| == 0;
  }

  /** Every index below n occurs at some position of a permutation of [0, n). */
  lemma PermutationHits(p: seq<nat>, n: nat, j: nat) returns (i: nat)
    requires IsPermutation(p, n) && j < n
    ensures i < n && p[i] == j
  {
    PermutationCovers(p, n);
    assert j in Elems(p);
    i :| 0 <= i < |p| && p[i] == j;
  }

  /** The sequence s visited in the order p: position k holds s[p[k]]. */
  function Apply<T>(s: seq<T>, p: seq<nat>): (r: seq<T>)
    requires IsPermutation(p, |s|)
    ensures |r| == |s|
    ensures forall k :: 0 <= k < |s| ==> r[k] == s[p[k]]
  {
    seq(|s|, k requires 0 <= k < |s| => s[p[k]])
  }
}
