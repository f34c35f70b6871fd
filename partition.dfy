/**
 * The train/test partitioner of the UNSW-NB15 dataset: one shuffled view of the
 * whole record collection, sliced 80/20 by index arithmetic.
 */
module Partition {
  import opened Wrappers
  import opened Record
  import opened Permutation

  /** The fixed shuffle seed. */
  const Seed: nat := 42

  /**
   * The library's seeded shuffle: given a length and a seed, the order in which
   * the shuffled view visits the underlying indices.
   */
  type Shuffler = (nat, nat) -> seq<nat>

  /** What the model relies on about the shuffle: it is a permutation of [0, n). */
  ghost predicate IsShuffler(shuffle: Shuffler)
  {
    forall n: nat, seed: nat :: IsPermutation(shuffle(n, seed), n)
  }

  datatype SplitError = InvalidSplitType

  /**
   * A contiguous range [start, end) of a shuffled view of `source`: position i of
   * the shuffled view is the record source[indices[i]].
   */
  datatype UnswNb15Dataset = UnswNb15Dataset(source: seq<Item>, indices: seq<nat>, start: nat, end: nat)
  {
    ghost predicate Valid()
    {
      IsPermutation(indices, |source|) && start <= end <= |source|
    }

    /** The underlying record indices this view exposes, in the order it exposes them. */
    function Positions(): (p: seq<nat>)
      requires Valid()
      ensures |p| == end - start
      ensures forall i :: 0 <= i < |p| ==> p[i] < |source|
    {
      indices[start..end]
    }

    function Len(): (n: nat)
      requires Valid()
      ensures n == |Positions()|
    {
      end - start
    }

    function Get(i: nat): (r: Option<Item>)
      requires Valid()
      ensures r.Some? <==> i < Len()
      ensures r.Some? ==> r.value == source[Positions()[i]]
    {
      if i < end - start then Some(source[indices[start + i]]) else None
    }
  }

  /** The boundary between the two splits: 80% of len, rounded down. */
  function SplitPoint(len: nat): (p: nat)
    ensures p <= len
    ensures 10 * p <= 8 * len < 10 * p + 10
  {
    len * 8 / 10
  }

  function New(source: seq<Item>, split: string, shuffle: Shuffler): (r: Result<UnswNb15Dataset, SplitError>)
    requires IsShuffler(shuffle)
    ensures r.Ok? <==> split == "train" || split == "test"
    ensures r.Err? ==> r.error == InvalidSplitType
    ensures r.Ok? ==> r.value.Valid() && r.value.source == source
    ensures split == "train" ==> r.Ok? && r.value.Positions() == shuffle(|source|, Seed)[..SplitPoint(|source|)]
    ensures split == "test" ==> r.Ok? && r.value.Positions() == shuffle(|source|, Seed)[SplitPoint(|source|)..]
  {
    var len := |source|;
    var shuffled := shuffle(len, Seed);
    assert IsPermutation(shuffled, len);
    if split == "train" then
      Ok(UnswNb15Dataset(source, shuffled, 0, SplitPoint(len)))
    else if split == "test" then
      Ok(UnswNb15Dataset(source, shuffled, SplitPoint(len), len))
    else
      Err(InvalidSplitType)
  }

  function Train(source: seq<Item>, shuffle: Shuffler): (d: UnswNb15Dataset)
    requires IsShuffler(shuffle)
    ensures New(source, "train", shuffle) == Ok(d)
    ensures d.Valid() && d.Len() == SplitPoint(|source|)
  {
    New(source, "train", shuffle).value
  }

  function Test(source: seq<Item>, shuffle: Shuffler): (d: UnswNb15Dataset)
    requires IsShuffler(shuffle)
    ensures New(source, "test", shuffle) == Ok(d)
    ensures d.Valid() && d.Len() == |source| - SplitPoint(|source|)
  {
    New(source, "test", shuffle).value
  }

  /** Train's positions followed by test's positions are exactly the shuffled order. */
  lemma SplitsConcatenate(source: seq<Item>, shuffle: Shuffler)
    requires IsShuffler(shuffle)
    ensures Train(source, shuffle).Positions() + Test(source, shuffle).Positions() == shuffle(|source|, Seed)
    ensures Train(source, shuffle).Len() + Test(source, shuffle).Len() == |source|
  {
  }

  /** No record index is in both splits. */
  lemma SplitsDisjoint(source: seq<Item>, shuffle: Shuffler)
    requires IsShuffler(shuffle)
    ensures Elems(Train(source, shuffle).Positions()) !! Elems(Test(source, shuffle).Positions())
  {
  }

  /** Together the splits reach every record index of the source. */
  lemma SplitsCover(source: seq<Item>, shuffle: Shuffler)
    requires IsShuffler(shuffle)
    ensures Elems(Train(source, shuffle).Positions()) + Elems(Test(source, shuffle).Positions()) == Range(|source|)
  {
    var p := shuffle(|source|, Seed);
    var train, test := Train(source, shuffle).Positions(), Test(source, shuffle).Positions();
    SplitsConcatenate(source, shuffle);
    PermutationCovers(p, |source|);
    ElemsConcat(train, test);
  }

  /** Every record of the source is returned by exactly one of the two splits. */
  lemma EachRecordInOneSplit(source: seq<Item>, shuffle: Shuffler, j: nat)
    requires IsShuffler(shuffle) && j < |source|
    ensures (j in Train(source, shuffle).Positions()) != (j in Test(source, shuffle).Positions())
  {
    SplitsDisjoint(source, shuffle);
    SplitsCover(source, shuffle);
    assert j in Range(|source|);
  }

  /**
   * The index sequence depends only on the split name and the number of records:
   * two sources of the same length, in particular the same source loaded twice,
   * are partitioned into the same positions.
   */
  lemma SameLengthSamePositions(a: seq<Item>, b: seq<Item>, split: string, shuffle: Shuffler)
    requires IsShuffler(shuffle) && |a| == |b|
    ensures New(a, split, shuffle).Ok? == New(b, split, shuffle).Ok?
    ensures New(a, split, shuffle).Ok? ==>
              New(a, split, shuffle).value.Positions() == New(b, split, shuffle).value.Positions()
  {
  }
}
