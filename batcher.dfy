/**
 * The batcher: turns a list of records into a normalised (N, 38) input matrix
 * and a normalised vector of N targets.
 */
module Batcher {
  import opened Wrappers
  import opened Permutation
  import opened Record
  import opened Normalize

  /** One mini-batch: the inputs tensor (rows x features) and the targets tensor. */
  datatype UnswNb15Batch = UnswNb15Batch(inputs: seq<seq<Cell>>, targets: seq<Cell>)

  /** Concatenating zero tensors fails in the tensor library; the batch cannot be built. */
  datatype BatchError = EmptyBatch

  /** The stacked feature rows, one per record, before normalisation. */
  function Stack(items: seq<Item>): (m: seq<seq<real>>)
    ensures |m| == |items| && IsMatrix(m, FeatureCount)
    ensures forall k :: 0 <= k < |items| ==> m[k] == Features(items[k])
  {
    seq(|items|, k requires 0 <= k < |items| => Features(items[k]))
  }

  /** The raw targets: each record's label, in record order. */
  function Labels(items: seq<Item>): (t: seq<real>)
    ensures |t| == |items|
    ensures forall k :: 0 <= k < |items| ==> t[k] == items[k].classLabel
  {
    seq(|items|, k requires 0 <= k < |items| => items[k].classLabel)
  }

  /** The batch the batcher is specified to produce from a non-empty list of records. */
  function Normalized(items: seq<Item>): (b: UnswNb15Batch)
    requires |items| > 0
    ensures |b.inputs| == |items| && |b.targets| == |items|
    ensures forall k :: 0 <= k < |items| ==> |b.inputs[k]| == FeatureCount
  {
    UnswNb15Batch(MinMaxNormRows(Stack(items), FeatureCount), MinMaxNorm(Labels(items)))
  }

  method Batch(items: seq<Item>) returns (r: Result<UnswNb15Batch, BatchError>)
    ensures r.Err? <==> |items| == 0
    ensures r.Ok? ==> r.value == Normalized(items)
  {
    var inputs: seq<seq<real>> := [];
    for k := 0 to |items|
      invariant |inputs| == k
      invariant forall j :: 0 <= j < k ==> inputs[j] == Features(items[j])
    {
      inputs := inputs + [Features(items[k])];
    }
    if |inputs| == 0 {
      return Err(EmptyBatch);
    }
    assert inputs == Stack(items);
    var normInputs := MinMaxNormRows(inputs, FeatureCount);
    var targets := Labels(items);
    var normTargets := MinMaxNorm(targets);
    return Ok(UnswNb15Batch(normInputs, normTargets));
  }

  /**
   * Row k and target k come from record k: on a column with a positive range,
   * un-normalising entry (k, c) gives back feature c of record k, and likewise
   * for the target and the record's label.
   */
  lemma BatchRowFromItem(items: seq<Item>, k: nat, c: nat)
    requires k < |items| && c < FeatureCount
    ensures var col := Column(Stack(items), FeatureCount, c);
            Min(col) < Max(col) ==>
              Normalized(items).inputs[k][c].Val? &&
              Denormalize(Normalized(items).inputs[k][c].x, Min(col), Max(col)) == Features(items[k])[c]
    ensures var labels := Labels(items);
            Min(labels) < Max(labels) ==>
              Normalized(items).targets[k].Val? &&
              Denormalize(Normalized(items).targets[k].x, Min(labels), Max(labels)) == items[k].classLabel
  {
    var b := Normalized(items);
    var col := Column(Stack(items), FeatureCount, c);
    assert col[k] == Features(items[k])[c];
    assert b.inputs[k][c] == MinMaxNorm(col)[k];
    if Min(col) < Max(col) {
      MinMaxNormRoundTrip(col, k);
    }
    var labels := Labels(items);
    assert labels[k] == items[k].classLabel;
    if Min(labels) < Max(labels) {
      MinMaxNormRoundTrip(labels, k);
    }
  }

  /**
   * Every entry of a batch is NaN exactly when its column is constant over the
   * batch, and lies in [0, 1] otherwise; the same holds for the targets.
   */
  lemma BatchCellsInUnitInterval(items: seq<Item>, k: nat, c: nat)
    requires k < |items| && c < FeatureCount
    ensures var col := Column(Stack(items), FeatureCount, c);
            var e := Normalized(items).inputs[k][c];
            (e == NaN <==> Min(col) == Max(col)) && (e.Val? ==> 0.0 <= e.x <= 1.0)
    ensures var t := Normalized(items).targets[k];
            (t == NaN <==> Min(Labels(items)) == Max(Labels(items))) && (t.Val? ==> 0.0 <= t.x <= 1.0)
  {
  }

  /** A batch whose records all carry the same label has only NaN targets. */
  lemma ConstantLabelsGiveNaN(items: seq<Item>)
    requires |items| > 0
    requires forall k :: 0 <= k < |items| ==> items[k].classLabel == items[0].classLabel
    ensures forall k :: 0 <= k < |items| ==> Normalized(items).targets[k] == NaN
  {
  }

  /**
   * The label is also the last input column, so after normalisation the last
   * column of the inputs equals the targets.
   */
  lemma LabelColumnIsTarget(items: seq<Item>)
    requires |items| > 0
    ensures forall k :: 0 <= k < |items| ==>
              Normalized(items).inputs[k][FeatureCount - 1] == Normalized(items).targets[k]
  {
    var col := Column(Stack(items), FeatureCount, FeatureCount - 1);
    forall k | 0 <= k < |items|
      ensures col[k] == Labels(items)[k]
    {
      FeatureLandmarks(items[k]);
    }
    assert col == Labels(items);
  }

  lemma ColumnReordered(items: seq<Item>, p: seq<nat>, c: nat)
    requires IsPermutation(p, |items|) && c < FeatureCount
    ensures Column(Stack(Apply(items, p)), FeatureCount, c) == Apply(Column(Stack(items), FeatureCount, c), p)
  {
  }

  lemma BatchReorderedEntry(items: seq<Item>, p: seq<nat>, k: nat, c: nat)
    requires |items| > 0 && IsPermutation(p, |items|) && k < |items| && c < FeatureCount
    ensures Normalized(Apply(items, p)).inputs[k][c] == Normalized(items).inputs[p[k]][c]
  {
    var col := Column(Stack(items), FeatureCount, c);
    ColumnReordered(items, p, c);
    MinMaxNormReordered(col, p);
  }

  /**
   * Normalisation statistics do not depend on the order of the records:
   * reordering the records reorders the rows and the targets the same way.
   */
  lemma BatchReordered(items: seq<Item>, p: seq<nat>)
    requires |items| > 0 && IsPermutation(p, |items|)
    ensures Normalized(Apply(items, p)).inputs == Apply(Normalized(items).inputs, p)
    ensures Normalized(Apply(items, p)).targets == Apply(Normalized(items).targets, p)
  {
    var b, b' := Normalized(items), Normalized(Apply(items, p));
    forall k | 0 <= k < |items|
      ensures b'.inputs[k] == b.inputs[p[k]]
    {
      BatchReorderedRow(items, p, k);
    }
    BatchReorderedTargets(items, p);
  }

  lemma BatchReorderedRow(items: seq<Item>, p: seq<nat>, k: nat)
    requires |items| > 0 && IsPermutation(p, |items|) && k < |items|
    ensures Normalized(Apply(items, p)).inputs[k] == Normalized(items).inputs[p[k]]
  {
    var row, row' := Normalized(items).inputs[p[k]], Normalized(Apply(items, p)).inputs[k];
    assert |row| == |row'| == FeatureCount;
    forall c | 0 <= c < FeatureCount
      ensures row'[c] == row[c]
    {
      BatchReorderedEntry(items, p, k, c);
    }
  }

  lemma BatchReorderedTargets(items: seq<Item>, p: seq<nat>)
    requires |items| > 0 && IsPermutation(p, |items|)
    ensures Normalized(Apply(items, p)).targets == Apply(Normalized(items).targets, p)
  {
    assert Labels(Apply(items, p)) == Apply(Labels(items), p);
    MinMaxNormReordered(Labels(items), p);
  }
}
