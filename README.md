# UNSW-NB15 data pipeline: partitioner and batcher

A Dafny model of the hand-written data logic of an intrusion-detection regressor
trained on the UNSW-NB15 network-flow dataset (`src/data.rs`).

- **Partitioner** (`partition.dfy`). The whole record collection is shuffled once
  with the fixed seed 42 and sliced by index arithmetic: `train` is shuffled
  positions `[0, len*8/10)`, `test` is `[len*8/10, len)`, and any other split
  name is the error `InvalidSplitType`, where the source panics. The library's
  seeded shuffle is a parameter `shuffle(len, seed)`. The model relies on one
  fact about it: it returns a permutation of `[0, len)`. A dataset value is the
  library's partial view over the shuffled view. `Len` is `end - start`, and
  `Get(i)` is the record at shuffled position `start + i`, or `None` past the end.
- **Record** (`record.dfy`). The numeric columns of a flow record, and the
  38-entry feature vector that the batcher reads from it. The order follows the
  source exactly. `swin` is read twice (entries 17 and 23, counting from 1),
  `dwin` is never read, and the label is the last input feature.
- **Normalisation** (`normalize.dfy`). Min-max scaling along dimension 0,
  `(x - min) / (max - min)` per column, modelled over the reals. A constant
  column divides zero by zero. The model keeps that outcome as the value `NaN`
  and does not exclude it.
- **Batcher** (`batcher.dfy`). `Batch` stacks one feature row per record in a
  loop, collects the labels as targets, and normalises both. Concatenating an
  empty list of tensors fails in the tensor library, so an empty list of records
  gives the error `EmptyBatch`.
- `permutation.dfy` holds permutations of `[0, n)` and the pigeonhole argument
  that a permutation reaches every index. `wrappers.dfy` holds `Option` and `Result`.

The label is both the target (`src/data.rs:335`) and the last input feature
(`src/data.rs:322`). `Batcher.LabelColumnIsTarget` proves that the last
normalised input column equals the normalised targets.

## Model

| member | source | states |
|---|---|---|
| `Record.Features` | src/data.rs:280-323 | a record's feature vector has exactly 38 entries |
| `Record.FeaturesFollowOrder` | src/data.rs:280-323 | entry k of the feature vector is the column named at position k of the fixed read order |
| `Record.FeatureLandmarks` | src/data.rs:282-322 | `dur` is the first entry, the label is the last, and entries 17 and 23 (1-based) are both `swin` |
| `Record.SwinReadTwice` | src/data.rs:301-307 | `swin` sits at exactly two positions (17 and 23, 1-based) and at no other |
| `Record.FeatureCoverage` | src/data.rs:280-323 | a numeric column is read if and only if it is not `dwin` |
| `Record.FeaturesIgnoreDwin` | src/data.rs:280-323 | changing `dwin` leaves the feature vector unchanged |
| `Partition.SplitPoint` | src/data.rs:241-242 | the split point is 80% of the length rounded down: `10p <= 8len < 10p + 10`, and `p <= len` |
| `Partition.UnswNb15Dataset.Positions` | src/data.rs:241-242 | a view exposes `end - start` underlying record indices, each a valid index into the source |
| `Partition.UnswNb15Dataset.Len` | src/data.rs:212-214 | the length of a view is the number of record indices it exposes |
| `Partition.UnswNb15Dataset.Get` | src/data.rs:209-211 | `get(i)` gives a record exactly when `i < len()`, and that record is the source record at the view's i-th position |
| `Partition.New` | src/data.rs:225-249 | succeeds if and only if the split is `"train"` or `"test"`; any other name is `InvalidSplitType`; train's positions are the seed-42 shuffle's prefix up to the split point, test's the rest; both views are over the same source and permutation |
| `Partition.Train` | src/data.rs:218-220 | `train()` is exactly `new("train")`, of length `len*8/10` |
| `Partition.Test` | src/data.rs:221-223 | `test()` is exactly `new("test")`, of length `len - len*8/10` |
| `Partition.SplitsConcatenate` | src/data.rs:240-242 | train's positions followed by test's are the whole shuffled order; `train.len() + test.len() == len` |
| `Partition.SplitsDisjoint` | src/data.rs:233-242 | no record index is in both splits |
| `Partition.SplitsCover` | src/data.rs:233-242 | the two splits together reach every record index in `[0, len)` |
| `Partition.EachRecordInOneSplit` | src/data.rs:233-242 | every record of the source is in exactly one of the two splits |
| `Partition.SameLengthSamePositions` | src/data.rs:226-242 | the index sequence depends only on the split name and the number of records, so repeated calls agree |
| `Normalize.Min` | src/data.rs:269 | the column minimum is one of the values and is at most every value |
| `Normalize.Max` | src/data.rs:270 | the column maximum is one of the values and is at least every value |
| `Normalize.Scale` | src/data.rs:271 | the element-wise quotient `(x - min) / (max - min)`: NaN exactly when `max == min` (the unguarded 0/0), otherwise a value that un-normalises back to `x` |
| `Normalize.ScaleInRange` | src/data.rs:271 | for `min <= x <= max` with `min < max` the quotient is a value in `[0, 1]`, equal to 0 iff `x == min` and to 1 iff `x == max` |
| `Normalize.MinMaxNorm` | src/data.rs:268-272 | keeps the length; on a column with `max > min` every result is in `[0, 1]`, a value maps to 0 iff it is the minimum and to 1 iff it is the maximum; on a constant column every result is NaN |
| `Normalize.MinMaxNormRows` | src/data.rs:268-272 | keeps the shape of a matrix and normalises each column by that column's own minimum and maximum, with the same rule as the one-dimensional case |
| `Normalize.MinMaxNormRoundTrip` | src/data.rs:271 | on a column with a positive range, un-normalising `min + y * (max - min)` gives back the original value |
| `Normalize.MinMaxNormMonotone` | src/data.rs:271 | on a column with a positive range, normalisation keeps the order of the values in both directions |
| `Normalize.MinMaxReordered` | src/data.rs:269-270 | the minimum and maximum of a column do not depend on the order of its values |
| `Normalize.MinMaxNormReordered` | src/data.rs:268-272 | reordering the values reorders their normalised values in the same way |
| `Batcher.Stack` | src/data.rs:277-330 | the stacked inputs have one row per record, in record order, row k being record k's feature vector, 38 columns wide |
| `Batcher.Labels` | src/data.rs:333-338 | the raw targets: one entry per record, entry k being record k's label |
| `Batcher.Normalized` | src/data.rs:330-341 | for N records the batch has N input rows of 38 entries and N targets |
| `Batcher.Batch` | src/data.rs:276-342 | fails if and only if there are no records; otherwise returns the stacked feature rows, in record order, normalised per column, and the labels, normalised |
| `Batcher.BatchRowFromItem` | src/data.rs:279-339 | on a column with a positive range, un-normalising entry (k, c) gives feature c of record k; un-normalising target k gives record k's label |
| `Batcher.BatchCellsInUnitInterval` | src/data.rs:331-339 | an input entry or target is NaN iff its column is constant over the batch, and is in `[0, 1]` otherwise |
| `Batcher.ConstantLabelsGiveNaN` | src/data.rs:333-339 | a batch whose records all carry the same label has only NaN targets, because the zero range is not guarded |
| `Batcher.LabelColumnIsTarget` | src/data.rs:322-339 | the last normalised input column equals the normalised targets, because the label is also an input feature |
| `Batcher.BatchReordered` | src/data.rs:330-339 | reordering the records reorders the input rows and the targets in the same way and changes nothing else |

## Left out

- Loading the records from the dataset hub and its SQLite storage (`src/data.rs:226-229`) is I/O. The records are a parameter `source: seq<Item>`, and a load failure is not modelled.
- The library's `ShuffledDataset`, `PartialDataset` and seeded random generator are not part of this model. The shuffle is a parameter, assumed to return a permutation of `[0, len)`. Which permutation seed 42 yields is not modelled.
- `Partition.UnswNb15Dataset.Len`: the library view's own length arithmetic is taken to be `end - start`. This holds for both splits because `end <= len`.
- `Partition.SplitPoint`: `len * 8` cannot overflow here, because integers are unbounded. A 64-bit `usize` would overflow only above 2^61 records.
- The categorical columns (`proto`, `service`, `state`, `attack_cat`) are not fields of `Item`. They cannot appear in the feature vector. Serde renames are not modelled.
- The `f64` to `f32` casts, rounding, and NaN/infinity propagation inside tensor operations are floating point. Values are reals, and the only non-real outcome modelled is the NaN of a zero-range column.
- `Normalize.MinMaxNorm` and `Normalize.MinMaxNormRows` require at least one row. The minimum along an empty dimension has no value, and the batcher rejects an empty list before normalising.
- `UnswNb15Batcher::new` only stores the compute device. The device and tensor placement are not modelled.
- The regression network (`src/model.rs`), the training loop, early stopping, checkpointing and data-loader workers (`src/training.rs`), and the entry point (`src/main.rs`) are not part of this model. They are floating-point numerics, library code, concurrency and file I/O.
