# Excess-kurtosis accumulator

This project models the streaming excess-kurtosis aggregate `KurtosisAccumulator` of
`src/kurtosis.rs`. It computes Fisher's excess kurtosis with a bias correction for the
sample size, following DuckDB's formula. The accumulator keeps five fields: `count` and
the running sums of the first four powers of the non-null inputs (`sum`, `sum_sqr`,
`sum_cub`, `sum_four`). It exposes four operations:

- `update_batch` folds a column of nullable floats into the fields.
- `merge_batch` adds serialized partial states and skips rows whose count is zero.
- `state` exports the fields in the order of the declared state schema.
- `evaluate` derives the statistic behind two null guards.

Every `f64` is a `real` and every `u64` a `nat`. An input column is a
`seq<Option<real>>`, where `None` is a null entry.

Files:

- `power_sums.dfy`, module `PowerSums`: the `Moments` record of the five fields and what
  one input entry contributes to it. It holds the fold `Summary` over a batch, and lemmas
  tying the fold to the count of non-null values and their textbook power sums.
- `state_merge.dfy`, module `StateMerge`: the state schema (`state_fields`) and the typed
  state vector with its encoding and decoding. It holds the rows of a batch of partial
  states, and `MergeRows`, the fold that `merge_batch` performs. Its lemmas cover the
  merge round trip, commutativity, associativity, order independence and partitions.
- `excess_kurtosis.dfy`, module `ExcessKurtosis`: the closed form of `evaluate`. It is
  proved equal to the sample excess kurtosis G2 built from the population excess g2, and
  equal to a two-pass reference that first computes the mean and then the central
  moments. It also proves exactly when the result is null.
- `accumulator.dfy`, module `Accumulator`: the class `KurtosisAccumulator`. Its fields are
  updated in place by the loops of `UpdateBatch` and `MergeBatch`, which are proved
  against the folds. `State` and `Evaluate` are functions of the fields, so evaluating
  changes no field. End-to-end methods run one or two accumulators and prove the result
  equals the two-pass statistic of all the values.

A batch of partial states is passed to `MergeBatch` as its five columns: `counts`,
`sums`, `sumSqrs`, `sumCubs`, `sumFours`. Row i is read from index i of each column, for
every index of the count column, as in the source's loop. Each row is a `Moments` record,
not a tuple.

## Model

| member | source | states |
|---|---|---|
| Accumulator.KurtosisAccumulator.constructor | src/kurtosis.rs:93-101 | A new accumulator has count 0 and all four sums 0. |
| Accumulator.KurtosisAccumulator.UpdateBatch | src/kurtosis.rs:105-115 | The new fields are the old fields plus the moments of the batch's non-null entries, each adding 1, v, v², v³, v⁴. Nulls are skipped, so count grows by exactly the number of non-null values. |
| Accumulator.KurtosisAccumulator.MergeBatch | src/kurtosis.rs:117-137 | The new fields are the old fields plus `MergeRows` of the batch's rows. A zero-count row adds nothing; every other row is added field by field. |
| Accumulator.KurtosisAccumulator.State | src/kurtosis.rs:168-176 | The state vector has one scalar per schema field, each of that field's type. Position i holds the value of the field the schema names at position i. It decodes back to exactly (count, sum, sum_sqr, sum_cub, sum_four). |
| Accumulator.KurtosisAccumulator.Evaluate | src/kurtosis.rs:139-162 | Null exactly when count ≤ 3 or m2 ≤ 0. Otherwise it is (n−1)·((n+1)·m4/m2² − 3(n−1))/((n−2)(n−3)) with m2² > 0, which equals G2 of g2 = m4/m2² − 3. It only reads the fields. |
| Accumulator.RowsOfOne | src/kurtosis.rs:124-134 | Five one-entry columns form the single row of those five values. |
| Accumulator.EvaluateOnePass | src/kurtosis.rs:93-162 | A fresh accumulator fed `xs` evaluates to the two-pass statistic of the non-null values of `xs`. |
| Accumulator.MergedAccumulator | src/kurtosis.rs:105-137 | Merging the exported state of an accumulator fed `xs` into one fed `ys` gives the fields of one pass over `xs + ys`. |
| Accumulator.EvaluateMerged | src/kurtosis.rs:105-162 | After that merge, evaluating gives the two-pass statistic of all the values of `xs + ys`. |
| PowerSums.Pow | src/kurtosis.rs:110-112 | `powi(k)` over the reals: v multiplied by itself k times. |
| PowerSums.Contribution | src/kurtosis.rs:107-112 | One entry adds a count of 1 when it is non-null and 0 when it is null; a null entry adds nothing at all. |
| PowerSums.Summary | src/kurtosis.rs:107-113 | The fields one pass folds up, entry by entry from left to right; the count is at most the batch length. |
| PowerSums.Values | src/kurtosis.rs:107 | The non-null entries (`iter().flatten()`): at most as many as the entries, and each of them occurs in the batch. |
| PowerSums.PowSmall | src/kurtosis.rs:110-112 | `powi(1..4)` is the 1- to 4-fold product. |
| PowerSums.ValuesAppend | src/kurtosis.rs:107 | The non-null values of a concatenation are the non-null values of each part, in order. |
| PowerSums.SummaryAppend | src/kurtosis.rs:107-112 | One pass over `xs + ys` is the field-wise sum of the passes over `xs` and `ys`. |
| PowerSums.PowerSumAppend | src/kurtosis.rs:109-112 | Power sums split over a concatenation. |
| PowerSums.SummaryIsPowerSums | src/kurtosis.rs:107-112 | The accumulated fields are (number of non-null values, Σv, Σv², Σv³, Σv⁴). |
| PowerSums.SummaryCount | src/kurtosis.rs:107-108 | The count field is exactly the number of non-null entries. |
| PowerSums.OnlyNullsContributeNothing | src/kurtosis.rs:107 | A batch of only nulls contributes zero to every field. |
| PowerSums.NullBatchKeepsState | src/kurtosis.rs:107-108 | Adding a batch of only nulls leaves any fields unchanged. |
| PowerSums.ZeroCountMeansZero | src/kurtosis.rs:107-112 | A pass that counted no value has all four sums zero. |
| StateMerge.StateFields | src/kurtosis.rs:70-76 | The state schema in order: count (UInt64), sum, sum_sqr, sum_cub and sum_four (Float64), all nullable. |
| StateMerge.FieldValue | src/kurtosis.rs:70-76 | The scalar that the schema field of a given name holds, with that field's type; no value for an undeclared name. |
| StateMerge.Encode | src/kurtosis.rs:168-176 | The encoded vector conforms to the schema. Position i holds the value of the field the schema names at position i. It decodes back to the same record. |
| StateMerge.Decode | src/kurtosis.rs:118-122 | Decoding succeeds exactly when the vector has the schema's shape and types. |
| StateMerge.Rows | src/kurtosis.rs:124-133 | The rows of a batch given as five columns: one row per entry of the count column. |
| StateMerge.RowAt | src/kurtosis.rs:125-133 | Row i holds the i-th entry of each of the five columns. |
| StateMerge.RowContribution | src/kurtosis.rs:126-133 | What merging one row adds: nothing for a zero count, otherwise the row's fields. |
| StateMerge.RowContributionShape | src/kurtosis.rs:126-133 | A row adds its own count. What it adds is well formed, and it is exactly the row whenever the count is nonzero. |
| StateMerge.MergeRows | src/kurtosis.rs:124-134 | The total the loop adds, row by row in order. |
| StateMerge.MergeRowsWellFormed | src/kurtosis.rs:124-134 | A merged total never has a zero count with a nonzero sum. |
| StateMerge.MergeRowsStep | src/kurtosis.rs:124-134 | One more loop step: a zero-count row leaves the total unchanged, and any other row is added field by field. |
| StateMerge.MergeRowsSplit | src/kurtosis.rs:124-134 | A row anywhere in the batch adds its contribution to the merge of the other rows. |
| StateMerge.MergeRowsAppend | src/kurtosis.rs:124-134 | Merging a concatenation of row batches is the sum of merging each. |
| StateMerge.MergeOrderIrrelevant | src/kurtosis.rs:124-134 | Any rearrangement of the rows merges to the same total. |
| StateMerge.MergeRowsRemove | src/kurtosis.rs:124-134 | Merging is the merge of the rows without row j, plus row j's contribution. |
| StateMerge.MergeRowsSingle | src/kurtosis.rs:126-133 | Merging one row adds nothing if its count is 0, otherwise the row. |
| StateMerge.SkipIsHarmless | src/kurtosis.rs:126-128 | For well-formed rows (zero count implies zero sums), skipping zero-count rows equals summing all rows. |
| StateMerge.ExportedRowContribution | src/kurtosis.rs:124-134 | An exported state is well formed, and merging it adds exactly its fields. |
| StateMerge.MergeOfPartitions | src/kurtosis.rs:105-134 | Merging the states of any partitioning of the input equals one pass over the whole input. |
| StateMerge.MergeStateRoundTrip | src/kurtosis.rs:105-134 | The state of an accumulator fed `xs`, merged into the fields of one fed `ys`, gives the fields of one fed `xs + ys`. |
| StateMerge.MergeTwoStates | src/kurtosis.rs:117-134 | A fresh accumulator merging two states holds one pass over both inputs. |
| StateMerge.MergeCommutes | src/kurtosis.rs:117-134 | Merging two states in either order gives the same fields. |
| StateMerge.MergeAssociates | src/kurtosis.rs:117-134 | Merging (a with b) then c, or a with (b with c), both give one pass over a, b and c. |
| ExcessKurtosis.Inv | src/kurtosis.rs:144 | `count_64`: a positive reciprocal of the count, with count · inv = 1. |
| ExcessKurtosis.M2 | src/kurtosis.rs:150 | The source's m2: (Σx² − (Σx)²·inv)·inv. |
| ExcessKurtosis.FourthBracket | src/kurtosis.rs:146-148 | The bracket of the source's m4: Σx⁴ − 4·Σx³·Σx·inv + 6·Σx²·(Σx)²·inv² − 3·(Σx)⁴·inv³. |
| ExcessKurtosis.M4 | src/kurtosis.rs:145-148 | The source's m4: inv times that bracket. |
| ExcessKurtosis.Corrected | src/kurtosis.rs:155-159 | The source's estimator (n−1)·((n+1)·m4/sq − 3(n−1))/((n−2)(n−3)), defined for n > 3 and sq > 0. |
| ExcessKurtosis.Kurtosis | src/kurtosis.rs:139-162 | Null exactly when count ≤ 3 or m2 ≤ 0. Otherwise it is the source's estimator over m2², with m2² > 0, and equal to G2 of g2. |
| ExcessKurtosis.FlatForm | src/kurtosis.rs:155-159 | The denominator (n−2)(n−3) is positive for n > 3, and the estimator rearranges into ((n+1)·(m4/sq − 3) + 6)·(n−1)/((n−2)(n−3)). |
| ExcessKurtosis.CorrectedIsSampleExcess | src/kurtosis.rs:155-159 | For n > 3 and any positive sq, the estimator equals G2 of m4/sq − 3. |
| ExcessKurtosis.SampleExcessForm | src/kurtosis.rs:150-159 | For n > 3 and m2 > 0, the estimator over m2² equals G2 of the population excess g2 = m4/m2² − 3. |
| ExcessKurtosis.CentralSum2Expansion | src/kurtosis.rs:150 | Σ(v − c)² expands through the count and the power sums Σv, Σv². |
| ExcessKurtosis.CentralSum4Expansion | src/kurtosis.rs:145-148 | Σ(v − c)⁴ expands through the count and the power sums Σv to Σv⁴. |
| ExcessKurtosis.SecondMomentAlgebra | src/kurtosis.rs:144-150 | The source's m2 is the expanded Σ(v − mean)², divided by the count. |
| ExcessKurtosis.FourthMomentAlgebra | src/kurtosis.rs:144-148 | The source's m4 is the expanded Σ(v − mean)⁴, divided by the count. |
| ExcessKurtosis.RawMomentsAreCentral | src/kurtosis.rs:144-150 | On any sample's power sums, m2 and m4 equal the two-pass central moments (1/n)·Σ(v − mean)² and (1/n)·Σ(v − mean)⁴. |
| ExcessKurtosis.KurtosisMatchesTwoPass | src/kurtosis.rs:139-162 | Evaluating the accumulated fields equals the two-pass statistic of the non-null values, null cases included. |
| ExcessKurtosis.CentralSumNonNegative | src/kurtosis.rs:150-153 | A sum of squared deviations is never negative. |
| ExcessKurtosis.CentralSumZeroIffConstant | src/kurtosis.rs:150-153 | The squared deviations from c sum to zero exactly when every value is c. |
| ExcessKurtosis.ZeroSpreadIffConstant | src/kurtosis.rs:150-153 | The variance is ≤ 0 exactly when all values are equal. |
| ExcessKurtosis.KurtosisNullIff | src/kurtosis.rs:140-153 | The result is null exactly when there are at most three non-null values or all of them are equal. |
| ExcessKurtosis.FourValuesExample | src/kurtosis.rs:139-162 | The values 1, 2, 3, 4 give −1.2. |

## Left out

- IEEE-754 rounding of `f64` arithmetic and of `powi`: values are exact reals, so every property is an exact identity over the reals. The sign of a rounded m2 for equal values, for example, is not modelled.
- Non-finite `f64` values: the inputs and the running sums are finite reals. In the source, a NaN input, an infinite input, or a sum that overflows to ±∞ makes m2 NaN or infinite. `m2 <= 0.0` is false for NaN, so such a batch evaluates to `Some(NaN)` and not to null; four +∞ inputs, for example, are all equal but do not give null. `KurtosisNullIff` and `KurtosisMatchesTwoPass` hold for finite real inputs only.
- `u64` overflow of `count` in `update_batch` and `merge_batch`: the count is an unbounded `nat`.
- The `KurtosisFunction` wiring (`name`, `signature`, `return_type`, `accumulator`, the `Debug`/`Default` derive, `make_udaf_expr_and_func!`) and `size()`: these are adapters to the host engine's aggregate interface, and that interface is not part of this model. Only the field order of `state_fields` is modelled, as `StateFields`.
- The Arrow casts and downcasts in `update_batch` and `merge_batch` (`as_float64_array`, `downcast_value!`) and their error paths: the inputs are already typed columns. `Decode` models the shape check of one state vector.
- Accumulator.KurtosisAccumulator.MergeBatch: nulls inside the state columns are not modelled. The source reads `.value(i)` and ignores the validity bitmap, so a null slot yields whatever value the buffer holds there. The columns here hold plain values.
- Accumulator.KurtosisAccumulator.MergeBatch: the source indexes every column at every index of the count column, a host-engine invariant. It is a precondition here (the other columns are at least as long).
- `evaluate` takes `&mut self` in the source but modifies nothing. It is therefore a function over the fields, and the `ScalarValue::Float64` wrapping is an `Option<real>`.
- `src/lib.rs` (registration of the functions with the engine's function registry, and logging) and `tests/utils/mod.rs` (an SQL session harness that runs queries and prints results): both are I/O over the host engine.
- The other aggregates declared in `src/lib.rs` (`kurtosis_pop`, `skewness`, `mode`, `max_min_by`): their source is not part of this model.
