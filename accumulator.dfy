/** The kurtosis accumulator as an object: five fields that `UpdateBatch` and `MergeBatch`
    update in place, read by `State` and `Evaluate`. */
module Accumulator {
  import opened PowerSums
  import opened StateMerge
  import opened ExcessKurtosis

  class KurtosisAccumulator {
    var count: nat
    var sum: real
    var sumSqr: real
    var sumCub: real
    var sumFour: real

    /** The five fields as one record. */
    function Snapshot(): Moments
      reads this
    {
      Moments(count, sum, sumSqr, sumCub, sumFour)
    }

    /** A fresh accumulator: no values counted, every sum zero. */
    constructor ()
      ensures Snapshot() == Zero
    {
      count, sum, sumSqr, sumCub, sumFour := 0, 0.0, 0.0, 0.0, 0.0;
    }

    /** Folds the non-null entries of one input column into the fields, one step per
        value: the fields gain exactly the moments of the batch. */
    method UpdateBatch(values: seq<Option<real>>)
      modifies this
      ensures Snapshot() == Plus(old(Snapshot()), Summary(values))
      ensures count == old(count) + |Values(values)|
    {
      var i := 0;
      while i < |values|
        invariant 0 <= i <= |values|
        invariant Snapshot() == Plus(old(Snapshot()), Summary(values[..i]))
      {
        match values[i] {
          case None =>
          case Some(v) =>
            count := count + 1;
            sum := sum + v;
            sumSqr := sumSqr + Pow(v, 2);
            sumCub := sumCub + Pow(v, 3);
            sumFour := sumFour + Pow(v, 4);
        }
        assert values[..i + 1][..i] == values[..i];
        i := i + 1;
      }
      assert values[..i] == values;
      SummaryCount(values);
    }

    /** Adds a batch of partial states, given as its five columns, row by row; a row whose
        count is zero is skipped. */
    method MergeBatch(counts: seq<nat>, sums: seq<real>, sumSqrs: seq<real>,
                      sumCubs: seq<real>, sumFours: seq<real>)
      requires |sums| >= |counts| && |sumSqrs| >= |counts|
      requires |sumCubs| >= |counts| && |sumFours| >= |counts|
      modifies this
      ensures Snapshot() == Plus(old(Snapshot()), MergeRows(Rows(counts, sums, sumSqrs, sumCubs, sumFours)))
    {
      ghost var start := Snapshot();
      ghost var rows := Rows(counts, sums, sumSqrs, sumCubs, sumFours);
      var i := 0;
      while i < |counts|
        invariant 0 <= i <= |counts|
        invariant Moments(count, sum, sumSqr, sumCub, sumFour) == Plus(start, MergeRows(rows[..i]))
      {
        var c := counts[i];
        RowAt(counts, sums, sumSqrs, sumCubs, sumFours, i);
        MergeRowsStep(start, rows, i);
        if c == 0 {
          i := i + 1;
          continue;
        }
        count, sum, sumSqr, sumCub, sumFour :=
          count + c, sum + sums[i], sumSqr + sumSqrs[i], sumCub + sumCubs[i], sumFour + sumFours[i];
        i := i + 1;
      }
      assert rows[..i] == rows;
    }

    /** The partial state, one scalar per field of the declared schema, in its order; it
        reads back as exactly the five fields. */
    function State(): (values: seq<Scalar>)
      reads this
      ensures Conforms(values, StateFields)
      ensures forall i | 0 <= i < |values| ::
        FieldValue(Snapshot(), StateFields[i].name) == Some(values[i])
      ensures Decode(values) == Some(Snapshot())
    {
      Encode(Snapshot())
    }

    /** The aggregate's result: null when at most three values were counted or the variance
        is not positive, otherwise the source's bias-corrected estimator, which is the
        sample excess kurtosis. Reading the result changes no field. */
    function Evaluate(): (r: Option<real>)
      reads this
      ensures r.None? <==> (count <= 3 || M2(count, sum, sumSqr) <= 0.0)
      ensures r.Some? ==>
        var m2 := M2(count, sum, sumSqr);
        Pow(m2, 2) > 0.0 &&
        r.value == Corrected(count as real, Pow(m2, 2), M4(count, sum, sumSqr, sumCub, sumFour))
      ensures r.Some? ==>
        r.value == SampleExcess(count as real, PopulationExcess(M2(count, sum, sumSqr),
                                                                M4(count, sum, sumSqr, sumCub, sumFour)))
    {
      Kurtosis(Snapshot())
    }
  }

  lemma RowsOfOne(m: Moments)
    ensures Rows([m.count], [m.sum], [m.sumSqr], [m.sumCub], [m.sumFour]) == [m]
  {
  }

  /** One accumulator fed `xs` evaluates to the two-pass textbook statistic of its
      non-null values. */
  method EvaluateOnePass(xs: seq<Option<real>>) returns (r: Option<real>)
    ensures r == TwoPassKurtosis(Values(xs))
  {
    var acc := new KurtosisAccumulator();
    acc.UpdateBatch(xs);
    PlusZeroLeft(Summary(xs));
    r := acc.Evaluate();
    KurtosisMatchesTwoPass(xs);
  }

  /** An accumulator fed `ys` that then merges the exported state of one fed `xs` holds the
      fields of one pass over `xs + ys`. */
  method MergedAccumulator(xs: seq<Option<real>>, ys: seq<Option<real>>)
    returns (b: KurtosisAccumulator)
    ensures b.Snapshot() == Summary(xs + ys)
  {
    var a := new KurtosisAccumulator();
    a.UpdateBatch(xs);
    PlusZeroLeft(Summary(xs));
    var row := Decode(a.State()).value;
    b := new KurtosisAccumulator();
    b.UpdateBatch(ys);
    PlusZeroLeft(Summary(ys));
    b.MergeBatch([row.count], [row.sum], [row.sumSqr], [row.sumCub], [row.sumFour]);
    RowsOfOne(row);
    MergeStateRoundTrip(xs, ys);
  }

  /** Splitting the input across two accumulators and merging one's state into the other
      does not change the result: it is the statistic of all the values. */
  method EvaluateMerged(xs: seq<Option<real>>, ys: seq<Option<real>>) returns (r: Option<real>)
    ensures r == TwoPassKurtosis(Values(xs + ys))
  {
    var b := MergedAccumulator(xs, ys);
    r := b.Evaluate();
    KurtosisMatchesTwoPass(xs + ys);
  }
}
