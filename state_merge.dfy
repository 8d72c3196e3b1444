/** The serialized partial state of the kurtosis accumulator and the rule that merges
    partial states. A partial state travels as one row of five typed columns. */
module StateMerge {
  import opened PowerSums

  /** Column types used by the state schema. */
  datatype DataType = UInt64 | Float64

  datatype Field = Field(name: string, dataType: DataType, nullable: bool)

  /** The declared state schema, in order. */
  const StateFields: seq<Field> := [
    Field("count", UInt64, true),
    Field("sum", Float64, true),
    Field("sum_sqr", Float64, true),
    Field("sum_cub", Float64, true),
    Field("sum_four", Float64, true)
  ]

  /** A single scalar of a state vector. */
  datatype Scalar = UInt64Value(u: nat) | Float64Value(f: real)

  function TypeOf(s: Scalar): DataType {
    match s
    case UInt64Value(_) => UInt64
    case Float64Value(_) => Float64
  }

  /** The value of the schema field called `name` in the fields `m`; no value for a name the
      schema does not declare. */
  function FieldValue(m: Moments, name: string): Option<Scalar> {
    if name == "count" then Some(UInt64Value(m.count))
    else if name == "sum" then Some(Float64Value(m.sum))
    else if name == "sum_sqr" then Some(Float64Value(m.sumSqr))
    else if name == "sum_cub" then Some(Float64Value(m.sumCub))
    else if name == "sum_four" then Some(Float64Value(m.sumFour))
    else None
  }

  /** `values` has one scalar per schema field, each of that field's type. */
  predicate Conforms(values: seq<Scalar>, schema: seq<Field>) {
    |values| == |schema| && forall i | 0 <= i < |values| :: TypeOf(values[i]) == schema[i].dataType
  }

  /** The state vector of an accumulator, one scalar per schema field: position i holds
      the field that the schema names at position i. */
  function Encode(m: Moments): (values: seq<Scalar>)
    ensures Conforms(values, StateFields)
    ensures forall i | 0 <= i < |values| :: FieldValue(m, StateFields[i].name) == Some(values[i])
    ensures Decode(values) == Some(m)
  {
    [UInt64Value(m.count), Float64Value(m.sum), Float64Value(m.sumSqr),
     Float64Value(m.sumCub), Float64Value(m.sumFour)]
  }

  /** Reads a state vector back as one row of the five typed state columns; fails unless
      the vector has the schema's shape (the downcast of each column to its type). */
  function Decode(values: seq<Scalar>): (row: Option<Moments>)
    ensures row.Some? <==> Conforms(values, StateFields)
  {
    if |values| == 5 && values[0].UInt64Value? && values[1].Float64Value?
       && values[2].Float64Value? && values[3].Float64Value? && values[4].Float64Value?
    then Some(Moments(values[0].u, values[1].f, values[2].f, values[3].f, values[4].f))
    else None
  }

  /** The rows of a batch of partial states given as its five columns, one row per entry of
      the count column. The source reads each column at every index of the count column, so
      the other columns must be at least that long. */
  function Rows(counts: seq<nat>, sums: seq<real>, sumSqrs: seq<real>, sumCubs: seq<real>,
                sumFours: seq<real>): (rows: seq<Moments>)
    requires |sums| >= |counts| && |sumSqrs| >= |counts|
    requires |sumCubs| >= |counts| && |sumFours| >= |counts|
    ensures |rows| == |counts|
  {
    seq(|counts|, i requires 0 <= i < |counts| =>
      Moments(counts[i], sums[i], sumSqrs[i], sumCubs[i], sumFours[i]))
  }

  /** Row i of a batch holds the i-th entry of each of the five columns. */
  lemma RowAt(counts: seq<nat>, sums: seq<real>, sumSqrs: seq<real>, sumCubs: seq<real>,
              sumFours: seq<real>, i: nat)
    requires |sums| >= |counts| && |sumSqrs| >= |counts|
    requires |sumCubs| >= |counts| && |sumFours| >= |counts|
    requires i < |counts|
    ensures Rows(counts, sums, sumSqrs, sumCubs, sumFours)[i]
         == Moments(counts[i], sums[i], sumSqrs[i], sumCubs[i], sumFours[i])
  {
  }

  /** What merging one row adds: nothing when its count is zero, otherwise every field. */
  function RowContribution(row: Moments): Moments {
    if row.count == 0 then Zero else row
  }

  /** A row adds its own count; what it adds is well formed, and is the row itself unless
      its count is zero. */
  lemma RowContributionShape(row: Moments)
    ensures RowContribution(row).count == row.count
    ensures WellFormed(RowContribution(row))
    ensures row.count != 0 ==> RowContribution(row) == row
  {
  }

  /** The total that merging `rows` adds to an accumulator, row by row in order. */
  function MergeRows(rows: seq<Moments>): Moments {
    if rows == [] then Zero
    else Plus(MergeRows(rows[..|rows| - 1]), RowContribution(rows[|rows| - 1]))
  }

  /** The plain field-wise total of all rows, zero-count rows included. */
  function SumRows(rows: seq<Moments>): Moments {
    if rows == [] then Zero
    else Plus(SumRows(rows[..|rows| - 1]), rows[|rows| - 1])
  }

  /** A row is well formed when a zero count comes with zero sums, as every row an
      accumulator exports is. */
  predicate WellFormed(row: Moments) {
    row.count == 0 ==> row == Zero
  }

  /** The partial states of a list of partitions, one row per partition. */
  function PartialStates(parts: seq<seq<Option<real>>>): (rows: seq<Moments>)
    ensures |rows| == |parts|
  {
    seq(|parts|, i requires 0 <= i < |parts| => Summary(parts[i]))
  }

  /** All partitions, one after the other. */
  function Concat(parts: seq<seq<Option<real>>>): seq<Option<real>> {
    if parts == [] then [] else Concat(parts[..|parts| - 1]) + parts[|parts| - 1]
  }

  /** Whatever the rows, merging never yields a zero count with a nonzero sum. */
  lemma {:induction false} MergeRowsWellFormed(rows: seq<Moments>)
    ensures WellFormed(MergeRows(rows))
  {
    if rows != [] {
      MergeRowsWellFormed(rows[..|rows| - 1]);
    }
  }

  /** Merging the first i + 1 rows into `acc` adds nothing beyond the first i when row i has
      a zero count, and adds row i itself otherwise. */
  lemma MergeRowsStep(acc: Moments, rows: seq<Moments>, i: nat)
    requires i < |rows|
    ensures rows[i].count == 0 ==> Plus(acc, MergeRows(rows[..i + 1])) == Plus(acc, MergeRows(rows[..i]))
    ensures rows[i].count != 0 ==>
      Plus(acc, MergeRows(rows[..i + 1])) == Plus(Plus(acc, MergeRows(rows[..i])), rows[i])
  {
    assert rows[..i + 1][..i] == rows[..i];
    PlusZero(MergeRows(rows[..i]));
    PlusAssociative(acc, MergeRows(rows[..i]), RowContribution(rows[i]));
  }

  lemma {:induction false} MergeRowsAppend(a: seq<Moments>, b: seq<Moments>)
    ensures MergeRows(a + b) == Plus(MergeRows(a), MergeRows(b))
  {
    if b == [] {
      assert a + b == a;
      PlusZero(MergeRows(a));
    } else {
      var init, last := b[..|b| - 1], b[|b| - 1];
      assert (a + b)[..|a + b| - 1] == a + init;
      assert (a + b)[|a + b| - 1] == last;
      var c := RowContribution(last);
      calc {
        MergeRows(a + b);
        Plus(MergeRows(a + init), c);
        { MergeRowsAppend(a, init); }
        Plus(Plus(MergeRows(a), MergeRows(init)), c);
        { PlusAssociative(MergeRows(a), MergeRows(init), c); }
        Plus(MergeRows(a), MergeRows(b));
      }
    }
  }

  /** Merging the same rows in any order gives the same total: merge is commutative and
      associative across any arrangement of the partial states. */
  lemma {:induction false} MergeOrderIrrelevant(a: seq<Moments>, b: seq<Moments>)
    requires multiset(a) == multiset(b)
    ensures MergeRows(a) == MergeRows(b)
    decreases |a|
  {
    if a == [] {
      assert |b| == |multiset(b)| == 0;
    } else {
      var init, last := a[..|a| - 1], a[|a| - 1];
      assert last in multiset(b) by {
        assert a == init + [last];
        assert last in multiset(a);
      }
      var j :| 0 <= j < |b| && b[j] == last;
      var rest := b[..j] + b[j + 1..];
      assert multiset(init) == multiset(rest) by {
        assert a == init + [last];
        MultisetRemove(b, j);
      }
      MergeOrderIrrelevant(init, rest);
      MergeRowsRemove(b, j);
    }
  }

  lemma MultisetRemove(b: seq<Moments>, j: nat)
    requires j < |b|
    ensures multiset(b[..j] + b[j + 1..]) == multiset(b) - multiset{b[j]}
  {
    assert b == b[..j] + [b[j]] + b[j + 1..];
  }

  /** Taking one row out: the rest merged, plus that row's contribution. */
  lemma MergeRowsRemove(b: seq<Moments>, j: nat)
    requires j < |b|
    ensures MergeRows(b) == Plus(MergeRows(b[..j] + b[j + 1..]), RowContribution(b[j]))
  {
    SplitAt(b, j);
    MergeRowsSplit(b[..j], b[j], b[j + 1..]);
  }

  lemma SplitAt(b: seq<Moments>, j: nat)
    requires j < |b|
    ensures b[..j] + [b[j]] + b[j + 1..] == b
  {
    assert b[..j] + [b[j]] == b[..j + 1];
    assert b[..j + 1] + b[j + 1..] == b;
  }

  lemma MergeRowsSplit(front: seq<Moments>, row: Moments, back: seq<Moments>)
    ensures MergeRows(front + [row] + back) == Plus(MergeRows(front + back), RowContribution(row))
  {
    MergeRowsAppend(front + [row], back);
    MergeRowsAppend(front, [row]);
    MergeRowsSingle(row);
    MergeRowsAppend(front, back);
    PlusSwap(MergeRows(front), RowContribution(row), MergeRows(back));
  }

  lemma MergeRowsSingle(row: Moments)
    ensures MergeRows([row]) == RowContribution(row)
  {
    var single: seq<Moments> := [row];
    assert single[..0] == [];
    PlusZeroLeft(RowContribution(row));
  }

  /** Skipping zero-count rows changes nothing when the rows are well formed. */
  lemma {:induction false} SkipIsHarmless(rows: seq<Moments>)
    requires forall i | 0 <= i < |rows| :: WellFormed(rows[i])
    ensures MergeRows(rows) == SumRows(rows)
  {
    if rows != [] {
      SkipIsHarmless(rows[..|rows| - 1]);
      PlusZero(SumRows(rows[..|rows| - 1]));
    }
  }

  /** What an accumulator exports is well formed, and merging it adds exactly its fields. */
  lemma ExportedRowContribution(xs: seq<Option<real>>)
    ensures WellFormed(Summary(xs))
    ensures RowContribution(Summary(xs)) == Summary(xs)
  {
    if Summary(xs).count == 0 {
      ZeroCountMeansZero(xs);
    }
  }

  /** Merging the partial states of any partitioning equals one pass over all the input. */
  lemma {:induction false} MergeOfPartitions(parts: seq<seq<Option<real>>>)
    ensures MergeRows(PartialStates(parts)) == Summary(Concat(parts))
  {
    if parts != [] {
      var init, last := parts[..|parts| - 1], parts[|parts| - 1];
      var rows := PartialStates(parts);
      assert rows[..|rows| - 1] == PartialStates(init);
      MergeOfPartitions(init);
      ExportedRowContribution(last);
      SummaryAppend(Concat(init), last);
    }
  }

  /** Merging the state of an accumulator fed `xs` into one fed `ys` yields the fields of
      one accumulator fed `xs + ys`. */
  lemma MergeStateRoundTrip(xs: seq<Option<real>>, ys: seq<Option<real>>)
    ensures Plus(Summary(ys), MergeRows([Summary(xs)])) == Summary(xs + ys)
  {
    MergeRowsSingle(Summary(xs));
    ExportedRowContribution(xs);
    SummaryAppend(xs, ys);
  }

  /** A fresh accumulator that merges two partial states holds one pass over both inputs. */
  lemma MergeTwoStates(a: seq<Option<real>>, b: seq<Option<real>>)
    ensures MergeRows([Summary(a), Summary(b)]) == Summary(a + b)
  {
    var rows: seq<Moments> := [Summary(a), Summary(b)];
    assert rows[..1] == [Summary(a)];
    MergeStateRoundTrip(a, []);
    assert a + [] == a;
    PlusZeroLeft(MergeRows(rows[..1]));
    ExportedRowContribution(b);
    SummaryAppend(a, b);
  }

  /** Merge is commutative: merging the partial states in the other order gives the same
      fields. */
  lemma MergeCommutes(a: seq<Option<real>>, b: seq<Option<real>>)
    ensures MergeRows([Summary(b), Summary(a)]) == MergeRows([Summary(a), Summary(b)])
  {
    MergeTwoStates(b, a);
    MergeTwoStates(a, b);
    SummaryAppend(b, a);
    SummaryAppend(a, b);
  }

  /** Merge is associative: combining (a with b) then c, or a with (b with c), gives the
      fields of one pass over all three inputs. */
  lemma MergeAssociates(a: seq<Option<real>>, b: seq<Option<real>>, c: seq<Option<real>>)
    ensures MergeRows([MergeRows([Summary(a), Summary(b)]), Summary(c)]) == Summary(a + b + c)
    ensures MergeRows([Summary(a), MergeRows([Summary(b), Summary(c)])]) == Summary(a + b + c)
  {
    MergeTwoStates(a, b);
    MergeTwoStates(a + b, c);
    var bc := MergeRows([Summary(b), Summary(c)]);
    assert bc == Summary(b + c) by { MergeTwoStates(b, c); }
    assert MergeRows([Summary(a), bc]) == Summary(a + (b + c)) by { MergeTwoStates(a, b + c); }
    SummaryAppend(a, b + c);
    SummaryAppend(b, c);
    SummaryAppend(a + b, c);
    SummaryAppend(a, b);
    PlusAssociative(Summary(a), Summary(b), Summary(c));
  }
}
