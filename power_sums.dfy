/** Raw moments of a stream of nullable 64-bit floats, with f64 abstracted to real.
    A `Moments` value is what the kurtosis accumulator keeps: the number of non-null
    values seen and the sums of their first four powers. */
module PowerSums {

  datatype Option<+T> = None | Some(value: T)

  /** The five running fields of the accumulator, in the order of its state schema. */
  datatype Moments = Moments(count: nat, sum: real, sumSqr: real, sumCub: real, sumFour: real)

  /** The state of a freshly constructed accumulator. */
  const Zero := Moments(0, 0.0, 0.0, 0.0, 0.0)

  /** Field-by-field addition of two sets of raw moments. */
  function Plus(a: Moments, b: Moments): Moments {
    Moments(a.count + b.count, a.sum + b.sum, a.sumSqr + b.sumSqr,
            a.sumCub + b.sumCub, a.sumFour + b.sumFour)
  }

  /** v to the k-th power (the source's `powi`, over the reals). */
  function Pow(v: real, k: nat): real {
    if k == 0 then 1.0 else v * Pow(v, k - 1)
  }

  /** The small powers the accumulator uses, written out as products. */
  lemma PowSmall(v: real)
    ensures Pow(v, 1) == v && Pow(v, 2) == v * v
    ensures Pow(v, 3) == v * v * v && Pow(v, 4) == v * v * v * v
  {
    assert Pow(v, 0) == 1.0;
    assert Pow(v, 1) == v * Pow(v, 0);
    assert Pow(v, 2) == v * Pow(v, 1);
    assert Pow(v, 3) == v * Pow(v, 2);
    assert Pow(v, 4) == v * Pow(v, 3);
  }

  /** What one input entry adds to the fields; a null entry adds nothing. */
  function Contribution(x: Option<real>): (c: Moments)
    ensures c.count == (if x.Some? then 1 else 0)
    ensures x.None? ==> c == Zero
  {
    match x
    case None => Zero
    case Some(v) => Moments(1, v, Pow(v, 2), Pow(v, 3), Pow(v, 4))
  }

  /** The moments a single pass over `xs` accumulates, folding entries left to right. */
  function Summary(xs: seq<Option<real>>): (m: Moments)
    ensures m.count <= |xs|
  {
    if xs == [] then Zero
    else Plus(Summary(xs[..|xs| - 1]), Contribution(xs[|xs| - 1]))
  }

  /** The non-null entries of `xs`, in order (the source's `iter().flatten()`). */
  function Values(xs: seq<Option<real>>): (vs: seq<real>)
    ensures |vs| <= |xs|
    ensures forall i | 0 <= i < |vs| :: Some(vs[i]) in xs
  {
    if xs == [] then []
    else Values(xs[..|xs| - 1]) + (match xs[|xs| - 1] case None => [] case Some(v) => [v])
  }

  /** The textbook power sum: the sum over vs of v^k. */
  function PowerSum(vs: seq<real>, k: nat): real {
    if vs == [] then 0.0 else PowerSum(vs[..|vs| - 1], k) + Pow(vs[|vs| - 1], k)
  }

  /** Values keeps exactly the non-null entries. */
  lemma {:induction false} ValuesAppend(xs: seq<Option<real>>, ys: seq<Option<real>>)
    ensures Values(xs + ys) == Values(xs) + Values(ys)
  {
    if ys == [] {
      assert xs + ys == xs;
    } else {
      var init := ys[..|ys| - 1];
      assert (xs + ys)[..|xs + ys| - 1] == xs + init;
      ValuesAppend(xs, init);
    }
  }

  /** A pass over a concatenation is the sum of the passes over its parts. */
  lemma {:induction false} SummaryAppend(xs: seq<Option<real>>, ys: seq<Option<real>>)
    ensures Summary(xs + ys) == Plus(Summary(xs), Summary(ys))
  {
    if ys == [] {
      assert xs + ys == xs;
      PlusZero(Summary(xs));
    } else {
      var init, last := ys[..|ys| - 1], ys[|ys| - 1];
      assert (xs + ys)[..|xs + ys| - 1] == xs + init;
      assert (xs + ys)[|xs + ys| - 1] == last;
      var c := Contribution(last);
      calc {
        Summary(xs + ys);
        Plus(Summary(xs + init), c);
        { SummaryAppend(xs, init); }
        Plus(Plus(Summary(xs), Summary(init)), c);
        { PlusAssociative(Summary(xs), Summary(init), c); }
        Plus(Summary(xs), Plus(Summary(init), c));
        Plus(Summary(xs), Summary(ys));
      }
    }
  }

  lemma PlusZero(a: Moments)
    ensures Plus(a, Zero) == a
  {
  }

  lemma PlusZeroLeft(a: Moments)
    ensures Plus(Zero, a) == a
  {
  }

  lemma PlusAssociative(a: Moments, b: Moments, c: Moments)
    ensures Plus(Plus(a, b), c) == Plus(a, Plus(b, c))
  {
  }

  lemma PlusSwap(a: Moments, b: Moments, c: Moments)
    ensures Plus(Plus(a, b), c) == Plus(Plus(a, c), b)
  {
  }

  /** Power sums split over a concatenation. */
  lemma {:induction false} PowerSumAppend(vs: seq<real>, ws: seq<real>, k: nat)
    ensures PowerSum(vs + ws, k) == PowerSum(vs, k) + PowerSum(ws, k)
  {
    if ws == [] {
      assert vs + ws == vs;
    } else {
      var init := ws[..|ws| - 1];
      assert (vs + ws)[..|vs + ws| - 1] == vs + init;
      PowerSumAppend(vs, init, k);
    }
  }

  /** The accumulated fields are the count of the non-null values and their power sums:
      the incremental fold agrees with the textbook definition of the raw moments. */
  lemma {:induction false} SummaryIsPowerSums(xs: seq<Option<real>>)
    ensures Summary(xs) == Moments(|Values(xs)|, PowerSum(Values(xs), 1), PowerSum(Values(xs), 2),
                                   PowerSum(Values(xs), 3), PowerSum(Values(xs), 4))
  {
    if xs != [] {
      var init := xs[..|xs| - 1];
      SummaryIsPowerSums(init);
      match xs[|xs| - 1]
      case None =>
        assert Values(xs) == Values(init);
      case Some(v) =>
        var vs := Values(init);
        assert Values(xs) == vs + [v];
        assert (vs + [v])[..|vs + [v]| - 1] == vs;
        PowSmall(v);
    }
  }

  /** The count field is exactly the number of non-null entries. */
  lemma {:induction false} SummaryCount(xs: seq<Option<real>>)
    ensures Summary(xs).count == |Values(xs)|
  {
    if xs != [] {
      SummaryCount(xs[..|xs| - 1]);
    }
  }

  /** A batch of only nulls contributes nothing. */
  lemma {:induction false} OnlyNullsContributeNothing(xs: seq<Option<real>>)
    requires forall i | 0 <= i < |xs| :: xs[i].None?
    ensures Summary(xs) == Zero
  {
    if xs != [] {
      OnlyNullsContributeNothing(xs[..|xs| - 1]);
    }
  }

  /** Adding a batch of only nulls to any fields leaves them as they were. */
  lemma NullBatchKeepsState(m: Moments, xs: seq<Option<real>>)
    requires forall i | 0 <= i < |xs| :: xs[i].None?
    ensures Plus(m, Summary(xs)) == m
  {
    OnlyNullsContributeNothing(xs);
    PlusZero(m);
  }

  /** A pass that counted nothing accumulated nothing: every sum is zero too. */
  lemma {:induction false} ZeroCountMeansZero(xs: seq<Option<real>>)
    requires Summary(xs).count == 0
    ensures Summary(xs) == Zero
  {
    if xs != [] {
      ZeroCountMeansZero(xs[..|xs| - 1]);
    }
  }
}
