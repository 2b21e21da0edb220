/**
 * The streaming mean behind each reported accuracy: a running total and a
 * count that every update adds a batch of values to, read as total / count
 * (0 before anything has been fed).
 */
module StreamingMean {

  /** The sum of a sequence of values (`reduce_sum`, `add_n`). */
  function Sum(s: seq<real>): real {
    if s == [] then 0.0 else s[0] + Sum(s[1..])
  }

  lemma {:induction false} SumAppend(a: seq<real>, b: seq<real>)
    ensures Sum(a + b) == Sum(a) + Sum(b)
  {
    if a == [] {
      assert a + b == b;
    } else {
      assert (a + b)[1..] == a[1..] + b;
      SumAppend(a[1..], b);
    }
  }

  /**
   * The mean of everything fed so far: times the count it gives back the
   * total. The division is safe, so no values read as 0.
   */
  function Mean(s: seq<real>): (mean: real)
    ensures |s| > 0 ==> mean * |s| as real == Sum(s)
    ensures |s| == 0 ==> mean == 0.0
  {
    if |s| == 0 then 0.0 else Sum(s) / |s| as real
  }

  predicate InUnitInterval(s: seq<real>) {
    forall i :: 0 <= i < |s| ==> 0.0 <= s[i] <= 1.0
  }

  predicate AllOnes(s: seq<real>) {
    forall i :: 0 <= i < |s| ==> s[i] == 1.0
  }

  lemma {:induction false} SumBounds(s: seq<real>)
    requires InUnitInterval(s)
    ensures 0.0 <= Sum(s) <= |s| as real
  {
    if s != [] { SumBounds(s[1..]); }
  }

  /** A mean of values in [0, 1] lies in [0, 1]. */
  lemma MeanInUnitInterval(s: seq<real>)
    requires InUnitInterval(s)
    ensures 0.0 <= Mean(s) <= 1.0
  {
    SumBounds(s);
    if |s| > 0 {
      var n := |s| as real;
      assert Sum(s) / n <= n / n;
    }
  }

  lemma {:induction false} SumOfOnes(s: seq<real>)
    requires AllOnes(s)
    ensures Sum(s) == |s| as real
  {
    if s != [] { SumOfOnes(s[1..]); }
  }

  /** A mean of ones, once anything has been fed, reads 1. */
  lemma MeanOfOnes(s: seq<real>)
    ensures AllOnes(s) && |s| > 0 ==> Mean(s) == 1.0
  {
    if AllOnes(s) { SumOfOnes(s); }
  }

  /** The (total, count) state of one `tf.metrics.mean`. */
  class MeanMetric {
    var total: real
    var count: nat
    /** Every value fed so far, in order. */
    ghost var values: seq<real>

    ghost predicate Valid()
      reads this
    {
      total == Sum(values) && count == |values|
    }

    constructor ()
      ensures Valid() && values == []
    {
      total, count := 0.0, 0;
      values := [];
    }

    /** The metric's value tensor: the running mean. */
    function Value(): (mean: real)
      reads this
      requires Valid()
      ensures mean == Mean(values)
    {
      if count == 0 then 0.0 else total / count as real
    }

    /** The update op: adds a batch to the total and its size to the count, and reads the new mean. */
    method Update(batch: seq<real>) returns (mean: real)
      requires Valid()
      modifies this
      ensures Valid()
      ensures values == old(values) + batch
      ensures mean == Mean(values)
    {
      SumAppend(values, batch);
      total := total + Sum(batch);
      count := count + |batch|;
      values := values + batch;
      mean := Value();
    }
  }
}
