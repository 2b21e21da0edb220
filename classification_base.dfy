/**
 * The classification network base: the placeholder shapes, the loss with
 * its optional L2 weight decay, and the top-1/3/5 accuracy metrics.
 *
 * The cross-entropy itself (softmax, log, clipping) is not modelled: the loss
 * receives its batch mean as a value.
 */
module ClassificationBase {
  import opened Wrappers
  import TopK
  import StreamingMean

  // ---------------------------------------------------------------------
  // Placeholders

  type Shape = seq<nat>

  /**
   * The images placeholder: channels last for `"NHWC"`, channels first for
   * any other data format. The labels placeholder is one row per example.
   */
  function Placeholders(batchSize: nat, imageHeight: nat, imageWidth: nat, dataFormat: string, numClasses: nat)
    : (shapes: (Shape, Shape))
    ensures |shapes.0| == 4 && shapes.0[0] == batchSize
    ensures var channelAxis := if dataFormat == "NHWC" then 3 else 1;
      shapes.0[channelAxis] == 3 &&
      shapes.0[if dataFormat == "NHWC" then 1 else 2] == imageHeight &&
      shapes.0[if dataFormat == "NHWC" then 2 else 3] == imageWidth
    ensures shapes.1 == [batchSize, numClasses]
  {
    var images := if dataFormat == "NHWC" then [batchSize, imageHeight, imageWidth, 3]
                  else [batchSize, 3, imageHeight, imageWidth];
    (images, [batchSize, numClasses])
  }

  /** `tf.transpose` of a shape: axis `i` of the result is axis `perm[i]` of the input. */
  function Transpose(shape: Shape, perm: seq<nat>): (r: Shape)
    requires forall i :: 0 <= i < |perm| ==> perm[i] < |shape|
    ensures |r| == |perm|
  {
    seq(|perm|, i requires 0 <= i < |perm| => shape[perm[i]])
  }

  /**
   * The two layouts describe the same images: transposing the channels-first
   * shape with `[0, 2, 3, 1]` (as the image summary does) gives the
   * channels-last shape, and `[0, 3, 1, 2]` goes back.
   */
  lemma LayoutsAreTransposes(batchSize: nat, imageHeight: nat, imageWidth: nat, dataFormat: string, numClasses: nat)
    requires dataFormat != "NHWC"
    ensures var nchw := Placeholders(batchSize, imageHeight, imageWidth, dataFormat, numClasses).0;
      var nhwc := Placeholders(batchSize, imageHeight, imageWidth, "NHWC", numClasses).0;
      Transpose(nchw, [0, 2, 3, 1]) == nhwc && Transpose(nhwc, [0, 3, 1, 2]) == nchw
  {
  }

  // ---------------------------------------------------------------------
  // Weight decay and the loss

  /** A trainable variable: its name and its values. */
  datatype Variable = Variable(name: string, values: seq<real>)

  /** `add_n` of an empty list raises: no trainable variable has "kernel" in its name. */
  datatype LossError = NoKernelVariables

  function SumOfSquares(v: seq<real>): real {
    if v == [] then 0.0 else v[0] * v[0] + SumOfSquares(v[1..])
  }

  /** `tf.nn.l2_loss`: half the sum of squares, never negative. */
  function L2Loss(v: Variable): (loss: real)
    ensures loss >= 0.0
  {
    SumOfSquaresNonNegative(v.values);
    SumOfSquares(v.values) / 2.0
  }

  lemma {:induction false} SumOfSquaresNonNegative(v: seq<real>)
    ensures SumOfSquares(v) >= 0.0
  {
    if v != [] {
      SumOfSquaresNonNegative(v[1..]);
      assert v[0] * v[0] >= 0.0;
    }
  }

  /** Python's `sub in s` on strings. */
  function Contains(s: string, sub: string): bool {
    |sub| <= |s| && (s[..|sub|] == sub || Contains(s[1..], sub))
  }

  /** `sub` occurs in `s` at offset `i`. */
  predicate OccursAt(s: string, sub: string, i: int) {
    0 <= i <= |s| - |sub| && s[i..i + |sub|] == sub
  }

  /** `Contains` holds exactly when `sub` occurs at some offset of `s`. */
  lemma {:induction false} ContainsIffOccurs(s: string, sub: string)
    ensures Contains(s, sub) <==> exists i :: OccursAt(s, sub, i)
  {
    if |sub| <= |s| && s[..|sub|] != sub {
      ContainsIffOccurs(s[1..], sub);
      if Contains(s[1..], sub) {
        var i :| OccursAt(s[1..], sub, i);
        assert s[i + 1..i + 1 + |sub|] == s[1..][i..i + |sub|];
        assert OccursAt(s, sub, i + 1);
      }
      if exists i :: OccursAt(s, sub, i) {
        var i :| OccursAt(s, sub, i);
        assert i != 0;
        assert s[1..][i - 1..i - 1 + |sub|] == s[i..i + |sub|];
        assert OccursAt(s[1..], sub, i - 1);
      }
    } else if |sub| <= |s| {
      assert OccursAt(s, sub, 0);
    }
  }

  /** Only variables named like a kernel are decayed; batch-norm parameters are not. */
  function IsKernel(v: Variable): (kernel: bool)
    ensures kernel <==> exists i :: OccursAt(v.name, "kernel", i)
  {
    ContainsIffOccurs(v.name, "kernel");
    Contains(v.name, "kernel")
  }

  /** The `losses` list: one l2 loss per kernel variable, in order. */
  function KernelLosses(vars: seq<Variable>): seq<real> {
    if vars == [] then []
    else
      var last := vars[|vars| - 1];
      KernelLosses(vars[..|vars| - 1]) + (if IsKernel(last) then [L2Loss(last)] else [])
  }

  lemma {:induction false} KernelLossesAppend(a: seq<Variable>, b: seq<Variable>)
    ensures KernelLosses(a + b) == KernelLosses(a) + KernelLosses(b)
  {
    if b != [] {
      var front := b[..|b| - 1];
      assert (a + b)[..|a + b| - 1] == a + front;
      KernelLossesAppend(a, front);
    } else {
      assert a + b == a;
    }
  }

  /**
   * What `_weight_decay_loss` returns: the summed kernel l2 losses times the
   * rate; it fails exactly when no variable is a kernel.
   */
  function WeightDecay(vars: seq<Variable>, rate: real): (r: Result<real, LossError>)
    ensures r.Failure? <==> forall i :: 0 <= i < |vars| ==> !IsKernel(vars[i])
  {
    KernelLossesEmptyIff(vars);
    if KernelLosses(vars) == [] then Failure(NoKernelVariables)
    else Success(StreamingMean.Sum(KernelLosses(vars)) * rate)
  }

  /** `_weight_decay_loss`: collects the kernel variables' l2 losses in a loop, then adds them up. */
  method WeightDecayLoss(vars: seq<Variable>, rate: real) returns (r: Result<real, LossError>)
    ensures r == WeightDecay(vars, rate)
  {
    var losses: seq<real> := [];
    for i := 0 to |vars|
      invariant losses == KernelLosses(vars[..i])
    {
      assert vars[..i + 1][..i] == vars[..i];
      if IsKernel(vars[i]) {
        losses := losses + [L2Loss(vars[i])];
      }
    }
    assert vars[..|vars|] == vars;
    assert losses == KernelLosses(vars);
    if losses == [] {
      r := Failure(NoKernelVariables);
    } else {
      r := Success(StreamingMean.Sum(losses) * rate);
      assert WeightDecay(vars, rate).value == r.value;
    }
  }

  lemma {:induction false} KernelLossesEmptyIff(vars: seq<Variable>)
    ensures KernelLosses(vars) == [] <==> forall i :: 0 <= i < |vars| ==> !IsKernel(vars[i])
  {
    if vars != [] {
      var front := vars[..|vars| - 1];
      KernelLossesEmptyIff(front);
      assert forall i :: 0 <= i < |front| ==> front[i] == vars[i];
    }
  }

  /** Adding variables that are not kernels changes nothing in the decay term. */
  lemma NonKernelVariablesIgnored(vars: seq<Variable>, others: seq<Variable>, rate: real)
    requires forall i :: 0 <= i < |others| ==> !IsKernel(others[i])
    ensures WeightDecay(vars + others, rate) == WeightDecay(vars, rate)
  {
    KernelLossesAppend(vars, others);
    NoKernelLosses(others);
    assert KernelLosses(vars + others) == KernelLosses(vars);
    if KernelLosses(vars) != [] {
      assert WeightDecay(vars + others, rate).value == WeightDecay(vars, rate).value;
    }
  }

  lemma {:induction false} NoKernelLosses(vars: seq<Variable>)
    requires forall i :: 0 <= i < |vars| ==> !IsKernel(vars[i])
    ensures KernelLosses(vars) == []
  {
    if vars != [] { NoKernelLosses(vars[..|vars| - 1]); }
  }

  lemma {:induction false} KernelLossesNonNegative(vars: seq<Variable>)
    ensures StreamingMean.Sum(KernelLosses(vars)) >= 0.0
  {
    if vars != [] {
      var front, last := vars[..|vars| - 1], vars[|vars| - 1];
      KernelLossesNonNegative(front);
      StreamingMean.SumAppend(KernelLosses(front), if IsKernel(last) then [L2Loss(last)] else []);
    }
  }

  /** The decay term scales linearly with the rate, and a non-negative rate gives a non-negative term. */
  lemma WeightDecayNonNegativeAndLinear(vars: seq<Variable>, rate: real, factor: real)
    ensures rate >= 0.0 && WeightDecay(vars, rate).Success? ==> WeightDecay(vars, rate).value >= 0.0
    ensures WeightDecay(vars, rate).Success? ==>
      WeightDecay(vars, factor * rate).value == factor * WeightDecay(vars, rate).value
  {
    KernelLossesNonNegative(vars);
    var s := StreamingMean.Sum(KernelLosses(vars));
    assert rate >= 0.0 ==> s * rate >= 0.0;
    assert s * (factor * rate) == factor * (s * rate);
  }

  /** `if self.weight_decay_rate:` is false for the falsy values None and 0, true for any other rate. */
  function DecayEnabled(rate: Option<real>): (enabled: bool)
    ensures enabled <==> rate !in {None, Some(0.0)}
  {
    rate.Some? && rate.value != 0.0
  }

  /**
   * The loss: the cross-entropy mean alone when decay is off; otherwise that
   * mean plus the decay term, or the decay term's error.
   */
  method Loss(crossEntropyMean: real, weightDecayRate: Option<real>, vars: seq<Variable>)
    returns (loss: Result<real, LossError>)
    ensures !DecayEnabled(weightDecayRate) ==> loss == Success(crossEntropyMean)
    ensures DecayEnabled(weightDecayRate) ==>
      var decay := WeightDecay(vars, weightDecayRate.value);
      loss == if decay.Success? then Success(crossEntropyMean + decay.value) else Failure(decay.error)
  {
    loss := Success(crossEntropyMean);
    if DecayEnabled(weightDecayRate) {
      var decay := WeightDecayLoss(vars, weightDecayRate.value);
      if decay.Failure? {
        return Failure(decay.error);
      }
      loss := Success(loss.value + decay.value);
    }
  }

  // ---------------------------------------------------------------------
  // Metrics

  /** `argmax` of a one-hot label row: the first true entry, or 0 when there is none. */
  function ArgmaxLabel(row: seq<bool>): (c: nat)
    requires |row| >= 1
    ensures c < |row|
    ensures true in row ==> row[c] && forall j :: 0 <= j < c ==> !row[j]
    ensures true !in row ==> c == 0
  {
    if row[0] || |row| == 1 then 0
    else if true in row[1..] then
      var c := ArgmaxLabel(row[1..]);
      assert forall j :: 1 <= j < c + 1 ==> row[j] == row[1..][j - 1];
      1 + c
    else 0
  }

  /** The batch's softmax rows and label rows all have `numClasses` entries. */
  predicate WellShaped(softmax: seq<seq<real>>, labels: seq<seq<bool>>, numClasses: nat) {
    numClasses >= 1 && |softmax| == |labels| &&
    (forall i :: 0 <= i < |softmax| ==> |softmax[i]| == numClasses) &&
    (forall i :: 0 <= i < |labels| ==> |labels[i]| == numClasses)
  }

  /** `calc_top_k`: one tie-aware top-k value per example, each in [0, 1]. */
  function CalcTopK(softmax: seq<seq<real>>, labels: seq<seq<bool>>, numClasses: nat, k: nat)
    : (values: seq<real>)
    requires WellShaped(softmax, labels, numClasses) && 1 <= k <= numClasses
    ensures |values| == |softmax|
    ensures StreamingMean.InUnitInterval(values)
    ensures forall i :: 0 <= i < |values| ==>
      values[i] == TopK.TopKValue(softmax[i], ArgmaxLabel(labels[i]), k)
  {
    if softmax == [] then []
    else
      var v := TopK.TopKValue(softmax[0], ArgmaxLabel(labels[0]), k);
      [v] + CalcTopK(softmax[1..], labels[1..], numClasses, k)
  }

  function Ones(n: nat): (r: seq<real>)
    ensures |r| == n && StreamingMean.AllOnes(r)
  {
    seq(n, _ => 1.0)
  }

  /** The values fed to the top-k metric: `calc_top_k` when there are more than k classes, ones otherwise. */
  function TopKOrOnes(softmax: seq<seq<real>>, labels: seq<seq<bool>>, numClasses: nat, k: nat)
    : (values: seq<real>)
    requires WellShaped(softmax, labels, numClasses) && 1 <= k
    ensures |values| == |labels|
    ensures StreamingMean.InUnitInterval(values)
    ensures numClasses <= k ==> StreamingMean.AllOnes(values)
    ensures numClasses > k ==> values == CalcTopK(softmax, labels, numClasses, k)
  {
    if numClasses > k then CalcTopK(softmax, labels, numClasses, k) else Ones(|labels|)
  }

  /** The three accuracy metrics of a classifier with `numClasses` classes. */
  class Metrics {
    const numClasses: nat
    const accuracy: StreamingMean.MeanMetric
    const accuracyTop3: StreamingMean.MeanMetric
    const accuracyTop5: StreamingMean.MeanMetric

    /**
     * Every value fed lies in [0, 1], and with too few classes the top-3 or
     * top-5 metric has only ever been fed ones.
     */
    ghost predicate Valid()
      reads this, accuracy, accuracyTop3, accuracyTop5
    {
      numClasses >= 1 &&
      accuracy != accuracyTop3 && accuracy != accuracyTop5 && accuracyTop3 != accuracyTop5 &&
      accuracy.Valid() && accuracyTop3.Valid() && accuracyTop5.Valid() &&
      StreamingMean.InUnitInterval(accuracy.values) &&
      StreamingMean.InUnitInterval(accuracyTop3.values) &&
      StreamingMean.InUnitInterval(accuracyTop5.values) &&
      (numClasses <= 3 ==> StreamingMean.AllOnes(accuracyTop3.values)) &&
      (numClasses <= 5 ==> StreamingMean.AllOnes(accuracyTop5.values))
    }

    constructor (numClasses: nat)
      requires numClasses >= 1
      ensures Valid() && this.numClasses == numClasses
      ensures fresh(accuracy) && fresh(accuracyTop3) && fresh(accuracyTop5)
      ensures accuracy.values == [] && accuracyTop3.values == [] && accuracyTop5.values == []
    {
      this.numClasses := numClasses;
      accuracy := new StreamingMean.MeanMetric();
      accuracyTop3 := new StreamingMean.MeanMetric();
      accuracyTop5 := new StreamingMean.MeanMetric();
    }

    /** The grouped update op: feeds one batch to all three metrics and reads their new means. */
    method Update(softmax: seq<seq<real>>, labels: seq<seq<bool>>) returns (top1: real, top3: real, top5: real)
      requires Valid() && WellShaped(softmax, labels, numClasses)
      modifies accuracy, accuracyTop3, accuracyTop5
      ensures Valid()
      ensures accuracy.values == old(accuracy.values) + CalcTopK(softmax, labels, numClasses, 1)
      ensures accuracyTop3.values == old(accuracyTop3.values) + TopKOrOnes(softmax, labels, numClasses, 3)
      ensures accuracyTop5.values == old(accuracyTop5.values) + TopKOrOnes(softmax, labels, numClasses, 5)
      ensures top1 == StreamingMean.Mean(accuracy.values)
      ensures top3 == StreamingMean.Mean(accuracyTop3.values)
      ensures top5 == StreamingMean.Mean(accuracyTop5.values)
    {
      top1 := accuracy.Update(CalcTopK(softmax, labels, numClasses, 1));
      top3 := accuracyTop3.Update(TopKOrOnes(softmax, labels, numClasses, 3));
      top5 := accuracyTop5.Update(TopKOrOnes(softmax, labels, numClasses, 5));
    }

    /**
     * The reported accuracies: each a running mean in [0, 1]; the top-3
     * (top-5) one reads 1 once fed when there are at most 3 (5) classes.
     */
    function Report(): (r: (real, real, real))
      reads this, accuracy, accuracyTop3, accuracyTop5
      requires Valid()
      ensures r == (StreamingMean.Mean(accuracy.values),
                    StreamingMean.Mean(accuracyTop3.values),
                    StreamingMean.Mean(accuracyTop5.values))
      ensures 0.0 <= r.0 <= 1.0 && 0.0 <= r.1 <= 1.0 && 0.0 <= r.2 <= 1.0
      ensures numClasses <= 3 && accuracyTop3.count > 0 ==> r.1 == 1.0
      ensures numClasses <= 5 && accuracyTop5.count > 0 ==> r.2 == 1.0
    {
      StreamingMean.MeanInUnitInterval(accuracy.values);
      StreamingMean.MeanInUnitInterval(accuracyTop3.values);
      StreamingMean.MeanInUnitInterval(accuracyTop5.values);
      StreamingMean.MeanOfOnes(accuracyTop3.values);
      StreamingMean.MeanOfOnes(accuracyTop5.values);
      (accuracy.Value(), accuracyTop3.Value(), accuracyTop5.Value())
    }
  }
}
