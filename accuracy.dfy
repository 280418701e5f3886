/**
 * `compute_accuracy`: the share of pairs whose thresholded predicted distance
 * agrees with the ground-truth label. A distance below the fixed threshold
 * 0.5 predicts "same digit"; numpy compares that boolean prediction with the
 * integer label, `True` equal to `1` and `False` equal to `0`, and the mean of
 * those comparisons is the accuracy.
 */
module Accuracy {

  /** The mean of no values is not a number; `None` stands for that NaN. */
  datatype Option<T> = None | Some(value: T)

  /** Distances strictly below this predict "same digit". */
  const Threshold: real := 0.5

  /** The prediction for one pair agrees with its label (`pred == y_true` for one element). */
  predicate Matches(truth: int, distance: real) {
    if distance < Threshold then truth == 1 else truth == 0
  }

  /** Every label is a pair label, `0` or `1`. */
  predicate BinaryLabels(yTrue: seq<int>) {
    forall k :: 0 <= k < |yTrue| ==> yTrue[k] == 0 || yTrue[k] == 1
  }

  /**
   * The number of pairs whose prediction agrees with the label: at most the
   * number of pairs, all of them exactly when every prediction agrees, none
   * exactly when every prediction disagrees.
   */
  function CountMatches(yTrue: seq<int>, yPred: seq<real>): (c: nat)
    requires |yTrue| == |yPred|
    ensures c <= |yTrue|
    ensures c == |yTrue| <==> forall k :: 0 <= k < |yTrue| ==> Matches(yTrue[k], yPred[k])
    ensures c == 0 <==> forall k :: 0 <= k < |yTrue| ==> !Matches(yTrue[k], yPred[k])
  {
    if |yTrue| == 0 then 0
    else
      var rest := CountMatches(yTrue[1..], yPred[1..]);
      assert forall k :: 1 <= k < |yTrue| ==> yTrue[1..][k - 1] == yTrue[k] && yPred[1..][k - 1] == yPred[k];
      (if Matches(yTrue[0], yPred[0]) then 1 else 0) + rest
  }

  /**
   * `compute_accuracy(y_true, y_pred)` over the flattened predictions: NaN for
   * no pairs, otherwise the fraction of agreeing pairs, a value in `[0, 1]`.
   */
  function ComputeAccuracy(yTrue: seq<int>, yPred: seq<real>): (acc: Option<real>)
    requires |yTrue| == |yPred|
    ensures acc.None? <==> |yTrue| == 0
    ensures acc.Some? ==> 0.0 <= acc.value <= 1.0
    ensures acc.Some? ==> acc.value == (CountMatches(yTrue, yPred) as real) / (|yTrue| as real)
  {
    if |yTrue| == 0 then None
    else
      var c := CountMatches(yTrue, yPred);
      FractionInUnit(c, |yTrue|);
      Some((c as real) / (|yTrue| as real))
  }

  /** `c / n` for `c <= n` lies in `[0, 1]`. */
  lemma FractionInUnit(c: nat, n: nat)
    requires 0 < n && c <= n
    ensures 0.0 <= (c as real) / (n as real) <= 1.0
  {
  }

  /**
   * The accuracy is 1 exactly when every label-1 distance is below 0.5 and
   * every label-0 distance is at least 0.5 (and so every label is 0 or 1).
   */
  lemma PerfectAccuracy(yTrue: seq<int>, yPred: seq<real>)
    requires |yTrue| == |yPred| && |yTrue| > 0
    ensures ComputeAccuracy(yTrue, yPred) == Some(1.0) <==>
      forall k :: 0 <= k < |yTrue| ==>
        (yTrue[k] == 1 && yPred[k] < 0.5) || (yTrue[k] == 0 && yPred[k] >= 0.5)
  {
    var n := |yTrue| as real;
    var c := CountMatches(yTrue, yPred);
    assert ComputeAccuracy(yTrue, yPred) == Some(1.0) <==> c == |yTrue| by {
      if c == |yTrue| {
        assert (c as real) / n == n / n == 1.0;
      }
    }
  }

  /**
   * For pair labels, the accuracy is 0 exactly in the fully inverted case:
   * every label-1 distance is at least 0.5 and every label-0 distance is
   * below 0.5.
   */
  lemma ZeroAccuracy(yTrue: seq<int>, yPred: seq<real>)
    requires |yTrue| == |yPred| && |yTrue| > 0
    requires BinaryLabels(yTrue)
    ensures ComputeAccuracy(yTrue, yPred) == Some(0.0) <==>
      forall k :: 0 <= k < |yTrue| ==>
        (yTrue[k] == 1 && yPred[k] >= 0.5) || (yTrue[k] == 0 && yPred[k] < 0.5)
  {
    var c := CountMatches(yTrue, yPred);
    assert ComputeAccuracy(yTrue, yPred) == Some(0.0) <==> c == 0;
  }
}
