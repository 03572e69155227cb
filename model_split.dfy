/** The train/validation split used before fitting: a prefix of the rows
    for training and the rest for validation, cut at the same index in
    the features and the labels. */
module ModelSplit {
  import opened Wrappers

  /** Python's `int(x)` on a float: truncation toward zero. */
  function Trunc(x: real): (t: int)
    ensures x >= 0.0 ==> t as real <= x < t as real + 1.0
    ensures x < 0.0 ==> t as real - 1.0 < x <= t as real
  {
    if x >= 0.0 then x.Floor else -((-x).Floor)
  }

  /** The four parts `X[:split], y[:split], X[split:], y[split:]`. */
  datatype Split<T, U> = Split(xTrain: seq<T>, yTrain: seq<U>, xVal: seq<T>, yVal: seq<U>)

  /** The cut index `int(len(X) * ratio)`. */
  function SplitIndex(n: nat, ratio: real): int
  {
    Trunc(n as real * ratio)
  }

  /** `_train_val_split`. */
  function TrainValSplit<T, U>(x: seq<T>, y: seq<U>, ratio: real): (r: Split<T, U>)
    ensures r.xTrain + r.xVal == x && r.yTrain + r.yVal == y
  {
    var split := SplitIndex(|x|, ratio);
    TakeDropConcat(x, split);
    TakeDropConcat(y, split);
    Split(PyTake(x, split), PyTake(y, split), PyDrop(x, split), PyDrop(y, split))
  }

  /** Features and labels of equal length are cut at the same place, so
      the training parts and the validation parts pair up. */
  lemma PairedLengthsAgree<T, U>(x: seq<T>, y: seq<U>, ratio: real)
    requires |x| == |y|
    ensures var r := TrainValSplit(x, y, ratio);
      |r.xTrain| == |r.yTrain| && |r.xVal| == |r.yVal|
  {
  }

  /** With a ratio in [0, 1] the training part has `floor(n * ratio)`
      rows, between none and all of them. */
  lemma TrainLength<T, U>(x: seq<T>, y: seq<U>, ratio: real)
    requires 0.0 <= ratio <= 1.0
    ensures var r := TrainValSplit(x, y, ratio);
      |r.xTrain| == (|x| as real * ratio).Floor && 0 <= |r.xTrain| <= |x|
  {
    var n := |x| as real;
    assert 0.0 <= n * ratio <= n;
  }

  /** A negative or over-large ratio follows Python's slicing: a cut
      past the end keeps every row for training; a negative ratio cuts
      at or before zero, and a cut below zero counts from the end. */
  lemma OutOfRangeRatio<T, U>(x: seq<T>, y: seq<U>, ratio: real)
    ensures var r := TrainValSplit(x, y, ratio);
      var split := SplitIndex(|x|, ratio);
      && (ratio >= 1.0 ==> r.xTrain == x && r.xVal == [])
      && (ratio < 0.0 ==> split <= 0)
      && (split == 0 ==> r.xTrain == [] && r.xVal == x)
      && (split < 0 ==> |r.xTrain| == if |x| + split < 0 then 0 else |x| + split)
  {
    var n := |x| as real;
    if ratio >= 1.0 {
      assert n * ratio >= n;
    } else if ratio < 0.0 {
      assert n * ratio <= 0.0;
    }
  }
}
