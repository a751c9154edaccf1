/**
 * Opaque stand-ins for the scikit-learn pieces the core calls. Their
 * algorithms (scaler arithmetic, tree building, voting, shuffling, metrics)
 * are not modelled: a fitted estimator is a value holding the functions it
 * computes, and fitting is a function supplied by the caller in a Toolkit.
 */
module Sklearn {
  import opened Frames

  type Vector = seq<real>
  type Matrix = seq<Vector>

  /** A fitted MinMaxScaler or StandardScaler: its per-row transform. */
  datatype Scaler = Scaler(transform: Vector -> Vector)

  /** A fitted RandomForestClassifier over labels of type L. */
  datatype Classifier<L> = Classifier(predict: Vector -> L, proba: Vector -> seq<real>)

  /** Constructor arguments of RandomForestClassifier that the core sets. */
  datatype ForestParams = ForestParams(nEstimators: nat, maxDepth: nat, randomState: int, nJobs: int)

  /** The `test_size` and `random_state` arguments of train_test_split. */
  datatype SplitParams = SplitParams(testSize: real, randomState: int)

  /** Row positions chosen for the training and the test part. */
  datatype SplitIndices = SplitIndices(train: seq<nat>, test: seq<nat>)

  datatype Toolkit<!L> = Toolkit(
    split: (nat, SplitParams) -> SplitIndices,
    fitMinMax: Matrix -> Scaler,
    fitStandard: Matrix -> Scaler,
    fitForest: (ForestParams, Matrix, seq<L>) -> Classifier<L>,
    accuracy: (seq<L>, seq<L>) -> real)
  {
    /** train_test_split only ever returns positions of the rows it was given. */
    ghost predicate SplitsInRange() {
      forall n: nat, p: SplitParams :: IndicesBelow(split(n, p).train, n) && IndicesBelow(split(n, p).test, n)
    }
  }

  /**
   * A forest fitted on a non-empty list of labels only ever predicts one of
   * them: its classes are the distinct training labels.
   */
  ghost predicate PredictsSeenLabels<L(!new)>(lib: Toolkit<L>) {
    forall p: ForestParams, x: Matrix, y: seq<L> :: |y| > 0 ==> PredictsOnly(lib.fitForest(p, x, y), y)
  }

  /** Every prediction of `m` is one of `labels`. */
  ghost predicate PredictsOnly<L>(m: Classifier<L>, labels: seq<L>) {
    forall v: Vector :: m.predict(v) in labels
  }

  /** `scaler.transform(X)`: the transform applied to each row in turn. */
  function Transform(s: Scaler, x: Matrix): (r: Matrix)
    ensures |r| == |x|
    ensures forall i :: 0 <= i < |x| ==> r[i] == s.transform(x[i])
  {
    seq(|x|, i requires 0 <= i < |x| => s.transform(x[i]))
  }

  /** `model.predict(X)`: one predicted label per row. */
  function PredictAll<L>(m: Classifier<L>, x: Matrix): (r: seq<L>)
    ensures |r| == |x|
    ensures forall i :: 0 <= i < |x| ==> r[i] == m.predict(x[i])
  {
    seq(|x|, i requires 0 <= i < |x| => m.predict(x[i]))
  }
}
