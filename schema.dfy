/**
 * The fixed input schema of the prediction endpoint (app.py, lines 36-42):
 * eighteen feature names in the order the classifier was fitted on, four of
 * which are categorical and go through the encoder.
 */
module Schema {

  /** FEATURE_NAMES, in the order every request is validated and assembled. */
  const FeatureNames: seq<string> :=
    ["X1", "X2", "X3", "X4", "X5", "X6", "X7", "X8", "X9", "X10",
     "X11", "X12", "X13", "X14", "X15", "X16", "X17", "X18"]

  /** CATEGORICAL_FEATURES: the names whose raw values are encoded instead of used as numbers. */
  const CategoricalFeatures: seq<string> := ["X2", "X9", "X10", "X15"]

  predicate IsCategorical(name: string) {
    name in CategoricalFeatures
  }

  /**
   * The positions below n of FeatureNames whose name is categorical (when
   * `categorical` holds) or not, in increasing order: exactly the positions
   * the partition loop visits in one branch or the other.
   */
  function IndicesBelow(n: nat, categorical: bool): (r: seq<nat>)
    requires n <= |FeatureNames|
    ensures forall k :: 0 <= k < |r| ==> r[k] < n && IsCategorical(FeatureNames[r[k]]) == categorical
    ensures forall k, l :: 0 <= k < l < |r| ==> r[k] < r[l]
  {
    if n == 0 then []
    else if IsCategorical(FeatureNames[n - 1]) == categorical then IndicesBelow(n - 1, categorical) + [n - 1]
    else IndicesBelow(n - 1, categorical)
  }

  /** No position of the right kind is left out. */
  lemma {:induction false} IndicesBelowComplete(n: nat, categorical: bool)
    requires n <= |FeatureNames|
    ensures forall i :: 0 <= i < n && IsCategorical(FeatureNames[i]) == categorical ==> i in IndicesBelow(n, categorical)
  {
    if n > 0 {
      IndicesBelowComplete(n - 1, categorical);
    }
  }

  /** The positions of the categorical features within FeatureNames. */
  function CategoricalIndices(): seq<nat> {
    IndicesBelow(|FeatureNames|, true)
  }

  /** The positions of the numeric (non-categorical) features within FeatureNames. */
  function NumericIndices(): seq<nat> {
    IndicesBelow(|FeatureNames|, false)
  }

  /** Every position below n lands in exactly one of the two index lists. */
  lemma {:induction false} IndicesPartition(n: nat)
    requires n <= |FeatureNames|
    ensures |IndicesBelow(n, true)| + |IndicesBelow(n, false)| == n
  {
    if n > 0 {
      IndicesPartition(n - 1);
    }
  }

  // Proof helpers: CategoricalPosition and PositionIndices restate IsCategorical
  // and IndicesBelow on positions alone, so that the value of the categorical
  // positions can be computed without comparing strings.

  /** Whether a position of FeatureNames holds a categorical name, written out as arithmetic. */
  predicate CategoricalPosition(i: nat) {
    i == 1 || i == 8 || i == 9 || i == 14
  }

  lemma CategoricalPositionAgrees()
    ensures forall i :: 0 <= i < |FeatureNames| ==> IsCategorical(FeatureNames[i]) == CategoricalPosition(i)
  {
  }

  /** IndicesBelow, computed from the positions instead of from the names. */
  function PositionIndices(n: nat, categorical: bool): seq<nat> {
    if n == 0 then []
    else if CategoricalPosition(n - 1) == categorical then PositionIndices(n - 1, categorical) + [n - 1]
    else PositionIndices(n - 1, categorical)
  }

  lemma {:induction false} IndicesFromPositions(n: nat, categorical: bool)
    requires n <= |FeatureNames|
    ensures IndicesBelow(n, categorical) == PositionIndices(n, categorical)
  {
    CategoricalPositionAgrees();
    if n > 0 {
      IndicesFromPositions(n - 1, categorical);
    }
  }

  /** The categorical positions below 9, one prefix at a time. */
  lemma CategoricalPositionsBelowNine()
    ensures PositionIndices(9, true) == [1, 8]
  {
    assert PositionIndices(1, true) == [];
    assert PositionIndices(2, true) == [1];
    assert PositionIndices(4, true) == [1];
    assert PositionIndices(6, true) == [1];
    assert PositionIndices(8, true) == [1];
  }

  /** All categorical positions, continuing from 9. */
  lemma CategoricalPositionsValue()
    ensures PositionIndices(18, true) == [1, 8, 9, 14]
  {
    CategoricalPositionsBelowNine();
    assert PositionIndices(10, true) == [1, 8, 9];
    assert PositionIndices(12, true) == [1, 8, 9];
    assert PositionIndices(14, true) == [1, 8, 9];
    assert PositionIndices(15, true) == [1, 8, 9, 14];
    assert PositionIndices(17, true) == [1, 8, 9, 14];
  }

  /** The categorical positions are 1, 8, 9 and 14. */
  lemma CategoricalIndicesValue()
    ensures CategoricalIndices() == [1, 8, 9, 14]
  {
    IndicesFromPositions(|FeatureNames|, true);
    CategoricalPositionsValue();
  }

  /** The categorical positions name exactly CATEGORICAL_FEATURES, in the same order. */
  lemma CategoricalIndicesNameFeatures()
    ensures |CategoricalIndices()| == |CategoricalFeatures|
    ensures forall k :: 0 <= k < |CategoricalFeatures| ==> FeatureNames[CategoricalIndices()[k]] == CategoricalFeatures[k]
  {
    CategoricalIndicesValue();
    var idx := CategoricalIndices();
    assert FeatureNames[idx[0]] == "X2";
    assert FeatureNames[idx[1]] == "X9";
    assert FeatureNames[idx[2]] == "X10";
    assert FeatureNames[idx[3]] == "X15";
  }

  /** One step of IndicesBelow: position n is appended to the list its name belongs to. */
  lemma IndicesStep(n: nat, categorical: bool)
    requires n < |FeatureNames|
    ensures IndicesBelow(n + 1, categorical) ==
      if IsCategorical(FeatureNames[n]) == categorical then IndicesBelow(n, categorical) + [n] else IndicesBelow(n, categorical)
  {
  }

  /** Four names are categorical and the other fourteen numeric. */
  lemma FeatureCounts()
    ensures |CategoricalIndices()| == 4
    ensures |NumericIndices()| == 14
  {
    CategoricalIndicesValue();
    IndicesPartition(|FeatureNames|);
  }

  /** Feature names are unique, so "the position of a name" is well defined. */
  lemma FeatureNamesUnique()
    ensures forall i, j :: 0 <= i < j < |FeatureNames| ==> FeatureNames[i] != FeatureNames[j]
  {
  }
}
