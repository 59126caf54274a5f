/**
 * `predict_with_fallback` (internal_logics/fallback.py, and its identical copy under
 * modelling/): the label of the centroid nearest to the transformed point.
 *
 * Distances are compared squared and exactly: `sqrt` is strictly increasing, so the
 * nearest centroid and the order of ties are those of the Euclidean distances.
 * The preprocessing pipeline is a function parameter.
 */
module Fallback {

  /** `centroids_df`: one row of coordinates per cluster label, in table order. */
  datatype CentroidTable = CentroidTable(labels: seq<int>, rows: seq<seq<real>>)

  /** A table the code can use: one label per row, at least one row, all rows of dimension `dim`. */
  predicate WellFormed(table: CentroidTable, dim: nat) {
    && |table.labels| == |table.rows|
    && |table.rows| > 0
    && (forall k :: 0 <= k < |table.rows| ==> |table.rows[k]| == dim)
  }

  /** Squared Euclidean distance. */
  function SqDist(a: seq<real>, b: seq<real>): (d: real)
    requires |a| == |b|
    ensures d >= 0.0
    ensures a == b ==> d == 0.0
  {
    if a == [] then 0.0
    else (a[0] - b[0]) * (a[0] - b[0]) + SqDist(a[1..], b[1..])
  }

  /** `pairwise_distances(point, rows)` for a single point, squared. */
  function Distances(point: seq<real>, rows: seq<seq<real>>): (ds: seq<real>)
    requires forall k :: 0 <= k < |rows| ==> |rows[k]| == |point|
    ensures |ds| == |rows|
    ensures forall k :: 0 <= k < |rows| ==> ds[k] == SqDist(point, rows[k])
  {
    seq(|rows|, k requires 0 <= k < |rows| => SqDist(point, rows[k]))
  }

  /** `i` holds the smallest value of `ds`, and no earlier position holds it. */
  predicate FirstMinimum(ds: seq<real>, i: nat) {
    && i < |ds|
    && (forall k :: 0 <= k < |ds| ==> ds[i] <= ds[k])
    && (forall k :: 0 <= k < i ==> ds[i] < ds[k])
  }

  /** `np.argmin`: the first position of the minimum. */
  function ArgMin(ds: seq<real>): (i: nat)
    requires |ds| > 0
    ensures FirstMinimum(ds, i)
  {
    if |ds| == 1 then 0
    else
      var k := ArgMin(ds[..|ds| - 1]);
      assert forall j :: 0 <= j < |ds| - 1 ==> ds[..|ds| - 1][j] == ds[j];
      if ds[|ds| - 1] < ds[k] then |ds| - 1 else k
  }

  /** There is one first minimum: `ArgMin` is the only position that qualifies. */
  lemma FirstMinimumUnique(ds: seq<real>, i: nat)
    requires |ds| > 0 && FirstMinimum(ds, i)
    ensures i == ArgMin(ds)
  {
  }

  /**
   * The fallback label: the pipeline turns the new data into one row of the table's
   * dimension, and the label of its nearest centroid is returned, the earliest row
   * winning a tie.
   */
  function PredictWithFallback<D>(newData: D, transform: D -> seq<seq<real>>, table: CentroidTable, dim: nat): (fallbackLabel: int)
    requires WellFormed(table, dim)
    requires |transform(newData)| == 1 && |transform(newData)[0]| == dim
    ensures fallbackLabel in table.labels
    ensures exists i :: 0 <= i < |table.rows| && FirstMinimum(Distances(transform(newData)[0], table.rows), i) && fallbackLabel == table.labels[i]
  {
    var point := transform(newData)[0];
    var distances := Distances(point, table.rows);
    var closest := ArgMin(distances);
    table.labels[closest]
  }

  /** The returned label's centroid is at least as near to the point as every other centroid. */
  lemma FallbackIsNearest<D>(newData: D, transform: D -> seq<seq<real>>, table: CentroidTable, dim: nat, k: nat)
    requires WellFormed(table, dim)
    requires |transform(newData)| == 1 && |transform(newData)[0]| == dim
    requires k < |table.rows|
    ensures exists i :: (
      && 0 <= i < |table.rows|
      && table.labels[i] == PredictWithFallback(newData, transform, table, dim)
      && SqDist(transform(newData)[0], table.rows[i]) <= SqDist(transform(newData)[0], table.rows[k]))
  {
    var ds := Distances(transform(newData)[0], table.rows);
    var i := ArgMin(ds);
    assert ds[i] <= ds[k];
  }

  /** Table {0: [0, 0], 1: [10, 10]} and point [1, 1]: the label is 0. */
  lemma NearerCentroidExample<D>(newData: D, transform: D -> seq<seq<real>>)
    requires transform(newData) == [[1.0, 1.0]]
    ensures PredictWithFallback(newData, transform, CentroidTable([0, 1], [[0.0, 0.0], [10.0, 10.0]]), 2) == 0
  {
    var table := CentroidTable([0, 1], [[0.0, 0.0], [10.0, 10.0]]);
    var ds := Distances([1.0, 1.0], table.rows);
    assert SqDist([1.0, 1.0], [0.0, 0.0]) == 2.0;
    assert SqDist([1.0, 1.0], [10.0, 10.0]) == 162.0;
    FirstMinimumUnique(ds, 0);
  }
}
