/**
 * `SimplifiedFrequencyMapper` (internal_logics/freq_mapper.py, and its identical copy
 * under modelling/): `fit` learns, per column, the values that occur at least
 * `threshold` times; `transform` keeps those and replaces every other value by the
 * string `str(threshold)`.
 */
module FrequencyMapper {
  import opened Frames

  /** The constructor's default threshold. */
  const DefaultThreshold := 40

  /** `category_counts[category_counts >= threshold].index` of one column. */
  function CommonValues(values: seq<Cell>, threshold: int): (common: set<Cell>)
    ensures forall v :: v in common ==> v in values
  {
    set v | v in values && multiset(values)[v] >= threshold
  }

  /** The learnt categories after `fit(X)` starting from `m`; entries of other labels stay. */
  function LearnCommon(X: Frame<Cell>, m: map<string, set<Cell>>, threshold: int): (r: map<string, set<Cell>>)
    ensures forall name :: name in r <==> name in m || exists i :: 0 <= i < |X| && X[i].name == name
    ensures forall name :: name in m && (forall i :: 0 <= i < |X| ==> X[i].name != name) ==> r[name] == m[name]
  {
    if X == [] then m
    else
      var last := X[|X| - 1];
      var r := LearnCommon(X[..|X| - 1], m, threshold)[last.name := CommonValues(last.values, threshold)];
      assert forall i :: 0 <= i < |X| - 1 ==> X[..|X| - 1][i] == X[i];
      r
  }

  /** With distinct labels, a column's learnt set is exactly its values seen `threshold` times or more. */
  lemma {:induction false} LearnCommonLookup(X: Frame<Cell>, m: map<string, set<Cell>>, threshold: int, i: nat)
    requires DistinctNames(X) && i < |X|
    ensures X[i].name in LearnCommon(X, m, threshold)
    ensures forall v :: v in LearnCommon(X, m, threshold)[X[i].name] <==>
      v in X[i].values && multiset(X[i].values)[v] >= threshold
  {
    if i < |X| - 1 {
      var init := X[..|X| - 1];
      assert init[i] == X[i];
      assert DistinctNames(init);
      LearnCommonLookup(init, m, threshold, i);
    }
  }

  /** The value a rare category is replaced by: `str(threshold)`. */
  function RareValue(threshold: int): Cell {
    Str(IntToDecimal(threshold))
  }

  /** One value through `transform`: kept when common, `str(threshold)` otherwise. */
  function MapRare(common: set<Cell>, threshold: int, v: Cell): (r: Cell)
    ensures r in common || r == RareValue(threshold)
    ensures r == v <==> v in common || v == RareValue(threshold)
  {
    if v in common then v else RareValue(threshold)
  }

  /** `transform` of a whole frame with the learnt table `cc`. */
  function MapFrame(cc: map<string, set<Cell>>, threshold: int, X: Frame<Cell>): (Y: Frame<Cell>)
    requires forall i :: 0 <= i < |X| ==> X[i].name in cc
    ensures SameShape(X, Y)
    ensures forall i, j :: 0 <= i < |X| && 0 <= j < |X[i].values| ==>
      Y[i].values[j] == MapRare(cc[X[i].name], threshold, X[i].values[j])
  {
    seq(|X|, i requires 0 <= i < |X| =>
      Column(X[i].name, seq(|X[i].values|, j requires 0 <= j < |X[i].values| =>
        MapRare(cc[X[i].name], threshold, X[i].values[j]))))
  }

  /** Every output value is a learnt category of its column or `str(threshold)`. */
  lemma MapFrameRange(cc: map<string, set<Cell>>, threshold: int, X: Frame<Cell>, i: nat, j: nat)
    requires forall k :: 0 <= k < |X| ==> X[k].name in cc
    requires i < |X| && j < |X[i].values|
    ensures MapFrame(cc, threshold, X)[i].values[j] in cc[X[i].name] + {RareValue(threshold)}
  {
  }

  /** `transform` is idempotent: a second pass changes nothing. */
  lemma MapFrameIdempotent(cc: map<string, set<Cell>>, threshold: int, X: Frame<Cell>)
    requires forall i :: 0 <= i < |X| ==> X[i].name in cc
    ensures MapFrame(cc, threshold, MapFrame(cc, threshold, X)) == MapFrame(cc, threshold, X)
  {
    var Y := MapFrame(cc, threshold, X);
    var Z := MapFrame(cc, threshold, Y);
    forall i | 0 <= i < |Y| ensures Z[i] == Y[i] {
      assert Z[i].values == Y[i].values;
    }
  }

  /** Fit, then transform the same frame: a value is kept exactly when it occurs `threshold` times or more. */
  lemma FitThenMap(X: Frame<Cell>, m: map<string, set<Cell>>, threshold: int, i: nat, j: nat)
    requires DistinctNames(X) && i < |X| && j < |X[i].values|
    ensures forall k :: 0 <= k < |X| ==> X[k].name in LearnCommon(X, m, threshold)
    ensures var v := X[i].values[j];
      MapFrame(LearnCommon(X, m, threshold), threshold, X)[i].values[j] ==
        if multiset(X[i].values)[v] >= threshold then v else RareValue(threshold)
  {
    forall k | 0 <= k < |X| ensures X[k].name in LearnCommon(X, m, threshold) {
      LearnCommonLookup(X, m, threshold, k);
    }
    LearnCommonLookup(X, m, threshold, i);
  }

  class SimplifiedFrequencyMapper {
    var threshold: int
    /** Column label to the values learnt as common for it. */
    var commonCategories: map<string, set<Cell>>

    constructor (threshold: int)
      ensures this.threshold == threshold && commonCategories == map[]
    {
      this.threshold := threshold;
      commonCategories := map[];
    }

    /** `SimplifiedFrequencyMapper()` with the default threshold. */
    constructor WithDefaultThreshold()
      ensures threshold == DefaultThreshold && commonCategories == map[]
    {
      threshold := DefaultThreshold;
      commonCategories := map[];
    }

    /** `fit`: learns the common values of every column. */
    method Fit(X: Frame<Cell>)
      requires DistinctNames(X)
      modifies this
      ensures threshold == old(threshold)
      ensures commonCategories == LearnCommon(X, old(commonCategories), threshold)
    {
      var i := 0;
      while i < |X|
        invariant 0 <= i <= |X|
        invariant threshold == old(threshold)
        invariant commonCategories == LearnCommon(X[..i], old(commonCategories), threshold)
      {
        commonCategories := commonCategories[X[i].name := CommonValues(X[i].values, threshold)];
        assert X[..i + 1][..i] == X[..i];
        i := i + 1;
      }
      assert X[..|X|] == X;
    }

    /** `transform`: a new frame, each value kept or replaced; the input is left as it was. */
    method Transform(X: Frame<Cell>) returns (Y: Frame<Cell>)
      requires DistinctNames(X)
      requires forall i :: 0 <= i < |X| ==> X[i].name in commonCategories
      ensures Y == MapFrame(commonCategories, threshold, X)
    {
      Y := [];
      var i := 0;
      while i < |X|
        invariant 0 <= i <= |X|
        invariant Y == MapFrame(commonCategories, threshold, X[..i])
      {
        var learned := commonCategories[X[i].name];
        var newValues := [];
        var j := 0;
        while j < |X[i].values|
          invariant 0 <= j <= |X[i].values|
          invariant |newValues| == j
          invariant forall l :: 0 <= l < j ==> newValues[l] == MapRare(learned, threshold, X[i].values[l])
        {
          if X[i].values[j] in learned {
            newValues := newValues + [X[i].values[j]];
          } else {
            newValues := newValues + [RareValue(threshold)];
          }
          j := j + 1;
        }
        ghost var next := MapFrame(commonCategories, threshold, X[..i + 1]);
        forall k | 0 <= k < i + 1 ensures (Y + [Column(X[i].name, newValues)])[k] == next[k] {
          if k < i {
            assert X[..i + 1][k] == X[..i][k];
          } else {
            assert newValues == next[i].values;
          }
        }
        Y := Y + [Column(X[i].name, newValues)];
        i := i + 1;
      }
      assert X[..|X|] == X;
    }
  }
}
