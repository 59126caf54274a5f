/**
 * `GenderTransformer` (internal_logics/gender_transform.py): every column of a copy of
 * the frame is mapped through `{'M': 0, 'F': 1}`; pandas `map` leaves any other value
 * missing, written `None` here. `fit` learns nothing.
 */
module Gender {
  import opened Wrappers
  import opened Frames

  /** The code of one cell, `None` where pandas leaves NaN. */
  function GenderCode(v: Cell): (code: Option<int>)
    ensures code == Some(0) <==> v == Str("M")
    ensures code == Some(1) <==> v == Str("F")
    ensures code.None? <==> v != Str("M") && v != Str("F")
  {
    if v == Str("M") then Some(0)
    else if v == Str("F") then Some(1)
    else None
  }

  /** The codes are 0 and 1, and each gives back the one category it came from. */
  lemma GenderCodeInverse(v: Cell)
    requires GenderCode(v).Some?
    ensures GenderCode(v).value in {0, 1}
    ensures v == Str(["M", "F"][GenderCode(v).value])
  {
  }

  /** `transform`: every column mapped, every row kept, in order; the input is left as it was. */
  function Transform(X: Frame<Cell>): (Y: Frame<Option<int>>)
    ensures SameShape(X, Y)
    ensures forall i, j :: 0 <= i < |X| && 0 <= j < |X[i].values| ==> Y[i].values[j] == GenderCode(X[i].values[j])
  {
    seq(|X|, i requires 0 <= i < |X| =>
      Column(X[i].name, seq(|X[i].values|, j requires 0 <= j < |X[i].values| => GenderCode(X[i].values[j]))))
  }
}
