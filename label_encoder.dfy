/**
 * `SimplifiedLabelEncoder` (internal_logics/label_encode.py, and its identical copy
 * under modelling/): one sklearn `LabelEncoder` per column, learnt from the column's
 * values as strings; unknown values encode to -1.
 *
 * A fitted `LabelEncoder` is represented by its `classes_`: the distinct strings in
 * ascending code-point order, a value's code being its position there.
 */
module LabelEncoder {
  import opened Frames

  // ---------------------------------------------------------------------------
  // Code-point order on strings, as numpy sorts unicode arrays
  // ---------------------------------------------------------------------------

  /** `a` sorts strictly before `b`: first differing character smaller, or `a` a proper prefix of `b`. */
  predicate StrLess(a: string, b: string) {
    if a == [] then b != []
    else if b == [] then false
    else if a[0] != b[0] then a[0] < b[0]
    else StrLess(a[1..], b[1..])
  }

  lemma {:induction false} StrLessIrreflexive(a: string)
    ensures !StrLess(a, a)
  {
    if a != [] {
      StrLessIrreflexive(a[1..]);
    }
  }

  lemma {:induction false} StrLessTransitive(a: string, b: string, c: string)
    requires StrLess(a, b) && StrLess(b, c)
    ensures StrLess(a, c)
  {
    if a != [] && a[0] == b[0] && b[0] == c[0] {
      StrLessTransitive(a[1..], b[1..], c[1..]);
    }
  }

  lemma {:induction false} StrLessTotal(a: string, b: string)
    requires a != b
    ensures StrLess(a, b) || StrLess(b, a)
  {
    if a != [] && b != [] && a[0] == b[0] {
      StrLessTotal(a[1..], b[1..]);
    }
  }

  /** Strictly ascending, hence duplicate-free. */
  predicate StrictlySorted(s: seq<string>) {
    forall i, j :: 0 <= i < j < |s| ==> StrLess(s[i], s[j])
  }

  // ---------------------------------------------------------------------------
  // `LabelEncoder.fit`: the sorted distinct values
  // ---------------------------------------------------------------------------

  /** Adds `x` to a strictly sorted list of classes at its place, unless it is there already. */
  function InsertClass(classes: seq<string>, x: string): (r: seq<string>)
    requires StrictlySorted(classes)
    ensures StrictlySorted(r)
    ensures forall s :: s in r <==> s in classes || s == x
  {
    if classes == [] then [x]
    else if x == classes[0] then classes
    else if StrLess(x, classes[0]) then
      StrLessAbove(classes, x);
      [x] + classes
    else
      StrLessTotal(x, classes[0]);
      var rest := InsertClass(classes[1..], x);
      assert forall s :: s in rest ==> StrLess(classes[0], s) by {
        forall s | s in rest ensures StrLess(classes[0], s) {
          if s != x {
            var j :| 0 <= j < |classes[1..]| && classes[1..][j] == s;
            assert classes[j + 1] == s;
          }
        }
      }
      [classes[0]] + rest
  }

  /** A string below the head of a sorted list is below all of it. */
  lemma StrLessAbove(classes: seq<string>, x: string)
    requires StrictlySorted(classes) && classes != [] && StrLess(x, classes[0])
    ensures StrictlySorted([x] + classes)
  {
    forall j | 0 <= j < |classes| ensures StrLess(x, classes[j]) {
      if j > 0 {
        StrLessTransitive(x, classes[0], classes[j]);
      }
    }
  }

  /** `classes_` after `fit(values)`: every value once, in ascending order. */
  function Classes(values: seq<string>): (classes: seq<string>)
    ensures StrictlySorted(classes)
    ensures forall s :: s in classes <==> s in values
  {
    if values == [] then []
    else InsertClass(Classes(values[..|values| - 1]), values[|values| - 1])
  }

  /** Two strictly sorted lists holding the same strings are the same list. */
  lemma {:induction false} SortedUnique(a: seq<string>, b: seq<string>)
    requires StrictlySorted(a) && StrictlySorted(b)
    requires forall s :: s in a <==> s in b
    ensures a == b
  {
    assert b != [] ==> b[0] in a;
    if a != [] {
      assert a[0] in b;
      assert b != [];
      if a[0] != b[0] {
        assert b[0] in b;
        var i :| 0 <= i < |a| && a[i] == b[0];
        var j :| 0 <= j < |b| && b[j] == a[0];
        assert StrLess(a[0], b[0]) && StrLess(b[0], a[0]);
        StrLessTransitive(a[0], b[0], a[0]);
        StrLessIrreflexive(a[0]);
      } else {
        forall s ensures s in a[1..] <==> s in b[1..] {
          if s in a[1..] {
            var i :| 0 <= i < |a[1..]| && a[1..][i] == s;
            assert StrLess(a[0], a[i + 1]);
            StrLessIrreflexive(s);
            assert s in b;
          }
          if s in b[1..] {
            var j :| 0 <= j < |b[1..]| && b[1..][j] == s;
            assert StrLess(b[0], b[j + 1]);
            StrLessIrreflexive(s);
            assert s in a;
          }
        }
        SortedUnique(a[1..], b[1..]);
        assert a == [a[0]] + a[1..] && b == [b[0]] + b[1..];
      }
    }
  }

  /** `Classes` is THE ascending list of the distinct values, whatever order they came in. */
  lemma ClassesCharacterised(values: seq<string>, sorted: seq<string>)
    requires StrictlySorted(sorted)
    requires forall s :: s in sorted <==> s in values
    ensures Classes(values) == sorted
  {
    SortedUnique(Classes(values), sorted);
  }

  /** `X[column_name].astype(str)` of one cell. */
  function AsText(c: Cell): string {
    match c
    case Str(s) => s
    case Num(n) => IntToDecimal(n)
  }

  /** The classes learnt for one column. */
  function ColumnClasses(col: Column<Cell>): seq<string> {
    Classes(seq(|col.values|, j requires 0 <= j < |col.values| => AsText(col.values[j])))
  }

  /** The encoders after `fit(X)` starting from `m`: one entry per column, later columns last. */
  function FitColumns(X: Frame<Cell>, m: map<string, seq<string>>): (r: map<string, seq<string>>)
    ensures forall name :: name in r <==> name in m || exists i :: 0 <= i < |X| && X[i].name == name
    ensures forall name :: name in m && (forall i :: 0 <= i < |X| ==> X[i].name != name) ==> r[name] == m[name]
  {
    if X == [] then m
    else
      var last := X[|X| - 1];
      var r := FitColumns(X[..|X| - 1], m)[last.name := ColumnClasses(last)];
      assert forall i :: 0 <= i < |X| - 1 ==> X[..|X| - 1][i] == X[i];
      r
  }

  /** With distinct column labels, each column's entry holds that column's classes. */
  lemma {:induction false} FitColumnsLookup(X: Frame<Cell>, m: map<string, seq<string>>, i: nat)
    requires DistinctNames(X) && i < |X|
    ensures X[i].name in FitColumns(X, m)
    ensures FitColumns(X, m)[X[i].name] == ColumnClasses(X[i])
  {
    if i < |X| - 1 {
      var init := X[..|X| - 1];
      assert init[i] == X[i];
      assert DistinctNames(init);
      FitColumnsLookup(init, m, i);
    }
  }

  // ---------------------------------------------------------------------------
  // `transform`: one value at a time
  // ---------------------------------------------------------------------------

  /** Position of `s` in `classes`, -1 when absent. */
  function IndexOf(classes: seq<string>, s: string): (i: int)
    ensures i == -1 <==> s !in classes
    ensures i != -1 ==> 0 <= i < |classes| && classes[i] == s
  {
    if classes == [] then -1
    else if classes[0] == s then 0
    else
      var k := IndexOf(classes[1..], s);
      if k == -1 then -1 else k + 1
  }

  /**
   * The code of one raw cell: its position among the classes when it is one of them,
   * -1 otherwise. The raw cell is tested, not its text, so a number is never a class.
   */
  function Encode(classes: seq<string>, v: Cell): (code: int)
    ensures code == -1 <==> !(v.Str? && v.s in classes)
    ensures code != -1 ==> v.Str? && 0 <= code < |classes| && classes[code] == v.s
  {
    match v
    case Str(s) => IndexOf(classes, s)
    case Num(_) => -1
  }

  /** Distinct known values get distinct codes, and each code gives back its value. */
  lemma EncodeInjective(classes: seq<string>, a: Cell, b: Cell)
    requires Encode(classes, a) != -1 && Encode(classes, a) == Encode(classes, b)
    ensures a == b
    ensures a == Str(classes[Encode(classes, a)])
  {
  }

  /** Codes follow the sorted order of `classes_`: a smaller code means a smaller string. */
  lemma EncodeOrdered(classes: seq<string>, a: Cell, b: Cell)
    requires StrictlySorted(classes)
    requires Encode(classes, a) != -1 && Encode(classes, b) != -1
    ensures Encode(classes, a) < Encode(classes, b) <==> StrLess(a.s, b.s)
  {
    var i, j := Encode(classes, a), Encode(classes, b);
    if StrLess(a.s, b.s) && i >= j {
      if i == j {
        StrLessIrreflexive(a.s);
      } else {
        StrLessTransitive(a.s, b.s, a.s);
        StrLessIrreflexive(a.s);
      }
    }
  }

  /** Numbers always encode to -1, even when their text was seen by `fit`. */
  lemma NumbersEncodeToMinusOne(X: Frame<Cell>, m: map<string, seq<string>>, i: nat, j: nat)
    requires DistinctNames(X) && i < |X| && j < |X[i].values| && X[i].values[j].Num?
    ensures FitColumns(X, m)[X[i].name] == ColumnClasses(X[i])
    ensures AsText(X[i].values[j]) in ColumnClasses(X[i])
    ensures Encode(FitColumns(X, m)[X[i].name], X[i].values[j]) == -1
  {
    FitColumnsLookup(X, m, i);
    var col := X[i];
    var texts := seq(|col.values|, k requires 0 <= k < |col.values| => AsText(col.values[k]));
    assert texts[j] == AsText(col.values[j]);
  }

  /** Fit, then transform the same frame: no text category is unknown. */
  lemma FitThenEncodeKnown(X: Frame<Cell>, m: map<string, seq<string>>, i: nat, j: nat)
    requires DistinctNames(X) && i < |X| && j < |X[i].values| && X[i].values[j].Str?
    ensures X[i].name in FitColumns(X, m)
    ensures 0 <= Encode(FitColumns(X, m)[X[i].name], X[i].values[j]) < |ColumnClasses(X[i])|
  {
    FitColumnsLookup(X, m, i);
    var col := X[i];
    var texts := seq(|col.values|, k requires 0 <= k < |col.values| => AsText(col.values[k]));
    assert texts[j] == col.values[j].s;
  }

  class SimplifiedLabelEncoder {
    /** Column label to the `classes_` of its fitted `LabelEncoder`. */
    var encoders: map<string, seq<string>>

    ghost predicate Valid()
      reads this
    {
      forall name :: name in encoders ==> StrictlySorted(encoders[name])
    }

    constructor ()
      ensures Valid()
      ensures encoders == map[]
    {
      encoders := map[];
    }

    /** `fit`: learns one encoder per column; encoders of other labels are kept. */
    method Fit(X: Frame<Cell>)
      requires Valid()
      requires DistinctNames(X)
      modifies this
      ensures Valid()
      ensures encoders == FitColumns(X, old(encoders))
    {
      var i := 0;
      while i < |X|
        invariant 0 <= i <= |X|
        invariant Valid()
        invariant encoders == FitColumns(X[..i], old(encoders))
      {
        encoders := encoders[X[i].name := ColumnClasses(X[i])];
        assert X[..i + 1][..i] == X[..i];
        i := i + 1;
      }
      assert X[..|X|] == X;
    }

    /**
     * `transform`: a new frame with the same columns, each value replaced by its code.
     * The input frame is a value and is left as it was.
     */
    method Transform(X: Frame<Cell>) returns (Y: Frame<int>)
      requires Valid()
      requires DistinctNames(X)
      requires forall i :: 0 <= i < |X| ==> X[i].name in encoders
      ensures SameShape(X, Y)
      ensures forall i, j :: 0 <= i < |X| && 0 <= j < |X[i].values| ==>
        Y[i].values[j] == Encode(encoders[X[i].name], X[i].values[j])
      ensures forall i, j, l ::
        (0 <= i < |X| && 0 <= j < |X[i].values| && 0 <= l < |X[i].values| &&
         Y[i].values[j] != -1 && Y[i].values[l] != -1) ==>
        X[i].values[j].Str? && X[i].values[l].Str? &&
        (Y[i].values[j] < Y[i].values[l] <==> StrLess(X[i].values[j].s, X[i].values[l].s))
    {
      Y := [];
      var i := 0;
      while i < |X|
        invariant 0 <= i <= |X|
        invariant SameShape(X[..i], Y)
        invariant forall k, j :: 0 <= k < i && 0 <= j < |X[k].values| ==>
          Y[k].values[j] == Encode(encoders[X[k].name], X[k].values[j])
      {
        var classes := encoders[X[i].name];
        var newValues := [];
        var j := 0;
        while j < |X[i].values|
          invariant 0 <= j <= |X[i].values|
          invariant |newValues| == j
          invariant forall l :: 0 <= l < j ==> newValues[l] == Encode(classes, X[i].values[l])
        {
          newValues := newValues + [Encode(classes, X[i].values[j])];
          j := j + 1;
        }
        Y := Y + [Column(X[i].name, newValues)];
        i := i + 1;
      }
      forall i, j, l | 0 <= i < |X| && 0 <= j < |X[i].values| && 0 <= l < |X[i].values| &&
        Y[i].values[j] != -1 && Y[i].values[l] != -1
        ensures X[i].values[j].Str? && X[i].values[l].Str?
        ensures Y[i].values[j] < Y[i].values[l] <==> StrLess(X[i].values[j].s, X[i].values[l].s)
      {
        EncodeOrdered(encoders[X[i].name], X[i].values[j], X[i].values[l]);
      }
    }
  }
}
