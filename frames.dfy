/**
 * The slice of a pandas DataFrame the feature transformers see: named columns of
 * cells, each cell a string or an integer, and Python's `str` of an integer.
 */
module Frames {

  /** One cell of a feature column: a text category or a number. */
  datatype Cell = Str(s: string) | Num(n: int)

  /** A named column; the rows are the positions of `values`. */
  datatype Column<V> = Column(name: string, values: seq<V>)

  /** The columns of a frame, in `X.columns` order. */
  type Frame<V> = seq<Column<V>>

  /** Column labels are pairwise distinct, so `X[name]` selects one column. */
  predicate DistinctNames<V>(frame: Frame<V>) {
    forall i, j :: 0 <= i < j < |frame| ==> frame[i].name != frame[j].name
  }

  /** Both frames have the same column labels in the same order and the same number of rows per column. */
  predicate SameShape<A, B>(x: Frame<A>, y: Frame<B>) {
    && |x| == |y|
    && (forall i :: 0 <= i < |x| ==> x[i].name == y[i].name && |x[i].values| == |y[i].values|)
  }

  function DigitChar(d: nat): (c: char)
    requires d < 10
    ensures '0' <= c <= '9'
  {
    ['0', '1', '2', '3', '4', '5', '6', '7', '8', '9'][d]
  }

  function DigitValue(c: char): nat
    requires '0' <= c <= '9'
  {
    c as int - '0' as int
  }

  /** Decimal digits of `n` without leading zeros, as Python's `str` writes them. */
  function NatToDecimal(n: nat): (s: string)
    ensures |s| > 0
    ensures forall i :: 0 <= i < |s| ==> '0' <= s[i] <= '9'
    ensures s[0] == '0' ==> n == 0
  {
    if n < 10 then [DigitChar(n)] else NatToDecimal(n / 10) + [DigitChar(n % 10)]
  }

  /** The number a string of decimal digits denotes. */
  function DecimalValue(s: string): nat
    requires forall i :: 0 <= i < |s| ==> '0' <= s[i] <= '9'
  {
    if s == [] then 0 else 10 * DecimalValue(s[..|s| - 1]) + DigitValue(s[|s| - 1])
  }

  /** `str(n)` of a Python int: a minus sign for negative numbers, then the digits. */
  function IntToDecimal(n: int): (s: string)
    ensures |s| > 0
    ensures s[0] == '-' <==> n < 0
  {
    if n < 0 then "-" + NatToDecimal(-n) else NatToDecimal(n)
  }

  /** Reading the digits back gives the number: `str` of a nat is faithful. */
  lemma {:induction false} NatToDecimalValue(n: nat)
    ensures DecimalValue(NatToDecimal(n)) == n
  {
    if n >= 10 {
      var s := NatToDecimal(n);
      NatToDecimalValue(n / 10);
      assert s[..|s| - 1] == NatToDecimal(n / 10);
    }
  }

  /** `str` is injective on ints, so distinct numbers never share a category string. */
  lemma IntToDecimalInjective(m: int, n: int)
    requires IntToDecimal(m) == IntToDecimal(n)
    ensures m == n
  {
    var s := IntToDecimal(m);
    var a: nat := if m < 0 then -m else m;
    var b: nat := if n < 0 then -n else n;
    assert (m < 0) == (n < 0);
    assert NatToDecimal(a) == NatToDecimal(b) by {
      if m < 0 {
        assert NatToDecimal(a) == s[1..] == NatToDecimal(b);
      }
    }
    NatToDecimalValue(a);
    NatToDecimalValue(b);
    assert a == b;
  }
}
