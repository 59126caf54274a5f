/** Sequence facts used throughout: duplicate freedom and list-comprehension filtering. */
module SeqUtil {

  /** No element occurs twice. */
  predicate NoDup<T(==)>(s: seq<T>) {
    forall i, j :: 0 <= i < j < |s| ==> s[i] != s[j]
  }

  /** The elements of a sequence, as a set (Python's `set(xs)`). */
  function Elems<T>(s: seq<T>): set<T> {
    set x | x in s
  }

  /** `[x for x in xs if x not in excluded]`: keeps order and multiplicity of the kept elements. */
  function FilterOut(xs: seq<int>, excluded: set<int>): (r: seq<int>)
    ensures |r| <= |xs|
    ensures forall x :: x in r <==> x in xs && x !in excluded
    ensures forall x :: multiset(r)[x] == if x in excluded then 0 else multiset(xs)[x]
    ensures NoDup(xs) ==> NoDup(r)
  {
    if xs == [] then []
    else
      var rest := FilterOut(xs[1..], excluded);
      assert xs == [xs[0]] + xs[1..];
      if xs[0] in excluded then rest else [xs[0]] + rest
  }

  /** A sequence is duplicate-free exactly when each element occurs once in its multiset. */
  lemma {:induction false} NoDupMultiset<T>(s: seq<T>)
    ensures NoDup(s) <==> forall x :: x in s ==> multiset(s)[x] == 1
  {
    if s != [] {
      NoDupMultiset(s[1..]);
      assert s == [s[0]] + s[1..];
      if NoDup(s) {
        assert s[0] !in s[1..];
      } else {
        var i, j :| 0 <= i < j < |s| && s[i] == s[j];
        if i == 0 {
          assert s[j] in s[1..];
          assert multiset(s)[s[0]] == 1 + multiset(s[1..])[s[0]];
        } else {
          assert !NoDup(s[1..]) by { assert s[1..][i - 1] == s[1..][j - 1]; }
          var x :| x in s[1..] && multiset(s[1..])[x] != 1;
          assert multiset(s)[x] >= multiset(s[1..])[x];
        }
      }
    }
  }

  /** Permutations (equal multisets) agree on duplicate freedom and on membership. */
  lemma PermutationNoDup<T>(a: seq<T>, b: seq<T>)
    requires multiset(a) == multiset(b)
    ensures NoDup(a) <==> NoDup(b)
    ensures forall x :: x in a <==> x in b
  {
    NoDupMultiset(a);
    NoDupMultiset(b);
    forall x ensures x in a <==> x in b {
      assert x in a <==> x in multiset(a);
      assert x in b <==> x in multiset(b);
    }
  }

  /** Concatenating two duplicate-free, disjoint sequences gives a duplicate-free sequence. */
  lemma NoDupConcat<T>(a: seq<T>, b: seq<T>)
    requires NoDup(a) && NoDup(b)
    requires forall x :: x in b ==> x !in a
    ensures NoDup(a + b)
  {
    forall i, j | 0 <= i < j < |a + b| ensures (a + b)[i] != (a + b)[j] {
      if j >= |a| && i < |a| {
        assert (a + b)[j] in b;
      }
    }
  }
}
