/** Username normalisation: Python's `str.strip()` with no argument. */
module Usernames {

  /** The characters for which Python's `str.isspace()` holds. */
  predicate IsSpace(c: char) {
    var n := c as int;
    || n == 0x20 || 0x09 <= n <= 0x0D || 0x1C <= n <= 0x1F
    || n == 0x85 || n == 0xA0 || n == 0x1680 || 0x2000 <= n <= 0x200A
    || n == 0x2028 || n == 0x2029 || n == 0x202F || n == 0x205F || n == 0x3000
  }

  /** A string made only of whitespace (the empty string included). */
  predicate IsBlank(s: string) {
    forall k :: 0 <= k < |s| ==> IsSpace(s[k])
  }

  /** `r` is `s` with a whitespace run cut from each end. */
  ghost predicate TrimmedFrom(r: string, s: string) {
    exists i, j :: 0 <= i <= j <= |s| && r == s[i..j] && IsBlank(s[..i]) && IsBlank(s[j..])
  }

  /** Cutting one more leading space keeps `TrimmedFrom`. */
  lemma TrimmedFromFront(r: string, s: string)
    requires s != [] && IsSpace(s[0]) && TrimmedFrom(r, s[1..])
    ensures TrimmedFrom(r, s)
  {
    var t := s[1..];
    var i, j :| 0 <= i <= j <= |t| && r == t[i..j] && IsBlank(t[..i]) && IsBlank(t[j..]);
    assert r == s[i + 1..j + 1] && s[j + 1..] == t[j..];
    forall k | 0 <= k < i + 1 ensures IsSpace(s[k]) {
      if k > 0 {
        assert s[k] == t[..i][k - 1];
      }
    }
  }

  /** Cutting one more trailing space keeps `TrimmedFrom`. */
  lemma TrimmedFromBack(r: string, s: string)
    requires s != [] && IsSpace(s[|s| - 1]) && TrimmedFrom(r, s[..|s| - 1])
    ensures TrimmedFrom(r, s)
  {
    var t := s[..|s| - 1];
    var i, j :| 0 <= i <= j <= |t| && r == t[i..j] && IsBlank(t[..i]) && IsBlank(t[j..]);
    assert r == s[i..j] && s[..i] == t[..i];
    forall k | 0 <= k < |s| - j ensures IsSpace(s[j..][k]) {
      if j + k < |s| - 1 {
        assert s[j..][k] == t[j..][k];
      }
    }
  }

  /** `s.strip()`: drops leading and trailing whitespace. */
  function Strip(s: string): (r: string)
    ensures r == [] || (!IsSpace(r[0]) && !IsSpace(r[|r| - 1]))
    ensures r == [] <==> IsBlank(s)
    ensures TrimmedFrom(r, s)
    decreases |s|
  {
    if s == [] then
      assert s == s[0..0] && IsBlank(s[..0]) && IsBlank(s[0..]);
      s
    else if IsSpace(s[0]) then
      var r := Strip(s[1..]);
      TrimmedFromFront(r, s);
      r
    else if IsSpace(s[|s| - 1]) then
      var r := Strip(s[..|s| - 1]);
      assert IsBlank(s[..|s| - 1]) ==> IsBlank(s);
      TrimmedFromBack(r, s);
      r
    else
      assert s == s[0..|s|] && IsBlank(s[..0]) && IsBlank(s[|s|..]);
      s
  }

  /** A string without whitespace at either end is left as it is. */
  lemma StripKeepsTrimmed(s: string)
    requires s == [] || (!IsSpace(s[0]) && !IsSpace(s[|s| - 1]))
    ensures Strip(s) == s
  {
  }

  /** Stripping twice is stripping once: a stored username is a fixed point. */
  lemma StripIdempotent(s: string)
    ensures Strip(Strip(s)) == Strip(s)
  {
    StripKeepsTrimmed(Strip(s));
  }
}
