/** The string operations the source relies on: `str.lower()`, the
    substring test `a in b`, `str.strip()` and the decimal rendering of an
    integer inside an f-string. */
module Text {

  // ---------------------------------------------------------------------
  // Lower-casing

  /** Lower-cases one character; only the ASCII letters are mapped. */
  function LowerChar(c: char): (d: char)
    ensures 'A' <= c <= 'Z' ==> d as int == c as int + 32
    ensures !('A' <= c <= 'Z') ==> d == c
  {
    if 'A' <= c <= 'Z' then (c as int + 32) as char else c
  }

  /** `s.lower()`, character by character. */
  function Lower(s: string): (r: string)
    ensures |r| == |s|
    ensures forall i :: 0 <= i < |s| ==> r[i] == LowerChar(s[i])
  {
    if s == [] then [] else [LowerChar(s[0])] + Lower(s[1..])
  }

  /** Lower-casing works piecewise on a concatenation. */
  lemma LowerAppend(a: string, b: string)
    ensures Lower(a + b) == Lower(a) + Lower(b)
  {
    assert forall i :: 0 <= i < |a + b| ==> Lower(a + b)[i] == (Lower(a) + Lower(b))[i];
  }

  /** Lower-casing twice is lower-casing once. */
  lemma LowerIdempotent(s: string)
    ensures Lower(Lower(s)) == Lower(s)
  {
    var l := Lower(s);
    assert forall i :: 0 <= i < |l| ==> Lower(l)[i] == l[i];
  }

  // ---------------------------------------------------------------------
  // Substring test

  /** `pat` occurs in `s` starting at index `i`. */
  ghost predicate OccursAt(s: string, pat: string, i: int)
  {
    0 <= i && i + |pat| <= |s| && s[i..i + |pat|] == pat
  }

  /** Python's `pat in s`: some slice of `s` equals `pat`. */
  function Contains(s: string, pat: string): (r: bool)
    ensures r <==> exists i :: OccursAt(s, pat, i)
    decreases |s|
  {
    if |pat| > |s| then
      false
    else if s[..|pat|] == pat then
      assert OccursAt(s, pat, 0);
      true
    else
      var rest := Contains(s[1..], pat);
      assert forall i :: OccursAt(s[1..], pat, i) <==> OccursAt(s, pat, i + 1) by {
        forall i ensures OccursAt(s[1..], pat, i) <==> OccursAt(s, pat, i + 1) {
          if 0 <= i && i + |pat| <= |s[1..]| {
            assert s[1..][i..i + |pat|] == s[i + 1..i + 1 + |pat|];
          }
        }
      }
      assert (exists i :: OccursAt(s, pat, i)) ==> exists i :: OccursAt(s[1..], pat, i) by {
        if exists i :: OccursAt(s, pat, i) {
          var i :| OccursAt(s, pat, i);
          assert i != 0;
          assert OccursAt(s[1..], pat, i - 1);
        }
      }
      rest
  }

  /** Occurrences survive extending the string on either side. */
  lemma ContainsInContext(pre: string, s: string, post: string, pat: string)
    requires Contains(s, pat)
    ensures Contains(pre + s + post, pat)
  {
    var i :| OccursAt(s, pat, i);
    var t := pre + s + post;
    assert t[|pre| + i..|pre| + i + |pat|] == s[i..i + |pat|];
    assert OccursAt(t, pat, |pre| + i);
  }

  // ---------------------------------------------------------------------
  // Stripping white space

  /** The characters `str.isspace()` accepts, hence those `str.strip()`
      removes: the ASCII controls 9-13 and 28-31, the space, and the
      Unicode separators. */
  predicate IsSpace(c: char)
  {
    var n := c as int;
    (9 <= n <= 13) || (28 <= n <= 32) || n == 0x85 || n == 0xA0 || n == 0x1680 ||
    (0x2000 <= n <= 0x200A) || n == 0x2028 || n == 0x2029 || n == 0x202F ||
    n == 0x205F || n == 0x3000
  }

  /** Every character of `s` is white space. */
  ghost predicate AllSpace(s: string)
  {
    forall i :: 0 <= i < |s| ==> IsSpace(s[i])
  }

  /** The index of the first character at or after `i` that is not white
      space, or `|s|` when there is none. */
  function SkipSpace(s: string, i: nat): (k: nat)
    requires i <= |s|
    ensures i <= k <= |s|
    ensures forall j :: i <= j < k ==> IsSpace(s[j])
    ensures k < |s| ==> !IsSpace(s[k])
    decreases |s| - i
  {
    if i < |s| && IsSpace(s[i]) then SkipSpace(s, i + 1) else i
  }

  /** The index just past the last character before `j` that is not white
      space, or 0 when there is none. */
  function BackSpace(s: string, j: nat): (k: nat)
    requires j <= |s|
    ensures k <= j
    ensures forall m :: k <= m < j ==> IsSpace(s[m])
    ensures 0 < k ==> !IsSpace(s[k - 1])
  {
    if 0 < j && IsSpace(s[j - 1]) then BackSpace(s, j - 1) else j
  }

  /** `s.lstrip()`. */
  function TrimLeft(s: string): string
  {
    s[SkipSpace(s, 0)..]
  }

  /** `s.rstrip()`. */
  function TrimRight(s: string): string
  {
    s[..BackSpace(s, |s|)]
  }

  /** `s.strip()`. */
  function Strip(s: string): (r: string)
  {
    TrimRight(TrimLeft(s))
  }

  /** Neither end of a stripped string is white space. */
  lemma StripEnds(s: string)
    ensures var r := Strip(s);
            r == [] || (!IsSpace(r[0]) && !IsSpace(r[|r| - 1]))
  {
    var l := TrimLeft(s);
    var k := BackSpace(l, |l|);
    if k > 0 {
      assert Strip(s)[0] == l[0] == s[SkipSpace(s, 0)];
    }
  }

  /** What `strip` returns: a slice `s[i..i+|r|]` with only white space
      cut off on either side. */
  lemma StripIsSlice(s: string) returns (i: nat)
    ensures i + |Strip(s)| <= |s| && Strip(s) == s[i..i + |Strip(s)|]
    ensures AllSpace(s[..i]) && AllSpace(s[i + |Strip(s)|..])
  {
    i := SkipSpace(s, 0);
    var l := s[i..];
    var k := BackSpace(l, |l|);
    assert Strip(s) == l[..k];
    assert s[i..i + k] == l[..k];
    assert forall m :: k <= m < |l| ==> IsSpace(l[m]);
    assert forall m :: i + k <= m < |s| ==> IsSpace(s[m]) by {
      forall m | i + k <= m < |s| ensures IsSpace(s[m]) {
        assert s[m] == l[m - i];
      }
    }
  }

  /** `s.strip()` is empty exactly when `s` is nothing but white space. */
  lemma StripEmptyIff(s: string)
    ensures Strip(s) == [] <==> AllSpace(s)
  {
    var i := StripIsSlice(s);
    if Strip(s) == [] {
      assert s == s[..i] + s[i..];
    } else {
      StripEnds(s);
      assert s[i] == Strip(s)[0];
    }
  }

  /** Stripping twice is stripping once. */
  lemma StripIdempotent(s: string)
    ensures Strip(Strip(s)) == Strip(s)
  {
    var r := Strip(s);
    StripEnds(s);
    // Nothing to skip at the front of `r`, nor at its back.
    assert SkipSpace(r, 0) == 0;
    assert TrimLeft(r) == r[0..] == r;
    assert BackSpace(r, |r|) == |r|;
    assert TrimRight(r) == r[..|r|] == r;
  }

  // ---------------------------------------------------------------------
  // Decimal rendering

  /** The decimal digit for `d`. */
  function Digit(d: nat): (c: char)
    requires d < 10
    ensures '0' <= c <= '9'
    ensures c as int - '0' as int == d
  {
    ('0' as int + d) as char
  }

  /** The number a string of decimal digits denotes, most significant
      digit first. */
  function DecimalValue(s: string): int
  {
    if s == [] then 0 else 10 * DecimalValue(s[..|s| - 1]) + (s[|s| - 1] as int - '0' as int)
  }

  /** `str(n)` for a non-negative integer: the digits that denote `n`, with
      no leading zero (so "0" for zero). */
  function NatToString(n: nat): (s: string)
    ensures |s| > 0
    ensures forall i :: 0 <= i < |s| ==> '0' <= s[i] <= '9'
    ensures DecimalValue(s) == n
    ensures n == 0 ==> s == "0"
    ensures n > 0 ==> s[0] != '0'
  {
    if n < 10 then [Digit(n)]
    else
      var front := NatToString(n / 10);
      assert (front + [Digit(n % 10)])[..|front|] == front;
      front + [Digit(n % 10)]
  }
}
