/**
  The handful of Python `str` operations the pipeline uses: `strip()`,
  `upper()`, `lower()`, the substring test `a in b` and the ordering `a < b`
  that `sorted` and `groupby` use.
 */
module Strings {

  // ---------------------------------------------------------------------
  // strip()
  // ---------------------------------------------------------------------

  /** The characters Python's `str.isspace()` accepts, which `strip()` removes. */
  predicate IsSpace(c: char) {
    var n := c as int;
    || 9 <= n <= 13
    || 28 <= n <= 32
    || n == 0x85 || n == 0xA0 || n == 0x1680
    || 0x2000 <= n <= 0x200A
    || n == 0x2028 || n == 0x2029 || n == 0x202F || n == 0x205F || n == 0x3000
  }

  /** Every character of `s` at a position in `[lo, hi)` is whitespace. */
  predicate SpaceBetween(s: string, lo: int, hi: int)
    requires 0 <= lo && hi <= |s|
  {
    forall k | lo <= k < hi :: IsSpace(s[k])
  }

  /** Neither end of `s` is whitespace. */
  predicate Trimmed(s: string) {
    s == [] || (!IsSpace(s[0]) && !IsSpace(s[|s| - 1]))
  }

  /** `s.lstrip()`: drops the leading whitespace, nothing else. */
  function TrimStart(s: string): (r: string)
    ensures |r| <= |s| && r == s[|s| - |r|..]
    ensures SpaceBetween(s, 0, |s| - |r|)
    ensures r == [] || !IsSpace(r[0])
  {
    if |s| > 0 && IsSpace(s[0]) then TrimStart(s[1..]) else s
  }

  /** `s.rstrip()`: drops the trailing whitespace, nothing else. */
  function TrimEnd(s: string): (r: string)
    ensures |r| <= |s| && r == s[..|r|]
    ensures SpaceBetween(s, |r|, |s|)
    ensures r == [] || !IsSpace(r[|r| - 1])
  {
    if |s| > 0 && IsSpace(s[|s| - 1]) then TrimEnd(s[..|s| - 1]) else s
  }

  /** `r` is what is left of `s` once the whitespace before position `i` and
      after position `i + |r|` is cut off. */
  predicate CutAt(s: string, r: string, i: int) {
    && 0 <= i <= |s| - |r|
    && r == s[i..i + |r|]
    && SpaceBetween(s, 0, i)
    && SpaceBetween(s, i + |r|, |s|)
  }

  /** `s.strip()`: the middle of `s` once whitespace is cut from both ends. */
  function Strip(s: string): (r: string)
    ensures Trimmed(r)
    ensures exists i :: CutAt(s, r, i)
  {
    var t := TrimStart(s);
    var r := TrimEnd(t);
    var i := |s| - |t|;
    assert forall k | i + |r| <= k < |s| :: s[k] == t[k - i];
    assert CutAt(s, r, i);
    r
  }

  /** A cut of `s` into whitespace, a trimmed middle and whitespace is unique:
      its middle is `Strip(s)`. */
  lemma {:induction false} StripUnique(s: string, i: nat, j: nat)
    requires i <= j <= |s|
    requires SpaceBetween(s, 0, i) && SpaceBetween(s, j, |s|) && Trimmed(s[i..j])
    ensures Strip(s) == s[i..j]
  {
    var r := Strip(s);
    var k :| CutAt(s, r, k);
    if i < j && r != [] {
      // both middles start at the first non-space and end at the last one
      assert s[i] == s[i..j][0] && s[j - 1] == s[i..j][j - i - 1];
      assert s[k] == r[0] && s[k + |r| - 1] == r[|r| - 1];
      assert k == i;
      assert k + |r| == j;
    }
  }

  /** Stripping twice strips nothing more. */
  lemma StripIdempotent(s: string)
    ensures Strip(Strip(s)) == Strip(s)
  {
    var r := Strip(s);
    assert r[0..|r|] == r;
    StripUnique(r, 0, |r|);
  }

  // ---------------------------------------------------------------------
  // upper() and lower()
  // ---------------------------------------------------------------------

  /** `c.upper()` for ASCII letters and for U+017F (long s), whose upper case
      is `S`; other characters are left as they are. */
  function UpperChar(c: char): char {
    if 'a' <= c <= 'z' then (c as int - 32) as char
    else if c as int == 0x17F then 'S'
    else c
  }

  /** `c.lower()` for ASCII letters; other characters are left as they are. */
  function LowerChar(c: char): char {
    if 'A' <= c <= 'Z' then (c as int + 32) as char else c
  }

  function Upper(s: string): (r: string)
    ensures |r| == |s|
  {
    if s == [] then [] else [UpperChar(s[0])] + Upper(s[1..])
  }

  function Lower(s: string): (r: string)
    ensures |r| == |s|
  {
    if s == [] then [] else [LowerChar(s[0])] + Lower(s[1..])
  }

  // ---------------------------------------------------------------------
  // needle in hay
  // ---------------------------------------------------------------------

  /** Python's `needle in hay` on strings, read from the front of `hay`. */
  predicate Contains(needle: string, hay: string)
    decreases |hay|
  {
    |needle| <= |hay| && (hay[..|needle|] == needle || Contains(needle, hay[1..]))
  }

  /** `needle` sits in `hay` at offset `i`. */
  predicate OccursAt(needle: string, hay: string, i: int) {
    0 <= i <= |hay| - |needle| && hay[i..i + |needle|] == needle
  }

  /** `needle` sits somewhere in `hay`. */
  predicate Occurs(needle: string, hay: string) {
    exists i | 0 <= i <= |hay| - |needle| :: OccursAt(needle, hay, i)
  }

  /** `Contains` finds exactly the offsets at which `needle` occurs. */
  lemma {:induction false} ContainsIff(needle: string, hay: string)
    ensures Contains(needle, hay) <==> Occurs(needle, hay)
    decreases |hay|
  {
    if |needle| <= |hay| && hay[..|needle|] != needle {
      ContainsIff(needle, hay[1..]);
      if Contains(needle, hay[1..]) {
        var i :| 0 <= i <= |hay[1..]| - |needle| && OccursAt(needle, hay[1..], i);
        assert hay[1..][i..i + |needle|] == hay[i + 1..i + 1 + |needle|];
        assert OccursAt(needle, hay, i + 1);
      } else if i :| OccursAt(needle, hay, i) {
        assert i != 0 by { assert hay[0..|needle|] == hay[..|needle|]; }
        assert hay[1..][i - 1..i - 1 + |needle|] == hay[i..i + |needle|];
        assert OccursAt(needle, hay[1..], i - 1);
        assert false;
      }
    } else if |needle| <= |hay| {
      assert hay[0..|needle|] == hay[..|needle|];
      assert OccursAt(needle, hay, 0);
    }
  }

  // ---------------------------------------------------------------------
  // a < b
  // ---------------------------------------------------------------------

  /** Python's `a < b` on strings: code-point order, a proper prefix first. */
  predicate Below(a: string, b: string) {
    if |b| == 0 then false
    else if |a| == 0 then true
    else if a[0] != b[0] then a[0] < b[0]
    else Below(a[1..], b[1..])
  }

  lemma BelowIrreflexive(a: string)
    ensures !Below(a, a)
  {
  }

  lemma {:induction false} BelowTransitive(a: string, b: string, c: string)
    requires Below(a, b) && Below(b, c)
    ensures Below(a, c)
    decreases |a|
  {
    if |a| > 0 && a[0] == b[0] && b[0] == c[0] {
      BelowTransitive(a[1..], b[1..], c[1..]);
    }
  }

  lemma BelowAsymmetric(a: string, b: string)
    requires Below(a, b)
    ensures !Below(b, a)
  {
    if Below(b, a) {
      BelowTransitive(a, b, a);
      BelowIrreflexive(a);
    }
  }

  lemma {:induction false} BelowTotal(a: string, b: string)
    requires a != b
    ensures Below(a, b) || Below(b, a)
    decreases |a|
  {
    if |a| > 0 && |b| > 0 && a[0] == b[0] {
      assert a == [a[0]] + a[1..] && b == [b[0]] + b[1..];
      BelowTotal(a[1..], b[1..]);
    }
  }
}
