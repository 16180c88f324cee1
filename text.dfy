/** String helpers with Python's meaning: substring test (`k in s`),
    `startswith`, `endswith`, slicing `s[:n]`, `lower()`, `strip()`,
    `sep.join(parts)` and `str(n)` for a non-negative integer. */
module Text {

  /** `k` occurs in `s` starting at index `i`. */
  predicate At(s: string, k: string, i: int) {
    0 <= i && i + |k| <= |s| && s[i..i + |k|] == k
  }

  /** Python's `k in s` for strings. */
  predicate Contains(s: string, k: string) {
    exists i | 0 <= i <= |s| - |k| :: At(s, k, i)
  }

  predicate StartsWith(s: string, p: string) {
    |p| <= |s| && s[..|p|] == p
  }

  predicate EndsWith(s: string, p: string) {
    |p| <= |s| && s[|s| - |p|..] == p
  }

  /** Python's `s[:n]`: the whole string when it is shorter than `n`. */
  function Prefix(s: string, n: nat): (r: string)
    ensures |r| == if |s| <= n then |s| else n
    ensures StartsWith(s, r)
  {
    if |s| <= n then s else s[..n]
  }

  /** Lower-casing of one character: ASCII letters and the Finnish and
      Swedish letters Ä, Ö and Å. */
  function LowerChar(c: char): (r: char)
    ensures 'A' <= c <= 'Z' ==> r as int == c as int + 32
    ensures !('A' <= c <= 'Z') && c != 'Ä' && c != 'Ö' && c != 'Å' ==> r == c
  {
    if 'A' <= c <= 'Z' then (c as int + 32) as char
    else if c == 'Ä' then 'ä'
    else if c == 'Ö' then 'ö'
    else if c == 'Å' then 'å'
    else c
  }

  function Lower(s: string): (r: string)
    ensures |r| == |s|
    ensures forall i :: 0 <= i < |s| ==> r[i] == LowerChar(s[i])
  {
    seq(|s|, i requires 0 <= i < |s| => LowerChar(s[i]))
  }

  /** The characters Python's `str.isspace()` accepts, which `strip()` removes. */
  predicate IsSpace(c: char) {
    ('\t' <= c <= '\r') || ('\U{1C}' <= c <= ' ') || c == '\U{85}' || c == '\U{A0}'
    || c == '\U{1680}' || ('\U{2000}' <= c <= '\U{200A}') || c == '\U{2028}' || c == '\U{2029}'
    || c == '\U{202F}' || c == '\U{205F}' || c == '\U{3000}'
  }

  function StripLeft(s: string): (r: string)
    ensures |r| <= |s| && EndsWith(s, r)
    ensures r == [] || !IsSpace(r[0])
  {
    if |s| > 0 && IsSpace(s[0]) then StripLeft(s[1..]) else s
  }

  function StripRight(s: string): (r: string)
    ensures |r| <= |s| && StartsWith(s, r)
    ensures r == [] || !IsSpace(r[|r| - 1])
  {
    if |s| > 0 && IsSpace(s[|s| - 1]) then StripRight(s[..|s| - 1]) else s
  }

  /** Python's `s.strip()`. */
  function Strip(s: string): (r: string)
    ensures |r| <= |s|
    ensures r == [] || (!IsSpace(r[0]) && !IsSpace(r[|r| - 1]))
  {
    StripLeft(StripRight(s))
  }

  /** Python's `sep.join(parts)`. */
  function Join(parts: seq<string>, sep: string): (r: string)
    ensures parts == [] ==> r == []
    ensures |parts| == 1 ==> r == parts[0]
  {
    if parts == [] then []
    else if |parts| == 1 then parts[0]
    else parts[0] + sep + Join(parts[1..], sep)
  }

  /** A join is empty exactly when there are no parts, given non-empty parts. */
  lemma JoinEmpty(parts: seq<string>, sep: string)
    requires forall k :: 0 <= k < |parts| ==> parts[k] != ""
    ensures Join(parts, sep) == "" <==> parts == []
  {
    if |parts| >= 2 {
      assert Join(parts, sep) == parts[0] + sep + Join(parts[1..], sep);
      assert parts[0] != "";
    }
  }

  function DigitChar(d: nat): (c: char)
    requires d < 10
    ensures '0' <= c <= '9'
  {
    ('0' as int + d) as char
  }

  /** Python's `str(n)` for `n >= 0`. */
  function NatToString(n: nat): (r: string)
    ensures |r| >= 1
    ensures forall i :: 0 <= i < |r| ==> '0' <= r[i] <= '9'
  {
    if n < 10 then [DigitChar(n)] else NatToString(n / 10) + [DigitChar(n % 10)]
  }

  /** Distinct numbers have distinct decimal representations. */
  lemma {:induction false} NatToStringInjective(a: nat, b: nat)
    ensures NatToString(a) == NatToString(b) ==> a == b
    decreases a
  {
    if NatToString(a) == NatToString(b) {
      var ra := NatToString(a);
      if a >= 10 && b >= 10 {
        assert ra[|ra| - 1] == DigitChar(a % 10) && ra[|ra| - 1] == DigitChar(b % 10);
        assert NatToString(a / 10) == ra[..|ra| - 1] == NatToString(b / 10);
        NatToStringInjective(a / 10, b / 10);
      } else if a < 10 && b < 10 {
        assert ra[0] == DigitChar(a) && ra[0] == DigitChar(b);
      }
    }
  }

  /** Occurrences compose: a string containing `b` contains whatever `b`
      contains. */
  lemma ContainsTransitive(a: string, b: string, c: string)
    requires Contains(a, b) && Contains(b, c)
    ensures Contains(a, c)
  {
    var i :| 0 <= i <= |a| - |b| && At(a, b, i);
    var j :| 0 <= j <= |b| - |c| && At(b, c, j);
    forall k | 0 <= k < |c|
      ensures a[i + j..i + j + |c|][k] == c[k]
    {
      assert a[i..i + |b|][j + k] == b[j + k];
      assert b[j..j + |c|][k] == c[k];
    }
    assert At(a, c, i + j);
  }

  lemma ContainsAtIndex(s: string, k: string, i: int)
    requires At(s, k, i)
    ensures Contains(s, k)
  {
  }

  lemma ContainsPrefix(s: string, p: string)
    requires StartsWith(s, p)
    ensures Contains(s, p)
  {
    assert At(s, p, 0);
  }

  /** A substring of `s` is a substring of every extension of `s`. */
  lemma ContainsAppend(s: string, t: string, k: string)
    requires Contains(s, k)
    ensures Contains(s + t, k) && Contains(t + s, k)
  {
    var i :| 0 <= i <= |s| - |k| && At(s, k, i);
    assert (s + t)[i..i + |k|] == s[i..i + |k|];
    assert At(s + t, k, i);
    assert (t + s)[|t| + i..|t| + i + |k|] == s[i..i + |k|];
    assert At(t + s, k, |t| + i);
  }
}
