/**
 * The string operations the gating query and the column checks rely on:
 * Java's `String.trim`, literal (non-regex) `replaceAll`, `Long.toString`
 * and ASCII lower-casing.
 */
module Text {
  import opened Wrappers

  // ---------------------------------------------------------------------
  // String.trim: strips every leading and trailing character <= U+0020
  // ---------------------------------------------------------------------

  predicate IsTrimmable(c: char) { c <= ' ' }

  /** The whole string is made of characters that `trim` removes. */
  predicate IsBlank(s: string) { forall i :: 0 <= i < |s| ==> IsTrimmable(s[i]) }

  function TrimStart(s: string): (r: string)
    ensures |r| <= |s| && r == s[|s| - |r|..]
    ensures r == [] || !IsTrimmable(r[0])
    ensures forall i :: 0 <= i < |s| - |r| ==> IsTrimmable(s[i])
  {
    if s != [] && IsTrimmable(s[0]) then TrimStart(s[1..]) else s
  }

  function TrimEnd(s: string): (r: string)
    ensures |r| <= |s| && r == s[..|r|]
    ensures r == [] || !IsTrimmable(r[|r| - 1])
    ensures forall i :: |r| <= i < |s| ==> IsTrimmable(s[i])
  {
    if s != [] && IsTrimmable(s[|s| - 1]) then TrimEnd(s[..|s| - 1]) else s
  }

  /** Java's `String.trim`. */
  function Trim(s: string): (r: string)
    ensures |r| <= |s|
    ensures r == [] || (!IsTrimmable(r[0]) && !IsTrimmable(r[|r| - 1]))
  {
    TrimEnd(TrimStart(s))
  }

  /** `trim` yields a slice of its input. */
  lemma TrimIsInnerSlice(s: string)
    ensures exists i, j :: 0 <= i <= j <= |s| && Trim(s) == s[i..j]
  {
    var a := TrimStart(s);
    var i := |s| - |a|;
    var b := TrimEnd(a);
    assert s[i..i + |b|] == b;
  }

  /** `s.trim().length() == 0` holds exactly for blank strings. */
  lemma TrimEmptyIffBlank(s: string)
    ensures Trim(s) == [] <==> IsBlank(s)
  {
  }

  // ---------------------------------------------------------------------
  // replaceAll with a literal pattern: left-to-right, non-overlapping
  // ---------------------------------------------------------------------

  /** `pat` occurs in `s` starting at index `i`. */
  predicate OccursAt(s: string, pat: string, i: int)
  {
    0 <= i && i + |pat| <= |s| && s[i..i + |pat|] == pat
  }

  predicate Occurs(s: string, pat: string)
  {
    exists i :: 0 <= i <= |s| && OccursAt(s, pat, i)
  }

  /** An occurrence in `y` is one in `x + y`, `|x|` positions later. */
  lemma OccursAfter(x: string, y: string, pat: string, j: int)
    requires OccursAt(y, pat, j)
    ensures OccursAt(x + y, pat, |x| + j)
  {
    assert (x + y)[|x| + j..|x| + j + |pat|] == y[j..j + |pat|];
  }

  /** An occurrence in the tail of `s` is one in `s`. */
  lemma OccursInTail(s: string, pat: string)
    requires s != []
    ensures Occurs(s[1..], pat) ==> Occurs(s, pat)
  {
    if Occurs(s[1..], pat) {
      var i :| 0 <= i <= |s[1..]| && OccursAt(s[1..], pat, i);
      assert s == [s[0]] + s[1..];
      OccursAfter([s[0]], s[1..], pat, i);
    }
  }

  /**
   * Every occurrence of `pat`, scanned from the left, replaced by `rep`; a
   * string without the placeholder passes through unchanged.
   */
  function ReplaceAll(s: string, pat: string, rep: string): (r: string)
    requires pat != []
    ensures !Occurs(s, pat) ==> r == s
    decreases |s|
  {
    if |s| < |pat| then s
    else if s[..|pat|] == pat then
      assert OccursAt(s, pat, 0);
      rep + ReplaceAll(s[|pat|..], pat, rep)
    else
      OccursInTail(s, pat);
      [s[0]] + ReplaceAll(s[1..], pat, rep)
  }

  /**
   * A template holding the placeholder exactly once, at `|a|`, becomes
   * `a + rep + b`.
   */
  lemma ConsAppend(a: string, c: string, d: string)
    requires a != []
    ensures [a[0]] + (a[1..] + c + d) == a + c + d
  {
    assert a == [a[0]] + a[1..];
  }

  lemma {:induction false} ReplaceSingle(a: string, pat: string, rep: string, b: string)
    requires pat != []
    requires forall i :: OccursAt(a + pat + b, pat, i) ==> i == |a|
    ensures ReplaceAll(a + pat + b, pat, rep) == a + rep + b
    decreases |a|
  {
    var s := a + pat + b;
    if a == [] {
      assert s == pat + b;
      assert s[..|pat|] == pat && s[|pat|..] == b;
      if Occurs(b, pat) {
        var j :| 0 <= j <= |b| && OccursAt(b, pat, j);
        OccursAfter(pat, b, pat, j);
      }
      assert ReplaceAll(s, pat, rep) == rep + ReplaceAll(b, pat, rep);
    } else {
      var t := a[1..] + pat + b;
      assert s == [a[0]] + t;
      assert s[0] == a[0] && s[1..] == t;
      assert !OccursAt(s, pat, 0);
      assert s[..|pat|] != pat;
      forall i | OccursAt(t, pat, i) ensures i == |a[1..]| {
        OccursAfter([a[0]], t, pat, i);
        assert OccursAt(s, pat, 1 + i);
      }
      ReplaceSingle(a[1..], pat, rep, b);
      assert ReplaceAll(s, pat, rep) == [a[0]] + (a[1..] + rep + b);
      ConsAppend(a, rep, b);
    }
  }

  // ---------------------------------------------------------------------
  // Long.toString and its inverse
  // ---------------------------------------------------------------------

  predicate IsDigit(c: char) { '0' <= c <= '9' }

  function DigitChar(d: nat): (c: char)
    requires d < 10
    ensures IsDigit(c)
  {
    (('0' as int) + d) as char
  }

  function DigitValue(c: char): (d: nat)
    requires IsDigit(c)
    ensures d < 10 && DigitChar(d) == c
  {
    (c as int) - ('0' as int)
  }

  /** Decimal digits of `n`, most significant first, without leading zeros. */
  function NatString(n: nat): (s: string)
    ensures |s| >= 1 && (forall i :: 0 <= i < |s| ==> IsDigit(s[i]))
    ensures |s| > 1 ==> s[0] != '0'
    decreases n
  {
    if n < 10 then [DigitChar(n)] else NatString(n / 10) + [DigitChar(n % 10)]
  }

  /** Java's `"" + n` for a `long` value: reads back as `n`. */
  function DecimalString(n: int): (r: string)
    ensures |r| >= 1 && (r[0] == '-' <==> n < 0)
    ensures ParseDecimal(r) == Some(n)
  {
    if n < 0 then
      var r := "-" + NatString(-n);
      assert r[1..] == NatString(-n);
      NatStringValue(-n);
      r
    else
      NatStringValue(n);
      NatString(n)
  }

  function DigitsValue(s: string): nat
    requires forall i :: 0 <= i < |s| ==> IsDigit(s[i])
  {
    if s == [] then 0 else 10 * DigitsValue(s[..|s| - 1]) + DigitValue(s[|s| - 1])
  }

  /** Reads back an optional minus sign followed by at least one digit. */
  function ParseDecimal(s: string): Option<int>
  {
    if |s| > 1 && s[0] == '-' && (forall i :: 1 <= i < |s| ==> IsDigit(s[i])) then
      var magnitude: int := DigitsValue(s[1..]);
      Some(-magnitude)
    else if |s| > 0 && (forall i :: 0 <= i < |s| ==> IsDigit(s[i])) then
      Some(DigitsValue(s))
    else None
  }

  lemma {:induction false} NatStringValue(n: nat)
    ensures DigitsValue(NatString(n)) == n
    decreases n
  {
    if n >= 10 {
      NatStringValue(n / 10);
      var s := NatString(n);
      assert s[..|s| - 1] == NatString(n / 10);
    }
  }

  // ---------------------------------------------------------------------
  // Lower-casing, as used for case-insensitive column names
  // ---------------------------------------------------------------------

  function LowerChar(c: char): char
  {
    if 'A' <= c <= 'Z' then ((c as int) - ('A' as int) + ('a' as int)) as char else c
  }

  /** ASCII lower-casing of every character. */
  function Lower(s: string): (r: string)
    ensures |r| == |s| && forall i :: 0 <= i < |s| ==> r[i] == LowerChar(s[i])
  {
    seq(|s|, i requires 0 <= i < |s| => LowerChar(s[i]))
  }

  /** Java's `equalsIgnoreCase`, restricted to ASCII letters. */
  predicate EqualsIgnoreCase(a: string, b: string)
  {
    Lower(a) == Lower(b)
  }
}
