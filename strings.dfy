/**
 * The few string operations of Python that the model relies on: prefix and
 * substring tests, `str.strip()` with no argument, and `%d` formatting.
 */
module Strings {

  /** Python's `s.startswith(p)`. */
  predicate StartsWith(s: string, p: string) {
    |p| <= |s| && s[..|p|] == p
  }

  /** `p` occurs in `s` at position `i`. */
  predicate OccursAt(s: string, p: string, i: int) {
    0 <= i && i + |p| <= |s| && s[i..i + |p|] == p
  }

  /** Python's `p in s` for strings. */
  predicate Contains(s: string, p: string) {
    exists i :: 0 <= i <= |s| - |p| && OccursAt(s, p, i)
  }

  /** A string contains every string it is built around. */
  lemma ConcatContains(s: string, a: string, p: string, b: string)
    requires s == a + p + b
    ensures Contains(s, p)
  {
    assert OccursAt(s, p, |a|);
  }

  /** Character `k` of a contained string occurs in the containing one at position `k` or later. */
  lemma ContainedCharOccurs(s: string, p: string, k: nat)
    requires k < |p|
    ensures Contains(s, p) ==> k < |s| && p[k] in s[k..]
  {
    if Contains(s, p) {
      var i :| 0 <= i <= |s| - |p| && OccursAt(s, p, i);
      assert s[i..i + |p|][k] == p[k];
      assert s[k..][i] == s[i + k];
    }
  }

  /** Every character of a contained string occurs in the containing one. */
  lemma ContainedCharIn(s: string, p: string, k: nat)
    requires k < |p|
    ensures Contains(s, p) ==> p[k] in s
  {
    ContainedCharOccurs(s, p, k);
  }

  /** Character `k` of a string contained in `a + b`, where `|a| == k`, occurs in `b`. */
  lemma ContainedCharAfter(s: string, a: string, b: string, p: string, k: nat)
    requires k < |p| && |a| == k && s == a + b
    ensures Contains(s, p) ==> p[k] in b
  {
    ContainedCharOccurs(s, p, k);
    assert s[k..] == b;
  }

  /** Python's `str.isspace()` for one character. */
  predicate IsSpace(c: char) {
    ('\U{9}' <= c <= '\U{D}') || ('\U{1C}' <= c <= '\U{20}') || c == '\U{85}' || c == '\U{A0}'
    || c == '\U{1680}' || ('\U{2000}' <= c <= '\U{200A}') || c == '\U{2028}' || c == '\U{2029}'
    || c == '\U{202F}' || c == '\U{205F}' || c == '\U{3000}'
  }

  /** Every character of `s[i..j]` is whitespace. */
  predicate SpaceBetween(s: string, i: int, j: int)
    requires 0 <= i <= j <= |s|
  {
    forall k :: i <= k < j ==> IsSpace(s[k])
  }

  /** Number of whitespace characters at the front of `s`. */
  function LeadingSpace(s: string): (n: nat)
    ensures n <= |s|
  {
    if |s| > 0 && IsSpace(s[0]) then LeadingSpace(s[1..]) + 1 else 0
  }

  /** Number of whitespace characters at the back of `s`. */
  function TrailingSpace(s: string): (n: nat)
    ensures n <= |s|
  {
    if |s| > 0 && IsSpace(s[|s| - 1]) then TrailingSpace(s[..|s| - 1]) + 1 else 0
  }

  /** `s.lstrip()`: drop whitespace from the front. */
  function TrimStart(s: string): string {
    if |s| > 0 && IsSpace(s[0]) then TrimStart(s[1..]) else s
  }

  /** `s.rstrip()`: drop whitespace from the back. */
  function TrimEnd(s: string): string {
    if |s| > 0 && IsSpace(s[|s| - 1]) then TrimEnd(s[..|s| - 1]) else s
  }

  /** Python's `s.strip()`: drop leading and trailing whitespace. */
  function Strip(s: string): string {
    TrimStart(TrimEnd(s))
  }

  /** `lstrip()` drops exactly the leading run of whitespace. */
  lemma {:induction false} TrimStartIsSuffix(s: string)
    ensures var n := LeadingSpace(s);
      TrimStart(s) == s[n..] && SpaceBetween(s, 0, n) && (n < |s| ==> !IsSpace(s[n]))
    decreases |s|
  {
    if |s| > 0 && IsSpace(s[0]) {
      var t := s[1..];
      TrimStartIsSuffix(t);
      var m := LeadingSpace(t);
      assert t[m..] == s[m + 1..];
      forall k | 0 < k < m + 1
        ensures IsSpace(s[k])
      {
        assert s[k] == t[k - 1];
      }
    }
  }

  /** `rstrip()` drops exactly the trailing run of whitespace. */
  lemma {:induction false} TrimEndIsPrefix(s: string)
    ensures var n := TrailingSpace(s);
      TrimEnd(s) == s[..|s| - n] && SpaceBetween(s, |s| - n, |s|) && (n < |s| ==> !IsSpace(s[|s| - n - 1]))
    decreases |s|
  {
    if |s| > 0 && IsSpace(s[|s| - 1]) {
      var t := s[..|s| - 1];
      TrimEndIsPrefix(t);
      var m := TrailingSpace(t);
      assert t[..|t| - m] == s[..|s| - m - 1];
      forall k | |s| - m - 1 <= k < |s| - 1
        ensures IsSpace(s[k])
      {
        assert s[k] == t[k];
      }
    }
  }

  /**
   * What `strip()` promises: the result is the slice of `s` left after removing
   * a run of whitespace at each end, and it neither starts nor ends with whitespace.
   */
  lemma StripIsTrimmedSlice(s: string)
    ensures var r := Strip(s);
      exists i, j :: 0 <= i <= j <= |s| && r == s[i..j] && SpaceBetween(s, 0, i) && SpaceBetween(s, j, |s|)
    ensures var r := Strip(s); r != [] ==> !IsSpace(r[0]) && !IsSpace(r[|r| - 1])
  {
    var j := |s| - TrailingSpace(s);
    var t := s[..j];
    TrimEndIsPrefix(s);
    TrimStartIsSuffix(t);
    var i := LeadingSpace(t);
    assert Strip(s) == s[i..j];
    assert SpaceBetween(s, 0, i) by {
      forall k | 0 <= k < i
        ensures IsSpace(s[k])
      {
        assert s[k] == t[k];
      }
    }
    if i < j {
      assert Strip(s)[0] == t[i];
      assert Strip(s)[j - i - 1] == s[j - 1];
    }
  }

  /** A string with no whitespace at either end is left unchanged. */
  lemma StripFixesTrimmed(s: string)
    requires s != [] ==> !IsSpace(s[0]) && !IsSpace(s[|s| - 1])
    ensures Strip(s) == s
  {
  }

  /** `strip()` is idempotent. */
  lemma StripIdempotent(s: string)
    ensures Strip(Strip(s)) == Strip(s)
  {
    StripIsTrimmedSlice(s);
    StripFixesTrimmed(Strip(s));
  }

  function DigitChar(d: nat): (c: char)
    requires d < 10
    ensures '0' <= c <= '9'
  {
    ('0' as int + d) as char
  }

  function DigitValue(c: char): (d: nat)
    requires '0' <= c <= '9'
    ensures d < 10
  {
    (c as int - '0' as int) as nat
  }

  predicate IsDigits(s: string) {
    |s| > 0 && forall i :: 0 <= i < |s| ==> '0' <= s[i] <= '9'
  }

  /** Decimal digits of a natural number, most significant first, no leading zeros. */
  function NatToDecimal(n: nat): (s: string)
    ensures IsDigits(s)
    ensures |s| > 1 ==> s[0] != '0'
  {
    if n < 10 then [DigitChar(n)] else NatToDecimal(n / 10) + [DigitChar(n % 10)]
  }

  /** Python's `"%d" % i`. */
  function IntToDecimal(i: int): string {
    if i < 0 then "-" + NatToDecimal(-i) else NatToDecimal(i)
  }

  /** Reads a string of decimal digits back as a number. */
  function DecimalToNat(s: string): nat
    requires IsDigits(s)
  {
    if |s| == 1 then DigitValue(s[0])
    else DecimalToNat(s[..|s| - 1]) * 10 + DigitValue(s[|s| - 1])
  }

  /** Reads an optionally signed decimal string back as an integer. */
  function DecimalToInt(s: string): int
    requires IsDigits(s) || (|s| > 1 && s[0] == '-' && IsDigits(s[1..]))
  {
    if s[0] == '-' then 0 - DecimalToNat(s[1..]) else DecimalToNat(s)
  }

  lemma {:induction false} NatDecimalRoundTrip(n: nat)
    ensures DecimalToNat(NatToDecimal(n)) == n
  {
    if n >= 10 {
      var s := NatToDecimal(n);
      assert s[..|s| - 1] == NatToDecimal(n / 10);
      NatDecimalRoundTrip(n / 10);
    }
  }

  /** `%d` formatting can be read back, so distinct numbers print differently. */
  lemma IntDecimalRoundTrip(i: int)
    ensures var s := IntToDecimal(i);
      (IsDigits(s) || (|s| > 1 && s[0] == '-' && IsDigits(s[1..]))) && DecimalToInt(s) == i
  {
    if i < 0 {
      var s := IntToDecimal(i);
      assert s[1..] == NatToDecimal(-i);
      NatDecimalRoundTrip(-i);
    } else {
      NatDecimalRoundTrip(i);
    }
  }
}
