/**
 * The JavaScript string operations the core relies on, over `seq<char>`:
 * `toLowerCase`, `toUpperCase`, `includes`, `substring` and the decimal
 * rendering of a non-negative integer (`'REF-' + n`).
 * Case mapping covers the ASCII letters only.
 */
module Text {

  predicate IsDigit(c: char) { '0' <= c <= '9' }

  predicate IsLowerLetter(c: char) { 'a' <= c <= 'z' }

  predicate IsUpperLetter(c: char) { 'A' <= c <= 'Z' }

  function LowerChar(c: char): char {
    if IsUpperLetter(c) then (c as int + 32) as char else c
  }

  function UpperChar(c: char): char {
    if IsLowerLetter(c) then (c as int - 32) as char else c
  }

  /** `s.toLowerCase()` */
  function Lower(s: string): (r: string)
    ensures |r| == |s|
    ensures forall i :: 0 <= i < |s| ==> r[i] == LowerChar(s[i])
  {
    if s == [] then [] else [LowerChar(s[0])] + Lower(s[1..])
  }

  /** `s.toUpperCase()` */
  function Upper(s: string): (r: string)
    ensures |r| == |s|
    ensures forall i :: 0 <= i < |s| ==> r[i] == UpperChar(s[i])
  {
    if s == [] then [] else [UpperChar(s[0])] + Upper(s[1..])
  }

  predicate StartsWith(s: string, prefix: string) {
    |prefix| <= |s| && s[..|prefix|] == prefix
  }

  /** `s.includes(t)`: `t` occurs in `s` at some position. */
  predicate Includes(s: string, t: string) {
    exists i | 0 <= i <= |s| :: StartsWith(s[i..], t)
  }

  lemma IncludesEmpty(s: string)
    ensures Includes(s, "")
  {
    assert StartsWith(s[0..], "");
  }

  /**
   * `s.substring(start, end)`: both indices are clamped to the length of
   * `s`, and swapped when `start` is the larger.
   */
  function Substring(s: string, start: nat, end: nat): (r: string)
    ensures start <= end ==> |r| <= end - start
    ensures start <= end && end <= |s| ==> r == s[start..end]
    ensures start <= end && start <= |s| <= end ==> r == s[start..]
    ensures |s| <= start && |s| <= end ==> r == ""
  {
    var a := if start < |s| then start else |s|;
    var b := if end < |s| then end else |s|;
    if a <= b then s[a..b] else s[b..a]
  }

  function DigitChar(d: nat): char
    requires d < 10
  {
    ('0' as int + d) as char
  }

  function DigitValue(c: char): int {
    c as int - '0' as int
  }

  /** The decimal text JavaScript gives a non-negative integer, no leading zeros. */
  function DecimalString(n: nat): (s: string)
    ensures 1 <= |s|
    ensures forall i :: 0 <= i < |s| ==> IsDigit(s[i])
    ensures n >= 10 ==> s[0] != '0'
    decreases n
  {
    if n < 10 then [DigitChar(n)] else DecimalString(n / 10) + [DigitChar(n % 10)]
  }

  /** Reads a string of decimal digits back as a number. */
  function ParseDecimal(s: string): int
    decreases |s|
  {
    if s == [] then 0 else ParseDecimal(s[..|s| - 1]) * 10 + DigitValue(s[|s| - 1])
  }

  /** Rendering a number and parsing the text back gives the number again. */
  lemma {:induction false} ParseDecimalString(n: nat)
    ensures ParseDecimal(DecimalString(n)) == n
    decreases n
  {
    if n >= 10 {
      var s := DecimalString(n);
      assert s[..|s| - 1] == DecimalString(n / 10);
      ParseDecimalString(n / 10);
    }
  }

  /** Every number in [10^(k-1), 10^k) is written with k digits; here k = 6. */
  lemma SixDigitLength(n: nat)
    requires 100000 <= n <= 999999
    ensures |DecimalString(n)| == 6
  {
    var n1 := n / 10;
    var n2 := n1 / 10;
    var n3 := n2 / 10;
    var n4 := n3 / 10;
    var n5 := n4 / 10;
    assert 1 <= n5 <= 9;
    assert |DecimalString(n5)| == 1;
    assert |DecimalString(n4)| == 2;
    assert |DecimalString(n3)| == 3;
    assert |DecimalString(n2)| == 4;
    assert |DecimalString(n1)| == 5;
  }
}
