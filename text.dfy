/**
 * String helpers shared by the forecast engine and the chat helpers:
 * ASCII `str.lower()`, Python's substring test `t in s`, and decimal
 * digit strings (`str(n)` and `int(digits)`).
 */
module Text {

  // ---------------------------------------------------------------------
  // str.lower(), restricted to ASCII letters
  // ---------------------------------------------------------------------

  predicate IsUpper(c: char) { 'A' <= c <= 'Z' }

  function LowerChar(c: char): char
  {
    if IsUpper(c) then (c as int + 32) as char else c
  }

  const Alphabet: string := "abcdefghijklmnopqrstuvwxyz"

  /** Lowering keeps the length; LowerSpec says what becomes of each character. */
  function Lower(s: string): (r: string)
    ensures |r| == |s|
  {
    seq(|s|, i requires 0 <= i < |s| => LowerChar(s[i]))
  }

  /** Lowering leaves no upper-case letter and changes nothing but letters. */
  lemma LowerSpec(s: string)
    ensures |Lower(s)| == |s|
    ensures forall i :: 0 <= i < |s| ==> !IsUpper(Lower(s)[i])
    ensures forall i :: 0 <= i < |s| && IsUpper(s[i]) ==> Lower(s)[i] == Alphabet[s[i] as int - 'A' as int]
    ensures forall i :: 0 <= i < |s| && !IsUpper(s[i]) ==> Lower(s)[i] == s[i]
  {
  }

  /** Lowering twice is lowering once. */
  lemma LowerIdempotent(s: string)
    ensures Lower(Lower(s)) == Lower(s)
  {
    LowerSpec(s);
  }

  /** Lowering a string with no upper-case letter gives the string back. */
  lemma LowerOfLowercase(s: string)
    requires forall i :: 0 <= i < |s| ==> !IsUpper(s[i])
    ensures Lower(s) == s
  {
  }

  // ---------------------------------------------------------------------
  // Python's `t in s` on strings
  // ---------------------------------------------------------------------

  predicate OccursAt(s: string, t: string, i: nat)
  {
    i + |t| <= |s| && s[i..i + |t|] == t
  }

  predicate Contains(s: string, t: string)
    ensures |t| == 0 ==> Contains(s, t)
    ensures t == s ==> Contains(s, t)
    ensures Contains(s, t) ==> |t| <= |s|
  {
    assert OccursAt(s, t, 0) <== |t| == 0 || t == s;
    exists i: nat | i <= |s| :: OccursAt(s, t, i)
  }

  /** A string contains every string that starts it. */
  lemma ContainsPrefix(s: string, t: string)
    requires |t| <= |s| && s[..|t|] == t
    ensures Contains(s, t)
  {
    assert OccursAt(s, t, 0);
  }

  // ---------------------------------------------------------------------
  // Decimal digit strings
  // ---------------------------------------------------------------------

  predicate IsDigit(c: char) { '0' <= c <= '9' }

  predicate AllDigits(s: string)
  {
    forall i :: 0 <= i < |s| ==> IsDigit(s[i])
  }

  function DigitChar(d: nat): (c: char)
    requires d < 10
    ensures IsDigit(c)
  {
    ('0' as int + d) as char
  }

  function DigitValue(c: char): (d: nat)
    requires IsDigit(c)
    ensures d < 10 && DigitChar(d) == c
  {
    c as int - '0' as int
  }

  /** `str(n)` for a non-negative Python int. */
  function DecimalString(n: nat): (s: string)
    ensures 1 <= |s| && AllDigits(s)
    ensures s[0] == '0' ==> n == 0
    ensures n < 10 <==> |s| == 1
    decreases n
  {
    if n < 10 then [DigitChar(n)] else DecimalString(n / 10) + [DigitChar(n % 10)]
  }

  function Pow10(k: nat): nat
  {
    if k == 0 then 1 else 10 * Pow10(k - 1)
  }

  /**
   * `int(s)` for a string of ASCII digits (leading zeros allowed): below
   * 10^|s|, and zero exactly when every digit is '0'.
   */
  function DigitsValue(s: string): (v: nat)
    requires AllDigits(s)
    ensures v < Pow10(|s|)
    ensures v == 0 <==> forall i :: 0 <= i < |s| ==> s[i] == '0'
  {
    if s == [] then 0
    else
      var prefix := s[..|s| - 1];
      var v := 10 * DigitsValue(prefix) + DigitValue(s[|s| - 1]);
      assert DigitsValue(prefix) <= Pow10(|prefix|) - 1;
      assert (forall i :: 0 <= i < |s| ==> s[i] == '0')
        <==> (forall i :: 0 <= i < |prefix| ==> prefix[i] == '0') && s[|s| - 1] == '0';
      v
  }

  /** A leading zero does not change the value: int("012") == int("12") == 12. */
  lemma {:induction false} DigitsValueLeadingZero(s: string)
    requires AllDigits(s)
    ensures AllDigits(['0'] + s) && DigitsValue(['0'] + s) == DigitsValue(s)
    decreases |s|
  {
    var z := ['0'] + s;
    if s != [] {
      var prefix := s[..|s| - 1];
      DigitsValueLeadingZero(prefix);
      assert z[..|z| - 1] == ['0'] + prefix;
      assert z[|z| - 1] == s[|s| - 1];
    }
  }

  /** Reading back the decimal string of `n` gives `n`. */
  lemma {:induction false} DigitsValueOfDecimal(n: nat)
    ensures DigitsValue(DecimalString(n)) == n
    decreases n
  {
    var s := DecimalString(n);
    if n >= 10 {
      DigitsValueOfDecimal(n / 10);
      assert s[..|s| - 1] == DecimalString(n / 10);
    }
  }

  /** Distinct numbers have distinct decimal strings. */
  lemma DecimalStringInjective(m: nat, n: nat)
    requires m != n
    ensures DecimalString(m) != DecimalString(n)
  {
    DigitsValueOfDecimal(m);
    DigitsValueOfDecimal(n);
  }
}
