/** The letters and digits of ASCII, written out. */
module Alphabets {

  const UPPER := "ABCDEFGHIJKLMNOPQRSTUVWXYZ"
  const LOWER := "abcdefghijklmnopqrstuvwxyz"
  const DIGITS := "0123456789"

  predicate IsUpper(c: char) {
    c in UPPER
  }

  predicate IsLower(c: char) {
    c in LOWER
  }

  predicate IsDigit(c: char) {
    c in DIGITS
  }

  lemma UpperAt(k: nat)
    requires k < 26
    ensures |UPPER| == 26 && UPPER[k] as int == 'A' as int + k
  {
  }

  lemma LowerAt(k: nat)
    requires k < 26
    ensures |LOWER| == 26 && LOWER[k] as int == 'a' as int + k
  {
  }

  lemma DigitAt(k: nat)
    requires k < 10
    ensures |DIGITS| == 10 && DIGITS[k] as int == '0' as int + k
  {
  }

  lemma UpperIs(c: char)
    ensures IsUpper(c) <==> 'A' <= c <= 'Z'
  {
    if k :| 0 <= k < |UPPER| && UPPER[k] == c { UpperAt(k); }
    if 'A' <= c <= 'Z' {
      UpperAt(c as int - 'A' as int);
      assert UPPER[c as int - 'A' as int] == c;
    }
  }

  lemma LowerIs(c: char)
    ensures IsLower(c) <==> 'a' <= c <= 'z'
  {
    if k :| 0 <= k < |LOWER| && LOWER[k] == c { LowerAt(k); }
    if 'a' <= c <= 'z' {
      LowerAt(c as int - 'a' as int);
      assert LOWER[c as int - 'a' as int] == c;
    }
  }

  lemma DigitIs(c: char)
    ensures IsDigit(c) <==> '0' <= c <= '9'
  {
    if k :| 0 <= k < |DIGITS| && DIGITS[k] == c { DigitAt(k); }
    if '0' <= c <= '9' {
      DigitAt(c as int - '0' as int);
      assert DIGITS[c as int - '0' as int] == c;
    }
  }
}
