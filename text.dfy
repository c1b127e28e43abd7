/**
 * Decimal rendering of non-negative integers, as a template literal
 * `${n}` renders a timestamp or an index.
 */
module Text {

  predicate IsDigit(c: char) {
    '0' <= c <= '9'
  }

  function DigitChar(d: nat): (c: char)
    requires d < 10
    ensures IsDigit(c)
    ensures c as int - '0' as int == d
  {
    "0123456789"[d]
  }

  /** The decimal numeral of `n`, without sign or leading zeros. */
  function NatToString(n: nat): (s: string)
    ensures |s| >= 1
    ensures forall i :: 0 <= i < |s| ==> IsDigit(s[i])
    ensures n >= 10 ==> |s| >= 2
  {
    if n < 10 then [DigitChar(n)] else NatToString(n / 10) + [DigitChar(n % 10)]
  }

  /** Distinct numbers have distinct numerals. */
  lemma {:induction false} NatToStringInjective(m: nat, n: nat)
    requires NatToString(m) == NatToString(n)
    ensures m == n
  {
    var s := NatToString(m);
    if m < 10 && n < 10 {
      assert s[0] == DigitChar(m) && s[0] == DigitChar(n);
    } else if m >= 10 && n >= 10 {
      var pm, pn := NatToString(m / 10), NatToString(n / 10);
      assert s == pm + [DigitChar(m % 10)];
      assert s == pn + [DigitChar(n % 10)];
      assert s[|s| - 1] == DigitChar(m % 10) == DigitChar(n % 10);
      assert pm == s[..|s| - 1] == pn;
      NatToStringInjective(m / 10, n / 10);
    }
    // One below ten and one not: the numerals differ in length.
  }
}
