/**
 * Decimal rendering of a millisecond clock reading, as a JavaScript template string
 * renders `Date.now()`, and the receipt token create-order builds from it.
 */
module Decimal {

  predicate IsDigit(c: char) {
    '0' <= c <= '9'
  }

  predicate AllDigits(s: string) {
    forall i :: 0 <= i < |s| ==> IsDigit(s[i])
  }

  function DigitChar(d: nat): (c: char)
    requires d < 10
    ensures IsDigit(c) && c as int - '0' as int == d
  {
    ('0' as int + d) as char
  }

  /** The shortest decimal numeral of `n`: digits only, no leading zero. */
  function Digits(n: nat): (s: string)
    ensures |s| >= 1 && AllDigits(s)
    ensures |s| > 1 ==> s[0] != '0'
    decreases n
  {
    if n < 10 then [DigitChar(n)] else Digits(n / 10) + [DigitChar(n % 10)]
  }

  /** The number a string of digits denotes. */
  function Value(s: string): nat
    requires AllDigits(s)
  {
    if |s| == 0 then 0 else Value(s[..|s| - 1]) * 10 + (s[|s| - 1] as int - '0' as int)
  }

  /** Reading a rendered numeral back gives the number. */
  lemma {:induction false} ValueOfDigits(n: nat)
    ensures Value(Digits(n)) == n
    decreases n
  {
    if n >= 10 {
      var s := Digits(n);
      assert s[..|s| - 1] == Digits(n / 10);
      ValueOfDigits(n / 10);
    }
  }

  /** Different clock readings render differently. */
  lemma DigitsInjective(m: nat, n: nat)
    ensures Digits(m) == Digits(n) ==> m == n
  {
    ValueOfDigits(m);
    ValueOfDigits(n);
  }

  /** The receipt token `order_<milliseconds>` sent to the gateway. */
  function Receipt(nowMillis: nat): (r: string)
    ensures |r| > 6 && r[..6] == "order_" && AllDigits(r[6..])
    ensures |r| == 7 || r[6] != '0'
    ensures Value(r[6..]) == nowMillis
  {
    ValueOfDigits(nowMillis);
    "order_" + Digits(nowMillis)
  }

  /** Two requests made at different milliseconds carry different receipts. */
  lemma ReceiptsDistinct(m: nat, n: nat)
    requires m != n
    ensures Receipt(m) != Receipt(n)
  {
  }
}
