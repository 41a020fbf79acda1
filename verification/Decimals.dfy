/** Decimal numerals, as strconv.FormatInt and fmt's %d write them: the keys of the webhook table and of the client
    cache are built from them. */
module Decimals {

  function Digit(d: nat): char
    requires d < 10
  {
    '0' + d as char
  }

  function Format(n: nat): string {
    if n < 10 then [Digit(n)] else Format(n / 10) + [Digit(n % 10)]
  }

  function FormatInt(i: int): string {
    if i < 0 then "-" + Format(-i) else Format(i)
  }

  lemma {:induction false} FormatIsDigits(n: nat)
    ensures Format(n) != "" && forall c :: c in Format(n) ==> '0' <= c <= '9'
  {
    if n >= 10 { FormatIsDigits(n / 10); }
  }

  /** The number that a string of digits stands for. */
  function ValueOf(digits: string): nat
    requires forall c :: c in digits ==> '0' <= c <= '9'
  {
    if digits == "" then 0
    else
      var n := |digits| - 1;
      assert digits[n] in digits && forall c :: c in digits[..n] ==> c in digits;
      10 * ValueOf(digits[..n]) + (digits[n] as int - '0' as int)
  }

  /** A numeral reads back as its number, and has no zero in front. */
  lemma {:induction false} FormatReadsBack(n: nat)
    ensures (forall c :: c in Format(n) ==> '0' <= c <= '9') && ValueOf(Format(n)) == n
    ensures Format(n)[..1] == "0" ==> n == 0
  {
    FormatIsDigits(n);
    if n >= 10 {
      FormatReadsBack(n / 10);
      FormatIsDigits(n / 10);
      assert Format(n)[..|Format(n)| - 1] == Format(n / 10);
      assert Format(n)[..1] == Format(n / 10)[..1];
    } else {
      assert Format(n)[..0] == "" && Format(n)[0] == Digit(n);
    }
  }

  lemma {:induction false} FormatIsInjective(m: nat, n: nat)
    requires Format(m) == Format(n)
    ensures m == n
  {
    FormatIsDigits(m / 10);
    FormatIsDigits(n / 10);
    assert m >= 10 ==> |Format(m)| > 1;
    assert n >= 10 ==> |Format(n)| > 1;
    if m >= 10 && n >= 10 {
      assert Format(m)[..|Format(m)| - 1] == Format(m / 10);
      assert Format(n)[..|Format(n)| - 1] == Format(n / 10);
      assert Format(m)[|Format(m)| - 1] == Digit(m % 10) && Format(n)[|Format(n)| - 1] == Digit(n % 10);
      FormatIsInjective(m / 10, n / 10);
    }
  }

  /** Different numbers are written differently. */
  lemma FormatIntIsInjective(i: int, j: int)
    requires FormatInt(i) == FormatInt(j)
    ensures i == j
  {
    FormatIsDigits(if i < 0 then -i else i);
    FormatIsDigits(if j < 0 then -j else j);
    assert i >= 0 ==> FormatInt(i)[0] in Format(i);
    assert j >= 0 ==> FormatInt(j)[0] in Format(j);
    assert FormatInt(i)[0] == '-' <==> i < 0;
    assert FormatInt(j)[0] == '-' <==> j < 0;
    if i < 0 {
      assert FormatInt(i)[1..] == Format(-i) && FormatInt(j)[1..] == Format(-j);
      FormatIsInjective(-i, -j);
    } else {
      FormatIsInjective(i, j);
    }
  }
}
