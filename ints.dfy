/** Go's fixed-width unsigned and signed integers, and base-10 text for them
    (what `fmt`'s `%d` prints and what `strconv` parses). */
module Ints {

  const TWO_TO_THE_64: int := 0x1_0000_0000_0000_0000
  const MAX_UINT64: int := TWO_TO_THE_64 - 1
  const MIN_INT64: int := -0x8000_0000_0000_0000
  const MAX_INT64: int := 0x7fff_ffff_ffff_ffff

  /** Go's `uint` and `uint64` (the model assumes a 64-bit platform). */
  type uint64 = x: int | 0 <= x < TWO_TO_THE_64

  type int64 = x: int | MIN_INT64 <= x <= MAX_INT64

  /** The larger of two `uint64`s. */
  function Max(a: uint64, b: uint64): (r: uint64)
    ensures r >= a && r >= b && (r == a || r == b)
  {
    if a >= b then a else b
  }

  /** Unsigned 64-bit wrap-around, as Go's `+`, `-` and `*` on `uint` do. */
  function Wrap(x: int): (r: uint64)
    ensures 0 <= x < TWO_TO_THE_64 ==> r == x
    ensures (r - x) % TWO_TO_THE_64 == 0
  {
    x % TWO_TO_THE_64
  }

  predicate IsDigit(c: char) {
    '0' <= c <= '9'
  }

  predicate AllDigits(s: string) {
    forall i :: 0 <= i < |s| ==> IsDigit(s[i])
  }

  function DigitChar(d: nat): (c: char)
    requires d < 10
    ensures IsDigit(c) && c as int == '0' as int + d
  {
    ('0' as int + d) as char
  }

  function DigitValue(c: char): (d: nat)
    requires IsDigit(c)
    ensures d < 10 && DigitChar(d) == c
  {
    (c as int - '0' as int) as nat
  }

  /** The number a string of decimal digits denotes. */
  function DecimalValue(s: string): nat
    requires AllDigits(s)
  {
    if s == [] then 0 else DecimalValue(s[..|s| - 1]) * 10 + DigitValue(s[|s| - 1])
  }

  /** `fmt.Sprintf("%d", n)` for a non-negative `n`: canonical base-10 digits, no leading zero. */
  function DecimalString(n: nat): (r: string)
    ensures |r| > 0 && AllDigits(r)
    ensures r[0] == '0' ==> r == "0"
  {
    if n < 10 then [DigitChar(n)] else DecimalString(n / 10) + [DigitChar(n % 10)]
  }

  lemma {:induction false} DecimalValueSnoc(s: string, c: char)
    requires AllDigits(s) && IsDigit(c)
    ensures AllDigits(s + [c])
    ensures DecimalValue(s + [c]) == DecimalValue(s) * 10 + DigitValue(c)
  {
    assert (s + [c])[..|s|] == s;
  }

  /** Printing a number in base 10 and reading it back gives the number. */
  lemma {:induction false} DecimalRoundTrip(n: nat)
    ensures DecimalValue(DecimalString(n)) == n
  {
    if n < 10 {
      assert DecimalString(n) == [] + [DigitChar(n)];
      DecimalValueSnoc([], DigitChar(n));
    } else {
      var q, r := n / 10, n % 10;
      assert n == q * 10 + r;
      DecimalRoundTrip(q);
      DecimalValueSnoc(DecimalString(q), DigitChar(r));
      assert DigitValue(DigitChar(r)) == r;
    }
  }
}
