/** Decimal notation of natural numbers, most significant digit first. */
module Decimal {

  type Digit = d: int | 0 <= d < 10

  function Digits(n: nat): (ds: seq<Digit>)
    ensures ds != []
  {
    if n < 10 then [n] else Digits(n / 10) + [n % 10]
  }

  /** Printed in base ten, as strconv.Itoa does for a non-negative integer. */
  function Text(n: nat): string {
    var ds := Digits(n);
    seq(|ds|, i requires 0 <= i < |ds| => '0' + ds[i] as char)
  }
}
