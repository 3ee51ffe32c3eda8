/**
 * The forwarding fee `base_fee + int(amount * fee_rate)`.
 *
 * The float fee rate is modelled as a non-negative rational `num / den`;
 * Python's `int(...)` truncates toward zero, which is written out here
 * because Dafny's `/` rounds toward negative infinity.
 */
module Fees {

  type Positive = n: nat | n > 0 witness 1

  /** A fee rate `num / den`. */
  datatype Rate = Rate(num: nat, den: Positive)

  /** Euclidean division of a non-negative number leaves a remainder below the divisor. */
  lemma DivBounds(p: nat, d: Positive)
    ensures 0 <= p / d && 0 <= (p / d) * d <= p < (p / d) * d + d
  {
    assert p == (p / d) * d + p % d;
  }

  /** Multiplying by a non-negative factor keeps the order. */
  lemma MulMonotone(x: int, y: int, d: nat)
    requires x <= y
    ensures x * d <= y * d
  {
    assert y * d - x * d == (y - x) * d;
  }

  /** Products with a non-negative factor grow with the other factor; `(x + 1) * d` is one `d` past `x * d`. */
  lemma MulStep(x: int, y: int, d: nat)
    ensures x <= y ==> x * d <= y * d
    ensures (x - 1) * d == x * d - d
  {
    if x <= y {
      MulMonotone(x, y, d);
    }
  }

  /**
   * `int(amount * rate)`: the product truncated toward zero. The result times
   * the denominator lies within one denominator of the product, on the side
   * of zero.
   */
  function Scaled(amount: int, rate: Rate): (r: int)
    ensures amount * rate.num >= 0 ==> 0 <= r * rate.den <= amount * rate.num < r * rate.den + rate.den
    ensures amount * rate.num < 0 ==> r * rate.den - rate.den < amount * rate.num <= r * rate.den <= 0
  {
    var p := amount * rate.num;
    if p >= 0 then
      DivBounds(p, rate.den);
      p / rate.den
    else
      var q := (-p) / rate.den;
      DivBounds(-p, rate.den);
      assert (-q) * rate.den == -(q * rate.den);
      -q
  }

  /** `calculate_fee`: the base fee plus the proportional part. */
  function Fee(baseFee: int, rate: Rate, amount: int): (r: int)
    ensures amount >= 0 ==>
              baseFee <= r && (r - baseFee) * rate.den <= amount * rate.num < (r - baseFee + 1) * rate.den
    ensures amount < 0 ==> r <= baseFee
  {
    baseFee + Scaled(amount, rate)
  }

  lemma DivMonotone(p: int, q: int, d: Positive)
    requires 0 <= p <= q
    ensures p / d <= q / d
  {
    var a, b := p / d, q / d;
    DivBounds(p, d);
    DivBounds(q, d);
    if a > b {
      MulStep(b + 1, a, d);
      assert false;
    }
  }

  lemma ScaledMonotone(x: int, y: int, rate: Rate)
    requires x <= y
    ensures Scaled(x, rate) <= Scaled(y, rate)
  {
    var p, q := x * rate.num, y * rate.num;
    MulMonotone(x, y, rate.num);
    if 0 <= p {
      DivMonotone(p, q, rate.den);
    } else if q < 0 {
      DivMonotone(-q, -p, rate.den);
    } else {
      DivBounds(-p, rate.den);
      DivBounds(q, rate.den);
    }
  }

  /** A non-negative amount costs at least the base fee. */
  lemma FeeAtLeastBase(baseFee: int, rate: Rate, amount: int)
    requires amount >= 0
    ensures Fee(baseFee, rate, amount) >= baseFee
  {
    assert amount * rate.num >= 0;
  }

  /** For fixed parameters the fee never decreases as the amount grows. */
  lemma FeeMonotone(baseFee: int, rate: Rate, x: int, y: int)
    requires x <= y
    ensures Fee(baseFee, rate, x) <= Fee(baseFee, rate, y)
  {
    ScaledMonotone(x, y, rate);
  }
}
