/** Exact currency arithmetic shared by the tax walks: the `Math.min` and
    `Math.max` clamps of the calculator, and the sum of a list of amounts. */
module Money {

  /** `Math.min` on two amounts. */
  function Min(a: real, b: real): (m: real)
    ensures m <= a && m <= b
    ensures m == a || m == b
  {
    if a <= b then a else b
  }

  /** `Math.max` on two amounts. */
  function Max(a: real, b: real): (m: real)
    ensures a <= m && b <= m
    ensures m == a || m == b
  {
    if a >= b then a else b
  }

  /** Sum of a list of amounts, first element first. */
  function Sum(xs: seq<real>): real
  {
    if |xs| == 0 then 0.0 else xs[0] + Sum(xs[1..])
  }

  /** Charging a non-negative amount at a rate in [0, 1] costs between
      nothing and the amount itself. */
  lemma ScaleWithinAmount(x: real, rate: real)
    requires 0.0 <= x
    requires 0.0 <= rate <= 1.0
    ensures 0.0 <= x * rate <= x
  {
  }

  /** Charging at a non-negative rate preserves order. */
  lemma ScaleMonotone(x: real, y: real, rate: real)
    requires x <= y
    requires 0.0 <= rate
    ensures x * rate <= y * rate
  {
  }

  /** Charging `a` is charging `b` and then the difference. */
  lemma SplitProduct(a: real, b: real, rate: real)
    ensures a * rate == b * rate + (a - b) * rate
  {
  }

  /** Charging `a` is charging `b` and then the difference `d`. */
  lemma SplitCharge(a: real, b: real, d: real, rate: real)
    requires d == a - b
    ensures a * rate == b * rate + d * rate
  {
    SplitProduct(a, b, rate);
  }

  lemma Distribute(a: real, b: real, rate: real)
    ensures (a + b) * rate == a * rate + b * rate
  {
  }

  /** Charging a non-negative amount at a higher rate never costs less. */
  lemma RateMonotone(x: real, r1: real, r2: real)
    requires 0.0 <= x
    requires r1 <= r2
    ensures x * r1 <= x * r2
  {
  }
}
