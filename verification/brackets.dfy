/** The progressive bracket walk that the calculator writes out twice, once for
    federal ordinary income and once for graduated state income.  The walk
    keeps the amount still to tax and the upper limit of the previous bracket;
    in each bracket it takes `min(remaining, limit - prevLimit)`, charges that
    slice at the bracket's rate, and stops as soon as nothing remains. */
module Brackets {
  import opened Money

  /** A bracket's upper limit: a finite amount, or JavaScript's `Infinity`. */
  datatype Limit = Finite(value: real) | Unbounded

  datatype Bracket = Bracket(rate: real, limit: Limit)

  /** Rates are fractions in [0, 1], finite limits rise strictly above `prev`,
      and an unbounded limit can only close the list. */
  predicate AscendingFrom(prev: real, bs: seq<Bracket>)
    decreases |bs|
  {
    |bs| == 0 ||
    (0.0 <= bs[0].rate <= 1.0 &&
     match bs[0].limit
     case Unbounded => |bs| == 1
     case Finite(l) => prev < l && AscendingFrom(l, bs[1..]))
  }

  /** The shape every bracket list of the rate table has: non-empty, ascending
      from zero, and closed by an unbounded bracket. */
  predicate WellFormed(bs: seq<Bracket>)
  {
    |bs| > 0 && bs[|bs| - 1].limit.Unbounded? && AscendingFrom(0.0, bs)
  }

  /** Every rate of the list lies in [0, 1]. */
  predicate RatesWithin(bs: seq<Bracket>)
    decreases |bs|
  {
    |bs| == 0 || (0.0 <= bs[0].rate <= 1.0 && RatesWithin(bs[1..]))
  }

  /** Some bracket of the list is unbounded. */
  predicate HasUnbounded(bs: seq<Bracket>)
    decreases |bs|
  {
    |bs| > 0 && (bs[0].limit.Unbounded? || HasUnbounded(bs[1..]))
  }

  /** Every rate of the list is at least `floor`. */
  predicate RatesAtLeast(bs: seq<Bracket>, floor: real)
    decreases |bs|
  {
    |bs| == 0 || (floor <= bs[0].rate && RatesAtLeast(bs[1..], floor))
  }

  /** Rates never fall from one bracket to the next: each is a floor for all
      those after it. */
  predicate RatesRising(bs: seq<Bracket>)
    decreases |bs|
  {
    |bs| == 0 || (RatesAtLeast(bs[1..], bs[0].rate) && RatesRising(bs[1..]))
  }

  /** A bracket list as the rate table stores it. */
  type Schedule = bs: seq<Bracket> | WellFormed(bs) witness [Bracket(0.0, Unbounded)]

  /** The slice taken in bracket `b` whose lower edge is `prev`:
      `Math.min(remaining, b.limit - prev)`, where an infinite limit leaves
      the whole remaining amount. */
  function SliceIn(remaining: real, prev: real, b: Bracket): real
  {
    match b.limit
    case Unbounded => remaining
    case Finite(l) => Min(remaining, l - prev)
  }

  /** The lower edge of the next bracket.  After an unbounded bracket the
      remaining amount is zero and the walk stops before reading it again,
      so the previous edge is simply kept. */
  function EdgeAfter(prev: real, b: Bracket): real
  {
    match b.limit
    case Unbounded => prev
    case Finite(l) => l
  }

  /** The slices the walk takes, one per bracket visited. */
  function Slices(remaining: real, prev: real, bs: seq<Bracket>): (s: seq<real>)
    ensures |s| <= |bs|
    decreases |bs|
  {
    if |bs| == 0 || remaining <= 0.0 then []
    else
      var x := SliceIn(remaining, prev, bs[0]);
      [x] + Slices(remaining - x, EdgeAfter(prev, bs[0]), bs[1..])
  }

  /** Tax accumulated by the walk from the given state to its end. */
  function TaxFrom(remaining: real, prev: real, bs: seq<Bracket>): real
    decreases |bs|
  {
    if |bs| == 0 || remaining <= 0.0 then 0.0
    else
      var x := SliceIn(remaining, prev, bs[0]);
      x * bs[0].rate + TaxFrom(remaining - x, EdgeAfter(prev, bs[0]), bs[1..])
  }

  /** Tax on `amount` under brackets `bs`, the walk starting at limit 0. */
  function BracketTax(amount: real, bs: seq<Bracket>): real
  {
    TaxFrom(amount, 0.0, bs)
  }

  /** Lower edge of bracket `i` when the walk starts at `prev`. */
  function LowerEdge(prev: real, bs: seq<Bracket>, i: nat): real
    requires i < |bs|
    decreases i
  {
    if i == 0 then prev else LowerEdge(EdgeAfter(prev, bs[0]), bs[1..], i - 1)
  }

  /** Sum of each slice times the rate of the bracket it was taken in. */
  function WeightedSum(s: seq<real>, bs: seq<Bracket>): real
    requires |s| <= |bs|
  {
    if |s| == 0 then 0.0 else s[0] * bs[0].rate + WeightedSum(s[1..], bs[1..])
  }

  lemma WellFormedHasUnbounded(bs: seq<Bracket>)
    requires WellFormed(bs)
    ensures HasUnbounded(bs)
  {
    LastUnbounded(bs);
  }

  /** A list closed by an unbounded bracket has one. */
  lemma {:induction false} LastUnbounded(bs: seq<Bracket>)
    requires |bs| > 0 && bs[|bs| - 1].limit.Unbounded?
    ensures HasUnbounded(bs)
    decreases |bs|
  {
    if bs[0].limit.Finite? {
      assert bs[1..][|bs| - 2] == bs[|bs| - 1];
      LastUnbounded(bs[1..]);
    }
  }

  /** Past a finite first bracket the unbounded one is still ahead. */
  lemma HasUnboundedTail(bs: seq<Bracket>)
    requires HasUnbounded(bs) && bs[0].limit.Finite?
    ensures HasUnbounded(bs[1..])
  {
  }

  lemma RatesAtLeastTail(bs: seq<Bracket>, floor: real)
    requires |bs| > 0 && RatesAtLeast(bs, floor)
    ensures floor <= bs[0].rate
    ensures RatesAtLeast(bs[1..], floor)
  {
  }

  /** Under rising rates the first rate is the floor of the list, and the rest
      of the list still rises. */
  lemma RatesRisingTail(bs: seq<Bracket>)
    requires |bs| > 0 && RatesRising(bs)
    ensures RatesAtLeast(bs, bs[0].rate)
    ensures RatesRising(bs[1..])
  {
  }

  /** On an ascending list no rate is negative. */
  lemma {:induction false} AscendingRatesAtLeastZero(prev: real, bs: seq<Bracket>)
    requires AscendingFrom(prev, bs)
    ensures RatesAtLeast(bs, 0.0)
    decreases |bs|
  {
    if |bs| > 0 {
      AscendingRatesAtLeastZero(EdgeAfter(prev, bs[0]), bs[1..]);
    }
  }

  lemma {:induction false} AscendingRatesWithin(prev: real, bs: seq<Bracket>)
    requires AscendingFrom(prev, bs)
    ensures RatesWithin(bs)
    decreases |bs|
  {
    if |bs| > 0 {
      AscendingRatesWithin(EdgeAfter(prev, bs[0]), bs[1..]);
    }
  }

  /** A zero or negative amount breaks out of the walk at once. */
  lemma NothingToTax(amount: real, prev: real, bs: seq<Bracket>)
    requires amount <= 0.0
    ensures Slices(amount, prev, bs) == []
    ensures TaxFrom(amount, prev, bs) == 0.0
  {
  }

  /** The tax is the rate-weighted sum of the slices taken. */
  lemma {:induction false} TaxIsWeightedSlices(remaining: real, prev: real, bs: seq<Bracket>)
    ensures TaxFrom(remaining, prev, bs) == WeightedSum(Slices(remaining, prev, bs), bs)
    decreases |bs|
  {
    if |bs| == 0 || remaining <= 0.0 {
    } else {
      var x := SliceIn(remaining, prev, bs[0]);
      var rest := Slices(remaining - x, EdgeAfter(prev, bs[0]), bs[1..]);
      TaxIsWeightedSlices(remaining - x, EdgeAfter(prev, bs[0]), bs[1..]);
      assert ([x] + rest)[1..] == rest;
    }
  }

  /** With an unbounded bracket somewhere in the list, the slices of a positive
      amount add up to exactly that amount. */
  lemma {:induction false} SlicesSumToAmount(remaining: real, prev: real, bs: seq<Bracket>)
    requires remaining > 0.0
    requires HasUnbounded(bs)
    ensures Sum(Slices(remaining, prev, bs)) == remaining
    decreases |bs|
  {
    var x := SliceIn(remaining, prev, bs[0]);
    var rest := Slices(remaining - x, EdgeAfter(prev, bs[0]), bs[1..]);
    assert ([x] + rest)[1..] == rest;
    if remaining - x > 0.0 {
      HasUnboundedTail(bs);
      SlicesSumToAmount(remaining - x, EdgeAfter(prev, bs[0]), bs[1..]);
    }
  }

  /** On an ascending list every slice is non-negative and no wider than its
      bracket. */
  lemma {:induction false} SlicesWithinBrackets(remaining: real, prev: real, bs: seq<Bracket>)
    requires AscendingFrom(prev, bs)
    ensures var s := Slices(remaining, prev, bs);
      forall i :: 0 <= i < |s| ==>
        0.0 <= s[i] &&
        (bs[i].limit.Finite? ==> s[i] <= bs[i].limit.value - LowerEdge(prev, bs, i))
    decreases |bs|
  {
    if |bs| == 0 || remaining <= 0.0 {
    } else {
      var x := SliceIn(remaining, prev, bs[0]);
      var p' := EdgeAfter(prev, bs[0]);
      var rest := Slices(remaining - x, p', bs[1..]);
      var s := [x] + rest;
      SlicesWithinBrackets(remaining - x, p', bs[1..]);
      forall i | 1 <= i < |s|
        ensures 0.0 <= s[i]
        ensures bs[i].limit.Finite? ==> s[i] <= bs[i].limit.value - LowerEdge(prev, bs, i)
      {
        assert s[i] == rest[i - 1];
        assert bs[i] == bs[1..][i - 1];
      }
    }
  }

  /** On an ascending list with rates in [0, 1] the tax lies between zero and
      the amount taxed. */
  lemma {:induction false} TaxBounds(remaining: real, prev: real, bs: seq<Bracket>)
    requires AscendingFrom(prev, bs)
    ensures 0.0 <= TaxFrom(remaining, prev, bs) <= Max(0.0, remaining)
    decreases |bs|
  {
    if |bs| == 0 || remaining <= 0.0 {
    } else {
      var x := SliceIn(remaining, prev, bs[0]);
      var p' := EdgeAfter(prev, bs[0]);
      SliceWithinRemaining(remaining, prev, bs);
      TaxBounds(remaining - x, p', bs[1..]);
      StepWithin(x, bs[0].rate, TaxFrom(remaining - x, p', bs[1..]), remaining);
    }
  }

  /** One step of the walk: a slice charged at a rate in [0, 1], followed by
      at most what is left, costs at most the whole. */
  lemma StepWithin(x: real, rate: real, rest: real, remaining: real)
    requires 0.0 <= x <= remaining
    requires 0.0 <= rate <= 1.0
    requires 0.0 <= rest <= Max(0.0, remaining - x)
    ensures 0.0 <= x * rate + rest <= Max(0.0, remaining)
  {
    ScaleWithinAmount(x, rate);
  }

  /** The first slice of a positive amount on an ascending list is neither
      negative nor more than the amount, and the rest of the list stays
      ascending from the next edge. */
  lemma SliceWithinRemaining(remaining: real, prev: real, bs: seq<Bracket>)
    requires AscendingFrom(prev, bs)
    requires |bs| > 0 && remaining > 0.0
    ensures 0.0 <= SliceIn(remaining, prev, bs[0]) <= remaining
    ensures AscendingFrom(EdgeAfter(prev, bs[0]), bs[1..])
  {
  }

  /** Taxing more never costs less: the walk is monotone in the amount. */
  lemma {:induction false} TaxMonotone(a: real, b: real, prev: real, bs: seq<Bracket>)
    requires AscendingFrom(prev, bs)
    requires a <= b
    ensures TaxFrom(a, prev, bs) <= TaxFrom(b, prev, bs)
    decreases |bs|
  {
    if |bs| == 0 {
    } else if a <= 0.0 {
      TaxBounds(b, prev, bs);
    } else {
      var xa := SliceIn(a, prev, bs[0]);
      var xb := SliceIn(b, prev, bs[0]);
      var r := bs[0].rate;
      SliceInMonotone(a, b, prev, bs[0]);
      ScaleMonotone(xa, xb, r);
      assert TaxFrom(a, prev, bs) == xa * r + TaxFrom(a - xa, EdgeAfter(prev, bs[0]), bs[1..]);
      assert TaxFrom(b, prev, bs) == xb * r + TaxFrom(b - xb, EdgeAfter(prev, bs[0]), bs[1..]);
      TaxMonotone(a - xa, b - xb, EdgeAfter(prev, bs[0]), bs[1..]);
    }
  }

  /** A larger amount takes a slice at least as large and leaves at least as
      much for the brackets above. */
  lemma SliceInMonotone(a: real, b: real, prev: real, bracket: Bracket)
    requires a <= b
    ensures SliceIn(a, prev, bracket) <= SliceIn(b, prev, bracket)
    ensures a - SliceIn(a, prev, bracket) <= b - SliceIn(b, prev, bracket)
  {
  }

  /** The calculator's loop, written as the source writes it. */
  method ComputeBracketTax(amount: real, bs: seq<Bracket>) returns (tax: real)
    ensures tax == BracketTax(amount, bs)
  {
    tax := 0.0;
    var remaining := amount;
    var prevLimit := 0.0;
    var i := 0;
    while i < |bs|
      invariant 0 <= i <= |bs|
      invariant tax + TaxFrom(remaining, prevLimit, bs[i..]) == BracketTax(amount, bs)
    {
      if remaining <= 0.0 {
        break;
      }
      var bracket := bs[i];
      var incomeInBracket := SliceIn(remaining, prevLimit, bracket);
      assert bs[i..][1..] == bs[i + 1..];
      tax := tax + incomeInBracket * bracket.rate;
      remaining := remaining - incomeInBracket;
      prevLimit := EdgeAfter(prevLimit, bracket);
      i := i + 1;
    }
  }
}
