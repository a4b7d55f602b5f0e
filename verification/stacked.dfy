/** The capital-gains walk: preferential income (qualified dividends and
    long-term gains) is placed on top of taxable ordinary income, so the room
    left in a preferential bracket is its limit minus everything already
    below it -- the ordinary income plus the preferential income taxed so far.
    Unlike the progressive walk, no lower edge is tracked: the room is
    recomputed from the limit alone and clamped at zero. */
module Stacked {
  import opened Money
  import opened Brackets

  /** The room `Math.max(0, limit - used)` left in bracket `b` above `used`,
      and the slice `Math.min(remaining, room)` taken from it; an infinite
      limit leaves room for all that remains. */
  function StackedSlice(remaining: real, used: real, b: Bracket): real
  {
    match b.limit
    case Unbounded => remaining
    case Finite(l) => Min(remaining, Max(0.0, l - used))
  }

  /** Slices taken when `top` is the taxable ordinary income, `pref` the whole
      preferential income and `remaining` what is still untaxed. */
  function StackedSlices(top: real, pref: real, remaining: real, bs: seq<Bracket>): (s: seq<real>)
    ensures |s| <= |bs|
    decreases |bs|
  {
    if |bs| == 0 || remaining <= 0.0 then []
    else
      var x := StackedSlice(remaining, top + (pref - remaining), bs[0]);
      [x] + StackedSlices(top, pref, remaining - x, bs[1..])
  }

  function StackedTaxFrom(top: real, pref: real, remaining: real, bs: seq<Bracket>): real
    decreases |bs|
  {
    if |bs| == 0 || remaining <= 0.0 then 0.0
    else
      var x := StackedSlice(remaining, top + (pref - remaining), bs[0]);
      x * bs[0].rate + StackedTaxFrom(top, pref, remaining - x, bs[1..])
  }

  /** Tax on preferential income `pref` stacked on ordinary income `top`. */
  function CapitalGainsTax(top: real, pref: real, bs: seq<Bracket>): real
  {
    StackedTaxFrom(top, pref, pref, bs)
  }

  /** The tax is the rate-weighted sum of the slices the walk takes. */
  lemma {:induction false} StackedTaxIsWeightedSlices(top: real, pref: real, remaining: real, bs: seq<Bracket>)
    ensures StackedTaxFrom(top, pref, remaining, bs) == WeightedSum(StackedSlices(top, pref, remaining, bs), bs)
    decreases |bs|
  {
    if |bs| == 0 || remaining <= 0.0 {
    } else {
      var x := StackedSlice(remaining, top + (pref - remaining), bs[0]);
      var rest := StackedSlices(top, pref, remaining - x, bs[1..]);
      StackedTaxIsWeightedSlices(top, pref, remaining - x, bs[1..]);
      assert ([x] + rest)[1..] == rest;
    }
  }

  /** With an unbounded bracket in the list, the walk consumes the whole
      remaining preferential amount. */
  lemma {:induction false} StackedConsumesAll(top: real, pref: real, remaining: real, bs: seq<Bracket>)
    requires remaining > 0.0
    requires HasUnbounded(bs)
    ensures Sum(StackedSlices(top, pref, remaining, bs)) == remaining
    decreases |bs|
  {
    var x := StackedSlice(remaining, top + (pref - remaining), bs[0]);
    var rest := StackedSlices(top, pref, remaining - x, bs[1..]);
    assert ([x] + rest)[1..] == rest;
    if remaining - x > 0.0 {
      HasUnboundedTail(bs);
      StackedConsumesAll(top, pref, remaining - x, bs[1..]);
    }
  }

  /** Every slice of `s` is non-negative, and a slice in a finite bracket fits
      in the room between the bracket's limit and `used` plus the slices
      before it. */
  predicate WithinRoom(s: seq<real>, bs: seq<Bracket>, used: real)
    requires |s| <= |bs|
  {
    forall i :: 0 <= i < |s| ==>
      0.0 <= s[i] &&
      (bs[i].limit.Finite? ==> s[i] <= Max(0.0, bs[i].limit.value - (used + Sum(s[..i]))))
  }

  lemma ConsWithinRoom(x: real, rest: seq<real>, bs: seq<Bracket>, used: real)
    requires |rest| < |bs|
    requires 0.0 <= x
    requires bs[0].limit.Finite? ==> x <= Max(0.0, bs[0].limit.value - used)
    requires WithinRoom(rest, bs[1..], used + x)
    ensures WithinRoom([x] + rest, bs, used)
  {
    var s := [x] + rest;
    assert s[..0] == [];
    forall i | 1 <= i < |s|
      ensures 0.0 <= s[i]
      ensures bs[i].limit.Finite? ==> s[i] <= Max(0.0, bs[i].limit.value - (used + Sum(s[..i])))
    {
      assert s[i] == rest[i - 1];
      assert bs[i] == bs[1..][i - 1];
      assert s[..i] == [x] + rest[..i - 1];
      assert Sum(s[..i]) == x + Sum(rest[..i - 1]);
    }
  }

  /** Every slice is non-negative, and a slice in a finite bracket fits in the
      room between the bracket's limit and everything stacked below it: the
      ordinary income, the preferential income taxed before the walk reached
      this state, and the earlier slices. */
  lemma {:induction false} StackedSlicesWithinRoom(top: real, pref: real, remaining: real, bs: seq<Bracket>)
    ensures WithinRoom(StackedSlices(top, pref, remaining, bs), bs, top + (pref - remaining))
    decreases |bs|
  {
    if |bs| == 0 || remaining <= 0.0 {
    } else {
      var used := top + (pref - remaining);
      var x := StackedSlice(remaining, used, bs[0]);
      StackedSliceWithinRemaining(remaining, used, bs[0]);
      StackedSlicesWithinRoom(top, pref, remaining - x, bs[1..]);
      assert top + (pref - (remaining - x)) == used + x;
      ConsWithinRoom(x, StackedSlices(top, pref, remaining - x, bs[1..]), bs, used);
    }
  }

  /** With rates in [0, 1] the preferential tax lies between zero and the
      amount taxed. */
  lemma StackedTaxBounds(top: real, pref: real, remaining: real, bs: seq<Bracket>)
    requires RatesWithin(bs)
    ensures 0.0 <= StackedTaxFrom(top, pref, remaining, bs) <= Max(0.0, remaining)
  {
    StackedTaxIsTaxAbove(top, pref, remaining, bs);
    TaxAboveBounds(top + (pref - remaining), remaining, bs);
  }

  /** `StackedTaxBounds` for the walk seen from the amount already stacked. */
  lemma {:induction false} TaxAboveBounds(used: real, s: real, bs: seq<Bracket>)
    requires RatesWithin(bs)
    ensures 0.0 <= TaxAbove(used, s, bs) <= Max(0.0, s)
    decreases |bs|
  {
    if |bs| > 0 && s > 0.0 {
      var x := StackedSlice(s, used, bs[0]);
      RatesWithinTail(bs);
      TaxAboveBounds(used + x, s - x, bs[1..]);
      BoundsStep(used, s, bs);
    }
  }

  /** One step of `TaxAboveBounds`: a first slice at a rate in [0, 1], then at
      most what is left, costs at most the whole. */
  lemma BoundsStep(used: real, s: real, bs: seq<Bracket>)
    requires s > 0.0 && |bs| > 0
    requires 0.0 <= bs[0].rate <= 1.0
    requires var x := StackedSlice(s, used, bs[0]);
      0.0 <= TaxAbove(used + x, s - x, bs[1..]) <= Max(0.0, s - x)
    ensures 0.0 <= TaxAbove(used, s, bs) <= Max(0.0, s)
  {
    var x := StackedSlice(s, used, bs[0]);
    StackedSliceWithinRemaining(s, used, bs[0]);
    TaxAboveStep(used, s, bs);
    StepWithin(x, bs[0].rate, TaxAbove(used + x, s - x, bs[1..]), s);
  }

  lemma StackedSliceWithinRemaining(remaining: real, used: real, b: Bracket)
    requires remaining > 0.0
    ensures 0.0 <= StackedSlice(remaining, used, b) <= remaining
  {
  }

  lemma RatesWithinTail(bs: seq<Bracket>)
    requires |bs| > 0 && RatesWithin(bs)
    ensures 0.0 <= bs[0].rate <= 1.0
    ensures RatesWithin(bs[1..])
  {
  }

  /** The walk seen from the amount already stacked: `used` is everything
      below the slice about to be taken, `remaining` what is still to place.
      `StackedTaxFrom(top, pref, remaining, bs)` is this walk with
      `used = top + (pref - remaining)`. */
  function TaxAbove(used: real, remaining: real, bs: seq<Bracket>): real
    decreases |bs|
  {
    if |bs| == 0 || remaining <= 0.0 then 0.0
    else
      var x := StackedSlice(remaining, used, bs[0]);
      x * bs[0].rate + TaxAbove(used + x, remaining - x, bs[1..])
  }

  lemma {:induction false} StackedTaxIsTaxAbove(top: real, pref: real, remaining: real, bs: seq<Bracket>)
    ensures StackedTaxFrom(top, pref, remaining, bs) == TaxAbove(top + (pref - remaining), remaining, bs)
    decreases |bs|
  {
    if |bs| == 0 || remaining <= 0.0 {
    } else {
      var used := top + (pref - remaining);
      var x := StackedSlice(remaining, used, bs[0]);
      StackedTaxIsTaxAbove(top, pref, remaining - x, bs[1..]);
      assert top + (pref - (remaining - x)) == used + x;
    }
  }

  /** When every rate is at least `floor`, placing `s` costs at least `s`
      charged at `floor`, and never less than nothing. */
  lemma {:induction false} TaxAboveAtLeast(used: real, s: real, bs: seq<Bracket>, floor: real)
    requires 0.0 <= floor
    requires RatesAtLeast(bs, floor) && HasUnbounded(bs)
    ensures s * floor <= TaxAbove(used, s, bs)
    ensures 0.0 <= TaxAbove(used, s, bs)
    decreases |bs|
  {
    if s <= 0.0 {
      ScaleMonotone(s, 0.0, floor);
    } else {
      var x := StackedSlice(s, used, bs[0]);
      RatesAtLeastTail(bs, floor);
      if s - x > 0.0 {
        HasUnboundedTail(bs);
        TaxAboveAtLeast(used + x, s - x, bs[1..], floor);
      }
      AtLeastStep(used, s, bs, floor);
    }
  }

  /** One step of `TaxAboveAtLeast`: the first slice is charged at a rate no
      lower than `floor`, and what follows costs at least the rest at `floor`. */
  lemma AtLeastStep(used: real, s: real, bs: seq<Bracket>, floor: real)
    requires s > 0.0 && |bs| > 0
    requires 0.0 <= floor <= bs[0].rate
    requires var x := StackedSlice(s, used, bs[0]);
      s - x > 0.0 ==>
        0.0 <= TaxAbove(used + x, s - x, bs[1..]) &&
        (s - x) * floor <= TaxAbove(used + x, s - x, bs[1..])
    ensures s * floor <= TaxAbove(used, s, bs)
    ensures 0.0 <= TaxAbove(used, s, bs)
  {
    var x := StackedSlice(s, used, bs[0]);
    var r := bs[0].rate;
    var rest := TaxAbove(used + x, s - x, bs[1..]);
    StackedSliceWithinRemaining(s, used, bs[0]);
    TaxAboveStep(used, s, bs);
    ScaleMonotone(floor, r, x);
    ScaleMonotone(0.0, floor, x);
    SplitProduct(s, x, floor);
  }

  /** Two ways of splitting the same amount across a rate and a floor below it. */
  lemma ExtraAtFloor(a: real, xb: real, d: real, r: real, floor: real)
    requires a <= xb <= a + d
    requires floor <= r
    ensures a * r + d * floor <= xb * r + (a + d - xb) * floor
  {
    ScaleMonotone(floor, r, xb - a);
    SplitProduct(xb, a, r);
    SplitProduct(d, xb - a, floor);
  }

  /** How the first slices of `a` and of `a + d` relate: either `a` fits in
      the first bracket, or both fill the same finite room. */
  lemma ExtraSlices(used: real, a: real, d: real, b: Bracket)
    requires 0.0 < a && 0.0 <= d
    ensures var xa := StackedSlice(a, used, b);
      var xb := StackedSlice(a + d, used, b);
      0.0 <= xa <= a &&
      (xa == a ==> a <= xb <= a + d) &&
      (xa < a ==> b.limit.Finite? && xb == xa) &&
      (a + d - xb > 0.0 ==> b.limit.Finite?)
  {
  }

  /** Stacking `d` more on top of `a` costs at least `d` charged at the
      lowest rate of the list. */
  lemma {:induction false} TaxAboveExtra(used: real, a: real, d: real, bs: seq<Bracket>, floor: real)
    requires 0.0 <= a && 0.0 <= d && 0.0 <= floor
    requires RatesAtLeast(bs, floor) && HasUnbounded(bs)
    ensures TaxAbove(used, a, bs) + d * floor <= TaxAbove(used, a + d, bs)
    decreases |bs|, 1
  {
    if a == 0.0 {
      TaxAboveAtLeast(used, d, bs, floor);
      assert a + d == d;
    } else if StackedSlice(a, used, bs[0]) == a {
      ExtraWithinRoom(used, a, d, bs, floor);
    } else {
      ExtraPastRoom(used, a, d, bs, floor);
    }
  }

  /** `TaxAboveExtra` when `a` fits in the first bracket: `a` is charged at
      the first rate only, and `a + d` at least as dearly. */
  lemma ExtraWithinRoom(used: real, a: real, d: real, bs: seq<Bracket>, floor: real)
    requires 0.0 < a && 0.0 <= d && 0.0 <= floor
    requires RatesAtLeast(bs, floor) && HasUnbounded(bs) && |bs| > 0
    requires StackedSlice(a, used, bs[0]) == a
    ensures TaxAbove(used, a, bs) + d * floor <= TaxAbove(used, a + d, bs)
  {
    var t := a + d;
    var xb := StackedSlice(t, used, bs[0]);
    ExtraSlices(used, a, d, bs[0]);
    WithinRoomTail(used, t, xb, bs, floor);
    TaxAboveStepAt(used, a, bs, a);
    TaxAboveStepAt(used, t, bs, xb);
    NothingAbove(used + a, a - a, bs[1..]);
    ExtraAtFloor(a, xb, d, bs[0].rate, floor);
    WithinRoomStep(TaxAbove(used, a, bs), TaxAbove(used, t, bs), TaxAbove(used + a, a - a, bs[1..]),
                   TaxAbove(used + xb, t - xb, bs[1..]), a, d, xb, bs[0].rate, floor);
  }

  /** What the longer walk places above the first bracket costs at least
      that amount at `floor`. */
  lemma WithinRoomTail(used: real, t: real, xb: real, bs: seq<Bracket>, floor: real)
    requires 0.0 <= floor && xb <= t
    requires RatesAtLeast(bs, floor) && HasUnbounded(bs) && |bs| > 0
    requires t - xb > 0.0 ==> bs[0].limit.Finite?
    ensures (t - xb) * floor <= TaxAbove(used + xb, t - xb, bs[1..])
  {
    if t - xb > 0.0 {
      RatesAtLeastTail(bs, floor);
      HasUnboundedTail(bs);
      TaxAboveAtLeast(used + xb, t - xb, bs[1..], floor);
    } else {
      NothingAbove(used + xb, t - xb, bs[1..]);
      ScaleMonotone(t - xb, 0.0, floor);
    }
  }

  /** The last step of `ExtraWithinRoom`, on the unfolded walks. */
  lemma WithinRoomStep(ta: real, tt: real, za: real, rest: real, a: real, d: real, xb: real, r: real, floor: real)
    requires ta == a * r + za && za == 0.0
    requires tt == xb * r + rest
    requires (a + d - xb) * floor <= rest
    requires a * r + d * floor <= xb * r + (a + d - xb) * floor
    ensures ta + d * floor <= tt
  {
  }

  /** `TaxAboveExtra` when `a` overflows the first bracket: both walks take
      the same first slice and the difference lies above it. */
  lemma {:induction false} ExtraPastRoom(used: real, a: real, d: real, bs: seq<Bracket>, floor: real)
    requires 0.0 < a && 0.0 <= d && 0.0 <= floor
    requires RatesAtLeast(bs, floor) && HasUnbounded(bs) && |bs| > 0
    requires StackedSlice(a, used, bs[0]) < a
    ensures TaxAbove(used, a, bs) + d * floor <= TaxAbove(used, a + d, bs)
    decreases |bs|, 0
  {
    var xa := StackedSlice(a, used, bs[0]);
    ExtraSlices(used, a, d, bs[0]);
    RatesAtLeastTail(bs, floor);
    HasUnboundedTail(bs);
    TaxAboveExtra(used + xa, a - xa, d, bs[1..], floor);
    TaxAboveStep(used, a, bs);
    TaxAboveStep(used, a + d, bs);
    SameAmount(used + xa, a - xa + d, a + d - xa, bs[1..]);
  }

  lemma SameAmount(used: real, s1: real, s2: real, bs: seq<Bracket>)
    requires s1 == s2
    ensures TaxAbove(used, s1, bs) == TaxAbove(used, s2, bs)
  {
  }

  lemma NothingAbove(used: real, s: real, bs: seq<Bracket>)
    requires s <= 0.0
    ensures TaxAbove(used, s, bs) == 0.0
  {
  }

  /** One step of the walk: the first slice charged at the first rate, then
      the rest placed above it. */
  lemma TaxAboveStep(used: real, s: real, bs: seq<Bracket>)
    requires |bs| > 0 && s > 0.0
    ensures var x := StackedSlice(s, used, bs[0]);
      TaxAbove(used, s, bs) == x * bs[0].rate + TaxAbove(used + x, s - x, bs[1..])
  {
  }

  /** With non-negative rates, placing more never costs less. */
  lemma TaxAboveRisesWithAmount(used: real, r1: real, r2: real, bs: seq<Bracket>)
    requires r1 <= r2
    requires RatesAtLeast(bs, 0.0) && HasUnbounded(bs)
    ensures TaxAbove(used, r1, bs) <= TaxAbove(used, r2, bs)
  {
    if r1 <= 0.0 {
      TaxAboveAtLeast(used, r2, bs, 0.0);
    } else {
      TaxAboveExtra(used, r1, r2 - r1, bs, 0.0);
      assert r1 + (r2 - r1) == r2;
    }
  }

  /** How the first slices of `s` above `u1` and above `u2` relate: either
      the lower walk places all of `s` in the first bracket, or both fill
      their finite rooms and the lower walk ends no higher. */
  lemma BaseSlices(u1: real, u2: real, s: real, b: Bracket, x1: real, x2: real)
    requires u1 <= u2 && 0.0 < s
    requires x1 == StackedSlice(s, u1, b) && x2 == StackedSlice(s, u2, b)
    ensures 0.0 <= x2 <= x1 <= s
    ensures x1 < s ==> b.limit.Finite? && u1 + x1 <= u2 + x2
  {
  }

  /** With rising rates, placing the same amount higher up never costs less. */
  lemma {:induction false} TaxAboveRisesWithBase(u1: real, u2: real, s: real, bs: seq<Bracket>)
    requires u1 <= u2
    requires RatesRising(bs) && RatesAtLeast(bs, 0.0) && HasUnbounded(bs)
    ensures TaxAbove(u1, s, bs) <= TaxAbove(u2, s, bs)
    decreases |bs|, 2
  {
    if s > 0.0 {
      if StackedSlice(s, u1, bs[0]) == s {
        BaseWithinRoom(u1, u2, s, bs);
      } else {
        BaseAboveRoom(u1, u2, s, bs);
      }
    }
  }

  /** `TaxAboveRisesWithBase` when `s` fits in the first bracket above `u1`:
      it is charged at the lowest rate there, and nowhere more cheaply above. */
  lemma BaseWithinRoom(u1: real, u2: real, s: real, bs: seq<Bracket>)
    requires 0.0 < s
    requires RatesRising(bs) && RatesAtLeast(bs, 0.0) && HasUnbounded(bs) && |bs| > 0
    requires StackedSlice(s, u1, bs[0]) == s
    ensures TaxAbove(u1, s, bs) <= TaxAbove(u2, s, bs)
  {
    RatesRisingTail(bs);
    RatesAtLeastTail(bs, 0.0);
    TaxAboveAtLeast(u2, s, bs, bs[0].rate);
    TaxAboveStep(u1, s, bs);
  }

  /** `TaxAboveRisesWithBase` when `s` overflows the first bracket above
      `u1`: the lower walk keeps more in the first bracket, and that excess
      costs at least as much higher up. */
  lemma {:induction false} BaseAboveRoom(u1: real, u2: real, s: real, bs: seq<Bracket>)
    requires u1 <= u2 && 0.0 < s
    requires RatesRising(bs) && RatesAtLeast(bs, 0.0) && HasUnbounded(bs) && |bs| > 0
    requires StackedSlice(s, u1, bs[0]) < s
    ensures TaxAbove(u1, s, bs) <= TaxAbove(u2, s, bs)
    decreases |bs|, 1
  {
    var x1 := StackedSlice(s, u1, bs[0]);
    var x2 := StackedSlice(s, u2, bs[0]);
    BaseAboveRoomLower(u1, u2, s, bs, x1, x2);
    BaseSlices(u1, u2, s, bs[0], x1, x2);
    SliceGaps(s, x1, x2);
    RisingTail(bs);
    BaseAboveRoomExtra(u2, s, bs, x1, x2);
    TaxAboveStepAt(u1, s, bs, x1);
    TaxAboveStepAt(u2, s, bs, x2);
    BaseAboveRoomStep(u1, u2, s, bs, x1, x2);
  }

  /** Above the first bracket the lower walk starts lower, by the induction
      hypothesis of `TaxAboveRisesWithBase`. */
  lemma {:induction false} BaseAboveRoomLower(u1: real, u2: real, s: real, bs: seq<Bracket>, x1: real, x2: real)
    requires u1 <= u2 && 0.0 < s
    requires RatesRising(bs) && RatesAtLeast(bs, 0.0) && HasUnbounded(bs) && |bs| > 0
    requires x1 == StackedSlice(s, u1, bs[0]) && x2 == StackedSlice(s, u2, bs[0]) && x1 < s
    ensures TaxAbove(u1 + x1, s - x1, bs[1..]) <= TaxAbove(u2 + x2, s - x1, bs[1..])
    decreases |bs|, 0
  {
    BaseSlices(u1, u2, s, bs[0], x1, x2);
    RatesRisingTail(bs);
    RatesAtLeastTail(bs, 0.0);
    HasUnboundedTail(bs);
    TaxAboveRisesWithBase(u1 + x1, u2 + x2, s - x1, bs[1..]);
  }

  /** What walking `total` instead of `rest` above `used` adds to the tax. */
  function Surcharge(used: real, rest: real, total: real, bs: seq<Bracket>): real
  {
    TaxAbove(used, total, bs) - TaxAbove(used, rest, bs)
  }

  /** `TaxAboveExtra` with the larger amount named: the `kept` more costs at
      least `rate` per unit. */
  lemma SurchargeAtLeast(used: real, rest: real, kept: real, total: real, rate: real, tail: seq<Bracket>)
    requires 0.0 <= rest && 0.0 <= kept && total == rest + kept
    requires 0.0 <= rate && RatesAtLeast(tail, rate) && HasUnbounded(tail)
    ensures kept * rate <= Surcharge(used, rest, total, tail)
  {
    TaxAboveExtra(used, rest, kept, tail, rate);
    SameAmount(used, rest + kept, total, tail);
  }

  /** Above the first bracket, the upper walk of `BaseAboveRoom` carries what
      the lower walk kept in the first bracket, at no lower a rate. */
  lemma BaseAboveRoomExtra(u2: real, s: real, bs: seq<Bracket>, x1: real, x2: real)
    requires |bs| > 0
    requires 0.0 <= s - x1 && 0.0 <= x1 - x2 && s - x2 == (s - x1) + (x1 - x2)
    requires 0.0 <= bs[0].rate && RatesAtLeast(bs[1..], bs[0].rate) && HasUnbounded(bs[1..])
    ensures (x1 - x2) * bs[0].rate <= Surcharge(u2 + x2, s - x1, s - x2, bs[1..])
  {
    SurchargeAtLeast(u2 + x2, s - x1, x1 - x2, s - x2, bs[0].rate, bs[1..]);
  }

  /** What the lower walk leaves after the first bracket, and what it keeps
      there beyond the upper walk, are non-negative and make up what the
      upper walk leaves. */
  lemma SliceGaps(s: real, x1: real, x2: real)
    requires 0.0 <= x2 <= x1 <= s
    ensures 0.0 <= s - x1 && 0.0 <= x1 - x2 && s - x2 == (s - x1) + (x1 - x2)
  {
  }

  /** What rising, non-negative rates and a closing bracket say about the
      brackets after the first. */
  lemma RisingTail(bs: seq<Bracket>)
    requires |bs| > 0 && RatesRising(bs) && RatesAtLeast(bs, 0.0)
    requires HasUnbounded(bs) && bs[0].limit.Finite?
    ensures 0.0 <= bs[0].rate && RatesAtLeast(bs[1..], bs[0].rate) && HasUnbounded(bs[1..])
  {
    RatesAtLeastTail(bs, 0.0);
    RatesRisingTail(bs);
    RatesAtLeastTail(bs, bs[0].rate);
    HasUnboundedTail(bs);
  }

  /** The last step of `BaseAboveRoom`: with both walks unfolded once, the
      lower walk's larger first charge is outweighed by what the upper walk
      carries above the first bracket. */
  lemma BaseAboveRoomStep(u1: real, u2: real, s: real, bs: seq<Bracket>, x1: real, x2: real)
    requires |bs| > 0
    requires TaxAbove(u1, s, bs) == x1 * bs[0].rate + TaxAbove(u1 + x1, s - x1, bs[1..])
    requires TaxAbove(u2, s, bs) == x2 * bs[0].rate + TaxAbove(u2 + x2, s - x2, bs[1..])
    requires TaxAbove(u1 + x1, s - x1, bs[1..]) <= TaxAbove(u2 + x2, s - x1, bs[1..])
    requires (x1 - x2) * bs[0].rate <= Surcharge(u2 + x2, s - x1, s - x2, bs[1..])
    ensures TaxAbove(u1, s, bs) <= TaxAbove(u2, s, bs)
  {
    SplitCharge(x1, x2, x1 - x2, bs[0].rate);
  }

  /** `TaxAboveStep` with the first slice named. */
  lemma TaxAboveStepAt(used: real, s: real, bs: seq<Bracket>, x: real)
    requires |bs| > 0 && s > 0.0 && x == StackedSlice(s, used, bs[0])
    ensures TaxAbove(used, s, bs) == x * bs[0].rate + TaxAbove(used + x, s - x, bs[1..])
  {
    TaxAboveStep(used, s, bs);
  }

  lemma CapitalGainsTaxIsTaxAbove(top: real, pref: real, bs: seq<Bracket>)
    ensures CapitalGainsTax(top, pref, bs) == TaxAbove(top, pref, bs)
  {
    StackedTaxIsTaxAbove(top, pref, pref, bs);
    assert top + (pref - pref) == top;
  }

  /** More preferential income never lowers its tax when no rate is negative. */
  lemma CapitalGainsTaxMonotoneInPreferential(top: real, p1: real, p2: real, bs: seq<Bracket>)
    requires p1 <= p2
    requires RatesAtLeast(bs, 0.0) && HasUnbounded(bs)
    ensures CapitalGainsTax(top, p1, bs) <= CapitalGainsTax(top, p2, bs)
  {
    CapitalGainsTaxIsTaxAbove(top, p1, bs);
    CapitalGainsTaxIsTaxAbove(top, p2, bs);
    TaxAboveRisesWithAmount(top, p1, p2, bs);
  }

  /** More ordinary income underneath pushes the same preferential income into
      brackets at least as dear, so its tax never falls when rates rise. */
  lemma CapitalGainsTaxMonotoneInOrdinary(t1: real, t2: real, pref: real, bs: seq<Bracket>)
    requires t1 <= t2
    requires RatesRising(bs) && RatesAtLeast(bs, 0.0) && HasUnbounded(bs)
    ensures CapitalGainsTax(t1, pref, bs) <= CapitalGainsTax(t2, pref, bs)
  {
    CapitalGainsTaxIsTaxAbove(t1, pref, bs);
    CapitalGainsTaxIsTaxAbove(t2, pref, bs);
    TaxAboveRisesWithBase(t1, t2, pref, bs);
  }

  /** The calculator's capital-gains loop, written as the source writes it. */
  method ComputeCapitalGainsTax(top: real, pref: real, bs: seq<Bracket>) returns (tax: real)
    ensures tax == CapitalGainsTax(top, pref, bs)
  {
    tax := 0.0;
    var remaining := pref;
    var i := 0;
    while i < |bs|
      invariant 0 <= i <= |bs|
      invariant tax + StackedTaxFrom(top, pref, remaining, bs[i..]) == CapitalGainsTax(top, pref, bs)
    {
      if remaining <= 0.0 {
        break;
      }
      var bracket := bs[i];
      var incomeInBracket := StackedSlice(remaining, top + (pref - remaining), bracket);
      assert bs[i..][1..] == bs[i + 1..];
      tax := tax + incomeInBracket * bracket.rate;
      remaining := remaining - incomeInBracket;
      i := i + 1;
    }
  }
}
