/**
 * What a booking order costs: base fare, extra luggage and coupon, as bookTrip
 * computes them (trip.repository.ts:1160-1177, :1704-1730). Amounts are exact reals.
 */
module Pricing {
  import opened Common
  import opened Text

  /** The numbers read from the trip's specification; a missing one reads as 0. */
  datatype Fare = Fare(price: real, luggageSize: real, luggageCharge: real)

  datatype CouponType = Percentage | Fixed | Welcome | Referral

  /** Nullable columns are options; a usageLimit of 0 means no limit. */
  datatype Coupon = Coupon(kind: CouponType, value: real, maxDiscount: Option<real>, minOrderAmount: Option<real>,
                           usageLimit: nat, usageCount: nat, expiresAt: Option<int>, isActive: bool)

  datatype Quote = Quote(luggage: real, total: real, discount: real, paid: real)

  function Min(a: real, b: real): real { if a <= b then a else b }

  function Max(a: real, b: real): real { if a >= b then a else b }

  function Ceil(x: real): int { -((-x).Floor) }

  function TotalWeight(weights: seq<real>): real {
    if weights == [] then 0.0 else TotalWeight(weights[..|weights| - 1]) + weights[|weights| - 1]
  }

  function LuggageUnits(fare: Fare, weight: real): int {
    if fare.luggageSize > 0.0 && weight > 0.0 then Ceil(weight / fare.luggageSize) else 0
  }

  function LuggageCharge(fare: Fare, weight: real): real {
    LuggageUnits(fare, weight) as real * fare.luggageCharge
  }

  function Total(fare: Fare, seats: int, weight: real): real {
    seats as real * fare.price + LuggageCharge(fare, weight)
  }

  function RawDiscount(c: Coupon, subtotal: real): real {
    if c.kind == Percentage then subtotal * c.value / 100.0 else c.value
  }

  function Capped(raw: real, cap: Option<real>, subtotal: real): real {
    Min(if cap.Some? then Min(raw, cap.value) else raw, subtotal)
  }

  /** applyCoupon's arithmetic, after the coupon was accepted. */
  function Discount(c: Coupon, subtotal: real): real { Capped(RawDiscount(c, subtotal), c.maxDiscount, subtotal) }

  function Accepts(c: Coupon, subtotal: real, now: int): bool {
    && c.isActive
    && !(c.expiresAt.Some? && now > c.expiresAt.value)
    && !(c.usageLimit > 0 && c.usageCount >= c.usageLimit)
    && !(c.minOrderAmount.Some? && subtotal < c.minOrderAmount.value)
  }

  /** applyCoupon: an empty code is no coupon; codes are looked up in upper case. */
  function ApplyCoupon(coupons: map<string, Coupon>, code: string, subtotal: real, now: int): Result<real, Fault> {
    if code == "" then Success(0.0)
    else if Upper(code) in coupons && Accepts(coupons[Upper(code)], subtotal, now) then
      Success(Discount(coupons[Upper(code)], subtotal))
    else Failure(BadRequest)
  }

  function QuoteOrder(fare: Fare, seats: int, weights: seq<real>, coupons: map<string, Coupon>, code: string, now: int)
    : Result<Quote, Fault>
  {
    var weight := TotalWeight(weights);
    var total := Total(fare, seats, weight);
    match ApplyCoupon(coupons, code, total, now)
    case Failure(e) => Failure(e)
    case Success(discount) =>
      Success(Quote(LuggageCharge(fare, weight), total, discount, Max(0.0, total - discount)))
  }

  predicate FareOk(fare: Fare) {
    fare.price >= 0.0 && fare.luggageCharge >= 0.0
  }

  predicate CouponOk(c: Coupon) {
    c.value >= 0.0 && (c.maxDiscount.Some? ==> c.maxDiscount.value >= 0.0)
  }

  predicate CouponsOk(coupons: map<string, Coupon>) {
    forall code <- coupons :: CouponOk(coupons[code])
  }

  predicate WeightsOk(weights: seq<real>) {
    forall i :: 0 <= i < |weights| ==> weights[i] >= 0.0
  }

  /** Every weight of one order is at most the other's; missing bags weigh nothing. */
  predicate Lighter(a: seq<real>, b: seq<real>) {
    |a| <= |b| && forall i :: 0 <= i < |a| ==> a[i] <= b[i]
  }

  // ---- Luggage ----

  predicate Covers(units: int, fare: Fare, weight: real) {
    units as real * fare.luggageSize >= weight
  }

  /** Fewer units than the rounded-up quotient do not cover the weight. */
  lemma TooFewUnits(fare: Fare, weight: real, q: real, m: int)
    requires fare.luggageSize > 0.0 && q * fare.luggageSize == weight && m as real < q
    ensures !Covers(m, fare, weight)
  {
    MulLt(m as real, q, fare.luggageSize);
  }

  lemma CeilBounds(x: real)
    ensures (Ceil(x) - 1) as real < x <= Ceil(x) as real
  {
  }

  lemma BelowCeil(x: real, m: int)
    requires m < Ceil(x)
    ensures m as real < x
  {
  }

  lemma Quotient(weight: real, size: real) returns (q: real)
    requires weight > 0.0 && size > 0.0
    ensures q == weight / size && q * size == weight && q > 0.0
  {
    q := weight / size;
    MulPositive(weight, size, q);
  }

  /** Luggage is charged for the least number of units that covers the weight. */
  lemma LeastUnits(fare: Fare, weight: real)
    requires fare.luggageSize > 0.0 && weight > 0.0
    ensures LuggageUnits(fare, weight) >= 1 && Covers(LuggageUnits(fare, weight), fare, weight)
    ensures forall m :: Covers(m, fare, weight) ==> m >= LuggageUnits(fare, weight)
  {
    var q := Quotient(weight, fare.luggageSize);
    CeilBounds(q);
    MulLe(q, Ceil(q) as real, fare.luggageSize);
    forall m | Covers(m, fare, weight) ensures m >= Ceil(q) {
      if m < Ceil(q) {
        BelowCeil(q, m);
        TooFewUnits(fare, weight, q, m);
      }
    }
  }

  lemma MulLe(a: real, b: real, k: real)
    requires a <= b && k >= 0.0
    ensures a * k <= b * k
  {
    assert (b - a) * k >= 0.0;
  }

  lemma Scale(a: int, b: int, k: real)
    requires 0 <= a <= b && k >= 0.0
    ensures 0.0 <= a as real * k <= b as real * k
  {
    MulLe(0.0, a as real, k);
    MulLe(a as real, b as real, k);
  }

  lemma MulLt(a: real, b: real, k: real)
    requires a < b && k > 0.0
    ensures a * k < b * k
  {
    assert (b - a) * k > 0.0;
  }

  lemma MulPositive(w: real, s: real, q: real)
    requires w > 0.0 && s > 0.0 && q * s == w
    ensures q > 0.0
  {
    if q <= 0.0 { MulLe(q, 0.0, s); }
  }

  lemma UnitsMonotone(fare: Fare, w: real, w': real)
    requires w <= w'
    ensures 0 <= LuggageUnits(fare, w) <= LuggageUnits(fare, w')
  {
    if fare.luggageSize > 0.0 {
      if w > 0.0 {
        LeastUnits(fare, w);
        LeastUnits(fare, w');
        assert Covers(LuggageUnits(fare, w'), fare, w);
      } else if w' > 0.0 {
        LeastUnits(fare, w');
      }
    }
  }

  lemma {:induction false} WeightMonotone(a: seq<real>, b: seq<real>)
    requires WeightsOk(b) && Lighter(a, b)
    ensures TotalWeight(a) <= TotalWeight(b)
    decreases |b|
  {
    if |a| < |b| {
      WeightMonotone(a, b[..|b| - 1]);
    } else if a != [] {
      WeightMonotone(a[..|a| - 1], b[..|b| - 1]);
    }
  }

  lemma ChargeMonotone(fare: Fare, w: real, w': real)
    requires FareOk(fare) && w <= w'
    ensures 0.0 <= LuggageCharge(fare, w) <= LuggageCharge(fare, w')
  {
    UnitsMonotone(fare, w, w');
    Scale(LuggageUnits(fare, w), LuggageUnits(fare, w'), fare.luggageCharge);
  }

  lemma TotalMonotone(fare: Fare, s: int, s': int, w: real, w': real)
    requires FareOk(fare) && 0 <= s <= s' && w <= w'
    ensures 0.0 <= Total(fare, s, w) <= Total(fare, s', w')
  {
    ChargeMonotone(fare, w, w');
    Scale(s, s', fare.price);
  }

  // ---- Coupon ----

  lemma DiscountWithin(c: Coupon, subtotal: real)
    requires CouponOk(c) && subtotal >= 0.0
    ensures 0.0 <= Discount(c, subtotal) <= subtotal
  {
    MulLe(0.0, c.value, subtotal);
  }

  lemma ApplyCouponWithin(coupons: map<string, Coupon>, code: string, subtotal: real, now: int)
    requires CouponsOk(coupons) && subtotal >= 0.0
    ensures var r := ApplyCoupon(coupons, code, subtotal, now);
            r.Success? ==> 0.0 <= r.value <= subtotal
  {
    if code != "" && Upper(code) in coupons {
      DiscountWithin(coupons[Upper(code)], subtotal);
    }
  }

  /** Below 100% the uncapped remainder grows; from 100% on the whole subtotal is discounted. */
  lemma RawRemainder(c: Coupon, a: real, b: real)
    requires CouponOk(c) && 0.0 <= a <= b
    ensures RawDiscount(c, a) >= a || a - RawDiscount(c, a) <= b - RawDiscount(c, b)
  {
    if c.kind == Percentage {
      var k := 100.0 - c.value;
      if k >= 0.0 {
        MulLe(a, b, k);
        Distribute(a, c.value, k);
        Distribute(b, c.value, k);
      } else {
        MulLe(100.0, c.value, a);
        Commute(a, c.value);
      }
    }
  }

  lemma Distribute(a: real, v: real, k: real)
    requires k == 100.0 - v
    ensures a * k == 100.0 * a - a * v
  {
  }

  lemma Commute(a: real, v: real)
    ensures a * v == v * a
  {
  }

  /** Capping both discounts keeps the remainder from dropping. */
  lemma CappedRemainder(ra: real, rb: real, cap: Option<real>, a: real, b: real)
    requires 0.0 <= a <= b && (ra >= a || a - ra <= b - rb)
    ensures a - Capped(ra, cap, a) <= b - Capped(rb, cap, b)
  {
  }

  /** What is left to pay never drops when the subtotal grows. */
  lemma RemainderMonotone(c: Coupon, a: real, b: real)
    requires CouponOk(c) && 0.0 <= a <= b
    ensures a - Discount(c, a) <= b - Discount(c, b)
  {
    RawRemainder(c, a, b);
    CappedRemainder(RawDiscount(c, a), RawDiscount(c, b), c.maxDiscount, a, b);
  }

  // ---- Main results ----

  /** The discount never exceeds the total, so the passenger pays exactly the rest: max(0, ..) never bites. */
  lemma QuoteAddsUp(fare: Fare, seats: int, weights: seq<real>, coupons: map<string, Coupon>, code: string, now: int)
    requires FareOk(fare) && CouponsOk(coupons) && seats >= 0
    ensures var r := QuoteOrder(fare, seats, weights, coupons, code, now);
            r.Success? ==>
              && 0.0 <= r.value.discount <= r.value.total
              && r.value.paid + r.value.discount == r.value.total
              && 0.0 <= r.value.luggage <= r.value.total
  {
    var w := TotalWeight(weights);
    TotalMonotone(fare, 0, seats, w, w);
    ChargeMonotone(fare, w, w);
    NoSeats(fare, w);
    ApplyCouponWithin(coupons, code, Total(fare, seats, w), now);
  }

  lemma NoSeats(fare: Fare, w: real)
    ensures Total(fare, 0, w) == LuggageCharge(fare, w)
  {
  }

  /** For one trip and one coupon, asking for more seats or heavier bags never costs less. */
  lemma PaidMonotone(fare: Fare, coupons: map<string, Coupon>, code: string, now: int,
                     s: int, ws: seq<real>, s': int, ws': seq<real>)
    requires FareOk(fare) && CouponsOk(coupons) && 0 <= s <= s'
    requires WeightsOk(ws') && Lighter(ws, ws')
    ensures var small := QuoteOrder(fare, s, ws, coupons, code, now);
            var large := QuoteOrder(fare, s', ws', coupons, code, now);
            small.Success? && large.Success? ==> small.value.paid <= large.value.paid
  {
    WeightMonotone(ws, ws');
    var a, b := Total(fare, s, TotalWeight(ws)), Total(fare, s', TotalWeight(ws'));
    TotalMonotone(fare, s, s', TotalWeight(ws), TotalWeight(ws'));
    RemainderAfterCoupon(coupons, code, a, b, now);
    ApplyCouponWithin(coupons, code, a, now);
    ApplyCouponWithin(coupons, code, b, now);
  }

  lemma RemainderAfterCoupon(coupons: map<string, Coupon>, code: string, a: real, b: real, now: int)
    requires CouponsOk(coupons) && 0.0 <= a <= b
    ensures var ra, rb := ApplyCoupon(coupons, code, a, now), ApplyCoupon(coupons, code, b, now);
            ra.Success? && rb.Success? ==> a - ra.value <= b - rb.value
  {
    if code != "" && Upper(code) in coupons {
      RemainderMonotone(coupons[Upper(code)], a, b);
    }
  }

  // ---- What the numbers mean ----

  lemma {:induction false} WeightAdds(a: seq<real>, b: seq<real>)
    ensures TotalWeight(a + b) == TotalWeight(a) + TotalWeight(b)
  {
    if b == [] {
      assert a + b == a;
    } else {
      var n := |b| - 1;
      assert (a + b)[..|a + b| - 1] == a + b[..n];
      WeightAdds(a, b[..n]);
    }
  }

  lemma OneBag(w: real)
    ensures TotalWeight([w]) == w && TotalWeight([]) == 0.0
  {
    assert TotalWeight([w][..0]) == 0.0;
  }

  /** Luggage within no allowance, or no luggage, costs nothing; otherwise each of the fewest units that cover it costs the charge. */
  predicate LuggagePriced(fare: Fare, weight: real, charge: real, units: int) {
    && charge == units as real * fare.luggageCharge
    && (fare.luggageSize <= 0.0 || weight <= 0.0 ==> units == 0)
    && (fare.luggageSize > 0.0 && weight > 0.0 ==>
          Covers(units, fare, weight) && units >= 1 && !Covers(units - 1, fare, weight))
  }

  /** An accepted order's total is the seats at the trip's price and the luggage; what is paid is the rest after the discount. */
  lemma QuoteExplained(fare: Fare, seats: int, weights: seq<real>, coupons: map<string, Coupon>, code: string, now: int)
    ensures var r := QuoteOrder(fare, seats, weights, coupons, code, now);
            r.Success? ==>
              && r.value.total == seats as real * fare.price + r.value.luggage
              && (exists units :: LuggagePriced(fare, TotalWeight(weights), r.value.luggage, units))
              && ApplyCoupon(coupons, code, r.value.total, now) == Success(r.value.discount)
              && (r.value.discount <= r.value.total ==> r.value.paid == r.value.total - r.value.discount)
              && (r.value.discount > r.value.total ==> r.value.paid == 0.0)
    ensures QuoteOrder(fare, seats, weights, coupons, code, now).Failure?
            ==> ApplyCoupon(coupons, code, Total(fare, seats, TotalWeight(weights)), now).Failure?
  {
    var weight := TotalWeight(weights);
    var units := LuggageUnits(fare, weight);
    if fare.luggageSize > 0.0 && weight > 0.0 {
      LeastUnits(fare, weight);
      assert Covers(units - 1, fare, weight) ==> units - 1 >= units;
    }
    assert LuggagePriced(fare, weight, LuggageCharge(fare, weight), units);
  }

  /** A coupon is taken while it is active, not past its expiry, not used up, and the order is large enough. */
  predicate Usable(c: Coupon, subtotal: real, now: int) {
    && c.isActive && (c.expiresAt.Some? ==> now <= c.expiresAt.value)
    && (c.usageLimit == 0 || c.usageCount < c.usageLimit)
    && (c.minOrderAmount.Some? ==> subtotal >= c.minOrderAmount.value)
  }

  /** Whether a code is accepted, and that its case does not matter. */
  lemma CouponAccepted(coupons: map<string, Coupon>, code: string, code': string, subtotal: real, now: int)
    ensures ApplyCoupon(coupons, code, subtotal, now).Success?
            <==> code == "" || (Upper(code) in coupons && Usable(coupons[Upper(code)], subtotal, now))
    ensures SameLetters(code, code') ==> ApplyCoupon(coupons, code', subtotal, now) == ApplyCoupon(coupons, code, subtotal, now)
  {
    Folding(code, code');
  }

  /** No code, no discount. */
  lemma NoCode(coupons: map<string, Coupon>, subtotal: real, now: int)
    ensures ApplyCoupon(coupons, "", subtotal, now) == Success(0.0)
  {
  }

  /** The amount does not exceed the coupon's percentage or value, its cap, or the subtotal. */
  predicate Allowed(c: Coupon, subtotal: real, d: real) {
    && (c.kind == Percentage ==> d * 100.0 <= subtotal * c.value)
    && (c.kind != Percentage ==> d <= c.value)
    && (c.maxDiscount.Some? ==> d <= c.maxDiscount.value)
    && d <= subtotal
  }

  /** The discount is the largest amount the coupon allows. */
  lemma DiscountIsLargest(coupons: map<string, Coupon>, code: string, subtotal: real, now: int, d: real)
    requires code != "" && ApplyCoupon(coupons, code, subtotal, now).Success?
    ensures var c, given := coupons[Upper(code)], ApplyCoupon(coupons, code, subtotal, now).value;
            Allowed(c, subtotal, given) && (Allowed(c, subtotal, d) ==> d <= given)
  {
    var c := coupons[Upper(code)];
    if c.kind == Percentage {
      Hundredths(subtotal * c.value, d);
      Hundredths(subtotal * c.value, Discount(c, subtotal));
    }
  }

  lemma Hundredths(x: real, d: real)
    ensures d * 100.0 <= x <==> d <= x / 100.0
  {
  }
}
