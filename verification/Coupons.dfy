/**
Coupon discounts in exact decimal arithmetic. Amounts are whole cents; a percentage is counted in hundredths of a
percent. The serializers put no sign on any of them, so negative values are in scope.
 */
module Coupons {
  import opened Prelude

  datatype DiscountType = Percentage | Fixed

  datatype Status = Active | Expired | Disabled

  /** `cap` is `max_discount_amount`. */
  datatype Coupon = Coupon(
    merchant: string, kind: DiscountType, value: int, cap: Option<int>, minimum: int, limit: int, used: int, status: Status)

  datatype Error = NotFound | NotActive(status: Status) | WrongMerchant | UsedUp | BelowMinimum(minimum: int)

  datatype Breakdown = Breakdown(discount: int, final: int)

  /** x / d to the nearest integer, halves away from zero: `quantize` with ROUND_HALF_UP. */
  function HalfUp(x: int, d: int): int
    requires d > 0
  {
    if x >= 0 then (2 * x + d) / (2 * d) else -((d - 2 * x) / (2 * d))
  }

  /** The percentage of the order amount in cents. */
  function Share(order: int, value: int): int { HalfUp(order * value, 10000) }

  /** A zero cap is falsy and does not limit anything. */
  predicate Capped(c: Coupon, discount: int) {
    c.cap.Some? && c.cap.value != 0 && discount > c.cap.value
  }

  function Discount(c: Coupon, order: int): int {
    var discount :=
      if c.kind.Percentage? then
        var share := Share(order, c.value);
        if Capped(c, share) then c.cap.value else share
      else c.value;
    if discount > order then order else discount
  }

  // ----- rounding

  /** The rounded share is within half a cent of the exact one, and an exact half goes away from zero. */
  lemma ShareIsNearest(order: int, value: int)
    ensures var error := 10000 * Share(order, value) - order * value;
      && -5000 <= error <= 5000
      && (error == 5000 ==> order * value >= 0)
      && (error == -5000 ==> order * value < 0)
  {
  }

  /** Twelve-digit operands give a product well inside the 28 digits of the default context, so nothing is rounded before `quantize`. */
  lemma ProductFits(order: int, value: int)
    requires -1000000000000 < order < 1000000000000 && -1000000000000 < value < 1000000000000
    ensures -1000000000000000000000000 < order * value < 1000000000000000000000000
  {
    var a, b := if order < 0 then -order else order, if value < 0 then -value else value;
    Smaller(a, 1000000000000, b);
    assert order * value == a * b || order * value == -(a * b);
  }

  lemma Smaller(a: nat, k: nat, b: nat)
    requires a <= k
    ensures a * b <= k * b
  {
  }

  lemma {:induction false} ProductGrows(low: int, high: int, value: nat)
    requires low <= high
    ensures 0 <= (high - low) * value == high * value - low * value
  {
    if value > 0 {
      ProductGrows(low, high, value - 1);
    }
  }

  lemma RoundingOrdered(x: int, y: int)
    requires x <= y
    ensures HalfUp(x, 10000) <= HalfUp(y, 10000)
  {
  }

  /** Two halves on the two sides of zero round apart, so the bound is strict. */
  lemma RoundingGrows(x: int, y: int, step: int)
    requires 0 <= y - x < 10000 * step
    ensures HalfUp(y, 10000) - HalfUp(x, 10000) <= step
  {
  }

  lemma BelowTenThousand(step: nat, value: nat)
    requires step > 0 && value < 10000
    ensures step * value < 10000 * step
  {
    Smaller(value + 1, 10000, step);
    assert step * value == (value + 1) * step - step;
  }

  /** A share never falls as the order grows, and up to 100% it never grows faster than the order. */
  lemma ShareGrows(low: int, high: int, value: nat)
    requires low <= high
    ensures Share(low, value) <= Share(high, value)
    ensures value <= 10000 ==> Share(high, value) - Share(low, value) <= high - low
  {
    ProductGrows(low, high, value);
    RoundingOrdered(low * value, high * value);
    if low < high && value < 10000 {
      BelowTenThousand(high - low, value);
      RoundingGrows(low * value, high * value, high - low);
    }
  }

  /** A negative percentage turns the share around. */
  lemma ShareFalls(low: int, high: int, value: int)
    requires low <= high && value <= 0
    ensures Share(low, value) >= Share(high, value)
  {
    ProductGrows(low, high, -value);
    assert high * -value == -(high * value) && low * -value == -(low * value);
    RoundingOrdered(high * value, low * value);
  }

  lemma WholeShare(order: nat, value: nat)
    requires value >= 10000
    ensures Share(order, value) >= order
  {
    ProductGrows(0, order, value - 10000);
    assert order * value == order * 10000 + order * (value - 10000);
  }

  // ----- the discount

  /**
  The discount lies between zero and the order amount exactly when the amount is not negative and the coupon does
  not take away: a fixed value or cap below zero does, and so does a percentage whose share rounds below zero.
   */
  lemma DiscountInRange(c: Coupon, order: int)
    ensures Discount(c, order) <= order
    ensures 0 <= Discount(c, order) <==>
      && order >= 0
      && (c.kind.Fixed? ==> c.value >= 0)
      && (c.kind.Percentage? ==> 2 * (order * c.value) > -10000 && !(c.cap.Some? && c.cap.value < 0))
  {
  }

  /** Unless a percentage is negative, a larger order, negative ones included, never gets a smaller discount. */
  lemma DiscountGrows(c: Coupon, low: int, high: int)
    requires low <= high && (c.kind.Fixed? || c.value >= 0)
    ensures Discount(c, low) <= Discount(c, high)
  {
    if c.kind.Percentage? {
      ShareGrows(low, high, c.value);
    }
  }

  /** Unless a percentage above 100% meets a negative order, a larger order never costs less in the end, whatever the cap. */
  lemma FinalGrows(c: Coupon, low: int, high: int)
    requires low <= high && (c.kind.Fixed? || c.value <= 10000 || 0 <= low)
    ensures low - Discount(c, low) <= high - Discount(c, high)
  {
    if c.kind.Percentage? {
      if c.value < 0 {
        ShareFalls(low, high, c.value);
      } else {
        ShareGrows(low, high, c.value);
        if c.value > 10000 {
          WholeShare(low, c.value);
          WholeShare(high, c.value);
        }
      }
    }
  }

  ghost predicate DiscountMonotone(c: Coupon, least: Option<int>) {
    forall low, high :: low <= high && (least.Some? ==> least.value <= low) ==> Discount(c, low) <= Discount(c, high)
  }

  ghost predicate FinalMonotone(c: Coupon, least: Option<int>) {
    forall low, high :: low <= high && (least.Some? ==> least.value <= low) ==> low - Discount(c, low) <= high - Discount(c, high)
  }

  /** An order whose share passes the cap is so many hundreds. */
  function Hundreds(c: Coupon): (k: int)
    ensures k > 0 && (c.cap.Some? ==> -k < c.cap.value < k)
  {
    1 + if c.cap.None? then 0 else if c.cap.value < 0 then -c.cap.value else c.cap.value
  }

  lemma RoundShare(k: int, value: int)
    ensures Share(10000 * k, value) == k * value
  {
    assert 10000 * k * value == 10000 * (k * value);
  }

  lemma NegativePercentage(c: Coupon)
    requires c.kind.Percentage? && c.value < 0
    ensures Discount(c, 0) > Discount(c, 10000 * Hundreds(c))
  {
    var k := Hundreds(c);
    RoundShare(k, c.value);
    Smaller(1, -c.value, k);
    assert k * c.value == -(-c.value * k);
  }

  lemma LargePercentage(c: Coupon)
    requires c.kind.Percentage? && c.value > 10000
    ensures 10000 * -Hundreds(c) - Discount(c, 10000 * -Hundreds(c)) > 0 - Discount(c, 0)
  {
    var k := Hundreds(c);
    RoundShare(-k, c.value);
    Smaller(10001, c.value, k);
    assert -k * c.value == -(c.value * k);
  }

  /**
  When a larger order gets at least the discount, and costs at least as much, for all orders and for the non-negative
  ones: a percentage coupon must not be negative for the first, and not above 100% for the second unless no order is negative.
   */
  lemma MonotoneExactly(c: Coupon)
    ensures DiscountMonotone(c, None) <==> c.kind.Fixed? || c.value >= 0
    ensures DiscountMonotone(c, Some(0)) <==> c.kind.Fixed? || c.value >= 0
    ensures FinalMonotone(c, None) <==> c.kind.Fixed? || c.value <= 10000
    ensures FinalMonotone(c, Some(0))
  {
    if c.kind.Fixed? || c.value >= 0 {
      forall low, high | low <= high ensures Discount(c, low) <= Discount(c, high) { DiscountGrows(c, low, high); }
    } else {
      NegativePercentage(c);
    }
    if c.kind.Fixed? || c.value <= 10000 {
      forall low, high | low <= high ensures low - Discount(c, low) <= high - Discount(c, high) { FinalGrows(c, low, high); }
    } else {
      LargePercentage(c);
    }
    forall low, high | 0 <= low <= high ensures low - Discount(c, low) <= high - Discount(c, high) { FinalGrows(c, low, high); }
  }

  /** A capped share is the least of share, cap and order; without a cap that counts, the least of share and order. */
  lemma DiscountIsLeast(c: Coupon, order: int)
    requires c.kind.Percentage?
    ensures var limits := [Share(order, c.value), order] + (if c.cap.Some? && c.cap.value != 0 then [c.cap.value] else []);
      && Discount(c, order) in limits
      && forall k :: 0 <= k < |limits| ==> Discount(c, order) <= limits[k]
  {
    var share := Share(order, c.value);
    if c.cap.Some? && c.cap.value != 0 {
      var limits := [share, order] + [c.cap.value];
      assert limits[0] == share && limits[1] == order && limits[2] == c.cap.value;
    } else {
      var none: seq<int> := [];
      var limits := [share, order] + none;
      assert limits[0] == share && limits[1] == order;
    }
  }

  // ----- validating and applying

  /** `upper` is the whole of Unicode upper-casing, about which nothing is assumed. */
  function Validate(upper: string -> string, coupons: map<string, Coupon>, code: string, order: int, merchant: Option<string>): Result<Breakdown, Error> {
    if upper(code) !in coupons then Err(NotFound)
    else
      var c := coupons[upper(code)];
      if c.status != Active then Err(NotActive(c.status))
      else if merchant.Some? && merchant.value != "" && c.merchant != merchant.value then Err(WrongMerchant)
      else if c.used >= c.limit then Err(UsedUp)
      else if order < c.minimum then Err(BelowMinimum(c.minimum))
      else Ok(Breakdown(Discount(c, order), order - Discount(c, order)))
  }

  /** An accepted order is split into a discount and the rest, by an active coupon of that merchant with uses left and no higher minimum. */
  lemma AcceptedExactly(upper: string -> string, coupons: map<string, Coupon>, code: string, order: int, merchant: Option<string>)
    ensures
      var r := Validate(upper, coupons, code, order, merchant);
      r.Ok? <==>
        && upper(code) in coupons
        && var c := coupons[upper(code)];
        && c.status == Active && c.used < c.limit && c.minimum <= order
        && (merchant == None || merchant == Some("") || merchant == Some(c.merchant))
    ensures
      var r := Validate(upper, coupons, code, order, merchant);
      r.Ok? ==> r.value.discount + r.value.final == order && r.value.discount == Discount(coupons[upper(code)], order)
  {
  }

  /** The coupon table after one application: only `used_count` of the one coupon moves, and only on success. */
  function Applied(upper: string -> string, coupons: map<string, Coupon>, code: string, order: int, merchant: Option<string>): map<string, Coupon> {
    if Validate(upper, coupons, code, order, merchant).Ok? then
      coupons[upper(code) := coupons[upper(code)].(used := coupons[upper(code)].used + 1)]
    else coupons
  }

  datatype Request = Request(code: string, order: int, merchant: Option<string>)

  function AppliedAll(upper: string -> string, coupons: map<string, Coupon>, requests: seq<Request>): map<string, Coupon> {
    if requests == [] then coupons
    else
      var last := requests[|requests| - 1];
      Applied(upper, AppliedAll(upper, coupons, requests[..|requests| - 1]), last.code, last.order, last.merchant)
  }

  /** How many of the requests succeeded with the coupon stored under `key`. */
  function Granted(upper: string -> string, coupons: map<string, Coupon>, requests: seq<Request>, key: string): nat {
    if requests == [] then 0
    else
      var last := requests[|requests| - 1];
      var before := AppliedAll(upper, coupons, requests[..|requests| - 1]);
      var earlier := Granted(upper, coupons, requests[..|requests| - 1], key);
      if upper(last.code) == key && Validate(upper, before, last.code, last.order, last.merchant).Ok? then earlier + 1 else earlier
  }

  /** Applied one after another, the uses of a coupon are exactly its successes and stop at its limit; nothing else of it changes. */
  lemma {:induction false} UsesAreCounted(upper: string -> string, coupons: map<string, Coupon>, requests: seq<Request>, key: string)
    requires key in coupons
    ensures var after := AppliedAll(upper, coupons, requests);
      && key in after
      && after[key] == coupons[key].(used := coupons[key].used + Granted(upper, coupons, requests, key))
      && (Granted(upper, coupons, requests, key) > 0 ==> after[key].used <= coupons[key].limit && coupons[key].status == Active)
  {
    if requests != [] {
      UsesAreCounted(upper, coupons, requests[..|requests| - 1], key);
    }
  }

  class CouponService {
    var coupons: map<string, Coupon>
    const upper: string -> string

    constructor (upper: string -> string)
      ensures coupons == map[] && this.upper == upper
    {
      this.upper := upper;
      coupons := map[];
    }

    static method CalculateDiscount(c: Coupon, order: int) returns (discount: int)
      ensures discount == Discount(c, order)
      ensures c.kind.Fixed? ==> discount == if c.value <= order then c.value else order
      ensures c.kind.Percentage? ==>
        var share := if c.cap.Some? && c.cap.value != 0 && Share(order, c.value) > c.cap.value then c.cap.value else Share(order, c.value);
        discount == if share <= order then share else order
    {
      if c.kind.Percentage? {
        discount := HalfUp(order * c.value, 10000);
        if c.cap.Some? && c.cap.value != 0 && discount > c.cap.value {
          discount := c.cap.value;
        }
      } else {
        discount := c.value;
      }
      if discount > order {
        discount := order;
      }
    }

    method ValidateCoupon(code: string, order: int, merchant: Option<string>) returns (r: Result<Breakdown, Error>)
      ensures r == Validate(upper, coupons, code, order, merchant)
      ensures upper(code) !in coupons ==> r == Err(NotFound)
      ensures upper(code) in coupons ==>
        var c := coupons[upper(code)];
        var otherMerchant := merchant.Some? && merchant.value != "" && merchant.value != c.merchant;
        r == if c.status == Expired || c.status == Disabled then Err(NotActive(c.status))
             else if otherMerchant then Err(WrongMerchant)
             else if c.limit <= c.used then Err(UsedUp)
             else if c.minimum > order then Err(BelowMinimum(c.minimum))
             else Ok(Breakdown(Discount(c, order), order - Discount(c, order)))
    {
      if upper(code) !in coupons {
        return Err(NotFound);
      }
      var c := coupons[upper(code)];
      if c.status != Active {
        return Err(NotActive(c.status));
      }
      if merchant.Some? && merchant.value != "" && c.merchant != merchant.value {
        return Err(WrongMerchant);
      }
      if c.used >= c.limit {
        return Err(UsedUp);
      }
      if order < c.minimum {
        return Err(BelowMinimum(c.minimum));
      }
      var discount := CalculateDiscount(c, order);
      r := Ok(Breakdown(discount, order - discount));
    }

    method ApplyCoupon(code: string, order: int, merchant: Option<string>) returns (r: Result<Breakdown, Error>)
      modifies this
      ensures r == Validate(upper, old(coupons), code, order, merchant)
      ensures coupons == Applied(upper, old(coupons), code, order, merchant)
      ensures if r.Err? then coupons == old(coupons) else
        && upper(code) in old(coupons)
        && coupons == old(coupons)[upper(code) := old(coupons)[upper(code)].(used := old(coupons)[upper(code)].used + 1)]
    {
      r := ValidateCoupon(code, order, merchant);
      if r.Ok? {
        var c := coupons[upper(code)];
        coupons := coupons[upper(code) := c.(used := c.used + 1)];
      }
    }
  }
}
