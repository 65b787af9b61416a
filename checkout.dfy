/**
 * The pricing logic of the checkout page (public/scripts/checkout.js): the
 * membership-tier discount, the promo discount taken off what the membership
 * discount leaves, the rental duration, and the page's running totals, which
 * the load sequence and the promo button overwrite.
 *
 * Money is `real` (no floating-point rounding, no `toFixed` display); times are
 * integer milliseconds, as JavaScript `Date` subtraction yields.
 */
module Checkout {
  import opened Wrappers
  import opened Api

  /** One hour in milliseconds, the divisor of line 46. */
  const MillisPerHour: int := 1000 * 60 * 60

  /** The tier that a missing or empty `membership_tier` falls back to. */
  const DefaultTier: string := "Basic"

  /** The discount percentage a membership tier grants; an unknown tier grants none. */
  function TierDiscountPercentage(tier: string): (pct: real)
    ensures pct == 10.0 <==> tier == "Premium"
    ensures pct == 20.0 <==> tier == "VIP"
    ensures pct == 0.0 <==> tier != "Premium" && tier != "VIP"
  {
    match tier
    case "Basic" => 0.0
    case "Premium" => 10.0
    case "VIP" => 20.0
    case _ => 0.0
  }

  /** `membership_tier || 'Basic'`: the tier the page works with, given the field as received. */
  function EffectiveTier(received: Option<string>): (tier: string)
    ensures tier != ""
    ensures received.Some? && received.value != "" ==> tier == received.value
    ensures received.None? || received.value == "" ==> tier == DefaultTier
  {
    match received
    case Some(t) => if t != "" then t else DefaultTier
    case None => DefaultTier
  }

  /** `pct` percent of an amount. */
  function PercentOf(amount: real, pct: real): (part: real)
    ensures 0.0 <= amount && 0.0 <= pct <= 100.0 ==> 0.0 <= part <= amount
  {
    PercentageOfBounds(amount, pct);
    amount * pct / 100.0
  }

  /** A percentage within [0, 100] of a non-negative amount stays within [0, amount]. */
  lemma PercentageOfBounds(amount: real, pct: real)
    ensures 0.0 <= amount && 0.0 <= pct <= 100.0 ==> 0.0 <= amount * pct / 100.0 <= amount
  {
    if 0.0 <= amount && 0.0 <= pct <= 100.0 {
      assert 0.0 <= amount * pct;
      assert 0.0 <= amount * (100.0 - pct);
    }
  }

  /** The membership discount: `pct` percent of the base cost, never more than the base. */
  function MembershipDiscount(baseCost: real, pct: real): (md: real)
    ensures 0.0 <= baseCost && 0.0 <= pct <= 100.0 ==> 0.0 <= md <= baseCost
  {
    PercentOf(baseCost, pct)
  }

  /** The promo discount: `promoPct` percent of what the membership discount leaves, never more than that. */
  function PromoDiscount(baseCost: real, pct: real, promoPct: real): (promo: real)
    ensures 0.0 <= baseCost && 0.0 <= pct <= 100.0 && 0.0 <= promoPct <= 100.0 ==>
              0.0 <= promo <= baseCost - MembershipDiscount(baseCost, pct)
  {
    PercentOf(baseCost - MembershipDiscount(baseCost, pct), promoPct)
  }

  /** The amount the page shows as total: what is left after both discounts, within [0, base]. */
  function NetTotal(baseCost: real, pct: real, promoPct: real): (total: real)
    ensures 0.0 <= baseCost && 0.0 <= pct <= 100.0 && 0.0 <= promoPct <= 100.0 ==> 0.0 <= total <= baseCost
  {
    (baseCost - MembershipDiscount(baseCost, pct)) - PromoDiscount(baseCost, pct, promoPct)
  }

  /**
   * For a non-negative base and percentages within [0, 100], each discount is
   * non-negative, the total is the base less both discounts, and it never
   * leaves [0, base].
   */
  lemma PricingBounds(baseCost: real, pct: real, promoPct: real)
    requires 0.0 <= baseCost
    requires 0.0 <= pct <= 100.0 && 0.0 <= promoPct <= 100.0
    ensures 0.0 <= MembershipDiscount(baseCost, pct) <= baseCost
    ensures 0.0 <= PromoDiscount(baseCost, pct, promoPct) <= baseCost - MembershipDiscount(baseCost, pct)
    ensures NetTotal(baseCost, pct, promoPct)
         == baseCost - MembershipDiscount(baseCost, pct) - PromoDiscount(baseCost, pct, promoPct)
    ensures 0.0 <= NetTotal(baseCost, pct, promoPct) <= baseCost
  {
  }

  /** Both discounts multiply: the total is the base scaled by (100 - pct)% and then by (100 - promoPct)%. */
  lemma NetTotalFactors(baseCost: real, pct: real, promoPct: real)
    ensures NetTotal(baseCost, pct, promoPct) == baseCost * (100.0 - pct) * (100.0 - promoPct) / 10000.0
  {
    var rest := baseCost - MembershipDiscount(baseCost, pct);
    assert rest == baseCost * (100.0 - pct) / 100.0;
    assert NetTotal(baseCost, pct, promoPct) == rest * (100.0 - promoPct) / 100.0;
  }

  /**
   * The order matters: a promo taken off the post-membership amount is never
   * larger than the same promo taken off the base, and equal exactly when one
   * of the two discounts is zero.
   */
  lemma PromoAfterMembership(baseCost: real, pct: real, promoPct: real)
    requires 0.0 < baseCost && 0.0 <= pct && 0.0 <= promoPct
    ensures PromoDiscount(baseCost, pct, promoPct) <= baseCost * promoPct / 100.0
    ensures PromoDiscount(baseCost, pct, promoPct) == baseCost * promoPct / 100.0 <==> pct == 0.0 || promoPct == 0.0
  {
    var md := MembershipDiscount(baseCost, pct);
    assert baseCost * promoPct / 100.0 - PromoDiscount(baseCost, pct, promoPct) == md * promoPct / 100.0;
    assert 0.0 <= md;
    assert md == 0.0 <==> pct == 0.0;
  }

  /** The figures of a worked checkout: 100 at Premium without a promo, then with a 20% promo. */
  lemma PricingExamples()
    ensures MembershipDiscount(100.0, TierDiscountPercentage("Premium")) == 10.0
    ensures NetTotal(100.0, TierDiscountPercentage("Premium"), 0.0) == 90.0
    ensures PromoDiscount(100.0, TierDiscountPercentage("Premium"), 20.0) == 18.0
    ensures NetTotal(100.0, TierDiscountPercentage("Premium"), 20.0) == 72.0
  {
  }

  /** `Math.ceil((end - start) / 3600000)`: the least whole number of hours covering the interval. */
  function DurationHours(startMs: int, endMs: int): (hours: int)
    ensures (hours - 1) * MillisPerHour < endMs - startMs <= hours * MillisPerHour
  {
    var elapsed := endMs - startMs;
    if elapsed % MillisPerHour == 0 then elapsed / MillisPerHour else elapsed / MillisPerHour + 1
  }

  /** The body the pay button sends: null until a payment method is chosen. */
  function BuildPaymentRequest(reservationId: int, userId: int, paymentMethod: string,
                               baseCost: real, pct: real, promoDiscountAmount: real,
                               totalCost: real): (req: Option<PaymentRequest>)
    ensures req.None? <==> paymentMethod == ""
    ensures req.Some? ==> req.value.reservationId == reservationId && req.value.userId == userId
                          && req.value.paymentMethod == paymentMethod
    ensures req.Some? ==> req.value.membershipDiscount == MembershipDiscount(baseCost, pct)
                          && req.value.promoDiscount == promoDiscountAmount
                          && req.value.totalCost == totalCost
  {
    if paymentMethod == "" then None
    else Some(PaymentRequest(reservationId, paymentMethod, userId, totalCost,
                             MembershipDiscount(baseCost, pct), promoDiscountAmount))
  }

  /**
   * The checkout page's running state. The page first loads the reservation,
   * then the membership, and only then enables the promo and pay buttons; the
   * methods below take those events in that order.
   */
  class CheckoutPage {
    const reservationId: int
    const userId: int
    var membershipTier: Option<string>
    var baseCost: real
    var totalCost: real
    var discountPercentage: real
    var promoDiscountAmount: real
    /** The percentage of the last promo the service accepted (0 before any). */
    ghost var promoPercentage: real

    /**
     * Before the membership is known nothing is discounted; afterwards the
     * discount follows the tier and the totals follow the last accepted promo.
     */
    ghost predicate Valid()
      reads this
    {
      && (membershipTier.None? ==>
            discountPercentage == 0.0 && promoDiscountAmount == 0.0 && promoPercentage == 0.0)
      && (membershipTier.Some? ==>
            && discountPercentage == TierDiscountPercentage(membershipTier.value)
            && promoDiscountAmount == PromoDiscount(baseCost, discountPercentage, promoPercentage)
            && totalCost == NetTotal(baseCost, discountPercentage, promoPercentage))
    }

    /** The page's variables as declared, before anything is fetched. */
    constructor (reservationId: int, userId: int)
      ensures Valid()
      ensures this.reservationId == reservationId && this.userId == userId
      ensures membershipTier == None && baseCost == 0.0 && totalCost == 0.0
      ensures discountPercentage == 0.0 && promoDiscountAmount == 0.0
    {
      this.reservationId := reservationId;
      this.userId := userId;
      membershipTier := None;
      baseCost := 0.0;
      totalCost := 0.0;
      discountPercentage := 0.0;
      promoDiscountAmount := 0.0;
      promoPercentage := 0.0;
    }

    /** The reservation arrived: its `total_cost` (0 when missing) becomes the base cost; the total is not touched. */
    method LoadReservation(reservedTotal: Option<real>)
      requires Valid() && membershipTier.None?
      modifies this`baseCost
      ensures Valid()
      ensures baseCost == (if reservedTotal.Some? then reservedTotal.value else 0.0)
    {
      baseCost := if reservedTotal.Some? then reservedTotal.value else 0.0;
    }

    /** The membership arrived: the tier picks the discount and the total is recomputed without a promo. */
    method LoadMembership(receivedTier: Option<string>)
      requires Valid() && membershipTier.None?
      modifies this`membershipTier, this`discountPercentage, this`totalCost
      ensures Valid()
      ensures membershipTier == Some(EffectiveTier(receivedTier))
      ensures discountPercentage == TierDiscountPercentage(EffectiveTier(receivedTier))
      ensures promoDiscountAmount == 0.0
      ensures totalCost == baseCost - MembershipDiscount(baseCost, discountPercentage)
    {
      var tier := EffectiveTier(receivedTier);
      membershipTier := Some(tier);
      discountPercentage := TierDiscountPercentage(tier);
      var membershipDiscount := MembershipDiscount(baseCost, discountPercentage);
      totalCost := baseCost - membershipDiscount - promoDiscountAmount;
    }

    /**
     * The promo button. An empty code is refused on the page; `accepted` is
     * the service's answer (the promo percentage, or None when it refused).
     * An accepted promo recomputes both figures from the base cost, so the
     * previous promo does not matter.
     */
    method ApplyPromo(promoCode: string, accepted: Option<real>) returns (applied: bool)
      requires Valid() && membershipTier.Some?
      modifies this`promoDiscountAmount, this`totalCost, this`promoPercentage
      ensures Valid()
      ensures applied <==> promoCode != "" && accepted.Some?
      ensures applied ==> promoDiscountAmount == PromoDiscount(baseCost, discountPercentage, accepted.value)
                          && totalCost == NetTotal(baseCost, discountPercentage, accepted.value)
      ensures !applied ==> promoDiscountAmount == old(promoDiscountAmount) && totalCost == old(totalCost)
                           && promoPercentage == old(promoPercentage)
    {
      applied := false;
      if promoCode == "" {
        return;
      }
      if accepted.None? {
        return;
      }
      var membershipDiscount := MembershipDiscount(baseCost, discountPercentage);
      var costAfterMembershipDiscount := baseCost - membershipDiscount;
      promoDiscountAmount := costAfterMembershipDiscount * accepted.value / 100.0;
      totalCost := costAfterMembershipDiscount - promoDiscountAmount;
      promoPercentage := accepted.value;
      applied := true;
    }

    /**
     * The pay button: the request it sends. Its `total_cost` is the page's
     * total, which already has both discounts taken off.
     */
    function PaymentRequestFor(paymentMethod: string): (req: Option<PaymentRequest>)
      requires Valid() && membershipTier.Some?
      reads this
      ensures req.None? <==> paymentMethod == ""
      ensures req.Some? ==> req.value.totalCost == baseCost - req.value.membershipDiscount - req.value.promoDiscount
      ensures req.Some? ==> req.value.membershipDiscount == MembershipDiscount(baseCost, discountPercentage)
                            && req.value.promoDiscount == promoDiscountAmount
    {
      BuildPaymentRequest(reservationId, userId, paymentMethod, baseCost, discountPercentage,
                          promoDiscountAmount, totalCost)
    }
  }

  /** Pressing the promo button twice with the same accepted percentage leaves the page as once does. */
  method ApplyPromoTwice(page: CheckoutPage, promoCode: string, pct: real)
    requires page.Valid() && page.membershipTier.Some?
    modifies page`promoDiscountAmount, page`totalCost, page`promoPercentage
    ensures page.Valid()
    ensures page.baseCost == old(page.baseCost) && page.discountPercentage == old(page.discountPercentage)
    ensures promoCode == "" ==> page.promoDiscountAmount == old(page.promoDiscountAmount)
                                && page.totalCost == old(page.totalCost)
    ensures promoCode != "" ==> page.promoDiscountAmount == PromoDiscount(page.baseCost, page.discountPercentage, pct)
                                && page.totalCost == NetTotal(page.baseCost, page.discountPercentage, pct)
  {
    var first := page.ApplyPromo(promoCode, Some(pct));
    var amountOnce, totalOnce := page.promoDiscountAmount, page.totalCost;
    var second := page.ApplyPromo(promoCode, Some(pct));
    assert page.promoDiscountAmount == amountOnce && page.totalCost == totalOnce;
  }
}
