/**
 * The checkout page and the payment service together. The page sends a
 * `total_cost` that already has both discounts taken off, and MakePayment
 * takes both discounts off it again; ApplyPromoCode discounts the stored total
 * it finds, so each accepted request for the same reservation discounts once
 * more. Each defect is shown on the code as written, beside the corrected
 * definition and its property.
 */
module CheckoutFlow {
  import opened Wrappers
  import opened Api
  import Checkout
  import Payment

  /**
   * The request the page sends once it has loaded a reservation of cost
   * `baseCost` and a membership `tier`, and the service last accepted a promo
   * of `promoPct` percent (0 when none was applied).
   */
  function SentRequest(reservationId: int, userId: int, paymentMethod: string,
                       baseCost: real, tier: string, promoPct: real): (req: PaymentRequest)
    requires paymentMethod != ""
    ensures req.totalCost == baseCost - req.membershipDiscount - req.promoDiscount
  {
    var pct := Checkout.TierDiscountPercentage(tier);
    Checkout.BuildPaymentRequest(reservationId, userId, paymentMethod, baseCost, pct,
                                 Checkout.PromoDiscount(baseCost, pct, promoPct),
                                 Checkout.NetTotal(baseCost, pct, promoPct)).value
  }

  /** The pay button of a page whose membership has loaded sends exactly SentRequest of the page's figures. */
  lemma PageSendsSentRequest(page: Checkout.CheckoutPage, paymentMethod: string)
    requires page.Valid() && page.membershipTier.Some? && paymentMethod != ""
    ensures page.PaymentRequestFor(paymentMethod)
         == Some(SentRequest(page.reservationId, page.userId, paymentMethod,
                             page.baseCost, page.membershipTier.value, page.promoPercentage))
  {
  }

  /**
   * As written: the invoiced amount is the page's total less both discounts a
   * second time, so it falls below the total the page showed whenever a
   * discount applied.
   */
  lemma DiscountsSubtractedTwice(reservationId: int, userId: int, paymentMethod: string,
                                 baseCost: real, tier: string, promoPct: real)
    requires paymentMethod != ""
    requires 0.0 < baseCost && 0.0 <= promoPct <= 100.0
    ensures var req := SentRequest(reservationId, userId, paymentMethod, baseCost, tier, promoPct);
      && Payment.FinalAmount(req) == baseCost - 2.0 * (req.membershipDiscount + req.promoDiscount)
      && (Payment.FinalAmount(req) < req.totalCost <==> tier == "Premium" || tier == "VIP" || promoPct > 0.0)
  {
    var pct := Checkout.TierDiscountPercentage(tier);
    Checkout.PricingBounds(baseCost, pct, promoPct);
    var md := Checkout.MembershipDiscount(baseCost, pct);
    var promo := Checkout.PromoDiscount(baseCost, pct, promoPct);
    assert md > 0.0 <==> pct > 0.0 by {
      assert md == baseCost * pct / 100.0;
      if pct > 0.0 {
        assert baseCost * pct > 0.0;
      }
    }
    if promoPct > 0.0 {
      var rest := baseCost - md;
      assert rest >= baseCost * 80.0 / 100.0 by {
        assert pct <= 20.0;
        assert baseCost * pct <= baseCost * 20.0;
      }
      assert rest > 0.0;
      assert rest * promoPct > 0.0;
      assert promo == rest * promoPct / 100.0;
      assert promo > 0.0;
    }
  }

  /** A VIP member paying for a reservation of 100 without a promo sees 80 and is invoiced 60. */
  lemma DoubleDiscountWitness()
    ensures SentRequest(1, 1, "PayNow", 100.0, "VIP", 0.0).totalCost == 80.0
    ensures Payment.FinalAmount(SentRequest(1, 1, "PayNow", 100.0, "VIP", 0.0)) == 60.0
  {
    assert Checkout.TierDiscountPercentage("VIP") == 20.0;
    assert Checkout.MembershipDiscount(100.0, 20.0) == 20.0;
    assert Checkout.PromoDiscount(100.0, 20.0, 0.0) == 0.0;
    var req := SentRequest(1, 1, "PayNow", 100.0, "VIP", 0.0);
    assert req == PaymentRequest(1, "PayNow", 1, 80.0, 20.0, 0.0);
    FinalAmountOf(req);
  }

  lemma FinalAmountOf(req: PaymentRequest)
    ensures Payment.FinalAmount(req) == req.totalCost - req.membershipDiscount - req.promoDiscount
  {
  }

  /**
   * Corrected: the page sends the reservation's base cost as `total_cost`,
   * which is what the invoice stores and the invoice e-mail shows as "Base
   * Cost"; the discounts are sent as before.
   */
  function CorrectedRequest(reservationId: int, userId: int, paymentMethod: string,
                            baseCost: real, tier: string, promoPct: real): (req: PaymentRequest)
    requires paymentMethod != ""
    ensures req.totalCost == baseCost
  {
    var pct := Checkout.TierDiscountPercentage(tier);
    var sent := Checkout.BuildPaymentRequest(reservationId, userId, paymentMethod, baseCost, pct,
                                             Checkout.PromoDiscount(baseCost, pct, promoPct), baseCost);
    sent.value
  }

  /**
   * With the corrected request the service, unchanged, invoices exactly the
   * total the page showed, and for a non-negative base and a promo within
   * [0, 100] that amount lies in [0, base].
   */
  lemma CorrectedInvoiceMatchesPage(reservationId: int, userId: int, paymentMethod: string,
                                    baseCost: real, tier: string, promoPct: real)
    requires paymentMethod != ""
    ensures Payment.FinalAmount(CorrectedRequest(reservationId, userId, paymentMethod, baseCost, tier, promoPct))
         == Checkout.NetTotal(baseCost, Checkout.TierDiscountPercentage(tier), promoPct)
    ensures 0.0 <= baseCost && 0.0 <= promoPct <= 100.0 ==>
              var final := Payment.FinalAmount(CorrectedRequest(reservationId, userId, paymentMethod, baseCost, tier, promoPct));
              0.0 <= final <= baseCost
  {
    var pct := Checkout.TierDiscountPercentage(tier);
    if 0.0 <= baseCost && 0.0 <= promoPct <= 100.0 {
      Checkout.PricingBounds(baseCost, pct, promoPct);
    }
  }

  /** As written: two accepted promo requests of 10% on a stored 100 leave 81, where one leaves 90. */
  lemma PromoCompoundingWitness()
    ensures Payment.TotalAfterPromo(100.0, 10.0) == 90.0
    ensures Payment.TotalAfterPromo(Payment.TotalAfterPromo(100.0, 10.0), 10.0) == 81.0
  {
  }

  /**
   * Corrected: the reservation keeps its cost before any promo beside its
   * current total, and a promo is always taken off the former.
   */
  datatype PricedReservation = PricedReservation(costBeforePromo: real, totalCost: real)

  function ApplyPromoToBase(reservation: PricedReservation, pct: real): (priced: PricedReservation)
    ensures priced.costBeforePromo == reservation.costBeforePromo
    ensures priced.totalCost == reservation.costBeforePromo * (1.0 - pct / 100.0)
  {
    Payment.TotalAfterPromoScales(reservation.costBeforePromo, pct);
    reservation.(totalCost := Payment.TotalAfterPromo(reservation.costBeforePromo, pct))
  }

  /**
   * With the corrected definition a repeated request changes nothing, and the
   * stored total is the one the page computes for a member without a tier
   * discount.
   */
  lemma {:induction false} ApplyPromoToBaseIdempotent(reservation: PricedReservation, pct: real, times: nat)
    requires times >= 1
    ensures ApplyPromoRepeatedly(reservation, pct, times) == ApplyPromoToBase(reservation, pct)
    ensures ApplyPromoToBase(reservation, pct).totalCost
         == Checkout.NetTotal(reservation.costBeforePromo, Checkout.TierDiscountPercentage("Basic"), pct)
  {
    if times > 1 {
      ApplyPromoToBaseIdempotent(reservation, pct, times - 1);
    }
    Checkout.NetTotalFactors(reservation.costBeforePromo, 0.0, pct);
  }

  /** `times` accepted requests of the same promo under the corrected definition. */
  function ApplyPromoRepeatedly(reservation: PricedReservation, pct: real, times: nat): PricedReservation
  {
    if times == 0 then reservation else ApplyPromoToBase(ApplyPromoRepeatedly(reservation, pct, times - 1), pct)
  }
}
