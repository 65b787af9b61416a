/**
 * The payment service (paymentService/payment/payment.go): invoices, payment
 * transactions and promo codes. The tables it reads and writes are maps keyed
 * by their primary key, with an auto-increment counter where the database
 * assigns the id; `CURDATE()` is an integer day number; money is `real`.
 */
module Payment {
  import opened Wrappers
  import opened Api

  /** The status every recorded payment transaction carries. */
  const Completed: string := "Completed"

  /** A row of Invoices. */
  datatype Invoice = Invoice(
    reservationId: int,
    userId: int,
    totalCost: real,
    membershipDiscount: real,
    promoDiscount: real,
    finalAmount: real)

  /** A row of PaymentTransactions. */
  datatype Transaction = Transaction(userId: int, invoiceId: int, paymentMethod: string, paymentStatus: string)

  /** A row of Promotions, keyed by its promo code; the validity bounds are day numbers. */
  datatype Promotion = Promotion(discountPercentage: real, validFrom: int, validUntil: int)

  /** How MakePayment ends. */
  datatype PaymentOutcome = Paid | UserDetailsNotFound

  /** The body ApplyPromoCode answers with on success. */
  datatype PromoResponse = PromoResponse(discountPercentage: real, discountAmount: real, totalCostAfterPromo: real)

  /** The error categories of ApplyPromoCode, in the order they are tested. */
  datatype PromoError = MissingFields | ReservationNotFound | PromoInvalidOrExpired

  /**
   * The amount MakePayment invoices: the received total less both received
   * discounts. With non-negative discounts it never exceeds the received
   * total, and equals it exactly when the discounts add up to nothing.
   */
  function FinalAmount(req: PaymentRequest): (final: real)
    ensures 0.0 <= req.membershipDiscount && 0.0 <= req.promoDiscount ==> final <= req.totalCost
    ensures final == req.totalCost <==> req.membershipDiscount + req.promoDiscount == 0.0
  {
    req.totalCost - req.membershipDiscount - req.promoDiscount
  }

  /** Whether some invoice has been issued for the reservation. */
  predicate HasInvoice(invoices: map<int, Invoice>, reservationId: int)
  {
    exists id :: id in invoices && invoices[id].reservationId == reservationId
  }

  /** No reservation has two invoices. */
  ghost predicate OneInvoicePerReservation(invoices: map<int, Invoice>)
  {
    forall i, j :: i in invoices && j in invoices && invoices[i].reservationId == invoices[j].reservationId ==> i == j
  }

  /** A promotion is usable on `today` when today lies between its bounds, both included. */
  predicate PromoActive(promo: Promotion, today: int)
  {
    promo.validFrom <= today <= promo.validUntil
  }

  /** The promotions lookup: the percentage of the code, if it exists and is active on `today`. */
  function LookupPromo(promotions: map<string, Promotion>, promoCode: string, today: int): (pct: Option<real>)
    ensures pct.Some? <==> promoCode in promotions && PromoActive(promotions[promoCode], today)
    ensures pct.Some? ==> pct.value == promotions[promoCode].discountPercentage
  {
    if promoCode in promotions && PromoActive(promotions[promoCode], today)
    then Some(promotions[promoCode].discountPercentage)
    else None
  }

  /** The promo discount the service computes: `pct` percent of the stored total, never more than that total. */
  function PromoDiscountAmount(totalCost: real, pct: real): (discount: real)
    ensures 0.0 <= totalCost && 0.0 <= pct <= 100.0 ==> 0.0 <= discount <= totalCost
  {
    var q := pct / 100.0;
    assert 0.0 <= totalCost && 0.0 <= q <= 1.0 ==> 0.0 <= totalCost * q && 0.0 <= totalCost * (1.0 - q);
    totalCost * q
  }

  /** The total the service stores after a promo, within [0, total]. */
  function TotalAfterPromo(totalCost: real, pct: real): (after: real)
    ensures 0.0 <= totalCost && 0.0 <= pct <= 100.0 ==> 0.0 <= after <= totalCost
  {
    totalCost - PromoDiscountAmount(totalCost, pct)
  }

  /** The stored total after a promo is the old total scaled by (100 - pct)%. */
  lemma TotalAfterPromoScales(totalCost: real, pct: real)
    ensures TotalAfterPromo(totalCost, pct) == totalCost * (1.0 - pct / 100.0)
  {
    assert PromoDiscountAmount(totalCost, pct) == totalCost * (pct / 100.0);
  }

  /**
   * A second application of the same promo discounts the already-discounted
   * total again: the stored total becomes total * (1 - pct/100)^2.
   */
  lemma PromoTwiceCompounds(totalCost: real, pct: real)
    ensures TotalAfterPromo(TotalAfterPromo(totalCost, pct), pct)
         == totalCost * (1.0 - pct / 100.0) * (1.0 - pct / 100.0)
  {
    TotalAfterPromoScales(totalCost, pct);
    TotalAfterPromoScales(TotalAfterPromo(totalCost, pct), pct);
  }

  /** The second application changes the stored total exactly when total, discount and remainder are all non-zero. */
  lemma PromoTwiceDiffers(totalCost: real, pct: real)
    ensures TotalAfterPromo(TotalAfterPromo(totalCost, pct), pct) != TotalAfterPromo(totalCost, pct)
        <==> totalCost != 0.0 && pct != 0.0 && pct != 100.0
  {
    var q := pct / 100.0;
    var once := TotalAfterPromo(totalCost, pct);
    TotalAfterPromoScales(totalCost, pct);
    TotalAfterPromoScales(once, pct);
    assert once - TotalAfterPromo(once, pct) == once * q;
    assert once * q == totalCost * ((1.0 - q) * q);
    NonZeroProduct(1.0 - q, q);
    assert q == 0.0 <==> pct == 0.0;
    assert q == 1.0 <==> pct == 100.0;
    NonZeroProduct(totalCost, (1.0 - q) * q);
  }

  /** A product of reals is zero exactly when a factor is. */
  lemma NonZeroProduct(x: real, y: real)
    ensures x * y == 0.0 <==> x == 0.0 || y == 0.0
  {
    if x != 0.0 && y != 0.0 {
      assert (x * y) / x == y;
    }
  }

  /**
   * What ApplyPromoCode decides, given the stored reservation totals and the
   * promotions: missing fields first, then an unknown reservation, then an
   * unknown or inactive code; otherwise the discount on the stored total.
   */
  function PromoDecision(reservationCosts: map<int, real>, promotions: map<string, Promotion>,
                         req: PromoRequest, today: int): (r: Result<PromoResponse, PromoError>)
    ensures r == Failure(MissingFields) <==> req.promoCode == "" || req.reservationId == 0
    ensures r == Failure(ReservationNotFound)
        <==> req.promoCode != "" && req.reservationId != 0 && req.reservationId !in reservationCosts
    ensures r == Failure(PromoInvalidOrExpired)
        <==> req.promoCode != "" && req.reservationId != 0 && req.reservationId in reservationCosts
             && !(req.promoCode in promotions && PromoActive(promotions[req.promoCode], today))
    ensures r.Success? ==>
              var total := reservationCosts[req.reservationId];
              var pct := promotions[req.promoCode].discountPercentage;
              && r.value.discountPercentage == pct
              && r.value.discountAmount == total * pct / 100.0
              && r.value.totalCostAfterPromo == total - r.value.discountAmount
  {
    if req.promoCode == "" || req.reservationId == 0 then Failure(MissingFields)
    else if req.reservationId !in reservationCosts then Failure(ReservationNotFound)
    else match LookupPromo(promotions, req.promoCode, today)
      case None => Failure(PromoInvalidOrExpired)
      case Some(pct) =>
        var total := reservationCosts[req.reservationId];
        Success(PromoResponse(pct, PromoDiscountAmount(total, pct), TotalAfterPromo(total, pct)))
  }

  /**
   * The billing database together with the two tables of other services that
   * the payment service reaches into: the reservations' `total_cost` column
   * and the users' email addresses.
   */
  class Ledger {
    var invoices: map<int, Invoice>
    var nextInvoiceId: int
    var transactions: map<int, Transaction>
    var nextTransactionId: int
    var promotions: map<string, Promotion>
    /** `ElectriGo_VehicleDB.Reservations.total_cost`, by reservation id. */
    var reservationCosts: map<int, real>
    /** `ElectriGo_AccountDB.Users.email`, by user id. */
    var userEmails: map<int, string>

    /** Ids are below their counters, every transaction names an existing invoice, and no reservation has two invoices. */
    ghost predicate Valid()
      reads this
    {
      && (forall id :: id in invoices ==> id < nextInvoiceId)
      && (forall id :: id in transactions ==> id < nextTransactionId)
      && (forall id :: id in transactions ==> transactions[id].invoiceId in invoices)
      && OneInvoicePerReservation(invoices)
    }

    constructor (promotions: map<string, Promotion>, reservationCosts: map<int, real>, userEmails: map<int, string>)
      ensures Valid()
      ensures invoices == map[] && transactions == map[]
      ensures this.promotions == promotions && this.reservationCosts == reservationCosts
      ensures this.userEmails == userEmails
    {
      invoices := map[];
      nextInvoiceId := 1;
      transactions := map[];
      nextTransactionId := 1;
      this.promotions := promotions;
      this.reservationCosts := reservationCosts;
      this.userEmails := userEmails;
    }

    /**
     * CreateInvoice: inserts an invoice whose final amount is the total less
     * the discount, without looking for an existing one. The promo column is
     * not written and keeps its default, taken to be 0. It keeps the
     * one-invoice rule exactly when the reservation had no invoice.
     */
    method CreateInvoice(reservationId: int, userId: int, totalCost: real, discount: real) returns (invoiceId: int)
      modifies this`invoices, this`nextInvoiceId
      ensures invoiceId == old(nextInvoiceId) && nextInvoiceId == old(nextInvoiceId) + 1
      ensures invoices == old(invoices)[invoiceId := Invoice(reservationId, userId, totalCost, discount, 0.0, totalCost - discount)]
      ensures invoices[invoiceId].finalAmount + discount == totalCost
      ensures old(Valid()) ==> (Valid() <==> !HasInvoice(old(invoices), reservationId))
    {
      var finalAmount := totalCost - discount;
      invoiceId := nextInvoiceId;
      invoices := invoices[invoiceId := Invoice(reservationId, userId, totalCost, discount, 0.0, finalAmount)];
      nextInvoiceId := nextInvoiceId + 1;
      if old(Valid()) && HasInvoice(old(invoices), reservationId) {
        var other :| other in old(invoices) && old(invoices)[other].reservationId == reservationId;
        assert other != invoiceId && invoices[other].reservationId == invoices[invoiceId].reservationId;
      }
    }

    /**
     * MakePayment. Without an invoice for the reservation it looks up the
     * user (failing when absent), inserts an invoice for the received figures
     * with final amount FinalAmount(req), sends the invoice email (whose
     * failure is ignored) and writes the final amount into the reservation's
     * total; with an invoice it reuses it. Either way it then records one
     * Completed transaction for that invoice.
     */
    method MakePayment(req: PaymentRequest, emailSent: bool) returns (outcome: PaymentOutcome)
      requires Valid()
      modifies this`invoices, this`nextInvoiceId, this`transactions, this`nextTransactionId, this`reservationCosts
      ensures Valid()
      ensures outcome == UserDetailsNotFound <==> !HasInvoice(old(invoices), req.reservationId) && req.userId !in userEmails
      ensures outcome == UserDetailsNotFound ==>
                && invoices == old(invoices) && transactions == old(transactions) && reservationCosts == old(reservationCosts)
                && nextInvoiceId == old(nextInvoiceId) && nextTransactionId == old(nextTransactionId)
      ensures outcome == Paid && HasInvoice(old(invoices), req.reservationId) ==>
                invoices == old(invoices) && reservationCosts == old(reservationCosts) && nextInvoiceId == old(nextInvoiceId)
      ensures outcome == Paid && !HasInvoice(old(invoices), req.reservationId) ==>
                && nextInvoiceId == old(nextInvoiceId) + 1
                && invoices == old(invoices)[old(nextInvoiceId) := Invoice(req.reservationId, req.userId, req.totalCost,
                                                                           req.membershipDiscount, req.promoDiscount, FinalAmount(req))]
                && reservationCosts == (if req.reservationId in old(reservationCosts)
                                        then old(reservationCosts)[req.reservationId := FinalAmount(req)]
                                        else old(reservationCosts))
      ensures outcome == Paid ==>
                && nextTransactionId == old(nextTransactionId) + 1
                && old(nextTransactionId) in transactions
                && transactions == old(transactions)[old(nextTransactionId) := transactions[old(nextTransactionId)]]
                && var t := transactions[old(nextTransactionId)];
                   && t.userId == req.userId && t.paymentMethod == req.paymentMethod && t.paymentStatus == Completed
                   && t.invoiceId in invoices && invoices[t.invoiceId].reservationId == req.reservationId
    {
      var invoiceId: int;
      if !HasInvoice(invoices, req.reservationId) {
        if req.userId !in userEmails {
          return UserDetailsNotFound;
        }
        var finalAmount := FinalAmount(req);
        invoiceId := nextInvoiceId;
        invoices := invoices[invoiceId := Invoice(req.reservationId, req.userId, req.totalCost,
                                                  req.membershipDiscount, req.promoDiscount, finalAmount)];
        nextInvoiceId := nextInvoiceId + 1;
        // the invoice email is sent here; whether it went out does not change the outcome
        if req.reservationId in reservationCosts {
          reservationCosts := reservationCosts[req.reservationId := finalAmount];
        }
      } else {
        invoiceId :| invoiceId in invoices && invoices[invoiceId].reservationId == req.reservationId;
      }
      transactions := transactions[nextTransactionId := Transaction(req.userId, invoiceId, req.paymentMethod, Completed)];
      nextTransactionId := nextTransactionId + 1;
      outcome := Paid;
    }

    /**
     * ApplyPromoCode: decides as PromoDecision does on the current tables and,
     * on success, stores the discounted total back into the reservation.
     */
    method ApplyPromoCode(req: PromoRequest, today: int) returns (r: Result<PromoResponse, PromoError>)
      modifies this`reservationCosts
      ensures r == PromoDecision(old(reservationCosts), promotions, req, today)
      ensures r.Success? ==> reservationCosts == old(reservationCosts)[req.reservationId := r.value.totalCostAfterPromo]
      ensures r.Failure? ==> reservationCosts == old(reservationCosts)
    {
      if req.promoCode == "" || req.reservationId == 0 {
        return Failure(MissingFields);
      }
      if req.reservationId !in reservationCosts {
        return Failure(ReservationNotFound);
      }
      var totalCost := reservationCosts[req.reservationId];
      var found := LookupPromo(promotions, req.promoCode, today);
      if found.None? {
        return Failure(PromoInvalidOrExpired);
      }
      var discountAmount := PromoDiscountAmount(totalCost, found.value);
      var totalCostAfterPromo := totalCost - discountAmount;
      reservationCosts := reservationCosts[req.reservationId := totalCostAfterPromo];
      r := Success(PromoResponse(found.value, discountAmount, totalCostAfterPromo));
    }
  }

  /**
   * Two requests for the same reservation and code: when the first is accepted
   * so is the second, and total * (1 - pct/100)^2 is left stored for that
   * reservation alone; when the first is refused the second is refused alike.
   */
  method ApplyPromoCodeTwice(ledger: Ledger, req: PromoRequest, today: int)
    returns (first: Result<PromoResponse, PromoError>, second: Result<PromoResponse, PromoError>)
    modifies ledger`reservationCosts
    ensures first.Success? ==> second.Success?
    ensures first.Success? ==>
              && req.promoCode in ledger.promotions
              && req.reservationId in old(ledger.reservationCosts) && req.reservationId in ledger.reservationCosts
              && ledger.reservationCosts == old(ledger.reservationCosts)[req.reservationId := ledger.reservationCosts[req.reservationId]]
              && var pct := ledger.promotions[req.promoCode].discountPercentage;
                 ledger.reservationCosts[req.reservationId]
                   == old(ledger.reservationCosts[req.reservationId]) * (1.0 - pct / 100.0) * (1.0 - pct / 100.0)
    ensures first.Failure? ==> second == first && ledger.reservationCosts == old(ledger.reservationCosts)
  {
    first := ledger.ApplyPromoCode(req, today);
    ghost var afterFirst := ledger.reservationCosts;
    second := ledger.ApplyPromoCode(req, today);
    if first.Success? {
      var total, pct := old(ledger.reservationCosts[req.reservationId]), ledger.promotions[req.promoCode].discountPercentage;
      var once := TotalAfterPromo(total, pct);
      assert first.value.totalCostAfterPromo == once;
      assert afterFirst == old(ledger.reservationCosts)[req.reservationId := once];
      assert second.value.totalCostAfterPromo == TotalAfterPromo(once, pct);
      assert ledger.reservationCosts == old(ledger.reservationCosts)[req.reservationId := TotalAfterPromo(once, pct)];
      PromoTwiceCompounds(total, pct);
    }
  }
}
