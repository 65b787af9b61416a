# ElectriGo pricing, payment, account and booking rules in Dafny

ElectriGo is a vehicle-rental web application: a browser client and three Go
services (accounts, vehicle bookings, payments) over MySQL. This project
models the decision logic beneath the HTTP, SQL and DOM plumbing, and proves
properties of it:

- **Checkout pricing** (`Checkout`, `checkout.dfy`): the membership-tier
  discount table, the promo discount taken off what the membership discount
  leaves, the rental duration in whole hours, and the checkout page's running
  totals as a class whose fields the load sequence and the promo button
  overwrite.
- **Payments and promotions** (`Payment`, `payment.dfy`): invoices, payment
  transactions and promo codes over a `Ledger` class holding the tables as maps
  keyed by id. `MakePayment` issues at most one invoice per reservation and
  records one Completed transaction per payment. `ApplyPromoCode` validates a
  code against its validity window and writes the discounted total back.
- **Accounts** (`Account`, `account.dfy`): the e-mail-keyed store of
  verification codes with a five-minute expiry, the six-digit code format, the
  ordered checks of registration, login, and the profile merge in which an
  omitted field keeps its value.
- **Bookings** (`Booking`, `booking.dfy`): the reservation/vehicle state
  machine. A vehicle goes Available → Booked → Available and a reservation goes
  Active → Cancelled. Both operations keep this invariant: each vehicle has at
  most one Active reservation, and it is Booked exactly when it has one.
- **Checkout joined with payment** (`CheckoutFlow`, `flow.dfy`): the request the
  page sends, run through the service's arithmetic. This exposes the two
  defects listed under Findings.

Shared types are in `common.dfy`: `Wrappers` holds Option and Result, and `Api`
holds the two JSON request bodies.

Representation choices:
- Money is `real`.
- Times are integers: nanoseconds for verification codes, milliseconds for the
  checkout duration, and a day number for `CURDATE()` and promotion bounds.
- Tables are `map`s keyed by primary key, with a counter for auto-increment ids.
- An SQL `UPDATE … WHERE id = ?` that matches no row changes nothing and is not
  an error. The model keeps that behaviour.

## Model

| member | source | states |
|---|---|---|
| Checkout.TierDiscountPercentage | public/scripts/checkout.js:74-86 | Premium gives 10 and VIP gives 20, each exactly; every other tier, Basic or unknown, gives 0 |
| Checkout.EffectiveTier | public/scripts/checkout.js:71 | a missing or empty membership tier reads as Basic; any other value is kept as received |
| Checkout.MembershipDiscount | public/scripts/checkout.js:88 | the membership discount is pct percent of the base; for base ≥ 0 and pct in [0,100] it lies in [0, base] |
| Checkout.PromoDiscount | public/scripts/checkout.js:129-131 | the promo discount is promo percent of what the membership discount leaves; for base ≥ 0 and both percentages in [0,100] it lies in [0, base − membership discount] |
| Checkout.NetTotal | public/scripts/checkout.js:129-132 | the page total is what is left after both discounts; for base ≥ 0 and both percentages in [0,100] it lies in [0, base] |
| Checkout.PricingBounds | public/scripts/checkout.js:129-132 | for base ≥ 0 and both percentages in [0,100]: each discount is non-negative, the promo is at most what the membership discount leaves, total = base − membership − promo, and 0 ≤ total ≤ base |
| Checkout.NetTotalFactors | public/scripts/checkout.js:88-89 | the two discounts compose multiplicatively: total = base·(100−pct)·(100−promo)/10000 |
| Checkout.PromoAfterMembership | public/scripts/checkout.js:129-131 | a promo taken off the post-membership amount never exceeds the same promo taken off the base, and equals it exactly when one of the two percentages is 0 |
| Checkout.PricingExamples | public/scripts/checkout.js:129-132 | worked figures: base 100 at Premium gives discount 10 and total 90; adding a 20% promo gives promo 18 and total 72 |
| Checkout.DurationHours | public/scripts/checkout.js:46 | the duration is the least whole number of hours h with h·3,600,000 ≥ end − start (the ceiling, for negative intervals too) |
| Checkout.BuildPaymentRequest | public/scripts/checkout.js:158-170 | no request without a payment method; otherwise the request carries the ids, the method, membership_discount = base·pct/100, the promo amount and the page total |
| Checkout.CheckoutPage.constructor | public/scripts/checkout.js:15-23 | before anything loads, base, total, discount percentage and promo amount are 0 and the tier is unknown |
| Checkout.CheckoutPage.LoadReservation | public/scripts/checkout.js:41 | the reservation's total_cost, or 0 when missing, becomes the base cost; nothing else changes |
| Checkout.CheckoutPage.LoadMembership | public/scripts/checkout.js:70-89 | the effective tier selects the discount percentage; the promo amount is 0 and total = base − base·pct/100 |
| Checkout.CheckoutPage.ApplyPromo | public/scripts/checkout.js:101-132 | the promo is applied iff the code is non-empty and the service accepted it; the promo amount and total are then recomputed from the base alone, so earlier promos do not stack; otherwise nothing changes |
| Checkout.CheckoutPage.PaymentRequestFor | public/scripts/checkout.js:163-170 | the request sent carries total_cost = base − membership_discount − promo_discount: a total that is already net of both discounts |
| Checkout.ApplyPromoTwice | public/scripts/checkout.js:129-132 | applying the same accepted promo twice leaves the promo amount and total as applying it once does; base cost and discount percentage are untouched, and an empty code changes nothing |
| Payment.LookupPromo | paymentService/payment/payment.go:310-326 | a code is found iff it exists and valid_from ≤ today ≤ valid_until (both bounds inclusive); the result is then its percentage |
| Payment.PromoDecision | paymentService/payment/payment.go:286-330 | errors are tested in order: an empty code or reservation id 0 gives missing fields; an unknown reservation gives not found; an unknown or inactive code gives invalid. Otherwise discount = total·p/100 and the new total = total − discount |
| Payment.PromoDiscountAmount | paymentService/payment/payment.go:329 | the discount is p percent of the stored total; for total ≥ 0 and p in [0,100] it lies in [0, total] |
| Payment.TotalAfterPromo | paymentService/payment/payment.go:330 | the new total is the stored total less the discount; for total ≥ 0 and p in [0,100] it lies in [0, total] |
| Payment.TotalAfterPromoScales | paymentService/payment/payment.go:329-330 | the stored total after a promo is total·(1 − p/100) |
| Payment.PromoTwiceCompounds | paymentService/payment/payment.go:329-337 | applying the same promo twice leaves total·(1 − p/100)² |
| Payment.PromoTwiceDiffers | paymentService/payment/payment.go:329-337 | the second application changes the stored total iff total ≠ 0, p ≠ 0 and p ≠ 100 |
| Payment.FinalAmount | paymentService/payment/payment.go:110 | the invoiced amount is the received total less both received discounts: never above the received total when the discounts are non-negative, and equal to it iff the discounts sum to 0 |
| Payment.HasInvoice | paymentService/payment/payment.go:93-96 | whether some invoice names the reservation, the existence test MakePayment branches on |
| Payment.Ledger.CreateInvoice | paymentService/payment/payment.go:62-75 | inserts one invoice under a fresh id with final = total − discount; it keeps the one-invoice-per-reservation rule exactly when the reservation had no invoice, since it never looks for one |
| Payment.Ledger.MakePayment | paymentService/payment/payment.go:93-167 | with no invoice: fails iff the user is unknown, otherwise inserts one invoice with final = total_cost − membership_discount − promo_discount, ignores whether the e-mail went out, and writes final into the reservation's total; with an invoice: reuses it and changes neither invoices, the invoice counter nor totals. The missing-user failure changes nothing, counters included. Every success adds exactly one Completed transaction for that reservation's invoice. Keeps at most one invoice per reservation |
| Payment.Ledger.ApplyPromoCode | paymentService/payment/payment.go:286-343 | answers as PromoDecision on the current tables; on success it stores the new total for that reservation and nothing else, on failure nothing changes |
| Payment.ApplyPromoCodeTwice | paymentService/payment/payment.go:293-337 | when the first of two requests for the same reservation and code is accepted, so is the second, and total·(1 − p/100)² is left stored for that reservation while every other reservation's total is unchanged; when the first is refused, the second is refused alike and nothing changes |
| Account.PadDecimal | accountService/account/account.go:76 | the last w decimal digits of n, zero-padded: exactly w characters, all decimal digits (what `%0wd` prints when n < 10^w; a wider n, which `rand.Intn(1000000)` never draws for w = 6, would print all its digits) |
| Account.PadDecimalValue | accountService/account/account.go:76 | a number below 10^w reads back unchanged from its zero-padded form |
| Account.FormatVerificationCode | accountService/account/account.go:74-78 | for n < 1,000,000 the code is exactly six decimal digits that read back as n |
| Account.FormatVerificationCodeInjective | accountService/account/account.go:76 | distinct draws give distinct codes; leading zeros are kept (42 gives "000042") |
| Account.StoreCode | accountService/account/account.go:101-107 | storing sets the e-mail's entry to the code with expiry now + 5 minutes, replacing any earlier one; other e-mails' entries are unchanged |
| Account.CodeIsValid | accountService/account/account.go:133-147 | no entry means invalid; now strictly after the expiry means invalid; otherwise valid iff the stored code equals the given one |
| Account.StoreThenValidate | accountService/account/account.go:101-146 | after a code is stored at time t, that e-mail accepts exactly that code until t + 5 minutes inclusive; every other e-mail validates as before |
| Account.AccountService.RequestVerificationCode | accountService/account/account.go:81-117 | when the e-mail goes out, the formatted code is stored as StoreCode says and returned; when sending fails nothing is stored |
| Account.MissingRequiredField | accountService/account/account.go:161 | true iff any of first name, last name, e-mail, password, address or date of birth is empty (the verification code is not required) |
| Account.RegistrationCheck | accountService/account/account.go:160-187 | checks in order: any required field empty gives bad request; otherwise an invalid or expired code gives unauthorized; otherwise an e-mail in use gives conflict; otherwise all checks pass |
| Account.NewUser | accountService/account/account.go:198-199 | the inserted row carries the request's e-mail, names, date of birth and address, the bcrypt hash, and the column-default tier |
| Account.AccountService.RegisterUser | accountService/account/account.go:149-212 | fails with the first failing check, or with a hashing error, and changes nothing; otherwise inserts exactly one user under a fresh id. Keeps e-mails unique |
| Account.AccountService.LoginUser | accountService/account/account.go:215-254 | succeeds iff a user with that e-mail exists and the password matches its stored hash, returning that user; an unknown e-mail and a wrong password give the same error |
| Account.MergeProfile | accountService/account/account.go:296-320 | every provided field replaces the stored one and every omitted field keeps it; e-mail and password hash are untouched |
| Account.MergeIdempotent | accountService/account/account.go:296-328 | applying the same update twice equals applying it once |
| Account.MergeComposes | accountService/account/account.go:296-328 | an update providing nothing changes nothing; two updates in a row equal one update in which the later fields win |
| Account.AccountService.UpdateUserProfile | accountService/account/account.go:256-341 | an unknown user is not found and nothing changes; otherwise only that user's row is replaced, by MergeProfile of the old row |
| Booking.BookingService.MakeReservation | carRentalService/booking/booking.go:45-84 | fails when the vehicle is missing, or when its status is not exactly "Available"; start and end times play no part. On success it adds exactly one Active reservation for that user, vehicle and times, and marks that vehicle Booked. No other row changes, and the invariant is kept |
| Booking.BookingService.CancelReservation | carRentalService/booking/booking.go:87-121 | not found iff the id has no Active reservation; otherwise that reservation becomes Cancelled and its vehicle Available. No other row changes, and the invariant is kept |
| Booking.CancelTwice | carRentalService/booking/booking.go:93-104 | after a successful cancel, cancelling the same id again is not found, and the tables end as one cancel leaves them; after a failed one the second fails alike and nothing changes |
| CheckoutFlow.SentRequest | public/scripts/checkout.js:163-170 | the request the page sends after loading and one promo has total_cost = base − membership_discount − promo_discount |
| CheckoutFlow.PageSendsSentRequest | public/scripts/checkout.js:163-170 | once the membership has loaded, the pay button of a `CheckoutPage` sends exactly SentRequest of the page's base cost, tier and last accepted promo |
| CheckoutFlow.DiscountsSubtractedTwice | paymentService/payment/payment.go:110 | the invoiced amount is base − 2·(membership + promo) and falls below the total the page showed iff a tier discount or a promo applied |
| CheckoutFlow.DoubleDiscountWitness | paymentService/payment/payment.go:110 | a VIP member with base 100 and no promo is shown 80 and invoiced 60 |
| CheckoutFlow.CorrectedRequest | public/scripts/checkout.js:167 | the corrected request sends the base cost as total_cost |
| CheckoutFlow.CorrectedInvoiceMatchesPage | paymentService/payment/payment.go:110 | with the corrected request, the unchanged service invoices exactly the page's total, which lies in [0, base] |
| CheckoutFlow.PromoCompoundingWitness | paymentService/payment/payment.go:329-337 | two accepted 10% promos on a stored 100 leave 81, where one leaves 90 |
| CheckoutFlow.ApplyPromoToBase | paymentService/payment/payment.go:329-337 | corrected: the promo is taken off the cost before any promo, which is kept, giving costBeforePromo·(1 − p/100) |
| CheckoutFlow.ApplyPromoToBaseIdempotent | paymentService/payment/payment.go:329-337 | under the corrected definition any number (≥ 1) of repeated requests equals one, and the stored total equals the page's total for a member without a tier discount |

## Findings

| source | as written | input that shows it | evidently intended | confidence | as-written member | corrected member |
|---|---|---|---|---|---|---|
| public/scripts/checkout.js:167 | the page sends its total, already net of both discounts, as total_cost; MakePayment (paymentService/payment/payment.go:110) subtracts both discounts from it again | VIP member, base 100, no promo: page shows 80, invoice final amount 60 | the invoiced amount equals the total the page showed; the invoice's total_cost is the base cost, as the invoice e-mail labels it "Base Cost" | high; not executed | CheckoutFlow.DoubleDiscountWitness | CheckoutFlow.CorrectedInvoiceMatchesPage |
| paymentService/payment/payment.go:329-337 | ApplyPromoCode discounts the stored total and writes it back, so each accepted request for the same reservation discounts again | stored 100, code of 10% applied twice: 81 instead of 90 | a promo applies once per reservation, as the page's own recomputation from the base does | medium (nothing in the code forbids reuse explicitly); not executed | CheckoutFlow.PromoCompoundingWitness | CheckoutFlow.ApplyPromoToBaseIdempotent |

`CheckoutFlow.PageSendsSentRequest` ties the first finding to the page class
itself: the request its pay button sends is the one the witness runs through
MakePayment. The `Checkout`, `Payment` and `Booking` classes model the code as written. The
corrected definitions live in `CheckoutFlow` beside the witnesses. For the
second finding, the corrected definition keeps the cost before any promo
next to the current total. The Reservations table as written has no such
column.

## Left out

- HTTP request decoding and JSON responses. Status codes are reduced to error categories.
- Routing, CORS and environment loading in the three `main.go` files.
- Database connections (`InitDB`) and SQL text. A query or statement failing inside
  the database (the 500 paths) is not modelled. The one exception: the user lookup
  of MakePayment is modelled as "user row missing".
- bcrypt. Hashing is a parameter `hashed` of RegisterUser, which is None when bcrypt
  fails. Comparison is a function parameter `matches` of LoginUser.
- gomail. Sending is a boolean parameter `emailSent`. Its failure aborts
  RequestVerificationCode and is ignored by MakePayment, as the code does.
  `SendInvoiceEmail`'s message text is not modelled.
- `rand.Intn(1000000)` is an input `n < 1,000,000`. `time.Now()` is an input `now`
  and `CURDATE()` an input `today`.
- The `sync.RWMutex` around the verification-code store (concurrency).
- Every handler is modelled as one atomic step. Go's `net/http` serves requests
  concurrently, and MakeReservation (carRentalService/booking/booking.go:55-74),
  MakePayment (paymentService/payment/payment.go:95-116) and RegisterUser
  (accountService/account/account.go:176-198) check a table and then write it
  without a transaction. The invariants `AtMostOneActive`, `BookedIffActive`,
  `OneInvoicePerReservation` and `EmailsUnique` are therefore proved only for
  requests that do not interleave; two concurrent requests could both pass the
  check and both insert.
- Floating point, `toFixed` display and the cost-summary rendering. Amounts are `real`.
- The checkout page's redirect when `reservation_id` is missing, and its
  payment-method details panel.
- Fetch failures are not modelled as state. A failed fetch stops the page's load
  sequence, so the later methods are simply not called.
- `promoCode.trim()`: ApplyPromo receives the trimmed code.
- `parseInt` of the ids: the ids are integers.
- Invalid dates (NaN) in the duration.
- SQL string comparisons are exact. MySQL's default collations compare
  case-insensitively, so `status = 'Active'` might also match other casings in
  the database.
- Promo codes are map keys, so a code is assumed to have one row. The query
  returns the first matching row.
- The users table's default for `membership_tier` is not visible in the source.
  New users get "Basic".
- The promo_discount column that CreateInvoice leaves unset is taken to be 0.
- GetInvoicesByUser, GetUserProfile and GetTotalReservations are plain reads with
  no decision logic.
- The UI scripts other than the checkout page only render and navigate.
- `carRentalService/car/car.go` is a table listing.
- GetReservation, GetUserReservations and UpdateReservation are routed in the
  booking service, but their bodies are not part of this model.
- Tier progression (a promotion from Basic to Premium to VIP by booking count)
  does not appear in the modelled files and is not part of this model.
