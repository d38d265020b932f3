/** Pricing and cents arithmetic of the payment service
    (backend/services/paymentService.js). Amounts are exact rationals in
    dollars; the Stripe side works in integer cents. */
module Money {
  import opened Common

  /** Rounding of Number.prototype.toFixed: to the nearest integer, ties away
      from zero (on the exact value, not on its binary approximation). */
  function RoundHalfAway(x: real): (n: int)
    ensures 0.0 <= x ==> (n as real) - 0.5 <= x < (n as real) + 0.5
    ensures x < 0.0 ==> (n as real) - 0.5 < x <= (n as real) + 0.5
  {
    if 0.0 <= x then (x + 0.5).Floor else -((0.5 - x).Floor)
  }

  /** Math.round: to the nearest integer, ties towards +infinity. */
  function MathRound(x: real): (n: int)
    ensures (n as real) - 0.5 <= x < (n as real) + 0.5
  {
    (x + 0.5).Floor
  }

  /** `x` is a whole number of cents. */
  predicate IsCents(x: real) {
    ((x * 100.0).Floor as real) == x * 100.0
  }

  /** parseFloat(x.toFixed(2)). */
  function ToFixed2(x: real): (r: real)
    ensures IsCents(r)
    ensures -0.005 <= r - x <= 0.005
  {
    var n := RoundHalfAway(x * 100.0);
    assert (n as real) / 100.0 * 100.0 == n as real;
    (n as real) / 100.0
  }

  /** parseFloat(x.toFixed(1)). */
  function ToFixed1(x: real): (r: real)
    ensures -0.05 <= r - x <= 0.05
  {
    (RoundHalfAway(x * 10.0) as real) / 10.0
  }

  const DefaultTaxRate: real := 0.1
  const DefaultServiceChargeRate: real := 0.05

  datatype Totals = Totals(baseAmount: real, taxAmount: real, serviceCharge: real, totalAmount: real)

  /** calculateBookingTotal: tax and service charge as rates of the base, the
      total from the unrounded parts, every field rounded to two decimals. */
  function CalculateBookingTotal(baseAmount: real, taxRate: real, serviceChargeRate: real): (t: Totals)
    ensures IsCents(t.baseAmount) && IsCents(t.taxAmount) && IsCents(t.serviceCharge) && IsCents(t.totalAmount)
    ensures -0.005 <= t.baseAmount - baseAmount <= 0.005
    ensures -0.005 <= t.taxAmount - baseAmount * taxRate <= 0.005
    ensures -0.005 <= t.serviceCharge - baseAmount * serviceChargeRate <= 0.005
    ensures -0.005 <= t.totalAmount - (baseAmount + baseAmount * taxRate + baseAmount * serviceChargeRate) <= 0.005
  {
    var taxAmount := baseAmount * taxRate;
    var serviceCharge := baseAmount * serviceChargeRate;
    var totalAmount := baseAmount + taxAmount + serviceCharge;
    Totals(ToFixed2(baseAmount), ToFixed2(taxAmount), ToFixed2(serviceCharge), ToFixed2(totalAmount))
  }

  /** calculateBookingTotal with its default rates (10% tax, 5% service charge). */
  function DefaultTotals(baseAmount: real): Totals {
    CalculateBookingTotal(baseAmount, DefaultTaxRate, DefaultServiceChargeRate)
  }

  /** Math.round(amount * 100): the cents createPaymentIntent and createRefund send. */
  function ToCents(amount: real): int {
    MathRound(amount * 100.0)
  }

  /** The parameters of the Stripe paymentIntents.create call. */
  datatype IntentRequest = IntentRequest(amountCents: int, currency: string, bookingId: BookingId, userId: UserId)

  /** createPaymentIntent(amount, currency = 'usd', metadata). */
  function PaymentIntentRequest(amount: real, currency: Option<string>, bookingId: BookingId, userId: UserId): (q: IntentRequest)
    ensures q.currency == (if currency.Some? then currency.value else "usd")
    ensures (q.amountCents as real) - 0.5 <= amount * 100.0 < (q.amountCents as real) + 0.5
  {
    IntentRequest(ToCents(amount), currency.GetOr("usd"), bookingId, userId)
  }

  /** The parameters of the Stripe refunds.create call; no amount means a full refund. */
  datatype RefundRequest = RefundRequest(paymentIntent: Option<string>, amountCents: Option<int>)

  /** createRefund(paymentIntentId, amount = null): the amount is sent only when
      it is truthy (present and non-zero). */
  function RefundRequestFor(paymentIntent: Option<string>, amount: Option<real>): (q: RefundRequest)
    ensures q.paymentIntent == paymentIntent
    ensures q.amountCents.None? <==> amount.None? || amount.value == 0.0
    ensures q.amountCents.Some? ==> q.amountCents.value == ToCents(amount.value)
  {
    if amount.Some? && amount.value != 0.0 then RefundRequest(paymentIntent, Some(ToCents(amount.value)))
    else RefundRequest(paymentIntent, None)
  }

  /** Dollars recorded from a Stripe amount in cents (`amount / 100`). */
  function FromCents(cents: int): real {
    (cents as real) / 100.0
  }

  /** A whole-cent amount survives the trip to Stripe and back: what the confirm
      path records as amountPaid equals the total that was charged. */
  lemma CentsRoundTrip(amount: real)
    requires IsCents(amount)
    ensures FromCents(ToCents(amount)) == amount
  {
    var k := (amount * 100.0).Floor;
    assert amount * 100.0 + 0.5 == (k as real) + 0.5;
    assert ToCents(amount) == k;
  }

  /** With whole-cent inputs every rounded part is within a cent of its share,
      and the stored total is at most one cent away from the sum of the stored
      parts (it is rounded on its own, not summed from them). */
  lemma {:induction false} TotalWithinOneCentOfParts(baseAmount: real)
    requires IsCents(baseAmount)
    ensures var t := DefaultTotals(baseAmount);
      t.baseAmount == baseAmount &&
      -0.01 <= t.totalAmount - (t.baseAmount + t.taxAmount + t.serviceCharge) <= 0.01
  {
    var t := DefaultTotals(baseAmount);
    var b := (baseAmount * 100.0).Floor;
    assert ToFixed2(baseAmount) == baseAmount by {
      assert baseAmount * 100.0 + 0.5 == (b as real) + 0.5;
      assert RoundHalfAway(baseAmount * 100.0) == b || RoundHalfAway(baseAmount * 100.0) == -((0.5 - baseAmount * 100.0).Floor);
    }
    var d := t.totalAmount - (t.baseAmount + t.taxAmount + t.serviceCharge);
    var cd := (t.totalAmount * 100.0).Floor - (t.baseAmount * 100.0).Floor - (t.taxAmount * 100.0).Floor - (t.serviceCharge * 100.0).Floor;
    assert d * 100.0 == cd as real;
    assert -0.015 <= d <= 0.015;
    assert -1 <= cd <= 1;
  }

  /** A base of 0.16 is stored with tax 0.02 and service charge 0.01, whose sum
      with the base is 0.19, while the stored total is 0.18. */
  lemma TotalDiffersFromPartsExample()
    ensures DefaultTotals(0.16) == Totals(0.16, 0.02, 0.01, 0.18)
  {
    assert RoundHalfAway(0.16 * 100.0) == 16;
    assert RoundHalfAway(0.16 * 0.1 * 100.0) == 2;
    assert RoundHalfAway(0.16 * 0.05 * 100.0) == 1;
    assert RoundHalfAway((0.16 + 0.16 * 0.1 + 0.16 * 0.05) * 100.0) == 18;
  }

  /** With the default rates a base of 100 gives tax 10.00, service 5.00 and total 115.00. */
  lemma DefaultTotalsOfHundred()
    ensures DefaultTotals(100.0) == Totals(100.0, 10.0, 5.0, 115.0)
  {
    assert RoundHalfAway(100.0 * 100.0) == 10000;
    assert RoundHalfAway(100.0 * 0.1 * 100.0) == 1000;
    assert RoundHalfAway(100.0 * 0.05 * 100.0) == 500;
    assert RoundHalfAway((100.0 + 100.0 * 0.1 + 100.0 * 0.05) * 100.0) == 11500;
  }
}
