/** The two-stage rounding that turns a byte delta into wallet money.

    Bytes become gigabytes rounded to 10 fractional digits, and gigabytes times a price become
    dollars rounded to 8. Gigabytes are counted here in units of 10^-10 GB and money in units of
    10^-8 USD. A `rate` is money per unit of gigabytes before rounding: the price in dollars per
    GB divided by 100, times one plus the commission for a buyer.
*/
module BillingMath {
  import opened Rounding

  /** Deltas below this are forgiven. */
  const MIN_BILLABLE: nat := 524288

  /** 10^10 units per GB of 2^30 bytes, an exact decimal. */
  const UNITS_PER_BYTE: real := 9.31322574615478515625

  function ExactGb(bytes: nat): (units: real)
    ensures units * 1073741824.0 == bytes as real * 10000000000.0
  {
    bytes as real * UNITS_PER_BYTE
  }

  function GbUnits(bytes: nat): (units: nat)
  {
    var n := HalfEven(ExactGb(bytes));
    assert n as real >= -0.5;
    n
  }

  function SellerRate(price: real): real { price / 100.0 }

  function BuyerRate(price: real, commission: real): real { price * (1.0 + commission) / 100.0 }

  /** Rounded money for a byte delta: a buyer's debit or a seller's credit, by the rate. */
  function Charge(bytes: nat, rate: real): int { HalfEven(GbUnits(bytes) as real * rate) }

  /** What the bytes are worth exactly. */
  function ExactCharge(bytes: nat, rate: real): real { ExactGb(bytes) * rate }

  predicate Within(x: real, y: real, slack: real) { x <= y + slack && y <= x + slack }

  /** Half a unit of money, plus half a unit of gigabytes at the rate. */
  function Tolerance(rate: real): real { 0.5 + rate / 2.0 }

  lemma ScaledGap(x: real, y: real, rate: real)
    requires Within(x, y, 0.5) && rate >= 0.0
    ensures Within(x * rate, y * rate, rate / 2.0)
  {
    assert (x - y) * rate <= 0.5 * rate;
    assert (y - x) * rate <= 0.5 * rate;
  }

  lemma RoundingAdds(x: real, worth: real, slack: real)
    requires Within(x, worth, slack)
    ensures Within(HalfEven(x) as real, worth, 0.5 + slack)
  {
    assert Within(HalfEven(x) as real, x, 0.5);
  }

  lemma RoundedProduct(units: real, exact: real, rate: real)
    requires Within(units, exact, 0.5) && rate >= 0.0
    ensures Within(HalfEven(units * rate) as real, exact * rate, Tolerance(rate))
  {
    ScaledGap(units, exact, rate);
    RoundingAdds(units * rate, exact * rate, rate / 2.0);
  }

  lemma RoundedGbProduct(bytes: nat, rate: real)
    requires rate >= 0.0
    ensures Within(HalfEven(GbUnits(bytes) as real * rate) as real, ExactGb(bytes) * rate, Tolerance(rate))
  {
    RoundedProduct(GbUnits(bytes) as real, ExactGb(bytes), rate);
  }

  lemma OneChargeError(bytes: nat, rate: real)
    requires rate >= 0.0
    ensures Within(Charge(bytes, rate) as real, ExactCharge(bytes, rate), Tolerance(rate))
  {
    RoundedGbProduct(bytes, rate);
  }

  function Sum(deltas: seq<nat>): nat { if deltas == [] then 0 else deltas[0] + Sum(deltas[1..]) }

  function TotalCharge(deltas: seq<nat>, rate: real): int
  {
    if deltas == [] then 0 else Charge(deltas[0], rate) + TotalCharge(deltas[1..], rate)
  }

  lemma Distribute(a: real, b: real, r: real)
    ensures (a + b) * r == a * r + b * r
  {
  }

  lemma ExactChargeAdds(a: nat, b: nat, rate: real)
    ensures ExactCharge(a + b, rate) == ExactCharge(a, rate) + ExactCharge(b, rate)
  {
    assert ExactGb(a + b) == ExactGb(a) + ExactGb(b);
    Distribute(ExactGb(a), ExactGb(b), rate);
  }

  /** One tolerance per delta. */
  function Slack(n: nat, rate: real): real { if n == 0 then 0.0 else Slack(n - 1, rate) + Tolerance(rate) }

  /** n billable deltas are charged within n half-units of money and of gigabytes of their exact worth. */
  lemma {:induction false} BillingErrorBound(deltas: seq<nat>, rate: real)
    requires rate >= 0.0
    ensures Within(TotalCharge(deltas, rate) as real, ExactCharge(Sum(deltas), rate), Slack(|deltas|, rate))
  {
    if deltas == [] {
    } else {
      var tail := deltas[1..];
      OneChargeError(deltas[0], rate);
      BillingErrorBound(tail, rate);
      ExactChargeAdds(deltas[0], Sum(tail), rate);
    }
  }

  lemma {:induction false} SlackIsLinear(n: nat, rate: real)
    ensures Slack(n, rate) == n as real * Tolerance(rate)
  {
    if n == 0 {
    } else {
      SlackIsLinear(n - 1, rate);
      Distribute((n - 1) as real, 1.0, Tolerance(rate));
    }
  }

  lemma ProductMonotone(x: real, y: real, r: real, s: real)
    requires 0.0 <= x <= y && 0.0 <= r <= s
    ensures 0.0 <= x * r <= y * s
  {
    assert x * r <= y * r;
    assert y * r <= y * s;
  }

  lemma RoundsMonotone(x: real, y: real)
    requires 0.0 <= x <= y
    ensures 0 <= HalfEven(x) <= HalfEven(y)
  {
    HalfEvenMonotone(0.0, x);
    HalfEvenMonotone(x, y);
  }

  /** More bytes never cost less, and a higher rate never lowers the charge. */
  lemma ChargeMonotone(a: nat, b: nat, low: real, high: real)
    requires a <= b && 0.0 <= low <= high
    ensures 0 <= Charge(a, low) <= Charge(b, high)
  {
    HalfEvenMonotone(ExactGb(a), ExactGb(b));
    ProductMonotone(GbUnits(a) as real, GbUnits(b) as real, low, high);
    RoundsMonotone(GbUnits(a) as real * low, GbUnits(b) as real * high);
  }

  lemma BuyerRateIsMarkedUp(price: real, commission: real)
    requires price >= 0.0 && commission >= 0.0
    ensures 0.0 <= SellerRate(price) <= BuyerRate(price, commission)
    ensures BuyerRate(price, commission) == SellerRate(price) + commission * SellerRate(price)
  {
    assert price * (1.0 + commission) == price + price * commission;
    assert price * commission >= 0.0;
  }

  /** For equal bytes and a non-negative commission the buyer pays at least what the seller earns. */
  lemma DebitCoversCredit(bytes: nat, price: real, commission: real)
    requires price >= 0.0 && commission >= 0.0
    ensures 0 <= Charge(bytes, SellerRate(price)) <= Charge(bytes, BuyerRate(price, commission))
  {
    BuyerRateIsMarkedUp(price, commission);
    ChargeMonotone(bytes, bytes, SellerRate(price), BuyerRate(price, commission));
  }

  /** What the platform keeps of one inbound delta that is the sum of its clients' deltas. */
  function Margin(deltas: seq<nat>, sellerRate: real, buyerRate: real): int
  {
    TotalCharge(deltas, buyerRate) - Charge(Sum(deltas), sellerRate)
  }

  lemma GapOfGaps(debit: int, debitWorth: real, debitSlack: real, credit: int, creditWorth: real, creditSlack: real)
    requires Within(debit as real, debitWorth, debitSlack) && Within(credit as real, creditWorth, creditSlack)
    ensures (debit - credit) as real >= (debitWorth - creditWorth) - debitSlack - creditSlack
  {
  }

  lemma RatesAdd(bytes: nat, a: real, b: real)
    ensures ExactCharge(bytes, a + b) == ExactCharge(bytes, a) + ExactCharge(bytes, b)
  {
    Distribute(a, b, ExactGb(bytes));
  }

  /** The margin is the mark-up on the exact worth, up to the rounding of the k debits and the one credit. */
  lemma PlatformMargin(deltas: seq<nat>, sellerRate: real, markUp: real)
    requires 0.0 <= sellerRate && 0.0 <= markUp
    ensures Margin(deltas, sellerRate, sellerRate + markUp) as real
            >= ExactCharge(Sum(deltas), markUp) - Slack(|deltas|, sellerRate + markUp) - Tolerance(sellerRate)
  {
    BillingErrorBound(deltas, sellerRate + markUp);
    OneChargeError(Sum(deltas), sellerRate);
    RatesAdd(Sum(deltas), sellerRate, markUp);
    GapOfGaps(TotalCharge(deltas, sellerRate + markUp), ExactCharge(Sum(deltas), sellerRate + markUp),
              Slack(|deltas|, sellerRate + markUp),
              Charge(Sum(deltas), sellerRate), ExactCharge(Sum(deltas), sellerRate), Tolerance(sellerRate));
  }

  /** The mark-up on one minimum-size delta outweighs the rounding of one debit and one credit.
      The condition is about the price and the commission only. */
  predicate MarkUpCoversRounding(price: real, commission: real)
  {
    ExactCharge(MIN_BILLABLE, commission * SellerRate(price))
    >= Tolerance(BuyerRate(price, commission)) + Tolerance(SellerRate(price))
  }

  /** The threshold in dollars: a fixed multiple of commission times price against one unit and a price term. */
  lemma MarkUpThreshold(price: real, commission: real)
    ensures MarkUpCoversRounding(price, commission)
            <==> 48828.125 * (commission * price) >= 1.0 + (price + price + commission * price) / 200.0
  {
    assert ExactGb(MIN_BILLABLE) == 4882812.5;
    assert commission * SellerRate(price) == (commission * price) / 100.0;
    assert price * (1.0 + commission) == price + commission * price;
  }

  /** Each delta of minimum size brings in its own tolerance, and the first one the seller's as well. */
  lemma {:induction false} WorthCoversSlack(deltas: seq<nat>, sellerRate: real, markUp: real)
    requires 0.0 <= sellerRate && 0.0 <= markUp && deltas != []
    requires forall i | 0 <= i < |deltas| :: deltas[i] >= MIN_BILLABLE
    requires ExactCharge(MIN_BILLABLE, markUp) >= Tolerance(sellerRate + markUp) + Tolerance(sellerRate)
    ensures ExactCharge(Sum(deltas), markUp) >= Slack(|deltas|, sellerRate + markUp) + Tolerance(sellerRate)
  {
    var tail := deltas[1..];
    ExactChargeAdds(deltas[0], Sum(tail), markUp);
    ProductMonotone(ExactGb(MIN_BILLABLE), ExactGb(deltas[0]), markUp, markUp);
    if tail == [] {
      assert Slack(1, sellerRate + markUp) == Tolerance(sellerRate + markUp);
    } else {
      WorthCoversSlack(tail, sellerRate, markUp);
    }
  }

  lemma MarginAboveThreshold(deltas: seq<nat>, sellerRate: real, markUp: real)
    requires 0.0 <= sellerRate && 0.0 <= markUp
    requires forall i | 0 <= i < |deltas| :: deltas[i] >= MIN_BILLABLE
    requires ExactCharge(MIN_BILLABLE, markUp) >= Tolerance(sellerRate + markUp) + Tolerance(sellerRate)
    ensures Margin(deltas, sellerRate, sellerRate + markUp) >= 0
  {
    if deltas == [] {
      assert GbUnits(0) == 0;
    } else {
      PlatformMargin(deltas, sellerRate, markUp);
      WorthCoversSlack(deltas, sellerRate, markUp);
    }
  }

  /** Past that threshold, which does not depend on the number of clients, no cycle loses money. */
  lemma MarginNonNegative(deltas: seq<nat>, price: real, commission: real)
    requires price >= 0.0 && commission >= 0.0
    requires forall i | 0 <= i < |deltas| :: deltas[i] >= MIN_BILLABLE
    requires MarkUpCoversRounding(price, commission)
    ensures Margin(deltas, SellerRate(price), BuyerRate(price, commission)) >= 0
  {
    BuyerRateIsMarkedUp(price, commission);
    MarginAboveThreshold(deltas, SellerRate(price), commission * SellerRate(price));
  }
}
