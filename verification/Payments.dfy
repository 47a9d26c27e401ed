/** Exactly-once crediting of a payment invoice from two gateways' callbacks.

    Callbacks may be repeated, reordered or contradictory. Money in the database is in units of
    10^-8 USD; figures in a callback are exact rationals, which may also be absent or unreadable.
*/
module Payments {
  import opened Rounding

  type Order = nat
  type User = nat

  const DOLLAR: real := 100000000.0
  const CENT: int := 1000000
  const PARTIAL_MIN: int := 50000000

  datatype Gateway = NowPayments | Plisio

  datatype Status = Pending | Confirmed | Failed

  datatype Intent = Intent(user: User, gateway: Gateway, status: Status, amount: int)

  datatype TopUp = TopUp(user: User, order: Order, amount: int)

  /** `invoices` is history: the amount each order was opened with. */
  datatype World = World(intents: map<Order, Intent>, invoices: map<Order, int>, ledger: seq<TopUp>)

  /** A figure of the payload: absent, present but not a number, or a number. */
  datatype Field = Missing | Bad | Num(value: real)

  datatype NowStatus = Finished | Refused | Refunded | OutOfTime | PartiallyPaid | InFlight

  datatype PlisioStatus = Completed | Error | Cancelled | Expired | CancelledDuplicate | Unsettled

  datatype Event =
    | Open(order: Order, user: User, gateway: Gateway, amount: int)
    | NowCallback(order: Order, now: NowStatus, price: Field, paid: Field, due: Field, saved: bool)
    | PlisioCallback(
        order: Order, plisio: PlisioStatus, source: Field, received: Field, rate: Field, total: Field, saved: bool)

  // ----- What arrived, in dollars -----

  datatype Worth = NoFigure | Usd(value: real) | Crash

  /** `whole` in the proportion of `part` to `total`. */
  function Share(part: real, total: real, whole: real): real
    requires total > 0.0
  {
    part / total * whole
  }

  function Convert(crypto: real, rate: real): real { crypto * rate }

  /** Received over due, times the echoed price or else the invoice. An unreadable price stops the request. */
  function NowWorth(amount: int, price: Field, paid: Field, due: Field): Worth
  {
    if price.Bad? then Crash
    else if paid.Num? && due.Num? && paid.value > 0.0 && due.value > 0.0
    then Usd(Share(paid.value, due.value, if price.Num? then price.value else amount as real / DOLLAR)) else NoFigure
  }

  /** Received times the rate; failing a usable rate, received over the invoice total, times the source amount. */
  function PlisioWorth(source: Field, received: Field, rate: Field, total: Field): Worth
  {
    if !received.Num? || received.value <= 0.0 || rate.Bad? then NoFigure
    else if rate.Num? && rate.value > 0.0 then Usd(Convert(received.value, rate.value))
    else if total.Num? && source.Num? && total.value > 0.0 && source.value > 0.0
    then Usd(Share(received.value, total.value, source.value)) else NoFigure
  }

  function QuantizeUsd(usd: real): int { HalfUp(usd * 100.0) * CENT }

  function ClampCredit(usd: int, invoice: int): int
  {
    if usd < 0 then 0 else if usd > invoice then invoice else usd
  }

  datatype Verdict = Ignore | Fail | Credit(amount: int)

  function PartialVerdict(amount: int, worth: Worth): Verdict
  {
    match worth
    case Crash => Ignore
    case NoFigure => Fail
    case Usd(x) => var c := ClampCredit(QuantizeUsd(x), amount); if c < PARTIAL_MIN then Fail else Credit(c)
  }

  function Judge(i: Intent, e: Event): Verdict
    requires !e.Open?
  {
    if i.status != Pending || !e.saved then Ignore
    else if e.NowCallback? then
      if i.gateway != NowPayments then Ignore
      else match e.now
        case Finished => Credit(i.amount)
        case PartiallyPaid => PartialVerdict(i.amount, NowWorth(i.amount, e.price, e.paid, e.due))
        case InFlight => Ignore
        case _ => Fail
    else if i.gateway != Plisio then Ignore
    else match e.plisio
      case Completed => Credit(i.amount)
      case Expired => PartialVerdict(i.amount, PlisioWorth(e.source, e.received, e.rate, e.total))
      case Error => Fail
      case Cancelled => Fail
      case _ => Ignore
  }

  function Settle(w: World, order: Order, v: Verdict): World
    requires order in w.intents
  {
    var i := w.intents[order];
    match v
    case Ignore => w
    case Fail => w.(intents := w.intents[order := i.(status := Failed)])
    case Credit(a) =>
      w.(intents := w.intents[order := i.(status := Confirmed, amount := a)],
         ledger := w.ledger + [TopUp(i.user, order, a)])
  }

  function Step(w: World, e: Event): World
  {
    if e.Open? then
      if e.order in w.intents then w
      else
        w.(intents := w.intents[e.order := Intent(e.user, e.gateway, Pending, e.amount)],
           invoices := w.invoices[e.order := e.amount])
    else if e.order in w.intents then Settle(w, e.order, Judge(w.intents[e.order], e)) else w
  }

  function Run(w: World, evs: seq<Event>): World
    decreases |evs|
  {
    if evs == [] then w else Run(Step(w, evs[0]), evs[1..])
  }

  // ----- Exactly once -----

  /** The top-up rows of one order. */
  function RowsOf(ledger: seq<TopUp>, order: Order): seq<TopUp>
  {
    if ledger == [] then []
    else
      var last := ledger[|ledger| - 1];
      var before := RowsOf(ledger[..|ledger| - 1], order);
      if last.order == order then before + [last] else before
  }

  lemma RowsOfAppend(ledger: seq<TopUp>, t: TopUp)
    ensures forall order: Order ::
              RowsOf(ledger + [t], order)
              == if t.order == order then RowsOf(ledger, order) + [t] else RowsOf(ledger, order)
  {
    assert (ledger + [t])[..|ledger|] == ledger;
  }

  /** An order has one top-up row, of its own amount, exactly when it is confirmed; and it is worth at most its
      invoice. */
  ghost predicate CreditedOnce(i: Intent, order: Order, invoice: int, rows: seq<TopUp>)
  {
    && rows == (if i.status == Confirmed then [TopUp(i.user, order, i.amount)] else [])
    && i.amount <= invoice
    && (i.status != Confirmed ==> i.amount == invoice)
  }

  ghost predicate BooksAgree(w: World)
  {
    && w.invoices.Keys == w.intents.Keys
    && (forall order | order in w.intents ::
          CreditedOnce(w.intents[order], order, w.invoices[order], RowsOf(w.ledger, order)))
    && (forall order: Order | order !in w.intents :: RowsOf(w.ledger, order) == [])
  }

  lemma CreditIsWithinInvoice(i: Intent, e: Event)
    requires !e.Open?
    ensures Judge(i, e).Credit? ==> i.status == Pending && Judge(i, e).amount <= i.amount
  {
  }

  lemma SettleKeepsBooks(w: World, order: Order, v: Verdict)
    requires BooksAgree(w) && order in w.intents
    requires v != Ignore ==> w.intents[order].status == Pending
    requires v.Credit? ==> v.amount <= w.intents[order].amount
    ensures BooksAgree(Settle(w, order, v))
  {
    if v.Credit? {
      RowsOfAppend(w.ledger, TopUp(w.intents[order].user, order, v.amount));
    }
    hide RowsOf;
    var after := Settle(w, order, v);
    forall o | o in after.intents
      ensures CreditedOnce(after.intents[o], o, after.invoices[o], RowsOf(after.ledger, o))
    {
      assert CreditedOnce(w.intents[o], o, w.invoices[o], RowsOf(w.ledger, o));
    }
  }

  lemma StepKeepsBooks(w: World, e: Event)
    requires BooksAgree(w)
    ensures BooksAgree(Step(w, e))
  {
    if !e.Open? && e.order in w.intents {
      CreditIsWithinInvoice(w.intents[e.order], e);
      SettleKeepsBooks(w, e.order, Judge(w.intents[e.order], e));
    }
  }

  /** Any callbacks, in any order and number, keep the books. */
  lemma {:induction false} RunKeepsBooks(w: World, evs: seq<Event>)
    requires BooksAgree(w)
    ensures BooksAgree(Run(w, evs))
    decreases |evs|
  {
    hide Step;
    if evs != [] {
      StepKeepsBooks(w, evs[0]);
      RunKeepsBooks(Step(w, evs[0]), evs[1..]);
    }
  }

  /** From the start: one top-up row for each confirmed order, of its amount and within its invoice, and none else. */
  lemma BooksAgreeFromStart(evs: seq<Event>, order: Order)
    ensures
      var w := Run(World(map[], map[], []), evs);
      if order !in w.intents then RowsOf(w.ledger, order) == []
      else order in w.invoices && CreditedOnce(w.intents[order], order, w.invoices[order], RowsOf(w.ledger, order))
  {
    RunKeepsBooks(World(map[], map[], []), evs);
  }

  lemma FinalStep(w: World, e: Event, order: Order)
    requires order in w.intents && w.intents[order].status != Pending
    ensures order in Step(w, e).intents && Step(w, e).intents[order] == w.intents[order]
    ensures RowsOf(Step(w, e).ledger, order) == RowsOf(w.ledger, order)
  {
    if !e.Open? && e.order in w.intents && Judge(w.intents[e.order], e).Credit? {
      RowsOfAppend(w.ledger, TopUp(w.intents[e.order].user, e.order, Judge(w.intents[e.order], e).amount));
    }
  }

  /** Once confirmed or failed, an order and its ledger rows never change again. */
  lemma {:induction false} FinalIsForever(w: World, evs: seq<Event>, order: Order)
    requires order in w.intents && w.intents[order].status != Pending
    ensures order in Run(w, evs).intents && Run(w, evs).intents[order] == w.intents[order]
    ensures RowsOf(Run(w, evs).ledger, order) == RowsOf(w.ledger, order)
    decreases |evs|
  {
    hide Step;
    if evs != [] {
      FinalStep(w, evs[0], order);
      FinalIsForever(Step(w, evs[0]), evs[1..], order);
    }
  }

  /** Delivering a callback again at any later time is the same as not delivering it. */
  lemma RedeliveryIsIdle(w: World, e: Event, evs: seq<Event>)
    requires !e.Open? && e.order in w.intents && Judge(w.intents[e.order], e) != Ignore
    ensures Step(Run(Step(w, e), evs), e) == Run(Step(w, e), evs)
  {
    FinalIsForever(Step(w, e), evs, e.order);
  }

  // ----- What one callback does -----

  predicate Arrives(w: World, e: Event)
  {
    !e.Open? && e.order in w.intents && w.intents[e.order].status == Pending && e.saved
    && w.intents[e.order].gateway == if e.NowCallback? then NowPayments else Plisio
  }

  predicate SaysPaid(e: Event) { (e.NowCallback? && e.now == Finished) || (e.PlisioCallback? && e.plisio == Completed) }

  predicate SaysPartial(e: Event)
  {
    (e.NowCallback? && e.now == PartiallyPaid) || (e.PlisioCallback? && e.plisio == Expired)
  }

  predicate SaysFailed(e: Event)
  {
    (e.NowCallback? && e.now in {Refused, Refunded, OutOfTime}) || (e.PlisioCallback? && e.plisio in {Error, Cancelled})
  }

  function WorthOf(e: Event, amount: int): Worth
    requires !e.Open?
  {
    if e.NowCallback? then NowWorth(amount, e.price, e.paid, e.due)
    else PlisioWorth(e.source, e.received, e.rate, e.total)
  }

  function Least(a: real, b: real): real { if a <= b then a else b }

  /** A partial payment is credited exactly when it and the invoice reach the minimum after rounding to the
      cent, and then to within half a cent of what arrived or the invoice, whichever is less. */
  lemma PartialCreditIsClose(amount: int, usd: real)
    ensures PartialVerdict(amount, Usd(usd)).Credit? <==> usd >= 0.495 && amount >= PARTIAL_MIN
    ensures var v := PartialVerdict(amount, Usd(usd));
            v.Credit? ==>
              && PARTIAL_MIN <= v.amount <= amount
              && -0.005 * DOLLAR <= v.amount as real - Least(usd * DOLLAR, amount as real) <= 0.005 * DOLLAR
    ensures PartialVerdict(amount, Usd(usd)) != Ignore
  {
    var cents := HalfUp(usd * 100.0);
    if cents >= 50 {
      assert usd * 100.0 >= 49.5;
    } else {
      assert cents <= 49;
    }
  }

  lemma VerdictOnWorth(amount: int, worth: Worth)
    ensures worth.Crash? ==> PartialVerdict(amount, worth) == Ignore
    ensures !worth.Crash? ==> PartialVerdict(amount, worth) != Ignore
    ensures PartialVerdict(amount, worth).Credit? <==> worth.Usd? && worth.value >= 0.495 && amount >= PARTIAL_MIN
  {
    if worth.Usd? {
      PartialCreditIsClose(amount, worth.value);
    }
  }

  lemma JudgeOutcome(i: Intent, e: Event)
    requires !e.Open?
    ensures
      var arrives := i.status == Pending && e.saved && i.gateway == if e.NowCallback? then NowPayments else Plisio;
      Judge(i, e)
      == if arrives && SaysPaid(e) then Credit(i.amount)
         else if arrives && SaysFailed(e) then Fail
         else if arrives && SaysPartial(e) then PartialVerdict(i.amount, WorthOf(e, i.amount))
         else Ignore
  {
    hide PartialVerdict, NowWorth, PlisioWorth;
  }

  /** A callback for a pending order of its own gateway: paid credits the invoice, failed closes the order
      unpaid, partial credits what arrived or fails, and everything else leaves the world alone. */
  lemma CallbackOutcome(w: World, e: Event)
    requires BooksAgree(w) && !e.Open? && e.order in w.intents
    ensures var before, after := w.intents[e.order], Step(w, e).intents[e.order];
            var rows := RowsOf(Step(w, e).ledger, e.order);
            if Arrives(w, e) && SaysPaid(e) then
              after.status == Confirmed && rows == [TopUp(before.user, e.order, w.invoices[e.order])]
            else if Arrives(w, e) && SaysFailed(e) then after.status == Failed && rows == []
            else if Arrives(w, e) && SaysPartial(e) && !WorthOf(e, before.amount).Crash? then
              after.status != Pending && (after.status == Confirmed <==>
                && WorthOf(e, before.amount).Usd? && WorthOf(e, before.amount).value >= 0.495
                && w.invoices[e.order] >= PARTIAL_MIN)
            else Step(w, e) == w
  {
    StepKeepsBooks(w, e);
    var i := w.intents[e.order];
    hide PartialVerdict, NowWorth, PlisioWorth, RowsOf, QuantizeUsd;
    JudgeOutcome(i, e);
    VerdictOnWorth(i.amount, WorthOf(e, i.amount));
    assert BooksAgree(Step(w, e));
    hide Judge, WorthOf, SaysPaid, SaysFailed, SaysPartial;
    assert CreditedOnce(Step(w, e).intents[e.order], e.order, w.invoices[e.order], RowsOf(Step(w, e).ledger, e.order));
  }

  // ----- Partial credit -----

  lemma HalfUpMonotone(x: real, y: real)
    requires x <= y
    ensures HalfUp(x) <= HalfUp(y)
  {
    assert (HalfUp(x) - HalfUp(y)) as real <= 1.0;
  }

  /** A larger arrival is never credited less. */
  lemma MoreArrivedCreditsNoLess(amount: int, less: real, more: real)
    requires less <= more && PartialVerdict(amount, Usd(less)).Credit?
    ensures PartialVerdict(amount, Usd(more)).Credit?
    ensures PartialVerdict(amount, Usd(less)).amount <= PartialVerdict(amount, Usd(more)).amount
  {
    HalfUpMonotone(less * 100.0, more * 100.0);
  }

  /** Both gateways credit the whole invoice when what was due arrived, at the cents the invoice has. */
  lemma FullArrivalCreditsInvoice(cents: nat, due: real)
    requires cents >= 50 && due > 0.0
    ensures var amount := cents * CENT;
            && PartialVerdict(amount, NowWorth(amount, Missing, Num(due), Num(due))) == Credit(amount)
            && PartialVerdict(amount, PlisioWorth(Num(amount as real / DOLLAR), Num(due), Missing, Num(due)))
               == Credit(amount)
  {
    var amount := cents * CENT;
    var usd := amount as real / DOLLAR;
    assert Share(due, due, usd) == usd;
    assert usd * 100.0 == cents as real;
    assert HalfUp(cents as real) == cents;
  }

  lemma UnreadablePriceStops()
    ensures forall amount: int, paid: Field, due: Field ::
              PartialVerdict(amount, NowWorth(amount, Bad, paid, due)) == Ignore
  {
  }

  // ----- What a partial callback settles, in the payload's own figures -----

  /** An order is settled at `usd` dollars: at least 0.495 of an invoice of at least half a dollar are credited, to
      within half a cent of that figure or of the invoice, whichever is less; anything else fails it. */
  predicate SettledAt(i: Intent, after: Intent, before: seq<TopUp>, rows: seq<TopUp>, order: Order, usd: real)
  {
    if usd >= 0.495 && i.amount >= 50000000 then
      && after == i.(status := Confirmed, amount := after.amount)
      && rows == before + [TopUp(i.user, order, after.amount)]
      && 50000000 <= after.amount <= i.amount
      && -500000.0 <= after.amount as real - Least(usd * 100000000.0, i.amount as real) <= 500000.0
    else after == i.(status := Failed) && rows == before
  }

  lemma SettlesAt(w: World, order: Order, usd: real)
    requires order in w.intents
    ensures
      var v := Settle(w, order, PartialVerdict(w.intents[order].amount, Usd(usd)));
      && order in v.intents
      && SettledAt(w.intents[order], v.intents[order], w.ledger, v.ledger, order, usd)
  {
    PartialCreditIsClose(w.intents[order].amount, usd);
    hide PartialVerdict, Least;
  }

  /** `x` is to the whole as the part is to the total. */
  predicate InProportion(x: real, part: real, total: real, whole: real) { x * total == part * whole }

  lemma ShareIsProportion(part: real, total: real, whole: real)
    requires total > 0.0
    ensures InProportion(Share(part, total, whole), part, total, whole)
  {
    var q := part / total;
    assert q * total == part;
    assert (q * whole) * total == part * whole;
  }

  lemma ConvertIsProduct(crypto: real, rate: real)
    requires crypto > 0.0 && rate > 0.0
    ensures InProportion(Convert(crypto, rate), crypto, 1.0, rate) && Convert(crypto, rate) > 0.0
  {
  }

  /** There is but one such figure. */
  lemma ProportionIsUnique(x: real, y: real, part: real, total: real, whole: real)
    requires total > 0.0 && InProportion(x, part, total, whole) && InProportion(y, part, total, whole)
    ensures x == y
  {
    assert (x - y) * total == 0.0;
  }

  lemma SettlesInProportion(w: World, order: Order, part: real, total: real, whole: real)
    requires order in w.intents && total > 0.0
    ensures
      var v := Settle(w, order, PartialVerdict(w.intents[order].amount, Usd(Share(part, total, whole))));
      && order in v.intents
      && exists x: real | InProportion(x, part, total, whole) ::
           SettledAt(w.intents[order], v.intents[order], w.ledger, v.ledger, order, x)
  {
    hide SettledAt, InProportion, Share, PartialVerdict;
    ShareIsProportion(part, total, whole);
    SettlesAt(w, order, Share(part, total, whole));
  }

  predicate Positive(f: Field) { f.Num? && f.value > 0.0 }

  /** What a verified callback does, apart from a partial one: a payment credits the invoice, a failure closes the
      order, and anything else, a wrong gateway or a final order among it, changes nothing. */
  predicate Plainly(i: Intent, after: Intent, before: seq<TopUp>, rows: seq<TopUp>, order: Order, paid: bool,
      failed: bool)
  {
    if paid then after == i.(status := Confirmed) && rows == before + [TopUp(i.user, order, i.amount)]
    else if failed then after == i.(status := Failed) && rows == before
    else after == i && rows == before
  }

  predicate OthersKept(before: map<Order, Intent>, after: map<Order, Intent>, order: Order)
  {
    after.Keys == before.Keys && forall o | o in before && o != order :: after[o] == before[o]
  }

  lemma SettleKeepsOthers(w: World, order: Order, v: Verdict)
    requires order in w.intents
    ensures OthersKept(w.intents, Settle(w, order, v).intents, order)
  {
  }

  lemma SettlesPlainly(w: World, order: Order)
    requires order in w.intents
    ensures
      var i := w.intents[order];
      var credited, failed := Settle(w, order, Credit(i.amount)), Settle(w, order, Fail);
      && credited.intents[order] == i.(status := Confirmed)
      && credited.ledger == w.ledger + [TopUp(i.user, order, i.amount)]
      && failed.intents[order] == i.(status := Failed) && failed.ledger == w.ledger
      && Settle(w, order, Ignore) == w
      && PartialVerdict(i.amount, NoFigure) == Fail
  {
  }

  /** What a NowPayments callback leaves of an order. A partial one settles a pending order at the x with
      x * due = paid * price, where the price is the echoed one or else the invoice; without positive figures it fails
      the order; an unreadable price changes nothing. */
  ghost predicate AfterNowPayments(i: Intent, after: Intent, before: seq<TopUp>, rows: seq<TopUp>, order: Order,
      status: NowStatus, price: Field, paid: Field, due: Field, saved: bool)
  {
    var arrives := i.status == Pending && saved && i.gateway == NowPayments;
    var dollars := if price.Num? then price.value else i.amount as real / 100000000.0;
    if arrives && status == PartiallyPaid && price != Bad then
      if Positive(paid) && Positive(due) then
        exists x: real | InProportion(x, paid.value, due.value, dollars) :: SettledAt(i, after, before, rows, order, x)
      else after == i.(status := Failed) && rows == before
    else
      Plainly(i, after, before, rows, order,
              arrives && status == Finished, arrives && status in {Refused, Refunded, OutOfTime})
  }

  /** What a Plisio callback leaves of an order. An expired one settles a pending order at the x with
      x * 1 = received * rate, or without a usable rate with x * total = received * source; without the figures for
      either it fails the order. */
  ghost predicate AfterPlisio(i: Intent, after: Intent, before: seq<TopUp>, rows: seq<TopUp>, order: Order,
      status: PlisioStatus, source: Field, received: Field, rate: Field, total: Field, saved: bool)
  {
    var arrives := i.status == Pending && saved && i.gateway == Plisio;
    if arrives && status == Expired then
      if Positive(received) && Positive(rate) then
        exists x: real | InProportion(x, received.value, 1.0, rate.value) :: SettledAt(i, after, before, rows, order, x)
      else if Positive(received) && rate != Bad && Positive(total) && Positive(source) then
        exists x: real | InProportion(x, received.value, total.value, source.value) ::
          SettledAt(i, after, before, rows, order, x)
      else after == i.(status := Failed) && rows == before
    else
      Plainly(i, after, before, rows, order,
              arrives && status == Completed, arrives && status in {Error, Cancelled})
  }

  lemma NowPaymentsOutcome(w: World, order: Order, status: NowStatus, price: Field, paid: Field, due: Field,
      saved: bool)
    requires order in w.intents
    ensures
      var v := Step(w, NowCallback(order, status, price, paid, due, saved));
      && OthersKept(w.intents, v.intents, order)
      && AfterNowPayments(w.intents[order], v.intents[order], w.ledger, v.ledger, order, status, price, paid, due,
                          saved)
  {
    var e, i := NowCallback(order, status, price, paid, due, saved), w.intents[order];
    hide Judge, PartialVerdict, SettledAt, InProportion, Share, Settle, OthersKept;
    JudgeOutcome(i, e);
    UnreadablePriceStops();
    SettlesPlainly(w, order);
    SettleKeepsOthers(w, order, Judge(i, e));
    if Positive(paid) && Positive(due) {
      SettlesInProportion(w, order, paid.value, due.value,
                          if price.Num? then price.value else i.amount as real / DOLLAR);
    }
  }

  lemma PlisioOutcome(w: World, order: Order, status: PlisioStatus, source: Field, received: Field, rate: Field,
      total: Field, saved: bool)
    requires order in w.intents
    ensures
      var v := Step(w, PlisioCallback(order, status, source, received, rate, total, saved));
      && OthersKept(w.intents, v.intents, order)
      && AfterPlisio(w.intents[order], v.intents[order], w.ledger, v.ledger, order, status, source, received, rate,
                     total, saved)
  {
    var e, i := PlisioCallback(order, status, source, received, rate, total, saved), w.intents[order];
    hide Judge, PartialVerdict, SettledAt, InProportion, Share, Settle, OthersKept;
    JudgeOutcome(i, e);
    SettlesPlainly(w, order);
    SettleKeepsOthers(w, order, Judge(i, e));
    if Positive(received) && Positive(rate) {
      ConvertIsProduct(received.value, rate.value);
      SettlesAt(w, order, Convert(received.value, rate.value));
    } else if Positive(received) && Positive(total) && Positive(source) {
      SettlesInProportion(w, order, received.value, total.value, source.value);
    }
  }

  // ----- The handlers -----

  function Partial(computed: bool, credited: int): Verdict
  {
    if !computed || credited < PARTIAL_MIN then Fail else Credit(credited)
  }

  /** Whole cents, rounded half up, but no more than the invoice. */
  predicate CreditFor(credited: int, amount: int, usd: real)
  {
    var cents := HalfUp(usd * 100.0);
    credited == if cents * 1000000 <= amount then cents * 1000000 else amount
  }

  lemma ClampedIsCredit(amount: int, usd: real)
    requires usd > 0.0
    ensures CreditFor(ClampCredit(QuantizeUsd(usd), amount), amount, usd)
  {
    assert HalfUp(usd * 100.0) >= 0;
  }

  lemma ShareIsPositive(part: real, total: real, whole: real)
    requires part > 0.0 && total > 0.0 && whole > 0.0
    ensures Share(part, total, whole) > 0.0
  {
    assert part / total > 0.0;
  }

  class Cashier {
    var intents: map<Order, Intent>
    var ledger: seq<TopUp>

    ghost var invoices: map<Order, int>

    ghost function State(): World
      reads this
    {
      World(intents, invoices, ledger)
    }

    constructor ()
      ensures State() == World(map[], map[], [])
    {
      intents, ledger, invoices := map[], [], map[];
    }

    /** A new order waits at its invoice amount, with no top-up row; an order that exists is left alone. */
    method OpenInvoice(order: Order, user: User, gateway: Gateway, amount: int)
      modifies this
      ensures ledger == old(ledger) && order in intents
      ensures old(order in intents) ==> State() == old(State())
      ensures old(order !in intents) ==>
                && intents[order] == Intent(user, gateway, Pending, amount)
                && order in invoices && invoices[order] == amount
                && intents.Keys == old(intents).Keys + {order}
                && forall o | o in old(intents) :: intents[o] == old(intents)[o]
      ensures old(BooksAgree(State())) ==> BooksAgree(State())
      ensures State() == old(Step(State(), Open(order, user, gateway, amount)))
    {
      ghost var books := BooksAgree(State());
      if books {
        StepKeepsBooks(State(), Open(order, user, gateway, amount));
      }
      if order !in intents {
        intents := intents[order := Intent(user, gateway, Pending, amount)];
        invoices := invoices[order := amount];
      }
    }

    /** The figure behind a partial NowPayments callback. */
    method NowPartial(amount: int, price: Field, paid: Field, due: Field) returns (computed: bool, credited: int)
      requires !price.Bad?
      ensures computed == (Positive(paid) && Positive(due))
      ensures
        var dollars := if price.Num? then price.value else amount as real / 100000000.0;
        computed && dollars > 0.0 ==>
          exists x: real | InProportion(x, paid.value, due.value, dollars) :: CreditFor(credited, amount, x)
      ensures Partial(computed, credited) == PartialVerdict(amount, NowWorth(amount, price, paid, due))
    {
      hide Share, QuantizeUsd, InProportion, CreditFor, ClampCredit;
      var invoiceUsd := if price.Num? then price.value else amount as real / DOLLAR;
      computed, credited := false, 0;
      if paid.Num? && due.Num? {
        if due.value > 0.0 && paid.value > 0.0 {
          credited := ClampCredit(QuantizeUsd(Share(paid.value, due.value, invoiceUsd)), amount);
          computed := true;
          ShareIsProportion(paid.value, due.value, invoiceUsd);
          if invoiceUsd > 0.0 {
            ShareIsPositive(paid.value, due.value, invoiceUsd);
            ClampedIsCredit(amount, Share(paid.value, due.value, invoiceUsd));
          }
        }
      }
    }

    /** The figure behind an expired Plisio callback; an unreadable field abandons the computation. */
    method PlisioPartial(amount: int, source: Field, received: Field, rate: Field, total: Field)
      returns (computed: bool, credited: int)
      ensures computed == (Positive(received) && (Positive(rate)
                                                  || (rate != Bad && Positive(total) && Positive(source))))
      ensures computed && Positive(rate) ==>
                exists x: real | InProportion(x, received.value, 1.0, rate.value) :: CreditFor(credited, amount, x)
      ensures computed && !Positive(rate) ==>
                exists x: real | InProportion(x, received.value, total.value, source.value) ::
                  CreditFor(credited, amount, x)
      ensures Partial(computed, credited) == PartialVerdict(amount, PlisioWorth(source, received, rate, total))
    {
      hide Share, Convert, QuantizeUsd, InProportion, CreditFor, ClampCredit;
      computed, credited := false, 0;
      var raised := received == Bad;
      var amountCrypto := if received.Num? then received.value else 0.0;
      if !raised && amountCrypto > 0.0 {
        if rate != Missing {
          raised := rate == Bad;
          if !raised && rate.value > 0.0 {
            credited := ClampCredit(QuantizeUsd(Convert(amountCrypto, rate.value)), amount);
            computed := true;
            ConvertIsProduct(amountCrypto, rate.value);
            ClampedIsCredit(amount, Convert(amountCrypto, rate.value));
          }
        }
        if !raised && !computed && total != Missing && source != Missing {
          raised := total == Bad || source == Bad;
          if !raised && total.value > 0.0 && source.value > 0.0 {
            credited := ClampCredit(QuantizeUsd(Share(amountCrypto, total.value, source.value)), amount);
            computed := true;
            ShareIsProportion(amountCrypto, total.value, source.value);
            ShareIsPositive(amountCrypto, total.value, source.value);
            ClampedIsCredit(amount, Share(amountCrypto, total.value, source.value));
          }
        }
      }
    }

    /** Dust, or no figure at all, fails the order; anything else is credited and replaces the invoice. */
    method SettlePartial(order: Order, computed: bool, credited: int)
      requires order in intents
      modifies this`intents, this`ledger
      ensures State() == old(Settle(State(), order, Partial(computed, credited)))
    {
      var intent := intents[order];
      if !computed || credited < PARTIAL_MIN {
        intents := intents[order := intent.(status := Failed)];
      } else {
        ledger := ledger + [TopUp(intent.user, order, credited)];
        intents := intents[order := intent.(amount := credited, status := Confirmed)];
      }
    }

    method NowPaymentsIpn(order: Order, status: NowStatus, price: Field, paid: Field, due: Field, saved: bool)
      modifies this`intents, this`ledger
      ensures OthersKept(old(intents), intents, order)
      ensures old(order in intents) ==>
                AfterNowPayments(old(intents[order]), intents[order], old(ledger), ledger, order, status, price, paid,
                                 due, saved)
      ensures State() == old(Step(State(), NowCallback(order, status, price, paid, due, saved)))
    {
      UnreadablePriceStops();
      if order in intents {
        NowPaymentsOutcome(State(), order, status, price, paid, due, saved);
        JudgeOutcome(intents[order], NowCallback(order, status, price, paid, due, saved));
      }
      hide NowWorth, PartialVerdict, Judge, AfterNowPayments;
      if order !in intents || intents[order].gateway != NowPayments || intents[order].status != Pending || !saved {
        return;
      }
      var intent := intents[order];
      match status
      case Finished =>
        ledger := ledger + [TopUp(intent.user, order, intent.amount)];
        intents := intents[order := intent.(status := Confirmed)];
      case Refused | Refunded | OutOfTime =>
        intents := intents[order := intent.(status := Failed)];
      case PartiallyPaid =>
        if price == Bad {
          return;
        }
        var computed, credited := NowPartial(intent.amount, price, paid, due);
        SettlePartial(order, computed, credited);
      case InFlight =>
    }

    method PlisioIpn(order: Order, status: PlisioStatus, source: Field, received: Field, rate: Field, total: Field,
        saved: bool)
      modifies this`intents, this`ledger
      ensures OthersKept(old(intents), intents, order)
      ensures old(order in intents) ==>
                AfterPlisio(old(intents[order]), intents[order], old(ledger), ledger, order, status, source, received,
                            rate, total, saved)
      ensures State() == old(Step(State(), PlisioCallback(order, status, source, received, rate, total, saved)))
    {
      if order in intents {
        PlisioOutcome(State(), order, status, source, received, rate, total, saved);
        JudgeOutcome(intents[order], PlisioCallback(order, status, source, received, rate, total, saved));
      }
      hide PlisioWorth, PartialVerdict, Judge, AfterPlisio;
      if order !in intents || intents[order].gateway != Plisio || intents[order].status != Pending || !saved {
        return;
      }
      var intent := intents[order];
      match status
      case Completed =>
        ledger := ledger + [TopUp(intent.user, order, intent.amount)];
        intents := intents[order := intent.(status := Confirmed)];
      case Error | Cancelled =>
        intents := intents[order := intent.(status := Failed)];
      case Expired =>
        var computed, credited := PlisioPartial(intent.amount, source, received, rate, total);
        SettlePartial(order, computed, credited);
      case CancelledDuplicate | Unsettled =>
    }
  }
}
