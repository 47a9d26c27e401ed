/** From bytes to wallet money over a whole run: what a buyer has paid is the exact worth of the bytes
    billed, up to one rounding tolerance per billing pass, and never more than what the client moved is worth. */
module MeteredMoney {
  import opened BillingMath
  import opened Metering
  import opened MeteringSafety
  import opened ByteConservation

  /** Wallet money debited for one config. */
  function Paid(ledger: seq<Entry>, e: Email): int
  {
    if ledger == [] then 0
    else
      var last := ledger[|ledger| - 1];
      Paid(ledger[..|ledger| - 1], e) - if last.UsageDebit? && last.email == e then last.amount else 0
  }

  function ChargeOf(bytes: nat, rate: real): int { if bytes > 0 then Charge(bytes, rate) else 0 }

  lemma PayOnce(u: World, l: ListingId, r: Reading, rate: real, reset: bool, e: Email)
    requires r.email < |u.clients| && rate >= 0.0
    ensures Paid(BillReading(u, l, r, rate, reset).ledger, e)
            == Paid(u.ledger, e)
               + if r.email == e then ChargeOf(ChargedBytes(u.clients[r.email], l, r.total), rate) else 0
  {
    var bytes := ChargedBytes(u.clients[r.email], l, r.total);
    var debit := Charge(bytes, rate);
    ChargeMonotone(0, bytes, rate, rate);
    assert (u.ledger + [UsageDebit(r.email, -debit)])[..|u.ledger|] == u.ledger;
  }

  lemma {:induction false} BillReadingsPays(w: World, l: ListingId, readings: seq<Reading>, rate: real, reset: bool,
      e: Email)
    requires Distinct(readings) && e < |w.clients| && rate >= 0.0
    ensures var v := BillReadings(w, l, readings, rate, reset);
      Paid(v.ledger, e) == Paid(w.ledger, e)
        + if ReadingOf(readings, e).None? then 0
          else ChargeOf(ChargedBytes(w.clients[e], l, ReadingOf(readings, e).value), rate)
  {
    if readings == [] {
    } else {
      var init, last := readings[..|readings| - 1], readings[|readings| - 1];
      BillReadingsPays(w, l, init, rate, reset, e);
      BillReadingsOnClient(w, l, init, rate, reset, e);
      ReadingOfMentioned(init, e);
      var u := BillReadings(w, l, init, rate, reset);
      if last.email < |u.clients| {
        PayOnce(u, l, last, rate, reset, e);
      }
    }
  }

  /** If this step bills the listing, it does so at a rate between the two. */
  predicate BillsBetween(w: World, ev: Event, l: ListingId, low: real, high: real)
  {
    BillsHome(w, ev, l) ==> low <= BuyerRate(w.inbounds[l].price, ev.commission) <= high
  }

  lemma CreditPaysNobody(w: World, l: ListingId, total: nat, e: Email)
    requires l < |w.inbounds|
    ensures Paid(CreditInbound(w, l, total).ledger, e) == Paid(w.ledger, e)
  {
    var bytes := Billable(Delta(total, w.inbounds[l].anchor));
    var entry := UsageCredit(l, Charge(bytes, SellerRate(w.inbounds[l].price)));
    assert (w.ledger + [entry])[..|w.ledger|] == w.ledger;
  }

  lemma NothingIsFree(rate: real)
    ensures ChargeOf(0, rate) == 0
  {
  }

  lemma ChargesBetween(bytes: nat, low: real, rate: real, high: real)
    requires 0.0 <= low <= rate <= high
    ensures ChargeOf(bytes, low) <= ChargeOf(bytes, rate) <= ChargeOf(bytes, high)
  {
    if bytes > 0 {
      ChargeMonotone(bytes, bytes, low, rate);
      ChargeMonotone(bytes, bytes, rate, high);
    }
  }

  lemma ForeignReadingPaysNobody(u: World, l: ListingId, r: Reading, rate: real, reset: bool, e: Email)
    requires e < |u.clients| && u.clients[e].listing != l
    ensures
      var v := BillReading(u, l, r, rate, reset);
      && e < |v.clients| && v.clients[e] == u.clients[e]
      && Paid(v.ledger, e) == Paid(u.ledger, e) && BilledBytes(v.usage, e) == BilledBytes(u.usage, e)
  {
    if r.email < |u.clients| {
      var bytes := ChargedBytes(u.clients[r.email], l, r.total);
      var debit := Charge(bytes, rate);
      assert (u.ledger + [UsageDebit(r.email, -debit)])[..|u.ledger|] == u.ledger;
      assert (u.usage + [ConfigUsage(r.email, l, bytes, GbUnits(bytes), debit)])[..|u.usage|] == u.usage;
    }
  }

  /** A pass over another listing concerns no config of this one, whatever its price. */
  lemma {:induction false} ForeignPassPaysNobody(w: World, l: ListingId, readings: seq<Reading>, rate: real,
      reset: bool, e: Email)
    requires e < |w.clients| && w.clients[e].listing != l
    ensures
      var v := BillReadings(w, l, readings, rate, reset);
      && e < |v.clients| && v.clients[e] == w.clients[e]
      && Paid(v.ledger, e) == Paid(w.ledger, e) && BilledBytes(v.usage, e) == BilledBytes(w.usage, e)
  {
    if readings != [] {
      var init, last := readings[..|readings| - 1], readings[|readings| - 1];
      ForeignPassPaysNobody(w, l, init, rate, reset, e);
      ForeignReadingPaysNobody(BillReadings(w, l, init, rate, reset), l, last, rate, reset, e);
    }
  }

  /** A bill that takes effect pays for exactly the bytes it bills: one charge at the listing's rate, or nothing. */
  lemma AppliedBillPays(w: World, k: Worker, commission: real, commit: Commit, e: Email)
    requires e < |w.clients| && DistinctSnapshots(w) && BillsHome(w, Bill(k, commission, commit), w.clients[e].listing)
    requires BuyerRate(w.inbounds[w.clients[e].listing].price, commission) >= 0.0
    ensures
      var v := Step(w, Bill(k, commission, commit));
      var rate := BuyerRate(w.inbounds[w.clients[e].listing].price, commission);
      && BilledBytes(w.usage, e) <= BilledBytes(v.usage, e)
      && Paid(v.ledger, e) == Paid(w.ledger, e) + ChargeOf(BilledBytes(v.usage, e) - BilledBytes(w.usage, e), rate)
  {
    hide Charge, GbUnits, BilledBytes, Paid, BillReading, BillReadings, ChargeOf;
    var phase, rate := PhaseOf(w, k), BuyerRate(w.inbounds[w.clients[e].listing].price, commission);
    NothingIsFree(rate);
    BillOnClient(w, k, commission, commit, e);
    CreditPaysNobody(w, phase.listing, phase.snap.total, e);
    BillReadingsPays(CreditInbound(w, phase.listing, phase.snap.total), phase.listing, phase.snap.clients, rate,
                     phase.succeeded, e);
  }

  lemma ForeignBillPays(w: World, k: Worker, commission: real, commit: Commit, e: Email)
    requires e < |w.clients| && !BillsHome(w, Bill(k, commission, commit), w.clients[e].listing)
    ensures
      var v := Step(w, Bill(k, commission, commit));
      Paid(v.ledger, e) == Paid(w.ledger, e) && BilledBytes(v.usage, e) == BilledBytes(w.usage, e)
  {
    var phase := PhaseOf(w, k);
    if phase.ResetDone? && phase.listing < |w.inbounds| && commit.applied {
      hide BillReadings, Charge, GbUnits;
      CreditPaysNobody(w, phase.listing, phase.snap.total, e);
      ForeignPassPaysNobody(CreditInbound(w, phase.listing, phase.snap.total), phase.listing, phase.snap.clients,
                            BuyerRate(w.inbounds[phase.listing].price, commission), phase.succeeded, e);
    }
  }

  lemma OnlyBillsPay(w: World, ev: Event)
    requires !ev.Bill?
    ensures Step(w, ev).ledger == w.ledger && Step(w, ev).usage == w.usage
  {
  }

  /** One step pays for exactly the bytes it bills, at a rate between the two; only a bill of the config's own
      listing bills any. */
  lemma StepPays(w: World, ev: Event, low: real, high: real, e: Email)
    requires e < |w.clients| && DistinctSnapshots(w)
    requires 0.0 <= low <= high && BillsBetween(w, ev, w.clients[e].listing, low, high)
    ensures
      var v := Step(w, ev);
      && BilledBytes(w.usage, e) <= BilledBytes(v.usage, e)
      && var bytes := BilledBytes(v.usage, e) - BilledBytes(w.usage, e);
         && Paid(w.ledger, e) + ChargeOf(bytes, low) <= Paid(v.ledger, e) <= Paid(w.ledger, e) + ChargeOf(bytes, high)
         && (!BillsHome(w, ev, w.clients[e].listing) ==> bytes == 0)
  {
    hide Step, BilledBytes, Paid, ChargeOf;
    NothingIsFree(low);
    NothingIsFree(high);
    var home := w.clients[e].listing;
    if BillsHome(w, ev, home) {
      AppliedBillPays(w, ev.worker, ev.commission, ev.commit, e);
      ChargesBetween(BilledBytes(Step(w, ev).usage, e) - BilledBytes(w.usage, e), low,
                     BuyerRate(w.inbounds[home].price, ev.commission), high);
    } else if ev.Bill? {
      ForeignBillPays(w, ev.worker, ev.commission, ev.commit, e);
    } else {
      OnlyBillsPay(w, ev);
    }
  }

  /** Every bill of the listing in the run is at a rate between the two. Other listings are free to charge
      anything, and the listing's own price may move within the bounds. */
  ghost predicate RatesBetween(w: World, evs: seq<Event>, l: ListingId, low: real, high: real)
    decreases |evs|
  {
    evs == [] || (BillsBetween(w, evs[0], l, low, high) && RatesBetween(Step(w, evs[0]), evs[1..], l, low, high))
  }

  /** What a run debits a config is one charge for each of some deltas that add up to its billed bytes, at
      most one for each bill of its own listing, and each at a rate between the bounds. */
  lemma {:induction false} PaidIsChargesOfDeltas(w: World, evs: seq<Event>, low: real, high: real, e: Email)
    returns (deltas: seq<nat>)
    requires e < |w.clients| && DistinctSnapshots(w)
    requires 0.0 <= low <= high && RatesBetween(w, evs, w.clients[e].listing, low, high)
    ensures
      var v := Run(w, evs);
      && Paid(w.ledger, e) + TotalCharge(deltas, low) <= Paid(v.ledger, e)
      && Paid(v.ledger, e) <= Paid(w.ledger, e) + TotalCharge(deltas, high)
      && BilledBytes(v.usage, e) == BilledBytes(w.usage, e) + Sum(deltas)
    ensures |deltas| <= HomeBills(w, evs, w.clients[e].listing)
    decreases |evs|
  {
    hide Step, Charge;
    if evs == [] {
      deltas := [];
    } else {
      StepPays(w, evs[0], low, high, e);
      StepForgives(w, evs[0], e);
      var rest := PaidIsChargesOfDeltas(Step(w, evs[0]), evs[1..], low, high, e);
      var more := BilledBytes(Step(w, evs[0]).usage, e) - BilledBytes(w.usage, e);
      deltas := if more > 0 then [more] + rest else rest;
    }
  }

  lemma {:induction false} SlackGrows(m: nat, n: nat, rate: real)
    requires m <= n && rate >= 0.0
    ensures Slack(m, rate) <= Slack(n, rate)
  {
    if m < n {
      SlackGrows(m, n - 1, rate);
    }
  }

  /** Money paid lies between the exact worth of the billed bytes at the lowest and at the highest rate, within
      one tolerance for each bill of the config's own listing. */
  lemma PaidIsWorthOfBilled(w: World, evs: seq<Event>, low: real, high: real, e: Email)
    requires e < |w.clients| && DistinctSnapshots(w)
    requires 0.0 <= low <= high && RatesBetween(w, evs, w.clients[e].listing, low, high)
    requires Paid(w.ledger, e) == 0 && BilledBytes(w.usage, e) == 0
    ensures
      var v, n := Run(w, evs), HomeBills(w, evs, w.clients[e].listing);
      && ExactCharge(BilledBytes(v.usage, e), low) <= Paid(v.ledger, e) as real + Slack(n, low)
      && Paid(v.ledger, e) as real <= ExactCharge(BilledBytes(v.usage, e), high) + Slack(n, high)
  {
    var deltas := PaidIsChargesOfDeltas(w, evs, low, high, e);
    BillingErrorBound(deltas, low);
    BillingErrorBound(deltas, high);
    SlackGrows(|deltas|, HomeBills(w, evs, w.clients[e].listing), low);
    SlackGrows(|deltas|, HomeBills(w, evs, w.clients[e].listing), high);
  }

  lemma ExactChargeGrows(a: nat, b: nat, rate: real)
    requires a <= b && rate >= 0.0
    ensures ExactCharge(a, rate) <= ExactCharge(b, rate)
  {
    ProductMonotone(ExactGb(a), ExactGb(b), rate, rate);
  }

  /** A buyer never pays more than the worth of what the client moved at the highest rate its listing charged,
      plus one tolerance for each bill of that listing. */
  lemma BuyerNeverOverpays(w: World, evs: seq<Event>, low: real, high: real, e: Email)
    requires Untouched(w, e) && BuyerAssumptions(w, evs, w.clients[e].listing)
    requires Paid(w.ledger, e) == 0 && 0.0 <= low <= high && RatesBetween(w, evs, w.clients[e].listing, low, high)
    ensures
      var v := Run(w, evs);
      && e < |v.clients|
      && Paid(v.ledger, e) as real
         <= ExactCharge(v.clients[e].moved, high) + Slack(HomeBills(w, evs, w.clients[e].listing), high)
  {
    BuyerNeverOverbilled(w, evs, e);
    PaidIsWorthOfBilled(w, evs, low, high, e);
    ExactChargeGrows(BilledBytes(Run(w, evs).usage, e), Run(w, evs).clients[e].moved, high);
  }

  // ----- From the empty world -----

  /** No wallet entry concerns a config that does not exist yet. */
  ghost predicate NoEarlyDebits(w: World) { forall e: Email | e >= |w.clients| :: Paid(w.ledger, e) == 0 }

  lemma {:induction false} BillReadingsPaysNoStranger(w: World, l: ListingId, readings: seq<Reading>, rate: real,
      reset: bool, e: Email)
    requires e >= |w.clients|
    ensures
      var v := BillReadings(w, l, readings, rate, reset);
      |v.clients| == |w.clients| && Paid(v.ledger, e) == Paid(w.ledger, e)
  {
    if readings != [] {
      var init, last := readings[..|readings| - 1], readings[|readings| - 1];
      BillReadingsPaysNoStranger(w, l, init, rate, reset, e);
      var u := BillReadings(w, l, init, rate, reset);
      if last.email < |u.clients| {
        var debit := Charge(ChargedBytes(u.clients[last.email], l, last.total), rate);
        assert (u.ledger + [UsageDebit(last.email, -debit)])[..|u.ledger|] == u.ledger;
      }
    }
  }

  lemma ClientsStay(w: World, ev: Event)
    requires !ev.Bill?
    ensures |w.clients| <= |Step(w, ev).clients|
  {
  }

  lemma StepKeepsNoEarlyDebits(w: World, ev: Event)
    requires NoEarlyDebits(w)
    ensures NoEarlyDebits(Step(w, ev))
  {
    if ev.Bill? {
      var v, phase := Step(w, ev), PhaseOf(w, ev.worker);
      if phase.ResetDone? && phase.listing < |w.inbounds| && ev.commit.applied {
        var credited := CreditInbound(w, phase.listing, phase.snap.total);
        var rate := BuyerRate(w.inbounds[phase.listing].price, ev.commission);
        forall e: Email | e >= |w.clients|
          ensures |v.clients| == |w.clients| && Paid(v.ledger, e) == 0
        {
          CreditPaysNobody(w, phase.listing, phase.snap.total, e);
          BillReadingsPaysNoStranger(credited, phase.listing, phase.snap.clients, rate, phase.succeeded, e);
        }
        BillReadingsFrame(credited, phase.listing, phase.snap.clients, rate, phase.succeeded);
      }
    } else {
      OnlyBillsPay(w, ev);
      ClientsStay(w, ev);
    }
  }

  lemma BillPhasesKeepsClients(w: World, k: Worker, commission: real, commit: Commit)
    ensures |Step(w, Bill(k, commission, commit)).clients| == |w.clients|
  {
    var phase := PhaseOf(w, k);
    if phase.ResetDone? && phase.listing < |w.inbounds| && commit.applied {
      BillReadingsFrame(CreditInbound(w, phase.listing, phase.snap.total), phase.listing, phase.snap.clients,
                        BuyerRate(w.inbounds[phase.listing].price, commission), phase.succeeded);
    }
  }

  lemma NewClientHasPaidNothing(w: World, ev: Event, e: Email)
    requires NoEarlyDebits(w) && |w.clients| <= e < |Step(w, ev).clients|
    ensures Paid(Step(w, ev).ledger, e) == 0
  {
    if ev.Bill? {
      BillPhasesKeepsClients(w, ev.worker, ev.commission, ev.commit);
    } else {
      OnlyBillsPay(w, ev);
    }
  }

  lemma {:induction false} NobodyOverpays(w: World, evs: seq<Event>, l: ListingId, low: real, high: real, e: Email)
    requires Known(w) && NoEarlyDebits(w) && e >= |w.clients| && BuyerAssumptions(w, evs, l)
    requires 0.0 <= low <= high && RatesBetween(w, evs, l, low, high)
    requires e < |Run(w, evs).clients| && Run(w, evs).clients[e].listing == l
    ensures
      var v := Run(w, evs);
      Paid(v.ledger, e) as real <= ExactCharge(v.clients[e].moved, high) + Slack(HomeBills(w, evs, l), high)
    decreases |evs|
  {
    hide Step, Known, Untouched, NoEarlyDebits, Slack, BillsHome, BillsBetween;
    var v := Step(w, evs[0]);
    StepKeepsKnown(w, evs[0]);
    StepKeepsNoEarlyDebits(w, evs[0]);
    SlackGrows(HomeBills(v, evs[1..], l), HomeBills(w, evs, l), high);
    if e < |v.clients| {
      NewClientIsUntouched(w, evs[0], e);
      NewClientHasPaidNothing(w, evs[0], e);
      RunKeepsListing(v, evs[1..], e);
      BuyerNeverOverpays(v, evs[1..], low, high, e);
    } else {
      NobodyOverpays(v, evs[1..], l, low, high, e);
    }
  }

  /** In every run from the start a buyer of a listing whose sub-cycles stay apart pays at most the worth of
      what the client moved, plus one tolerance for each bill of that listing. */
  lemma NobodyOverpaysFromStart(evs: seq<Event>, low: real, high: real, e: Email)
    requires e < |Run(EMPTY, evs).clients| && BuyerAssumptions(EMPTY, evs, Run(EMPTY, evs).clients[e].listing)
    requires 0.0 <= low <= high && RatesBetween(EMPTY, evs, Run(EMPTY, evs).clients[e].listing, low, high)
    ensures
      var v := Run(EMPTY, evs);
      Paid(v.ledger, e) as real
      <= ExactCharge(v.clients[e].moved, high) + Slack(HomeBills(EMPTY, evs, v.clients[e].listing), high)
  {
    NobodyOverpays(EMPTY, evs, Run(EMPTY, evs).clients[e].listing, low, high, e);
  }

  // ----- What one pass leaves the platform -----

  function LedgerTotal(ledger: seq<Entry>): int
  {
    if ledger == [] then 0 else LedgerTotal(ledger[..|ledger| - 1]) + ledger[|ledger| - 1].amount
  }

  lemma TotalAppend(ledger: seq<Entry>, entry: Entry)
    ensures LedgerTotal(ledger + [entry]) == LedgerTotal(ledger) + entry.amount
  {
    assert (ledger + [entry])[..|ledger|] == ledger;
  }

  /** The byte deltas a pass charges, in the snapshot's order. */
  function ChargedDeltas(clients: seq<Client>, l: ListingId, readings: seq<Reading>): (deltas: seq<nat>)
    ensures forall i | 0 <= i < |deltas| :: deltas[i] >= MIN_BILLABLE
  {
    if readings == [] then []
    else
      var last := readings[|readings| - 1];
      var before := ChargedDeltas(clients, l, readings[..|readings| - 1]);
      if last.email < |clients| && ChargedBytes(clients[last.email], l, last.total) > 0
      then before + [ChargedBytes(clients[last.email], l, last.total)] else before
  }

  lemma {:induction false} TotalChargeAppend(deltas: seq<nat>, bytes: nat, rate: real)
    ensures TotalCharge(deltas + [bytes], rate) == TotalCharge(deltas, rate) + Charge(bytes, rate)
  {
    hide Charge;
    if deltas == [] {
      assert [] + [bytes] == [bytes] && [bytes][1..] == [];
    } else {
      assert (deltas + [bytes])[1..] == deltas[1..] + [bytes];
      TotalChargeAppend(deltas[1..], bytes, rate);
    }
  }

  lemma ReadingMovesTotal(u: World, l: ListingId, r: Reading, rate: real, reset: bool)
    requires r.email < |u.clients| && rate >= 0.0
    ensures
      var bytes := ChargedBytes(u.clients[r.email], l, r.total);
      LedgerTotal(BillReading(u, l, r, rate, reset).ledger) == LedgerTotal(u.ledger) - ChargeOf(bytes, rate)
  {
    var bytes := ChargedBytes(u.clients[r.email], l, r.total);
    ChargeMonotone(0, bytes, rate, rate);
    TotalAppend(u.ledger, UsageDebit(r.email, -Charge(bytes, rate)));
  }

  lemma StrangerIsSkipped(u: World, l: ListingId, r: Reading, rate: real, reset: bool)
    requires r.email >= |u.clients|
    ensures BillReading(u, l, r, rate, reset) == u
  {
  }

  lemma {:induction false} ReadingsMoveTotal(w: World, l: ListingId, readings: seq<Reading>, rate: real, reset: bool)
    requires Distinct(readings) && rate >= 0.0
    ensures
      LedgerTotal(BillReadings(w, l, readings, rate, reset).ledger)
      == LedgerTotal(w.ledger) - TotalCharge(ChargedDeltas(w.clients, l, readings), rate)
  {
    if readings != [] {
      hide Charge, LedgerTotal, BillReading, ChargedBytes;
      var init, last := readings[..|readings| - 1], readings[|readings| - 1];
      ReadingsMoveTotal(w, l, init, rate, reset);
      BillReadingsFrame(w, l, init, rate, reset);
      var u := BillReadings(w, l, init, rate, reset);
      if last.email < |w.clients| {
        ReadingOfMentioned(init, last.email);
        BillReadingsOnClient(w, l, init, rate, reset, last.email);
        ReadingMovesTotal(u, l, last, rate, reset);
        var bytes := ChargedBytes(w.clients[last.email], l, last.total);
        TotalChargeAppend(ChargedDeltas(w.clients, l, init), bytes, rate);
      } else {
        StrangerIsSkipped(u, l, last, rate, reset);
      }
    }
  }

  lemma CreditMovesTotal(w: World, l: ListingId, total: nat)
    requires l < |w.inbounds| && w.inbounds[l].price >= 0.0
    ensures
      var bytes := Billable(Delta(total, w.inbounds[l].anchor));
      LedgerTotal(CreditInbound(w, l, total).ledger)
      == LedgerTotal(w.ledger) + ChargeOf(bytes, SellerRate(w.inbounds[l].price))
  {
    var bytes, rate := Billable(Delta(total, w.inbounds[l].anchor)), SellerRate(w.inbounds[l].price);
    ChargeMonotone(0, bytes, rate, rate);
    TotalAppend(w.ledger, UsageCredit(l, Charge(bytes, rate)));
  }

  lemma NoBytesNoCharge(rate: real)
    ensures Charge(0, rate) == 0
  {
    assert GbUnits(0) == 0;
  }

  /** When the inbound's billable delta is the sum of the deltas charged to its clients, one billing pass takes
      exactly the platform's margin out of the users' wallets. */
  lemma PassTakesMargin(w: World, l: ListingId, snap: Snapshot, commission: real, reset: bool)
    requires l < |w.inbounds| && Distinct(snap.clients) && w.inbounds[l].price >= 0.0 && commission >= 0.0
    requires Billable(Delta(snap.total, w.inbounds[l].anchor)) == Sum(ChargedDeltas(w.clients, l, snap.clients))
    ensures
      var price, deltas := w.inbounds[l].price, ChargedDeltas(w.clients, l, snap.clients);
      LedgerTotal(BillInbound(w, l, snap, commission, reset).ledger)
      == LedgerTotal(w.ledger) - Margin(deltas, SellerRate(price), BuyerRate(price, commission))
  {
    hide Charge, LedgerTotal, BillReadings;
    var price := w.inbounds[l].price;
    BuyerRateIsMarkedUp(price, commission);
    NoBytesNoCharge(SellerRate(price));
    CreditMovesTotal(w, l, snap.total);
    ReadingsMoveTotal(CreditInbound(w, l, snap.total), l, snap.clients, BuyerRate(price, commission), reset);
  }

  /** Past the threshold on price and commission such a pass never pays out more than it takes in. */
  lemma PassNeverLoses(w: World, l: ListingId, snap: Snapshot, commission: real, reset: bool)
    requires l < |w.inbounds| && Distinct(snap.clients) && w.inbounds[l].price >= 0.0 && commission >= 0.0
    requires Billable(Delta(snap.total, w.inbounds[l].anchor)) == Sum(ChargedDeltas(w.clients, l, snap.clients))
    requires MarkUpCoversRounding(w.inbounds[l].price, commission)
    ensures LedgerTotal(BillInbound(w, l, snap, commission, reset).ledger) <= LedgerTotal(w.ledger)
  {
    PassTakesMargin(w, l, snap, commission, reset);
    MarginNonNegative(ChargedDeltas(w.clients, l, snap.clients), w.inbounds[l].price, commission);
  }
}
