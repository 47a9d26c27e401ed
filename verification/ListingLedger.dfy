/** What one listing's rows in the wallet ledger add up to over a whole run, against its price and mark-up. */
module ListingLedger {
  import opened BillingMath
  import opened Metering
  import opened MeteringSafety
  import opened SellerSafety
  import opened ByteConservation
  import opened MeteredMoney

  predicate Concerns(entry: Entry, clients: seq<Client>, l: ListingId)
  {
    if entry.UsageDebit? then entry.email < |clients| && clients[entry.email].listing == l else entry.listing == l
  }

  /** What the listing's buyers and its seller have been given, less what was taken from them. */
  function Wallets(ledger: seq<Entry>, clients: seq<Client>, l: ListingId): int
  {
    if ledger == [] then 0
    else
      var last := ledger[|ledger| - 1];
      Wallets(ledger[..|ledger| - 1], clients, l) + if Concerns(last, clients, l) then last.amount else 0
  }

  /** The byte deltas billed to the listing's buyers, in order. */
  function Billed(usage: seq<ConfigUsage>, l: ListingId): seq<nat>
  {
    if usage == [] then []
    else
      var last, before := usage[|usage| - 1], Billed(usage[..|usage| - 1], l);
      if last.listing == l then before + [last.bytes] else before
  }

  /** The byte deltas credited to the listing's seller, in order. */
  function Earned(outbound: seq<OutboundUsage>, l: ListingId): seq<nat>
  {
    if outbound == [] then []
    else
      var last, before := outbound[|outbound| - 1], Earned(outbound[..|outbound| - 1], l);
      if last.listing == l then before + [last.bytes] else before
  }

  predicate AllBillable(deltas: seq<nat>) { forall i | 0 <= i < |deltas| :: deltas[i] >= MIN_BILLABLE }

  predicate DebitsKnown(ledger: seq<Entry>, clients: seq<Client>)
  {
    forall i | 0 <= i < |ledger| && ledger[i].UsageDebit? :: ledger[i].email < |clients|
  }

  /** The ledger holds one charge for every delta, at the seller's or the buyers' rate. */
  ghost predicate Matches(w: World, l: ListingId, sellerRate: real, buyerRate: real)
  {
    && Wallets(w.ledger, w.clients, l)
       == TotalCharge(Earned(w.outbound, l), sellerRate) - TotalCharge(Billed(w.usage, l), buyerRate)
    && DebitsKnown(w.ledger, w.clients)
    && AllBillable(Earned(w.outbound, l)) && AllBillable(Billed(w.usage, l))
  }

  predicate SameHomes(clients: seq<Client>, later: seq<Client>)
  {
    |clients| <= |later| && forall e | 0 <= e < |clients| :: later[e].listing == clients[e].listing
  }

  lemma {:induction false} HomesKeepWallets(ledger: seq<Entry>, clients: seq<Client>, later: seq<Client>, l: ListingId)
    requires SameHomes(clients, later) && DebitsKnown(ledger, clients)
    ensures Wallets(ledger, later, l) == Wallets(ledger, clients, l) && DebitsKnown(ledger, later)
  {
    if ledger != [] {
      HomesKeepWallets(ledger[..|ledger| - 1], clients, later, l);
    }
  }

  lemma WalletsAppend(ledger: seq<Entry>, entry: Entry, clients: seq<Client>, l: ListingId)
    ensures
      Wallets(ledger + [entry], clients, l)
      == Wallets(ledger, clients, l) + if Concerns(entry, clients, l) then entry.amount else 0
  {
    assert (ledger + [entry])[..|ledger|] == ledger;
  }

  lemma BilledAppend(usage: seq<ConfigUsage>, row: ConfigUsage, l: ListingId)
    ensures Billed(usage + [row], l) == if row.listing == l then Billed(usage, l) + [row.bytes] else Billed(usage, l)
  {
    assert (usage + [row])[..|usage|] == usage;
  }

  lemma EarnedAppend(outbound: seq<OutboundUsage>, row: OutboundUsage, l: ListingId)
    ensures
      Earned(outbound + [row], l)
      == if row.listing == l then Earned(outbound, l) + [row.bytes] else Earned(outbound, l)
  {
    assert (outbound + [row])[..|outbound|] == outbound;
  }

  lemma ChargeNonNegative(bytes: nat, rate: real)
    requires rate >= 0.0
    ensures Charge(bytes, rate) >= 0
  {
    ChargeMonotone(bytes, bytes, rate, rate);
  }

  // ----- Every step keeps the ledger in step with the deltas -----

  lemma EarningKeepsMatch(w: World, v: World, row: OutboundUsage, l: ListingId, sellerRate: real, buyerRate: real)
    requires Matches(w, l, sellerRate, buyerRate) && v.clients == w.clients && v.usage == w.usage
    requires v.outbound == w.outbound + [row] && row.bytes >= MIN_BILLABLE
    requires v.ledger == if row.credit > 0 then w.ledger + [UsageCredit(row.listing, row.credit)] else w.ledger
    requires row.listing == l ==> row.credit == Charge(row.bytes, sellerRate) >= 0
    ensures Matches(v, l, sellerRate, buyerRate)
  {
    hide Charge;
    EarnedAppend(w.outbound, row, l);
    WalletsAppend(w.ledger, UsageCredit(row.listing, row.credit), w.clients, l);
    TotalChargeAppend(Earned(w.outbound, l), row.bytes, sellerRate);
    hide Wallets, Earned, Billed, TotalCharge;
  }

  lemma SameBooksSameMatch(w: World, v: World, l: ListingId, sellerRate: real, buyerRate: real)
    requires Matches(w, l, sellerRate, buyerRate) && SameHomes(w.clients, v.clients)
    requires v.ledger == w.ledger && v.usage == w.usage && v.outbound == w.outbound
    ensures Matches(v, l, sellerRate, buyerRate)
  {
    HomesKeepWallets(w.ledger, w.clients, v.clients, l);
    hide Wallets, Earned, Billed, TotalCharge;
  }

  lemma CreditKeepsMatch(w: World, k: ListingId, total: nat, l: ListingId, sellerRate: real, buyerRate: real)
    requires Matches(w, l, sellerRate, buyerRate) && k < |w.inbounds|
    requires k == l ==> SellerRate(w.inbounds[k].price) == sellerRate >= 0.0
    ensures Matches(CreditInbound(w, k, total), l, sellerRate, buyerRate)
  {
    var v := CreditInbound(w, k, total);
    var bytes := Billable(Delta(total, w.inbounds[k].anchor));
    var credit := Charge(bytes, SellerRate(w.inbounds[k].price));
    if bytes > 0 {
      var row := OutboundUsage(k, bytes, GbUnits(bytes), credit);
      if k == l {
        ChargeNonNegative(bytes, sellerRate);
      }
      assert v.outbound == w.outbound + [row];
      hide Matches, Charge, GbUnits, SellerRate;
      EarningKeepsMatch(w, v, row, l, sellerRate, buyerRate);
    } else {
      SameBooksSameMatch(w, v, l, sellerRate, buyerRate);
    }
  }

  lemma DebitKeepsMatch(w: World, v: World, row: ConfigUsage, l: ListingId, sellerRate: real, buyerRate: real)
    requires Matches(w, l, sellerRate, buyerRate) && SameHomes(w.clients, v.clients) && v.outbound == w.outbound
    requires row.email < |w.clients| && w.clients[row.email].listing == row.listing && row.bytes >= MIN_BILLABLE
    requires v.usage == w.usage + [row]
    requires v.ledger == if row.debit > 0 then w.ledger + [UsageDebit(row.email, -row.debit)] else w.ledger
    requires row.listing == l ==> row.debit == Charge(row.bytes, buyerRate) >= 0
    ensures Matches(v, l, sellerRate, buyerRate)
  {
    hide Charge;
    HomesKeepWallets(w.ledger, w.clients, v.clients, l);
    BilledAppend(w.usage, row, l);
    WalletsAppend(w.ledger, UsageDebit(row.email, -row.debit), v.clients, l);
    TotalChargeAppend(Billed(w.usage, l), row.bytes, buyerRate);
    hide Wallets, Earned, Billed, TotalCharge;
  }

  lemma ReadingKeepsMatch(w: World, k: ListingId, r: Reading, rate: real, reset: bool, l: ListingId, sellerRate: real,
      buyerRate: real)
    requires Matches(w, l, sellerRate, buyerRate) && (k == l ==> rate == buyerRate >= 0.0)
    ensures Matches(BillReading(w, k, r, rate, reset), l, sellerRate, buyerRate)
  {
    if r.email < |w.clients| {
      var v, bytes := BillReading(w, k, r, rate, reset), ChargedBytes(w.clients[r.email], k, r.total);
      var debit := Charge(bytes, rate);
      assert SameHomes(w.clients, v.clients) && v.outbound == w.outbound;
      if bytes > 0 {
        var row := ConfigUsage(r.email, k, bytes, GbUnits(bytes), debit);
        if k == l {
          ChargeNonNegative(bytes, buyerRate);
        }
        assert v.usage == w.usage + [row];
        hide Matches, Charge, GbUnits;
        DebitKeepsMatch(w, v, row, l, sellerRate, buyerRate);
      } else {
        hide Matches;
        SameBooksSameMatch(w, v, l, sellerRate, buyerRate);
      }
    }
  }

  lemma {:induction false} ReadingsKeepMatch(w: World, k: ListingId, readings: seq<Reading>, rate: real, reset: bool,
      l: ListingId, sellerRate: real, buyerRate: real)
    requires Matches(w, l, sellerRate, buyerRate) && (k == l ==> rate == buyerRate >= 0.0)
    ensures Matches(BillReadings(w, k, readings, rate, reset), l, sellerRate, buyerRate)
  {
    hide Matches, BillReading;
    if readings != [] {
      var init := readings[..|readings| - 1];
      ReadingsKeepMatch(w, k, init, rate, reset, l, sellerRate, buyerRate);
      ReadingKeepsMatch(BillReadings(w, k, init, rate, reset), k, readings[|readings| - 1], rate, reset, l, sellerRate,
                        buyerRate);
    }
  }

  /** If this step bills the listing, it does so at this price and commission. */
  predicate BillsAt(w: World, ev: Event, l: ListingId, price: real, commission: real)
  {
    BillsHome(w, ev, l) ==> w.inbounds[l].price == price && ev.commission == commission
  }

  /** Apart from the worker's phase, a bill that takes effect is the credit and then the readings. */
  lemma BillShape(w: World, k: Worker, commission: real, commit: Commit)
    ensures
      var v, phase := Step(w, Bill(k, commission, commit)), PhaseOf(w, k);
      if phase.ResetDone? && phase.listing < |w.inbounds| && commit.applied then
        var u := BillInbound(w, phase.listing, phase.snap, commission, phase.succeeded);
        v.ledger == u.ledger && v.usage == u.usage && v.outbound == u.outbound && v.clients == u.clients
      else v.ledger == w.ledger && v.usage == w.usage && v.outbound == w.outbound && v.clients == w.clients
  {
    hide BillInbound;
  }

  lemma InboundKeepsMatch(w: World, k: ListingId, snap: Snapshot, commission: real, reset: bool, l: ListingId,
      sellerRate: real, buyerRate: real)
    requires Matches(w, l, sellerRate, buyerRate) && k < |w.inbounds|
    requires k == l ==> SellerRate(w.inbounds[k].price) == sellerRate >= 0.0
    requires k == l ==> BuyerRate(w.inbounds[k].price, commission) == buyerRate >= 0.0
    ensures Matches(BillInbound(w, k, snap, commission, reset), l, sellerRate, buyerRate)
  {
    hide Matches, CreditInbound, BillReadings, SellerRate, BuyerRate;
    var rate := BuyerRate(w.inbounds[k].price, commission);
    CreditKeepsMatch(w, k, snap.total, l, sellerRate, buyerRate);
    ReadingsKeepMatch(CreditInbound(w, k, snap.total), k, snap.clients, rate, reset, l, sellerRate, buyerRate);
  }

  lemma BillKeepsMatch(w: World, k: Worker, commission: real, commit: Commit, l: ListingId, price: real, markUp: real)
    requires price >= 0.0 && markUp >= 0.0 && BillsAt(w, Bill(k, commission, commit), l, price, markUp)
    requires Matches(w, l, SellerRate(price), BuyerRate(price, markUp))
    ensures Matches(Step(w, Bill(k, commission, commit)), l, SellerRate(price), BuyerRate(price, markUp))
  {
    BuyerRateIsMarkedUp(price, markUp);
    BillShape(w, k, commission, commit);
    hide Step, Matches, BillInbound, SellerRate, BuyerRate;
    var v, phase := Step(w, Bill(k, commission, commit)), PhaseOf(w, k);
    if phase.ResetDone? && phase.listing < |w.inbounds| && commit.applied {
      InboundKeepsMatch(w, phase.listing, phase.snap, commission, phase.succeeded, l, SellerRate(price),
                        BuyerRate(price, markUp));
      SameBooksSameMatch(BillInbound(w, phase.listing, phase.snap, commission, phase.succeeded), v, l,
                         SellerRate(price), BuyerRate(price, markUp));
    } else {
      SameBooksSameMatch(w, v, l, SellerRate(price), BuyerRate(price, markUp));
    }
  }

  lemma OtherStepShape(w: World, ev: Event)
    requires !ev.Bill?
    ensures
      var v := Step(w, ev);
      v.ledger == w.ledger && v.usage == w.usage && v.outbound == w.outbound && SameHomes(w.clients, v.clients)
  {
  }

  lemma StepKeepsMatch(w: World, ev: Event, l: ListingId, price: real, markUp: real)
    requires price >= 0.0 && markUp >= 0.0 && BillsAt(w, ev, l, price, markUp)
    requires Matches(w, l, SellerRate(price), BuyerRate(price, markUp))
    ensures Matches(Step(w, ev), l, SellerRate(price), BuyerRate(price, markUp))
  {
    if ev.Bill? {
      BillKeepsMatch(w, ev.worker, ev.commission, ev.commit, l, price, markUp);
    } else {
      OtherStepShape(w, ev);
      hide Step, Matches;
      SameBooksSameMatch(w, Step(w, ev), l, SellerRate(price), BuyerRate(price, markUp));
    }
  }

  ghost predicate AlwaysAt(w: World, evs: seq<Event>, l: ListingId, price: real, commission: real)
    decreases |evs|
  {
    evs == [] || (BillsAt(w, evs[0], l, price, commission) && AlwaysAt(Step(w, evs[0]), evs[1..], l, price, commission))
  }

  lemma {:induction false} RunKeepsMatch(w: World, evs: seq<Event>, l: ListingId, price: real, markUp: real)
    requires price >= 0.0 && markUp >= 0.0 && AlwaysAt(w, evs, l, price, markUp)
    requires Matches(w, l, SellerRate(price), BuyerRate(price, markUp))
    ensures Matches(Run(w, evs), l, SellerRate(price), BuyerRate(price, markUp))
    decreases |evs|
  {
    hide Step, Matches, BillsAt, SellerRate, BuyerRate;
    if evs != [] {
      StepKeepsMatch(w, evs[0], l, price, markUp);
      RunKeepsMatch(Step(w, evs[0]), evs[1..], l, price, markUp);
    }
  }

  // ----- The platform's margin on a listing -----

  /** Over any run from the start in which a listing bills at one price and commission: what its buyers paid less what
      its seller earned is the exact worth of the billed bytes at the buyers' rate less that of the credited bytes at
      the seller's, up to one tolerance for each delta. */
  lemma ListingMargin(evs: seq<Event>, l: ListingId, price: real, commission: real)
    requires price >= 0.0 && commission >= 0.0 && AlwaysAt(EMPTY, evs, l, price, commission)
    ensures
      var v := Run(EMPTY, evs);
      var billed, earned := Billed(v.usage, l), Earned(v.outbound, l);
      var seller, buyer := SellerRate(price), BuyerRate(price, commission);
      && -Wallets(v.ledger, v.clients, l) == TotalCharge(billed, buyer) - TotalCharge(earned, seller)
      && Within(-(Wallets(v.ledger, v.clients, l) as real),
                ExactCharge(Sum(billed), buyer) - ExactCharge(Sum(earned), seller),
                Slack(|billed|, buyer) + Slack(|earned|, seller))
  {
    BuyerRateIsMarkedUp(price, commission);
    assert Matches(EMPTY, l, SellerRate(price), BuyerRate(price, commission));
    RunKeepsMatch(EMPTY, evs, l, price, commission);
    var v := Run(EMPTY, evs);
    BillingErrorBound(Billed(v.usage, l), BuyerRate(price, commission));
    BillingErrorBound(Earned(v.outbound, l), SellerRate(price));
    hide Run, AlwaysAt, ExactCharge, Slack, TotalCharge, Sum, Wallets, Billed, Earned, SellerRate, BuyerRate;
  }

  /** Each billable delta brings in, at the mark-up, the rounding of one debit and of one credit. */
  lemma {:induction false} MarkUpCovers(deltas: seq<nat>, price: real, commission: real)
    requires price >= 0.0 && commission >= 0.0 && MarkUpCoversRounding(price, commission) && AllBillable(deltas)
    ensures
      ExactCharge(Sum(deltas), commission * SellerRate(price))
      >= Slack(|deltas|, BuyerRate(price, commission)) + Slack(|deltas|, SellerRate(price))
  {
    BuyerRateIsMarkedUp(price, commission);
    var markUp := commission * SellerRate(price);
    if deltas == [] {
      assert ExactGb(0) == 0.0;
    } else {
      MarkUpCovers(deltas[1..], price, commission);
      assert markUp >= 0.0;
      ExactChargeAdds(deltas[0], Sum(deltas[1..]), markUp);
      ExactChargeGrows(MIN_BILLABLE, deltas[0], markUp);
      hide ExactCharge, SellerRate, BuyerRate, Tolerance;
    }
  }

  lemma SlacksFit(billed: seq<nat>, earned: seq<nat>, price: real, commission: real)
    requires price >= 0.0 && commission >= 0.0 && MarkUpCoversRounding(price, commission)
    requires AllBillable(billed) && AllBillable(earned) && Sum(earned) <= Sum(billed)
    ensures
      ExactCharge(Sum(billed), commission * SellerRate(price))
      >= Slack(|billed|, BuyerRate(price, commission)) + Slack(|earned|, SellerRate(price))
  {
    BuyerRateIsMarkedUp(price, commission);
    var markUp := commission * SellerRate(price);
    assert markUp >= 0.0;
    hide ExactCharge, Slack, SellerRate, BuyerRate, MarkUpCoversRounding, Sum;
    if |billed| >= |earned| {
      MarkUpCovers(billed, price, commission);
      SlackGrows(|earned|, |billed|, SellerRate(price));
    } else {
      MarkUpCovers(earned, price, commission);
      SlackGrows(|billed|, |earned|, BuyerRate(price, commission));
      ExactChargeGrows(Sum(earned), Sum(billed), markUp);
    }
  }

  /** Past the threshold on price and commission, the platform never loses on a listing over any run in which its
      buyers are billed for at least the bytes its seller is credited for. */
  lemma PlatformNeverLoses(evs: seq<Event>, l: ListingId, price: real, commission: real)
    requires price >= 0.0 && commission >= 0.0 && AlwaysAt(EMPTY, evs, l, price, commission)
    requires MarkUpCoversRounding(price, commission)
    requires Sum(Earned(Run(EMPTY, evs).outbound, l)) <= Sum(Billed(Run(EMPTY, evs).usage, l))
    ensures Wallets(Run(EMPTY, evs).ledger, Run(EMPTY, evs).clients, l) <= 0
  {
    BuyerRateIsMarkedUp(price, commission);
    assert Matches(EMPTY, l, SellerRate(price), BuyerRate(price, commission));
    RunKeepsMatch(EMPTY, evs, l, price, commission);
    ListingMargin(evs, l, price, commission);
    var v := Run(EMPTY, evs);
    var billed, earned := Billed(v.usage, l), Earned(v.outbound, l);
    var seller, markUp := SellerRate(price), commission * SellerRate(price);
    hide Run, AlwaysAt, ExactCharge, Slack, TotalCharge, Sum, Wallets, Billed, Earned, SellerRate, BuyerRate;
    SlacksFit(billed, earned, price, commission);
    RatesAdd(Sum(billed), seller, markUp);
    ExactChargeGrows(Sum(earned), Sum(billed), seller);
  }

  lemma {:induction false} SumAppends(deltas: seq<nat>, bytes: nat)
    ensures Sum(deltas + [bytes]) == Sum(deltas) + bytes
  {
    if deltas == [] {
      assert [] + [bytes] == [bytes] && [bytes][1..] == [];
    } else {
      assert (deltas + [bytes])[1..] == deltas[1..] + [bytes];
      SumAppends(deltas[1..], bytes);
    }
  }

  /** The credited deltas are the credited bytes. */
  lemma {:induction false} EarnedIsCredited(outbound: seq<OutboundUsage>, l: ListingId)
    ensures Sum(Earned(outbound, l)) == CreditedBytes(outbound, l)
  {
    if outbound != [] {
      var last, before := outbound[|outbound| - 1], Earned(outbound[..|outbound| - 1], l);
      EarnedIsCredited(outbound[..|outbound| - 1], l);
      SumAppends(before, last.bytes);
    }
  }
}
