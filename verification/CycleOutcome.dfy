/** What one bill, one sub-cycle and one whole cycle settle: exactly the bytes the panel showed past the anchor.

    Safety alone would be met by a worker that forgives whatever it likes. These theorems say how much is billed and
    credited, and in what money, in terms of counters, anchors, prices and how the cycle's calls ended.
*/
module CycleOutcome {
  import opened BillingMath
  import opened Common
  import opened Rounding
  import opened Metering
  import opened MeteringSafety
  import opened SellerSafety
  import opened ByteConservation
  import opened MeteredMoney
  import opened Poller
  import opened PollCycles

  // ----- One bill -----

  lemma ReadingOfListed(readings: seq<Reading>, e: Email, total: nat)
    requires Distinct(readings) && Reading(e, total) in readings
    ensures ReadingOf(readings, e) == Some(total)
  {
    ReadingOfMentioned(readings, e);
    var i :| 0 <= i < |readings| && readings[i] == Reading(e, total);
    assert Mentions(readings, e);
  }

  /** An applied bill settles every listed active client of its listing: 512 KiB or more past the anchor, or all of a
      counter below it, are billed to the last byte; anything less is forgiven to the last byte. */
  lemma BillSettlesClient(w: World, k: Worker, commission: real, ok: bool, e: Email, total: nat)
    requires e < |w.clients| && DistinctSnapshots(w) && PhaseOf(w, k).ResetDone?
    requires PhaseOf(w, k).listing < |w.inbounds| && Reading(e, total) in PhaseOf(w, k).snap.clients
    requires w.clients[e].active && w.clients[e].listing == PhaseOf(w, k).listing
    ensures
      var v, c := Step(w, Bill(k, commission, Commit(true, ok))), w.clients[e];
      var anchor := if PhaseOf(w, k).succeeded then 0 else total;
      var due := if total < c.anchor then total else total - c.anchor;
      && e < |v.clients|
      && (due >= 524288 ==>
            BilledBytes(v.usage, e) == BilledBytes(w.usage, e) + due && v.clients[e] == c.(anchor := anchor))
      && (due < 524288 ==>
            && BilledBytes(v.usage, e) == BilledBytes(w.usage, e)
            && v.clients[e] == c.(anchor := anchor, forgiven := c.forgiven + due))
  {
    hide BilledBytes;
    assert k in w.phases;
    ReadingOfListed(PhaseOf(w, k).snap.clients, e, total);
    BillOnClient(w, k, commission, Commit(true, ok), e);
  }

  /** Whoever the snapshot does not list, who is not active or who belongs to another listing is left alone; so is
      everybody when the commit does not take effect. */
  lemma BillSparesOthers(w: World, k: Worker, commission: real, commit: Commit, e: Email)
    requires e < |w.clients| && DistinctSnapshots(w)
    requires PhaseOf(w, k).ResetDone? ==>
               || !commit.applied || !w.clients[e].active || w.clients[e].listing != PhaseOf(w, k).listing
               || forall r | r in PhaseOf(w, k).snap.clients :: r.email != e
    ensures
      var v := Step(w, Bill(k, commission, commit));
      && e < |v.clients| && v.clients[e] == w.clients[e]
      && BilledBytes(v.usage, e) == BilledBytes(w.usage, e)
  {
    hide BilledBytes;
    BillOnClient(w, k, commission, commit, e);
    if PhaseOf(w, k).ResetDone? {
      ReadingOfMentioned(PhaseOf(w, k).snap.clients, e);
    }
  }

  function Priced(gb: int, rate: real): int { HalfEven(gb as real * rate) }

  /** Money for bytes past the anchor, in full: bytes over 2^30, rounded half to even at 10 digits, times the rate,
      rounded half to even at 8; below 512 KiB nothing. */
  function Money(due: nat, rate: real): int
  {
    if due < 524288 then 0 else Priced(HalfEven(due as real * 10000000000.0 / 1073741824.0), rate)
  }

  lemma GigabytesOf(bytes: nat)
    ensures GbUnits(bytes) == HalfEven(bytes as real * 10000000000.0 / 1073741824.0)
  {
    hide HalfEven;
    assert ExactGb(bytes) == bytes as real * 10000000000.0 / 1073741824.0;
  }

  lemma ChargeIsPriced(bytes: nat, rate: real)
    ensures Charge(bytes, rate) == Priced(GbUnits(bytes), rate)
  {
    hide HalfEven, GbUnits;
  }

  lemma ChargeInFull(due: nat, rate: real)
    ensures ChargeOf(Billable(due), rate) == Money(due, rate)
  {
    hide HalfEven, GbUnits, Charge, Priced;
    GigabytesOf(due);
    ChargeIsPriced(due, rate);
  }

  /** The two rates: the price in cents, and for a buyer one plus the commission times that. */
  lemma RatesInFull(price: real, commission: real)
    ensures BuyerRate(price, commission) == price * (1.0 + commission) / 100.0 && SellerRate(price) == price / 100.0
  {
  }

  /** What that client's buyer pays for it: the buyers' rate for each unit of gigabytes, or nothing. */
  lemma BillChargesClient(w: World, k: Worker, commission: real, ok: bool, e: Email, total: nat)
    requires e < |w.clients| && DistinctSnapshots(w) && PhaseOf(w, k).ResetDone?
    requires PhaseOf(w, k).listing < |w.inbounds| && Reading(e, total) in PhaseOf(w, k).snap.clients
    requires w.clients[e].active && w.clients[e].listing == PhaseOf(w, k).listing
    requires BuyerRate(w.inbounds[PhaseOf(w, k).listing].price, commission) >= 0.0
    ensures
      var v, anchor := Step(w, Bill(k, commission, Commit(true, ok))), w.clients[e].anchor;
      var due := if total < anchor then total else total - anchor;
      Paid(v.ledger, e)
      == Paid(w.ledger, e) + Money(due, BuyerRate(w.inbounds[w.clients[e].listing].price, commission))
  {
    hide Step, BilledBytes, Paid, HalfEven, Charge, GbUnits, ChargeOf, Money, BuyerRate;
    assert k in w.phases;
    var rate := BuyerRate(w.inbounds[w.clients[e].listing].price, commission);
    BillSettlesClient(w, k, commission, ok, e, total);
    AppliedBillPays(w, k, commission, Commit(true, ok), e);
    var due := if total < w.clients[e].anchor then total else total - w.clients[e].anchor;
    assert BilledBytes(Step(w, Bill(k, commission, Commit(true, ok))).usage, e)
        == BilledBytes(w.usage, e) + Billable(due);
    ChargeInFull(due, rate);
  }

  /** Wallet money credited for one listing. */
  function Received(ledger: seq<Entry>, l: ListingId): int
  {
    if ledger == [] then 0
    else
      var last := ledger[|ledger| - 1];
      Received(ledger[..|ledger| - 1], l) + if last.UsageCredit? && last.listing == l then last.amount else 0
  }

  lemma ReceivedAppend(ledger: seq<Entry>, entry: Entry, l: ListingId)
    ensures
      Received(ledger + [entry], l)
      == Received(ledger, l) + if entry.UsageCredit? && entry.listing == l then entry.amount else 0
  {
    assert (ledger + [entry])[..|ledger|] == ledger;
  }

  lemma ReadingCreditsNobody(w: World, k: ListingId, r: Reading, rate: real, reset: bool, l: ListingId)
    ensures Received(BillReading(w, k, r, rate, reset).ledger, l) == Received(w.ledger, l)
  {
    hide Received, Charge, GbUnits, ChargedBytes;
    if r.email < |w.clients| {
      ReceivedAppend(w.ledger, UsageDebit(r.email, -Charge(ChargedBytes(w.clients[r.email], k, r.total), rate)), l);
    }
  }

  lemma {:induction false} ReadingsCreditNobody(w: World, k: ListingId, readings: seq<Reading>, rate: real, reset: bool,
      l: ListingId)
    ensures Received(BillReadings(w, k, readings, rate, reset).ledger, l) == Received(w.ledger, l)
  {
    hide Received, BillReading;
    if readings != [] {
      var init, last := readings[..|readings| - 1], readings[|readings| - 1];
      ReadingsCreditNobody(w, k, init, rate, reset, l);
      ReadingCreditsNobody(BillReadings(w, k, init, rate, reset), k, last, rate, reset, l);
    }
  }

  lemma CreditPays(w: World, l: ListingId, total: nat)
    requires l < |w.inbounds| && SellerRate(w.inbounds[l].price) >= 0.0
    ensures
      Received(CreditInbound(w, l, total).ledger, l)
      == Received(w.ledger, l) + Money(Delta(total, w.inbounds[l].anchor), SellerRate(w.inbounds[l].price))
  {
    hide Charge, GbUnits, SellerRate, Money;
    var due, rate := Delta(total, w.inbounds[l].anchor), SellerRate(w.inbounds[l].price);
    ChargeInFull(due, rate);
    ChargeMonotone(Billable(due), Billable(due), rate, rate);
    ReceivedAppend(w.ledger, UsageCredit(l, Charge(Billable(due), rate)), l);
  }

  /** What the seller receives for an applied bill: the seller's rate for each unit of gigabytes, or nothing. */
  lemma BillPaysSeller(w: World, k: Worker, commission: real, ok: bool)
    requires PhaseOf(w, k).ResetDone? && PhaseOf(w, k).listing < |w.inbounds|
    requires SellerRate(w.inbounds[PhaseOf(w, k).listing].price) >= 0.0
    ensures
      var v := Step(w, Bill(k, commission, Commit(true, ok)));
      var l, total := PhaseOf(w, k).listing, PhaseOf(w, k).snap.total;
      var anchor := w.inbounds[l].anchor;
      var due := if total < anchor then total else total - anchor;
      Received(v.ledger, l) == Received(w.ledger, l) + Money(due, SellerRate(w.inbounds[l].price))
  {
    hide Received, CreditInbound, BillReadings, Money, SellerRate, BuyerRate;
    var l, snap := PhaseOf(w, k).listing, PhaseOf(w, k).snap;
    CreditPays(w, l, snap.total);
    ReadingsCreditNobody(CreditInbound(w, l, snap.total), l, snap.clients,
                         BuyerRate(w.inbounds[l].price, commission), PhaseOf(w, k).succeeded, l);
  }

  /** The seller's side of an applied bill: the inbound's bytes past its anchor, or all of a counter below it, are
      credited to the last byte from 512 KiB on and forgiven below; the anchor follows. */
  lemma BillSettlesInbound(w: World, k: Worker, commission: real, ok: bool)
    requires PhaseOf(w, k).ResetDone? && PhaseOf(w, k).listing < |w.inbounds|
    ensures
      var v := Step(w, Bill(k, commission, Commit(true, ok)));
      var l, total := PhaseOf(w, k).listing, PhaseOf(w, k).snap.total;
      var inb := w.inbounds[l];
      var due := if total < inb.anchor then total else total - inb.anchor;
      && l < |v.inbounds|
      && (due >= 524288 ==>
            && CreditedBytes(v.outbound, l) == CreditedBytes(w.outbound, l) + due
            && v.inbounds[l] == inb.(anchor := total))
      && (due < 524288 ==>
            && CreditedBytes(v.outbound, l) == CreditedBytes(w.outbound, l)
            && v.inbounds[l] == inb.(anchor := total, forgiven := inb.forgiven + due))
  {
    hide Step, CreditedBytes;
    BillOnInbound(w, k, commission, Commit(true, ok), PhaseOf(w, k).listing);
  }

  /** The inbound of a listing that is not billed is left alone, and so is the billed one's when the commit does not
      take effect. */
  lemma BillSparesInbounds(w: World, k: Worker, commission: real, commit: Commit, m: ListingId)
    requires m < |w.inbounds|
    requires PhaseOf(w, k).ResetDone? ==> !commit.applied || m != PhaseOf(w, k).listing
    ensures
      var v := Step(w, Bill(k, commission, commit));
      && m < |v.inbounds| && v.inbounds[m] == w.inbounds[m]
      && CreditedBytes(v.outbound, m) == CreditedBytes(w.outbound, m)
  {
    hide Step, CreditedBytes;
    BillOnInbound(w, k, commission, commit, m);
  }

  // ----- One sub-cycle -----

  /** No row was added, and no anchor, home or provisioning changed. */
  predicate NothingBilled(w: World, v: World)
  {
    && v.usage == w.usage && v.outbound == w.outbound && v.ledger == w.ledger
    && |w.inbounds| <= |v.inbounds| && |w.clients| <= |v.clients|
    && (forall l | 0 <= l < |w.inbounds| ::
          v.inbounds[l].anchor == w.inbounds[l].anchor && v.inbounds[l].provisioned == w.inbounds[l].provisioned)
    && (forall e | 0 <= e < |w.clients| ::
          v.clients[e].anchor == w.clients[e].anchor && v.clients[e].listing == w.clients[e].listing)
  }

  /** Nobody stops the config in these events. */
  predicate NotStopped(evs: seq<Event>, e: Email) { forall i | 0 <= i < |evs| :: evs[i] != SetActive(e, false) }

  lemma OutsideBillsNothing(w: World, ev: Event, e: Email)
    requires IsOutside(ev)
    ensures NothingBilled(w, Step(w, ev)) && Step(w, ev).phases == w.phases
    ensures e < |w.clients| && w.clients[e].active && ev != SetActive(e, false) ==> Step(w, ev).clients[e].active
  {
  }

  lemma {:induction false} QuietBillsNothing(w: World, evs: seq<Event>, e: Email)
    requires Quiet(evs)
    ensures NothingBilled(w, Run(w, evs)) && Run(w, evs).phases == w.phases
    ensures e < |w.clients| && w.clients[e].active && NotStopped(evs, e) ==> Run(w, evs).clients[e].active
    decreases |evs|
  {
    if evs != [] {
      OutsideBillsNothing(w, evs[0], e);
      hide Step;
      QuietBillsNothing(Step(w, evs[0]), evs[1..], e);
    }
  }

  lemma ReadShape(w: World, me: Worker, l: ListingId, emails: seq<Email>)
    requires PhaseOf(w, me).BetweenListings? && l < |w.inbounds| && w.inbounds[l].provisioned
    ensures
      var readings := Listed(w, l, emails);
      Step(w, Read(me, l, readings))
      == At(w, me, SnapshotTaken(PhaseOf(w, me).processed, l, Snapshot(w.inbounds[l].counter, readings)))
  {
    hide Listed;
  }

  lemma ResetShape(w: World, me: Worker, resetEnabled: bool, took: bool, reported: bool)
    requires PhaseOf(w, me).SnapshotTaken?
    ensures
      var p := PhaseOf(w, me);
      var v := Step(w, ResetEvent(me, resetEnabled, p.snap.clients, took, reported));
      && NothingBilled(w, v)
      && (forall e | 0 <= e < |w.clients| :: v.clients[e].active == w.clients[e].active)
      && v.phases == w.phases[me := ResetDone(p.processed, p.listing, p.snap,
                                              resetEnabled && p.snap.clients != [] && reported)]
  {
  }

  lemma Then(w: World, ev: Event, evs: seq<Event>)
    ensures Run(w, [ev] + evs) == Run(Step(w, ev), evs)
  {
    hide Step;
    assert ([ev] + evs)[1..] == evs;
  }

  lemma SubCycleUnfolds(me: Worker, resetEnabled: bool, commission: real, w: World, l: ListingId, s: SubScript)
    requires var u := Run(w, s.before); s.readOk && l < |u.inbounds| && u.inbounds[l].provisioned
    ensures
      var u := Run(w, s.before);
      var readings := Listed(u, l, s.emails);
      var reset := ResetEvent(me, resetEnabled, readings, s.resetTook, s.resetReported);
      Run(w, SubCycle(me, resetEnabled, commission, w, l, s))
      == Step(Run(Step(Run(Step(u, Read(me, l, readings)), s.gap), reset), s.pause), Bill(me, commission, s.commit))
  {
    hide Step, Run, Listed;
    var u := Run(w, s.before);
    var readings := Listed(u, l, s.emails);
    var read, reset := Read(me, l, readings), ResetEvent(me, resetEnabled, readings, s.resetTook, s.resetReported);
    var bill := Bill(me, commission, s.commit);
    assert SubCycle(me, resetEnabled, commission, w, l, s)
        == s.before + ([read] + (s.gap + ([reset] + (s.pause + [bill]))));
    RunAppends(w, s.before, [read] + (s.gap + ([reset] + (s.pause + [bill]))));
    Then(u, read, s.gap + ([reset] + (s.pause + [bill])));
    RunAppends(Step(u, read), s.gap, [reset] + (s.pause + [bill]));
    var u2 := Run(Step(u, read), s.gap);
    Then(u2, reset, s.pause + [bill]);
    RunAppends(Step(u2, reset), s.pause, [bill]);
    OneEvent(Run(Step(u2, reset), s.pause), bill, l);
  }

  /** A sub-cycle whose read succeeds ends with a bill of the snapshot as it was read: until then nothing is billed,
      and the reset counts as done only when it was tried and reported. */
  lemma SubCycleReaches(me: Worker, resetEnabled: bool, commission: real, w: World, l: ListingId, s: SubScript,
      e: Email) returns (v: World)
    requires PhaseOf(w, me).BetweenListings? && Quiet(s.before) && Quiet(s.gap) && Quiet(s.pause)
    requires s.readOk && l < |w.inbounds| && w.inbounds[l].provisioned
    ensures Run(w, SubCycle(me, resetEnabled, commission, w, l, s)) == Step(v, Bill(me, commission, s.commit))
    ensures
      var u := Run(w, s.before);
      && l < |u.inbounds|
      && var readings := Listed(u, l, s.emails);
         v.phases == w.phases[me := ResetDone(PhaseOf(w, me).processed, l, Snapshot(u.inbounds[l].counter, readings),
                                              resetEnabled && readings != [] && s.resetReported)]
    ensures NothingBilled(w, v)
    ensures e < |w.clients| && w.clients[e].active && NotStopped(s.before, e) && NotStopped(s.gap, e)
            && NotStopped(s.pause, e) ==>
              v.clients[e].active
  {
    hide Step, Run, Listed, Quiet;
    var u := Run(w, s.before);
    QuietBillsNothing(w, s.before, e);
    var readings := Listed(u, l, s.emails);
    var read, reset := Read(me, l, readings), ResetEvent(me, resetEnabled, readings, s.resetTook, s.resetReported);
    ReadShape(u, me, l, s.emails);
    var u1 := Step(u, read);
    QuietBillsNothing(u1, s.gap, e);
    var u2 := Run(u1, s.gap);
    ResetShape(u2, me, resetEnabled, s.resetTook, s.resetReported);
    var u3 := Step(u2, reset);
    QuietBillsNothing(u3, s.pause, e);
    v := Run(u3, s.pause);
    SubCycleUnfolds(me, resetEnabled, commission, w, l, s);
  }

  /** What the panel counted for an inbound past its anchor is credited, if it is 512 KiB or more, and the anchor is the
      reading. */
  predicate CreditedAt(w: World, v: World, l: ListingId, counter: nat)
  {
    && l < |w.inbounds| && l < |v.inbounds|
    && (var due := Delta(counter, w.inbounds[l].anchor);
        CreditedBytes(v.outbound, l) == CreditedBytes(w.outbound, l) + (if due >= 524288 then due else 0))
    && v.inbounds[l].anchor == counter
  }

  predicate NotCredited(w: World, v: World, l: ListingId)
  {
    && l < |w.inbounds| && l < |v.inbounds|
    && CreditedBytes(v.outbound, l) == CreditedBytes(w.outbound, l) && v.inbounds[l].anchor == w.inbounds[l].anchor
  }

  function Counter(w: World, l: ListingId): nat { if l < |w.inbounds| then w.inbounds[l].counter else 0 }

  predicate SameProvisioned(w: World, v: World)
  {
    && |w.inbounds| <= |v.inbounds|
    && forall l | 0 <= l < |w.inbounds| :: v.inbounds[l].provisioned == w.inbounds[l].provisioned
  }

  lemma NoReadNoCycle(me: Worker, resetEnabled: bool, commission: real, w: World, l: ListingId, s: SubScript)
    requires !s.readOk
    ensures SubCycle(me, resetEnabled, commission, w, l, s) == s.before
  {
    hide Run;
  }

  /** After a sub-cycle of the listing: credited is what the panel showed past the anchor at the read, if the read
      succeeded and the commit took effect, and the anchor is the reading. No other inbound is touched. */
  lemma SubCycleOnInbound(me: Worker, resetEnabled: bool, commission: real, w: World, l: ListingId, s: SubScript,
      m: ListingId)
    requires PhaseOf(w, me).BetweenListings? && Quiet(s.before) && Quiet(s.gap) && Quiet(s.pause)
    requires l < |w.inbounds| && w.inbounds[l].provisioned && m < |w.inbounds|
    ensures
      var u, v := Run(w, s.before), Run(w, SubCycle(me, resetEnabled, commission, w, l, s));
      && SameProvisioned(w, v)
      && PhaseOf(v, me)
         == BetweenListings(PhaseOf(w, me).processed + if s.readOk && s.commit.ok then {l} else {})
      && if m == l && s.readOk && s.commit.applied then CreditedAt(w, v, l, Counter(u, l)) else NotCredited(w, v, m)
  {
    hide Step, Run, Quiet, CreditedBytes, Listed, SubCycle;
    QuietBillsNothing(w, s.before, 0);
    if s.readOk {
      var v := SubCycleReaches(me, resetEnabled, commission, w, l, s, 0);
      BillPhases(v, me, commission, s.commit);
      BillOnInbound(v, me, commission, s.commit, m);
    } else {
      NoReadNoCycle(me, resetEnabled, commission, w, l, s);
    }
  }

  predicate Runs(s: SubScript, e: Email) { NotStopped(s.before, e) && NotStopped(s.gap, e) && NotStopped(s.pause, e) }

  /** The same for a client: an active config the panel lists and nobody stops is billed what the panel showed past its
      anchor at the read, and its anchor becomes zero after a reported reset and the reading otherwise. */
  lemma SubCycleOnClient(me: Worker, resetEnabled: bool, commission: real, w: World, l: ListingId, s: SubScript,
      e: Email)
    requires PhaseOf(w, me).BetweenListings? && Quiet(s.before) && Quiet(s.gap) && Quiet(s.pause)
    requires l < |w.inbounds| && w.inbounds[l].provisioned && e < |w.clients| && DistinctSnapshots(w)
    requires w.clients[e].active && Runs(s, e)
    ensures
      var u, v := Run(w, s.before), Run(w, SubCycle(me, resetEnabled, commission, w, l, s));
      && DistinctSnapshots(v) && e < |u.clients| && e < |v.clients|
      && v.clients[e].active && v.clients[e].listing == w.clients[e].listing
      && if w.clients[e].listing == l && e in s.emails && s.readOk && s.commit.applied then
           var due := Delta(u.clients[e].counter, w.clients[e].anchor);
           && BilledBytes(v.usage, e) == BilledBytes(w.usage, e) + (if due >= 524288 then due else 0)
           && v.clients[e].anchor == if resetEnabled && s.resetReported then 0 else u.clients[e].counter
         else
           && BilledBytes(v.usage, e) == BilledBytes(w.usage, e)
           && v.clients[e].anchor == w.clients[e].anchor
  {
    hide Step, Run, Quiet, BilledBytes, Listed, SubCycle;
    QuietBillsNothing(w, s.before, e);
    if s.readOk {
      var v := SubCycleReaches(me, resetEnabled, commission, w, l, s, e);
      ListedIff(Run(w, s.before), l, s.emails, e);
      assert Distinct(Listed(Run(w, s.before), l, s.emails));
      assert DistinctSnapshots(v);
      BillPhases(v, me, commission, s.commit);
      BillOnClient(v, me, commission, s.commit, e);
    } else {
      NoReadNoCycle(me, resetEnabled, commission, w, l, s);
    }
  }

  // ----- One cycle -----

  /** The listings of a cycle that count as processed. */
  function Done(ids: seq<ListingId>, s: CycleScript): set<ListingId>
  {
    set l | l in ids && s.subs(l).readOk && s.subs(l).commit.ok
  }

  predicate Ascending(ids: seq<ListingId>) { forall i, j | 0 <= i < j < |ids| :: ids[i] < ids[j] }

  predicate AllProvisioned(w: World, ids: seq<ListingId>)
  {
    forall l | l in ids :: l < |w.inbounds| && w.inbounds[l].provisioned
  }

  lemma GapsAreQuiet(s: CycleScript, l: ListingId)
    requires LoneScript(s)
    ensures Quiet(s.subs(l).before) && Quiet(s.subs(l).gap) && Quiet(s.subs(l).pause)
    ensures Quiet(s.beforeGlobal) && Quiet(s.beforeZero)
  {
  }

  lemma DoneGrows(ids: seq<ListingId>, s: CycleScript, n: nat)
    requires 0 < n <= |ids|
    ensures
      var sub := s.subs(ids[n - 1]);
      Done(ids[..n], s) == Done(ids[..n - 1], s) + if sub.readOk && sub.commit.ok then {ids[n - 1]} else {}
  {
    assert ids[..n] == ids[..n - 1] + [ids[n - 1]];
  }

  lemma StartShape(w: World, me: Worker)
    requires PhaseOf(w, me).Idle?
    ensures Run(w, [StartCycle(me)]) == At(w, me, BetweenListings({}))
  {
    OneEvent(w, StartCycle(me), 0);
    hide Run;
  }

  /** An inbound is settled once: whatever else happens before or after leaves it alone. */
  lemma CreditedOnce(w: World, b: World, v: World, l: ListingId, counter: nat)
    ensures NotCredited(w, b, l) && NotCredited(b, v, l) ==> NotCredited(w, v, l)
    ensures NotCredited(w, b, l) && CreditedAt(b, v, l, counter) ==> CreditedAt(w, v, l, counter)
    ensures CreditedAt(w, b, l, counter) && NotCredited(b, v, l) ==> CreditedAt(w, v, l, counter)
  {
  }

  /** The inbound has been credited at this counter if its turn has come, its read succeeded and its commit took effect;
      otherwise it has been left alone. */
  predicate InboundSoFar(w: World, v: World, l: ListingId, come: bool, sub: SubScript, counter: nat)
  {
    if come && sub.readOk && sub.commit.applied then CreditedAt(w, v, l, counter) else NotCredited(w, v, l)
  }

  /** The next sub-cycle, after those of the first `n` listings. */
  lemma NextOnInbound(me: Worker, resetEnabled: bool, commission: real, w: World, b: World, ids: seq<ListingId>,
      s: CycleScript, n: nat, i: nat, counter: nat)
    requires n < |ids| && i < |ids| && LoneScript(s) && Ascending(ids) && AllProvisioned(w, ids)
    requires SameProvisioned(w, b) && PhaseOf(b, me) == BetweenListings(Done(ids[..n], s))
    requires InboundSoFar(w, b, ids[i], i < n, s.subs(ids[i]), counter)
    requires i == n ==> counter == Counter(Run(b, s.subs(ids[i]).before), ids[i])
    ensures
      var v := Run(b, SubCycle(me, resetEnabled, commission, b, ids[n], s.subs(ids[n])));
      && SameProvisioned(w, v) && PhaseOf(v, me) == BetweenListings(Done(ids[..n + 1], s))
      && InboundSoFar(w, v, ids[i], i < n + 1, s.subs(ids[i]), counter)
  {
    hide Run, SubCycle, LoneScript, Quiet, CreditedAt, NotCredited, Done, CreditedBytes;
    var id := ids[n];
    assert id in ids && ids[i] in ids;
    GapsAreQuiet(s, id);
    SubCycleOnInbound(me, resetEnabled, commission, b, id, s.subs(id), ids[i]);
    DoneGrows(ids, s, n + 1);
    CreditedOnce(w, b, Run(b, SubCycle(me, resetEnabled, commission, b, id, s.subs(id))), ids[i], counter);
  }

  lemma BeforeAll(w: World, me: Worker, ids: seq<ListingId>, s: CycleScript, l: ListingId, counter: nat)
    requires PhaseOf(w, me).Idle? && l < |w.inbounds|
    ensures
      var v := Run(w, [StartCycle(me)]);
      && SameProvisioned(w, v) && PhaseOf(v, me) == BetweenListings(Done(ids[..0], s))
      && InboundSoFar(w, v, l, false, s.subs(l), counter)
  {
    StartShape(w, me);
    hide Run, CreditedBytes;
  }

  lemma {:induction false} SubCyclesOnInbound(me: Worker, resetEnabled: bool, commission: real, w: World,
      ids: seq<ListingId>, s: CycleScript, n: nat, i: nat)
    requires n <= |ids| && i < |ids| && PhaseOf(w, me).Idle? && LoneScript(s)
    requires Ascending(ids) && AllProvisioned(w, ids)
    ensures
      var l := ids[i];
      var u := Run(w, SubCycles(me, resetEnabled, commission, w, ids, s, i) + s.subs(l).before);
      var v := Run(w, SubCycles(me, resetEnabled, commission, w, ids, s, n));
      && SameProvisioned(w, v) && PhaseOf(v, me) == BetweenListings(Done(ids[..n], s))
      && InboundSoFar(w, v, l, i < n, s.subs(l), Counter(u, l))
  {
    hide Run, SubCycle, LoneScript, Done, InboundSoFar, PhaseOf, SameProvisioned, Ascending;
    var l := ids[i];
    var counter := Counter(Run(w, SubCycles(me, resetEnabled, commission, w, ids, s, i) + s.subs(l).before), l);
    assert l in ids;
    if n == 0 {
      BeforeAll(w, me, ids, s, l, counter);
    } else {
      var before, id := SubCycles(me, resetEnabled, commission, w, ids, s, n - 1), ids[n - 1];
      SubCyclesOnInbound(me, resetEnabled, commission, w, ids, s, n - 1, i);
      var b := Run(w, before);
      RunAppends(w, before, s.subs(id).before);
      NextOnInbound(me, resetEnabled, commission, w, b, ids, s, n - 1, i, counter);
      RunAppends(w, before, SubCycle(me, resetEnabled, commission, b, id, s.subs(id)));
    }
  }

  /** The events after the last sub-cycle: the global reset exactly when it is enabled and something was processed. */
  lemma CycleInParts(me: Worker, resetEnabled: bool, commission: real, w: World, s: CycleScript)
    requires PhaseOf(w, me).Idle? && LoneScript(s) && Provisioned(w.inbounds) != []
    ensures
      var ids := Provisioned(w.inbounds);
      var a := SubCycles(me, resetEnabled, commission, w, ids, s, |ids|) + s.beforeGlobal;
      var reset := resetEnabled && exists l | l in ids :: s.subs(l).readOk && s.subs(l).commit.ok;
      && PhaseOf(Run(w, a), me) == BetweenListings(Done(ids, s))
      && Cycle(me, resetEnabled, commission, w, s)
         == a + [if reset then GlobalReset(me, s.globalTook, s.globalReported) else SkipGlobalReset(me)] + s.beforeZero
            + [ZeroAnchors(me, s.zeroApplied)]
  {
    hide Run, SubCycles, CreditedBytes, Quiet, Provisioned, LoneScript;
    var ids := Provisioned(w.inbounds);
    SubCyclesOnInbound(me, resetEnabled, commission, w, ids, s, |ids|, 0);
    assert ids[..|ids|] == ids;
    GapsAreQuiet(s, 0);
    var a := SubCycles(me, resetEnabled, commission, w, ids, s, |ids|);
    QuietBillsNothing(Run(w, a), s.beforeGlobal, 0);
    RunAppends(w, a, s.beforeGlobal);
    assert Done(ids, s) != {} <==> exists l | l in ids :: s.subs(l).readOk && s.subs(l).commit.ok by {
      assert forall l | l in ids && s.subs(l).readOk && s.subs(l).commit.ok :: l in Done(ids, s);
    }
  }

  lemma GlobalShape(w: World, me: Worker, done: set<ListingId>, ev: Event)
    requires PhaseOf(w, me) == BetweenListings(done)
    requires ev == SkipGlobalReset(me) || (ev.GlobalReset? && ev.worker == me && done != {})
    ensures
      var v := Step(w, ev);
      && NothingBilled(w, v) && v.clients == w.clients
      && PhaseOf(v, me) == GlobalResetDone(done, ev.GlobalReset? && ev.reported)
  {
  }

  /** What the last steps of a cycle do: counters may be wiped and processed anchors zeroed, and nothing is billed. */
  lemma CycleTail(w: World, me: Worker, done: set<ListingId>, ev: Event, gap: seq<Event>, applied: bool)
    requires PhaseOf(w, me) == BetweenListings(done) && Quiet(gap)
    requires ev == SkipGlobalReset(me) || (ev.GlobalReset? && ev.worker == me && done != {})
    ensures
      var v := Run(w, [ev] + gap + [ZeroAnchors(me, applied)]);
      && v.usage == w.usage && v.outbound == w.outbound && v.ledger == w.ledger
      && |w.inbounds| <= |v.inbounds| && |w.clients| <= |v.clients|
      && (forall e | 0 <= e < |w.clients| :: v.clients[e].anchor == w.clients[e].anchor)
      && (forall l | 0 <= l < |w.inbounds| ::
            v.inbounds[l].anchor
            == if ev.GlobalReset? && ev.reported && applied && l in done then 0 else w.inbounds[l].anchor)
  {
    hide Run;
    GlobalShape(w, me, done, ev);
    var u := Step(w, ev);
    QuietBillsNothing(u, gap, 0);
    var x := Run(u, gap);
    hide Step;
    Then(w, ev, gap + [ZeroAnchors(me, applied)]);
    assert [ev] + gap + [ZeroAnchors(me, applied)] == [ev] + (gap + [ZeroAnchors(me, applied)]);
    RunAppends(u, gap, [ZeroAnchors(me, applied)]);
    OneEvent(x, ZeroAnchors(me, applied), 0);
    ZeroStep(x, me, applied);
  }

  /** A cycle of a worker that others leave alone credits every provisioned listing whose read succeeded and whose
      commit took effect with what the panel showed past its anchor at that read. The anchor ends at the reading, or at
      zero where the listing counted as processed and the global reset was made, reported and followed up. */
  lemma CycleSettlesInbound(me: Worker, resetEnabled: bool, commission: real, w: World, s: CycleScript, i: nat)
    requires PhaseOf(w, me).Idle? && LoneScript(s) && i < |Provisioned(w.inbounds)|
    ensures
      var ids := Provisioned(w.inbounds);
      var l, sub := ids[i], s.subs(ids[i]);
      var u := Run(w, SubCycles(me, resetEnabled, commission, w, ids, s, i) + sub.before);
      var v := Run(w, Cycle(me, resetEnabled, commission, w, s));
      var billed := sub.readOk && sub.commit.applied;
      var due := if Counter(u, l) < w.inbounds[l].anchor then Counter(u, l) else Counter(u, l) - w.inbounds[l].anchor;
      && l < |v.inbounds|
      && CreditedBytes(v.outbound, l) - CreditedBytes(w.outbound, l) == (if billed && due >= 524288 then due else 0)
      && v.inbounds[l].anchor
         == if resetEnabled && s.globalReported && s.zeroApplied && sub.readOk && sub.commit.ok then 0
            else if billed then Counter(u, l) else w.inbounds[l].anchor
  {
    hide Run, SubCycles, Cycle, CreditedBytes, Quiet, Provisioned, LoneScript;
    var ids := Provisioned(w.inbounds);
    CycleInParts(me, resetEnabled, commission, w, s);
    SubCyclesOnInbound(me, resetEnabled, commission, w, ids, s, |ids|, i);
    GapsAreQuiet(s, 0);
    var a := SubCycles(me, resetEnabled, commission, w, ids, s, |ids|);
    var b := Run(w, a + s.beforeGlobal);
    QuietBillsNothing(Run(w, a), s.beforeGlobal, 0);
    RunAppends(w, a, s.beforeGlobal);
    var reset := resetEnabled && exists l | l in ids :: s.subs(l).readOk && s.subs(l).commit.ok;
    var ev := if reset then GlobalReset(me, s.globalTook, s.globalReported) else SkipGlobalReset(me);
    assert ids[i] in ids;
    if reset {
      var l :| l in ids && s.subs(l).readOk && s.subs(l).commit.ok;
      assert l in Done(ids, s);
    }
    CycleTail(b, me, Done(ids, s), ev, s.beforeZero, s.zeroApplied);
    RunAppends(w, a + s.beforeGlobal, [ev] + s.beforeZero + [ZeroAnchors(me, s.zeroApplied)]);
    Regroup(a + s.beforeGlobal, [ev], s.beforeZero, [ZeroAnchors(me, s.zeroApplied)]);
  }

  // ----- One cycle, for a config -----

  /** What the panel counted for a client past its anchor is billed, if it is 512 KiB or more. */
  predicate BilledAt(w: World, v: World, e: Email, counter: nat, anchor: nat)
  {
    && e < |w.clients| && e < |v.clients|
    && (var due := Delta(counter, w.clients[e].anchor);
        BilledBytes(v.usage, e) == BilledBytes(w.usage, e) + (if due >= 524288 then due else 0))
    && v.clients[e].anchor == anchor
  }

  predicate NotBilled(w: World, v: World, e: Email)
  {
    && e < |w.clients| && e < |v.clients|
    && BilledBytes(v.usage, e) == BilledBytes(w.usage, e) && v.clients[e].anchor == w.clients[e].anchor
  }

  function ClientCounter(w: World, e: Email): nat { if e < |w.clients| then w.clients[e].counter else 0 }

  ghost predicate NeverStopped(s: CycleScript, e: Email)
  {
    (forall l: ListingId :: Runs(s.subs(l), e)) && NotStopped(s.beforeGlobal, e) && NotStopped(s.beforeZero, e)
  }

  /** An active config the panel is asked about, by a sub-cycle of its own listing that reads and commits. */
  predicate IsSettled(s: SubScript, e: Email) { e in s.emails && s.readOk && s.commit.applied }

  /** A config is settled once: whatever else happens before or after leaves it alone. */
  lemma BilledOnce(w: World, b: World, v: World, e: Email, counter: nat, anchor: nat)
    ensures NotBilled(w, b, e) && NotBilled(b, v, e) ==> NotBilled(w, v, e)
    ensures NotBilled(w, b, e) && BilledAt(b, v, e, counter, anchor) ==> BilledAt(w, v, e, counter, anchor)
    ensures BilledAt(w, b, e, counter, anchor) && NotBilled(b, v, e) ==> BilledAt(w, v, e, counter, anchor)
  {
  }

  /** The config has been billed at this counter if its listing's turn has come and settled it; otherwise it has been
      left alone. */
  predicate ClientSoFar(w: World, v: World, e: Email, come: bool, sub: SubScript, counter: nat, anchor: nat)
  {
    if come && IsSettled(sub, e) then BilledAt(w, v, e, counter, anchor) else NotBilled(w, v, e)
  }

  ghost predicate Stands(v: World, e: Email, l: ListingId)
  {
    DistinctSnapshots(v) && e < |v.clients| && v.clients[e].active && v.clients[e].listing == l
  }

  /** The next sub-cycle, after those of the first `n` listings. */
  lemma NextOnClient(me: Worker, resetEnabled: bool, commission: real, w: World, b: World, ids: seq<ListingId>,
      s: CycleScript, n: nat, i: nat, e: Email, counter: nat)
    requires n < |ids| && i < |ids| && LoneScript(s) && NeverStopped(s, e) && Ascending(ids) && AllProvisioned(w, ids)
    requires SameProvisioned(w, b) && PhaseOf(b, me).BetweenListings? && Stands(b, e, ids[i])
    requires
      var anchor := if resetEnabled && s.subs(ids[i]).resetReported then 0 else counter;
      ClientSoFar(w, b, e, i < n, s.subs(ids[i]), counter, anchor)
    requires i == n ==> counter == ClientCounter(Run(b, s.subs(ids[i]).before), e)
    ensures
      var v := Run(b, SubCycle(me, resetEnabled, commission, b, ids[n], s.subs(ids[n])));
      var anchor := if resetEnabled && s.subs(ids[i]).resetReported then 0 else counter;
      Stands(v, e, ids[i]) && ClientSoFar(w, v, e, i < n + 1, s.subs(ids[i]), counter, anchor)
  {
    hide Run, SubCycle, LoneScript, Quiet, BilledBytes, NotStopped;
    var id := ids[n];
    assert id in ids;
    GapsAreQuiet(s, id);
    SubCycleOnClient(me, resetEnabled, commission, b, id, s.subs(id), e);
    var anchor := if resetEnabled && s.subs(ids[i]).resetReported then 0 else counter;
    var v := Run(b, SubCycle(me, resetEnabled, commission, b, id, s.subs(id)));
    assert if i == n && IsSettled(s.subs(id), e) then BilledAt(b, v, e, counter, anchor) else NotBilled(b, v, e);
    hide BilledAt, NotBilled;
    BilledOnce(w, b, v, e, counter, anchor);
  }

  lemma BeforeAllClients(w: World, me: Worker, e: Email, l: ListingId, sub: SubScript, counter: nat, anchor: nat)
    requires PhaseOf(w, me).Idle? && Stands(w, e, l)
    ensures
      var v := Run(w, [StartCycle(me)]);
      Stands(v, e, l) && ClientSoFar(w, v, e, false, sub, counter, anchor)
  {
    StartShape(w, me);
    hide Run, BilledBytes;
  }

  lemma {:induction false} SubCyclesOnClient(me: Worker, resetEnabled: bool, commission: real, w: World,
      ids: seq<ListingId>, s: CycleScript, n: nat, i: nat, e: Email)
    requires n <= |ids| && i < |ids| && PhaseOf(w, me).Idle? && LoneScript(s) && NeverStopped(s, e)
    requires Ascending(ids) && AllProvisioned(w, ids) && Stands(w, e, ids[i])
    ensures
      var sub := s.subs(ids[i]);
      var counter := ClientCounter(Run(w, SubCycles(me, resetEnabled, commission, w, ids, s, i) + sub.before), e);
      var anchor := if resetEnabled && sub.resetReported then 0 else counter;
      var v := Run(w, SubCycles(me, resetEnabled, commission, w, ids, s, n));
      Stands(v, e, ids[i]) && ClientSoFar(w, v, e, i < n, sub, counter, anchor)
  {
    hide Run, SubCycle, LoneScript, Done, ClientSoFar, SameProvisioned, Ascending, Stands, NeverStopped, InboundSoFar;
    var l := ids[i];
    var counter := ClientCounter(Run(w, SubCycles(me, resetEnabled, commission, w, ids, s, i) + s.subs(l).before), e);
    if n == 0 {
      BeforeAllClients(w, me, e, l, s.subs(l), counter, if resetEnabled && s.subs(l).resetReported then 0 else counter);
    } else {
      var before, id := SubCycles(me, resetEnabled, commission, w, ids, s, n - 1), ids[n - 1];
      SubCyclesOnClient(me, resetEnabled, commission, w, ids, s, n - 1, i, e);
      SubCyclesOnInbound(me, resetEnabled, commission, w, ids, s, n - 1, i);
      var b := Run(w, before);
      RunAppends(w, before, s.subs(id).before);
      NextOnClient(me, resetEnabled, commission, w, b, ids, s, n - 1, i, e, counter);
      RunAppends(w, before, SubCycle(me, resetEnabled, commission, b, id, s.subs(id)));
    }
  }

  /** A cycle of a worker that others leave alone bills an active config nobody stops what the panel showed past its
      anchor at the read of its listing, provided the panel listed it, the read succeeded and the commit took effect.
      Its anchor is then zero if the clients' reset was made and reported, and the reading otherwise. */
  lemma CycleSettlesClient(me: Worker, resetEnabled: bool, commission: real, w: World, s: CycleScript, i: nat, e: Email)
    requires PhaseOf(w, me).Idle? && LoneScript(s) && NeverStopped(s, e) && DistinctSnapshots(w)
    requires i < |Provisioned(w.inbounds)|
    requires e < |w.clients| && w.clients[e].active && w.clients[e].listing == Provisioned(w.inbounds)[i]
    ensures
      var ids := Provisioned(w.inbounds);
      var sub := s.subs(ids[i]);
      var u := Run(w, SubCycles(me, resetEnabled, commission, w, ids, s, i) + sub.before);
      var v := Run(w, Cycle(me, resetEnabled, commission, w, s));
      var anchor, counter := w.clients[e].anchor, ClientCounter(u, e);
      var due := if counter < anchor then counter else counter - anchor;
      var billed := e in sub.emails && sub.readOk && sub.commit.applied;
      && e < |v.clients|
      && BilledBytes(v.usage, e) - BilledBytes(w.usage, e) == (if billed && due >= 524288 then due else 0)
      && v.clients[e].anchor
         == if !billed then anchor else if resetEnabled && sub.resetReported then 0 else counter
  {
    hide Run, SubCycles, Cycle, BilledBytes, Quiet, Provisioned, LoneScript, NotStopped;
    var ids := Provisioned(w.inbounds);
    CycleInParts(me, resetEnabled, commission, w, s);
    SubCyclesOnClient(me, resetEnabled, commission, w, ids, s, |ids|, i, e);
    GapsAreQuiet(s, 0);
    var a := SubCycles(me, resetEnabled, commission, w, ids, s, |ids|);
    var b := Run(w, a + s.beforeGlobal);
    QuietBillsNothing(Run(w, a), s.beforeGlobal, 0);
    RunAppends(w, a, s.beforeGlobal);
    var reset := resetEnabled && exists l | l in ids :: s.subs(l).readOk && s.subs(l).commit.ok;
    var ev := if reset then GlobalReset(me, s.globalTook, s.globalReported) else SkipGlobalReset(me);
    if reset {
      var l :| l in ids && s.subs(l).readOk && s.subs(l).commit.ok;
      assert l in Done(ids, s);
    }
    CycleTail(b, me, Done(ids, s), ev, s.beforeZero, s.zeroApplied);
    RunAppends(w, a + s.beforeGlobal, [ev] + s.beforeZero + [ZeroAnchors(me, s.zeroApplied)]);
    Regroup(a + s.beforeGlobal, [ev], s.beforeZero, [ZeroAnchors(me, s.zeroApplied)]);
  }
}
