/** The seller is never credited for more bytes than the inbound carried.

    One global reset zeroes every inbound's counter, while only the listings billed in the cycle
    have their anchors zeroed afterwards, and possibly not even those.
*/
module SellerSafety {
  import opened BillingMath
  import opened Metering
  import opened MeteringSafety

  predicate InboundCovered(inb: Inbound, credited: nat)
  {
    credited + Delta(inb.counter, inb.anchor) <= inb.moved
  }

  /** A snapshot in flight, or an anchor about to be zeroed, cannot credit more than was carried. */
  predicate InboundPhaseCovered(inb: Inbound, credited: nat, l: ListingId, phase: Phase)
  {
    && (InSubCycle(phase, l) ==>
          credited + Delta(phase.snap.total, inb.anchor) + Delta(inb.counter, phase.snap.total) <= inb.moved)
    && (phase.GlobalResetDone? && phase.succeeded && l in phase.processed ==>
          credited + inb.counter <= inb.moved)
  }

  ghost predicate InboundSafe(w: World, l: ListingId)
  {
    && l < |w.inbounds|
    && InboundCovered(w.inbounds[l], CreditedBytes(w.outbound, l))
    && (forall k | k in w.phases :: InboundPhaseCovered(w.inbounds[l], CreditedBytes(w.outbound, l), l, w.phases[k]))
  }

  /** At most one worker is inside a poll cycle. */
  ghost predicate OneCycle(w: World)
  {
    forall j, k | j in w.phases && k in w.phases && !w.phases[j].Idle? && !w.phases[k].Idle? :: j == k
  }

  lemma CreditOnInbound(w: World, l: ListingId, total: nat, m: ListingId)
    requires l < |w.inbounds| && m < |w.inbounds|
    ensures
      var v, billable := CreditInbound(w, l, total), Billable(Delta(total, w.inbounds[l].anchor));
      && |v.inbounds| == |w.inbounds|
      && v.inbounds[m] == (if m == l then AdvanceInbound(w.inbounds[l], total) else w.inbounds[m])
      && CreditedBytes(v.outbound, m) == CreditedBytes(w.outbound, m) + if m == l then billable else 0
  {
    var inb := w.inbounds[l];
    var bytes := Billable(Delta(total, inb.anchor));
    if bytes > 0 {
      var row := OutboundUsage(l, bytes, GbUnits(bytes), Charge(bytes, SellerRate(inb.price)));
      assert (w.outbound + [row])[..|w.outbound|] == w.outbound;
    }
  }

  lemma BillOnInbound(w: World, k: Worker, commission: real, commit: Commit, m: ListingId)
    requires m < |w.inbounds|
    ensures
      var v, phase := Step(w, Bill(k, commission, commit)), PhaseOf(w, k);
      && |v.inbounds| == |w.inbounds|
      && if phase.ResetDone? && phase.listing == m && commit.applied then
           && v.inbounds[m] == AdvanceInbound(w.inbounds[m], phase.snap.total)
           && CreditedBytes(v.outbound, m)
              == CreditedBytes(w.outbound, m) + Billable(Delta(phase.snap.total, w.inbounds[m].anchor))
         else v.inbounds[m] == w.inbounds[m] && CreditedBytes(v.outbound, m) == CreditedBytes(w.outbound, m)
  {
    var phase := PhaseOf(w, k);
    if phase.ResetDone? && phase.listing < |w.inbounds| && commit.applied {
      CreditOnInbound(w, phase.listing, phase.snap.total, m);
      BillReadingsFrame(CreditInbound(w, phase.listing, phase.snap.total), phase.listing, phase.snap.clients,
                        BuyerRate(w.inbounds[phase.listing].price, commission), phase.succeeded);
    }
  }

  lemma BillKeepsInboundSafe(w: World, k: Worker, commission: real, commit: Commit, m: ListingId)
    requires InboundSafe(w, m) && OneCycle(w)
    ensures InboundSafe(Step(w, Bill(k, commission, commit)), m)
  {
    BillPhases(w, k, commission, commit);
    BillOnInbound(w, k, commission, commit, m);
    assert PhaseOf(w, k).ResetDone? ==> forall j | j in w.phases && j != k :: w.phases[j].Idle?;
  }

  lemma GlobalStepKeepsInboundSafe(w: World, ev: Event, m: ListingId)
    requires ev.GlobalReset? || ev.SkipGlobalReset? || ev.ZeroAnchors?
    requires InboundSafe(w, m) && OneCycle(w) && HonestReset(ev)
    ensures InboundSafe(Step(w, ev), m)
  {
    assert Step(w, ev).outbound == w.outbound;
    assert !PhaseOf(w, ev.worker).Idle? ==> forall j | j in w.phases && j != ev.worker :: w.phases[j].Idle?;
  }

  lemma PollStepKeepsInboundSafe(w: World, ev: Event, m: ListingId)
    requires ev.StartCycle? || ev.Read? || ev.ResetClients? || ev.SkipReset? || ev.Crash?
    requires InboundSafe(w, m)
    ensures InboundSafe(Step(w, ev), m)
  {
    assert Step(w, ev).outbound == w.outbound && Step(w, ev).inbounds == w.inbounds;
  }

  /** Bytes this event brings the inbound: its clients' traffic and any other. */
  function Carried(w: World, ev: Event, m: ListingId): nat
  {
    if ev.Traffic? && ev.email < |w.clients| && w.clients[ev.email].listing == m then ev.bytes
    else if ev.OtherTraffic? && ev.listing == m then ev.bytes
    else 0
  }

  function Grown(inb: Inbound, n: nat): Inbound { inb.(counter := inb.counter + n, moved := inb.moved + n) }

  /** From outside, an inbound's figures change only by traffic or by an operator's reset. */
  lemma OutsideOnInbound(w: World, ev: Event, m: ListingId)
    requires m < |w.inbounds| && IsOutside(ev)
    ensures
      var v := Step(w, ev);
      && v.outbound == w.outbound && v.phases == w.phases && |w.inbounds| <= |v.inbounds|
      && var inb := w.inbounds[m].(price := v.inbounds[m].price, deleted := v.inbounds[m].deleted);
         v.inbounds[m] == if ev == OperatorReset(m) then WipeInbound(inb) else Grown(inb, Carried(w, ev, m))
  {
  }

  lemma OutsideKeepsInboundSafe(w: World, ev: Event, m: ListingId)
    requires InboundSafe(w, m) && IsOutside(ev)
    ensures InboundSafe(Step(w, ev), m)
  {
    OutsideOnInbound(w, ev, m);
    hide Step, Carried, InSubCycle;
  }

  lemma StepKeepsInboundSafe(w: World, ev: Event, m: ListingId)
    requires InboundSafe(w, m) && OneCycle(w) && HonestReset(ev)
    ensures InboundSafe(Step(w, ev), m)
  {
    if IsOutside(ev) {
      OutsideKeepsInboundSafe(w, ev, m);
    } else if ev.Bill? {
      BillKeepsInboundSafe(w, ev.worker, ev.commission, ev.commit, m);
    } else if ev.GlobalReset? || ev.SkipGlobalReset? || ev.ZeroAnchors? {
      GlobalStepKeepsInboundSafe(w, ev, m);
    } else {
      PollStepKeepsInboundSafe(w, ev, m);
    }
  }

  /** Whole cycles never overlap, and resets are honest, all along the run. */
  ghost predicate SellerAssumptions(w: World, evs: seq<Event>)
    decreases |evs|
  {
    OneCycle(w) && (evs == [] || (HonestReset(evs[0]) && SellerAssumptions(Step(w, evs[0]), evs[1..])))
  }

  lemma {:induction false} RunKeepsInboundSafe(w: World, evs: seq<Event>, m: ListingId)
    requires InboundSafe(w, m) && SellerAssumptions(w, evs)
    ensures InboundSafe(Run(w, evs), m)
    decreases |evs|
  {
    if evs == [] {
    } else {
      StepKeepsInboundSafe(w, evs[0], m);
      RunKeepsInboundSafe(Step(w, evs[0]), evs[1..], m);
    }
  }

  predicate InHand(phase: Phase, l: ListingId) { InSubCycle(phase, l) || (!phase.Idle? && l in phase.processed) }

  /** An inbound no poll has credited and none has in hand. Cycles may well be under way. */
  ghost predicate UntouchedInbound(w: World, l: ListingId)
  {
    && l < |w.inbounds|
    && w.inbounds[l].anchor == 0 && w.inbounds[l].counter <= w.inbounds[l].moved
    && CreditedBytes(w.outbound, l) == 0
    && (forall k | k in w.phases :: !InHand(w.phases[k], l))
  }

  /** The seller is never credited for more bytes than the inbound carried. */
  lemma SellerNeverOvercredited(w: World, evs: seq<Event>, l: ListingId)
    requires UntouchedInbound(w, l) && SellerAssumptions(w, evs)
    ensures
      var v := Run(w, evs);
      l < |v.inbounds| && CreditedBytes(v.outbound, l) <= v.inbounds[l].moved
  {
    RunKeepsInboundSafe(w, evs, l);
  }

  // ----- From the empty world -----

  /** Workers and usage rows name only listings that exist. */
  ghost predicate KnownListings(w: World)
  {
    && (forall k, l: ListingId | k in w.phases && l >= |w.inbounds| :: !InHand(w.phases[k], l))
    && (forall l: ListingId | l >= |w.inbounds| :: CreditedBytes(w.outbound, l) == 0)
  }

  /** A worker takes a listing in hand only by reading it. */
  lemma HandsFill(w: World, ev: Event, k: Worker, l: ListingId)
    requires k in Step(w, ev).phases && InHand(Step(w, ev).phases[k], l) && l >= |w.inbounds|
    ensures k in w.phases && InHand(w.phases[k], l)
  {
    if ev.Bill? {
      BillPhases(w, ev.worker, ev.commission, ev.commit);
    }
  }

  lemma CreditsKnown(w: World, ev: Event, l: ListingId)
    requires l >= |w.inbounds|
    ensures CreditedBytes(Step(w, ev).outbound, l) == CreditedBytes(w.outbound, l)
  {
    if ev.Bill? {
      BillPhases(w, ev.worker, ev.commission, ev.commit);
      var phase := PhaseOf(w, ev.worker);
      if phase.ResetDone? && phase.listing < |w.inbounds| && ev.commit.applied {
        BillReadingsFrame(CreditInbound(w, phase.listing, phase.snap.total), phase.listing, phase.snap.clients,
                          BuyerRate(w.inbounds[phase.listing].price, ev.commission), phase.succeeded);
        var bytes := Billable(Delta(phase.snap.total, w.inbounds[phase.listing].anchor));
        var row := OutboundUsage(phase.listing, bytes, GbUnits(bytes),
                                 Charge(bytes, SellerRate(w.inbounds[phase.listing].price)));
        assert (w.outbound + [row])[..|w.outbound|] == w.outbound;
      }
    } else {
      assert Step(w, ev).outbound == w.outbound;
    }
  }

  lemma ListingsStay(w: World, ev: Event)
    ensures |w.inbounds| <= |Step(w, ev).inbounds|
    ensures !ev.AddListing? ==> |Step(w, ev).inbounds| == |w.inbounds|
  {
    if ev.Bill? {
      BillPhases(w, ev.worker, ev.commission, ev.commit);
    }
  }

  lemma StepKeepsKnownListings(w: World, ev: Event)
    requires KnownListings(w)
    ensures KnownListings(Step(w, ev))
  {
    hide Step, InHand;
    var v := Step(w, ev);
    forall l: ListingId | l >= |v.inbounds|
      ensures CreditedBytes(v.outbound, l) == 0
    {
      ListingsStay(w, ev);
      CreditsKnown(w, ev, l);
    }
    forall k, l: ListingId | k in v.phases && l >= |v.inbounds|
      ensures !InHand(v.phases[k], l)
    {
      ListingsStay(w, ev);
      if InHand(v.phases[k], l) {
        HandsFill(w, ev, k, l);
        assert false;
      }
    }
  }

  /** An inbound that a step adds is untouched, whatever is under way. */
  lemma NewInboundIsUntouched(w: World, ev: Event, l: ListingId)
    requires KnownListings(w) && |w.inbounds| <= l < |Step(w, ev).inbounds|
    ensures UntouchedInbound(Step(w, ev), l)
  {
    ListingsStay(w, ev);
  }

  lemma {:induction false} NobodyOvercredited(w: World, evs: seq<Event>, l: ListingId)
    requires KnownListings(w) && l >= |w.inbounds| && SellerAssumptions(w, evs) && l < |Run(w, evs).inbounds|
    ensures CreditedBytes(Run(w, evs).outbound, l) <= Run(w, evs).inbounds[l].moved
    decreases |evs|
  {
    hide Step, KnownListings, UntouchedInbound;
    var v := Step(w, evs[0]);
    StepKeepsKnownListings(w, evs[0]);
    if l < |v.inbounds| {
      NewInboundIsUntouched(w, evs[0], l);
      SellerNeverOvercredited(v, evs[1..], l);
    } else {
      NobodyOvercredited(v, evs[1..], l);
    }
  }

  /** In every run from the start whose cycles stay apart no seller is credited for more bytes than the inbound
      carried, whenever the listing was added. */
  lemma NobodyOvercreditedFromStart(evs: seq<Event>, l: ListingId)
    requires SellerAssumptions(EMPTY, evs) && l < |Run(EMPTY, evs).inbounds|
    ensures CreditedBytes(Run(EMPTY, evs).outbound, l) <= Run(EMPTY, evs).inbounds[l].moved
  {
    NobodyOvercredited(EMPTY, evs, l);
  }
}
