/** Where every byte of an inbound went: credited, forgiven, lost in a global reset, or still to be read; and what
    a global reset costs a listing that was not processed in its cycle.
*/
module InboundConservation {
  import opened BillingMath
  import opened Metering
  import opened MeteringSafety
  import opened SellerSafety
  import opened ByteConservation

  /** Bytes of an inbound with a known end: credited, forgiven or lost. */
  function SettledInbound(inb: Inbound, credited: nat): nat { credited + inb.forgiven + inb.lost }

  /** The counter is wiped and the anchor about to be zeroed. */
  predicate Wiped(phase: Phase, m: ListingId)
  {
    phase.GlobalResetDone? && phase.succeeded && m in phase.processed
  }

  ghost predicate AwaitsZero(w: World, m: ListingId) { exists k | k in w.phases :: Wiped(w.phases[k], m) }

  /** Exactly `held` bytes wait to be credited: those past the anchor, or all that the counter shows while the anchor
      is about to follow a reset. */
  ghost predicate HoldsInbound(w: World, m: ListingId, held: int)
    requires m < |w.inbounds|
  {
    var inb := w.inbounds[m];
    && (if AwaitsZero(w, m) then held == inb.counter else inb.anchor <= inb.counter && held == inb.counter - inb.anchor)
    && (forall k | k in w.phases && InSubCycle(w.phases[k], m) :: inb.anchor <= w.phases[k].snap.total <= inb.counter)
  }

  ghost predicate ExactInbound(w: World, m: ListingId, gap: int)
  {
    && m < |w.inbounds|
    && HoldsInbound(w, m, w.inbounds[m].moved - SettledInbound(w.inbounds[m], CreditedBytes(w.outbound, m)) - gap)
  }

  /** Nothing goes wrong for this inbound: global resets do what they report and come only after it was processed,
      the anchor then follows, no worker dies in between, and no operator resets it. Commits may fail. */
  predicate CleanInbound(w: World, ev: Event, m: ListingId)
  {
    match ev
    case OperatorReset(l) => l != m
    case GlobalReset(k, took, reported) =>
      took == reported && (took && PhaseOf(w, k).BetweenListings? ==> m in PhaseOf(w, k).processed)
    case ZeroAnchors(k, applied) => Wiped(PhaseOf(w, k), m) ==> applied
    case Crash(k) => !Wiped(PhaseOf(w, k), m)
    case _ => true
  }

  lemma OutsideKeepsExactInbound(w: World, ev: Event, m: ListingId, gap: int)
    requires ExactInbound(w, m, gap) && CleanInbound(w, ev, m) && IsOutside(ev)
    ensures ExactInbound(Step(w, ev), m, gap)
  {
    OutsideOnInbound(w, ev, m);
    assert ev != OperatorReset(m);
    hide Step, Carried, InSubCycle, Wiped;
    assert AwaitsZero(Step(w, ev), m) == AwaitsZero(w, m);
  }

  /** With one cycle at a time, nobody else is in the way of the worker that acts. */
  lemma OthersAreIdle(w: World, k: Worker, m: ListingId)
    requires OneCycle(w) && !PhaseOf(w, k).Idle?
    ensures forall j | j in w.phases && j != k :: !Wiped(w.phases[j], m) && !InSubCycle(w.phases[j], m)
    ensures AwaitsZero(w, m) <==> Wiped(PhaseOf(w, k), m)
  {
    assert k in w.phases;
  }

  lemma BillKeepsExactInbound(w: World, k: Worker, commission: real, commit: Commit, m: ListingId, gap: int)
    requires ExactInbound(w, m, gap) && OneCycle(w)
    ensures ExactInbound(Step(w, Bill(k, commission, commit)), m, gap)
  {
    var v := Step(w, Bill(k, commission, commit));
    BillPhases(w, k, commission, commit);
    BillOnInbound(w, k, commission, commit, m);
    if PhaseOf(w, k).ResetDone? {
      OthersAreIdle(w, k, m);
      hide Step;
      assert !AwaitsZero(v, m);
    }
  }

  lemma GlobalStepKeepsExactInbound(w: World, ev: Event, m: ListingId, gap: int)
    requires ev.GlobalReset? || ev.SkipGlobalReset? || ev.ZeroAnchors?
    requires ExactInbound(w, m, gap) && OneCycle(w) && CleanInbound(w, ev, m)
    ensures ExactInbound(Step(w, ev), m, gap)
  {
    var k, v := ev.worker, Step(w, ev);
    assert v.outbound == w.outbound;
    if !PhaseOf(w, k).Idle? {
      OthersAreIdle(w, k, m);
      if k in v.phases && Wiped(v.phases[k], m) {
        assert AwaitsZero(v, m);
      } else {
        assert !AwaitsZero(v, m);
      }
    }
  }

  /** A worker's steps within its listings touch no inbound and only its own phase; a snapshot they put in hand
      shows the counter as it is. */
  lemma PollStepShape(w: World, ev: Event, m: ListingId)
    requires ev.StartCycle? || ev.Read? || ev.ResetClients? || ev.SkipReset? || ev.Crash?
    requires m < |w.inbounds| && CleanInbound(w, ev, m)
    ensures
      var v, k := Step(w, ev), ev.worker;
      var now, was := PhaseOf(v, k), PhaseOf(w, k);
      && v.inbounds == w.inbounds && v.outbound == w.outbound
      && (v.phases == w.phases || v.phases == w.phases[k := now])
      && Wiped(now, m) == Wiped(was, m)
      && (InSubCycle(now, m) ==>
            (InSubCycle(was, m) && now.snap == was.snap)
            || (was.BetweenListings? && now.snap.total == w.inbounds[m].counter))
  {
  }

  lemma PollStepKeepsExactInbound(w: World, ev: Event, m: ListingId, gap: int)
    requires ev.StartCycle? || ev.Read? || ev.ResetClients? || ev.SkipReset? || ev.Crash?
    requires ExactInbound(w, m, gap) && OneCycle(w) && CleanInbound(w, ev, m)
    ensures ExactInbound(Step(w, ev), m, gap)
  {
    var k, v := ev.worker, Step(w, ev);
    PollStepShape(w, ev, m);
    if PhaseOf(w, k).BetweenListings? {
      OthersAreIdle(w, k, m);
    }
    hide Step;
    assert AwaitsZero(v, m) == AwaitsZero(w, m) by {
      if AwaitsZero(w, m) {
        var j :| j in w.phases && Wiped(w.phases[j], m);
        assert Wiped(v.phases[j], m);
      }
      if AwaitsZero(v, m) {
        var j :| j in v.phases && Wiped(v.phases[j], m);
        assert Wiped(w.phases[j], m);
      }
    }
  }

  lemma StepKeepsExactInbound(w: World, ev: Event, m: ListingId, gap: int)
    requires ExactInbound(w, m, gap) && OneCycle(w) && CleanInbound(w, ev, m)
    ensures ExactInbound(Step(w, ev), m, gap)
  {
    if IsOutside(ev) {
      OutsideKeepsExactInbound(w, ev, m, gap);
    } else if ev.Bill? {
      BillKeepsExactInbound(w, ev.worker, ev.commission, ev.commit, m, gap);
    } else if ev.GlobalReset? || ev.SkipGlobalReset? || ev.ZeroAnchors? {
      GlobalStepKeepsExactInbound(w, ev, m, gap);
    } else {
      PollStepKeepsExactInbound(w, ev, m, gap);
    }
  }

  ghost predicate CleanInboundRun(w: World, evs: seq<Event>, m: ListingId)
    decreases |evs|
  {
    OneCycle(w) && (evs == [] || (CleanInbound(w, evs[0], m) && CleanInboundRun(Step(w, evs[0]), evs[1..], m)))
  }

  lemma {:induction false} RunKeepsExactInbound(w: World, evs: seq<Event>, m: ListingId, gap: int)
    requires ExactInbound(w, m, gap) && CleanInboundRun(w, evs, m)
    ensures ExactInbound(Run(w, evs), m, gap)
    decreases |evs|
  {
    hide Step, ExactInbound, OneCycle, CleanInbound;
    if evs != [] {
      StepKeepsExactInbound(w, evs[0], m, gap);
      RunKeepsExactInbound(Step(w, evs[0]), evs[1..], m, gap);
    }
  }

  /** In a clean run what the inbound carries, plus what waited at the start, is what was credited, forgiven and lost
      plus what waits at the end. */
  lemma InboundConserved(w: World, evs: seq<Event>, m: ListingId)
    requires m < |w.inbounds| && w.inbounds[m].anchor <= w.inbounds[m].counter
    requires (forall k | k in w.phases :: !InHand(w.phases[k], m)) && CleanInboundRun(w, evs, m)
    ensures
      var v := Run(w, evs);
      && m < |v.inbounds|
      && var i0, i := w.inbounds[m], v.inbounds[m];
         HoldsInbound(v, m, (i.moved - i0.moved) + (i0.counter - i0.anchor)
                            - (SettledInbound(i, CreditedBytes(v.outbound, m))
                               - SettledInbound(i0, CreditedBytes(w.outbound, m))))
  {
    var i0 := w.inbounds[m];
    RunKeepsExactInbound(w, evs, m,
      i0.moved - SettledInbound(i0, CreditedBytes(w.outbound, m)) - (i0.counter - i0.anchor));
  }

  lemma {:induction false} RunKeepsKnownListings(w: World, evs: seq<Event>)
    requires KnownListings(w)
    ensures KnownListings(Run(w, evs))
    decreases |evs|
  {
    hide Step, KnownListings;
    if evs != [] {
      StepKeepsKnownListings(w, evs[0]);
      RunKeepsKnownListings(Step(w, evs[0]), evs[1..]);
    }
  }

  /** A listing added at any moment of any run from the start: as long as nothing goes wrong for it, carried =
      credited + forgiven + lost + (counter - anchor), or the counter alone between a global reset and its anchors. */
  lemma NewListingConserved(before: seq<Event>, price: real, after: seq<Event>)
    requires CleanInboundRun(Step(Run(EMPTY, before), AddListing(price)), after, |Run(EMPTY, before).inbounds|)
    ensures
      var m := |Run(EMPTY, before).inbounds|;
      var v := Run(Step(Run(EMPTY, before), AddListing(price)), after);
      && m < |v.inbounds|
      && HoldsInbound(v, m, v.inbounds[m].moved - SettledInbound(v.inbounds[m], CreditedBytes(v.outbound, m)))
  {
    var w, m := Run(EMPTY, before), |Run(EMPTY, before).inbounds|;
    RunKeepsKnownListings(EMPTY, before);
    var u := Step(w, AddListing(price));
    assert u.inbounds[m] == Inbound(price, true, false, 0, 0, 0, 0, 0);
    assert u.outbound == w.outbound && u.phases == w.phases;
    InboundConserved(u, after, m);
  }

  lemma StepForgivesInbound(w: World, ev: Event, m: ListingId)
    requires m < |w.inbounds|
    ensures
      var v := Step(w, ev);
      && m < |v.inbounds|
      && v.inbounds[m].forgiven <= w.inbounds[m].forgiven + if BillsHome(w, ev, m) then MIN_BILLABLE - 1 else 0
  {
    if ev.Bill? {
      BillOnInbound(w, ev.worker, ev.commission, ev.commit, m);
    } else if IsOutside(ev) {
      OutsideOnInbound(w, ev, m);
    }
  }

  /** n bills of a listing forgive its seller less than the billable minimum each, whatever goes wrong. */
  lemma {:induction false} SellerForgivenessBound(w: World, evs: seq<Event>, m: ListingId)
    requires m < |w.inbounds|
    ensures
      var v := Run(w, evs);
      && m < |v.inbounds|
      && v.inbounds[m].forgiven <= w.inbounds[m].forgiven + HomeBills(w, evs, m) * (MIN_BILLABLE - 1)
    decreases |evs|
  {
    hide Step, BillsHome;
    if evs != [] {
      StepForgivesInbound(w, evs[0], m);
      SellerForgivenessBound(Step(w, evs[0]), evs[1..], m);
    }
  }

  // ----- A listing that failed in its cycle -----

  /** Only traffic and unrelated changes reach the inbound. */
  predicate Undisturbed(evs: seq<Event>, m: ListingId)
  {
    forall i | 0 <= i < |evs| :: IsOutside(evs[i]) && evs[i] != OperatorReset(m)
  }

  lemma {:induction false} UndisturbedGrows(w: World, evs: seq<Event>, m: ListingId)
    requires m < |w.inbounds| && Undisturbed(evs, m)
    ensures
      var v := Run(w, evs);
      && v.outbound == w.outbound && v.phases == w.phases && m < |v.inbounds|
      && var i0, i := w.inbounds[m], v.inbounds[m];
         && i.anchor == i0.anchor && i.forgiven == i0.forgiven && i.lost == i0.lost
         && i.moved >= i0.moved && i.counter - i0.counter == i.moved - i0.moved
    decreases |evs|
  {
    if evs != [] {
      OutsideOnInbound(w, evs[0], m);
      hide Step, Carried;
      UndisturbedGrows(Step(w, evs[0]), evs[1..], m);
    }
  }

  lemma ResetWipes(w: World, k: Worker, reported: bool, m: ListingId)
    requires m < |w.inbounds| && PhaseOf(w, k).BetweenListings? && PhaseOf(w, k).processed != {}
    ensures
      var v := Step(w, GlobalReset(k, true, reported));
      && v.inbounds == WipeInbounds(w.inbounds) && v.outbound == w.outbound
      && PhaseOf(v, k) == GlobalResetDone(PhaseOf(w, k).processed, reported)
  {
  }

  /** The anchor follows a reset that took effect exactly when the reset also reported success, the commit took
      effect and the listing was processed. */
  predicate AnchorFollows(processed: set<ListingId>, reported: bool, applied: bool, m: ListingId)
  {
    reported && applied && m in processed
  }

  lemma ZeroLeaves(w: World, k: Worker, applied: bool, m: ListingId)
    requires m < |w.inbounds| && PhaseOf(w, k).GlobalResetDone?
    requires !AnchorFollows(PhaseOf(w, k).processed, PhaseOf(w, k).succeeded, applied, m)
    ensures
      var v := Step(w, ZeroAnchors(k, applied));
      && |v.inbounds| == |w.inbounds| && v.inbounds[m] == w.inbounds[m] && v.outbound == w.outbound
  {
  }

  /** What a global reset that took effect costs a seller whose anchor does not follow it: because the listing was not
      processed in that cycle, or because the reset was reported as failed, or because the anchors' commit was lost.
      The bytes past the anchor are lost with the counter at once. The anchor stays, so if the inbound carries at
      least its anchor again before the next reading, that reading settles the anchor's worth too little, and
      otherwise all of it. */
  lemma StaleAnchorPays(w: World, k: Worker, reported: bool, gap: seq<Event>, applied: bool, evs: seq<Event>,
      m: ListingId)
    requires m < |w.inbounds| && PhaseOf(w, k).BetweenListings? && PhaseOf(w, k).processed != {}
    requires !AnchorFollows(PhaseOf(w, k).processed, reported, applied, m)
    requires Undisturbed(gap, m) && Undisturbed(evs, m)
    ensures
      var reset := Run(Step(w, GlobalReset(k, true, reported)), gap);
      var v := Run(Step(reset, ZeroAnchors(k, applied)), evs);
      && m < |v.inbounds| && CreditedBytes(v.outbound, m) == CreditedBytes(w.outbound, m)
      && var i0, i := w.inbounds[m], v.inbounds[m];
         var carried := i.moved - i0.moved;
         && i.lost == i0.lost + Delta(i0.counter, i0.anchor) && i.anchor == i0.anchor && i.counter == carried
         && Delta(i.counter, i.anchor) == carried - if carried >= i0.anchor then i0.anchor else 0
  {
    ResetWipes(w, k, reported, m);
    var wiped := Step(w, GlobalReset(k, true, reported));
    UndisturbedGrows(wiped, gap, m);
    var reset := Run(wiped, gap);
    ZeroLeaves(reset, k, applied, m);
    UndisturbedGrows(Step(reset, ZeroAnchors(k, applied)), evs, m);
    hide Run, Step;
  }

  /** The listing that failed in its cycle, after a reset that went well for the others. */
  lemma FailedListingPays(w: World, k: Worker, gap: seq<Event>, applied: bool, evs: seq<Event>, m: ListingId)
    requires m < |w.inbounds| && PhaseOf(w, k).BetweenListings?
    requires PhaseOf(w, k).processed != {} && m !in PhaseOf(w, k).processed
    requires Undisturbed(gap, m) && Undisturbed(evs, m)
    ensures
      var reset := Run(Step(w, GlobalReset(k, true, true)), gap);
      var v := Run(Step(reset, ZeroAnchors(k, applied)), evs);
      && m < |v.inbounds| && CreditedBytes(v.outbound, m) == CreditedBytes(w.outbound, m)
      && var i0, i := w.inbounds[m], v.inbounds[m];
         var carried := i.moved - i0.moved;
         && i.lost == i0.lost + Delta(i0.counter, i0.anchor) && i.anchor == i0.anchor && i.counter == carried
         && Delta(i.counter, i.anchor) == carried - if carried >= i0.anchor then i0.anchor else 0
  {
    StaleAnchorPays(w, k, true, gap, applied, evs, m);
  }
}
