/** Nobody is billed for bytes that did not move, and no byte goes unaccounted for.

    Each theorem follows one client or one inbound through a whole run: an invariant that says how
    much may still be billed from where every worker stands, kept by every step.
*/
module MeteringSafety {
  import opened BillingMath
  import opened Common
  import opened Metering

  // ----- What one billing pass does to one client -----

  lemma {:induction false} BillReadingsFrame(w: World, l: ListingId, readings: seq<Reading>, rate: real, reset: bool)
    ensures var v := BillReadings(w, l, readings, rate, reset);
      && |v.clients| == |w.clients| && v.inbounds == w.inbounds && v.outbound == w.outbound && v.phases == w.phases
  {
    if readings == [] {
    } else {
      BillReadingsFrame(w, l, readings[..|readings| - 1], rate, reset);
    }
  }

  predicate Mentions(readings: seq<Reading>, e: Email) { exists i | 0 <= i < |readings| :: readings[i].email == e }

  lemma {:induction false} ReadingOfMentioned(readings: seq<Reading>, e: Email)
    ensures Mentions(readings, e) <==> ReadingOf(readings, e).Some?
    ensures ReadingOf(readings, e).Some? ==>
              exists i | 0 <= i < |readings| :: readings[i] == Reading(e, ReadingOf(readings, e).value)
  {
    if readings == [] {
    } else {
      var init := readings[..|readings| - 1];
      ReadingOfMentioned(init, e);
      assert forall i | 0 <= i < |init| :: init[i] == readings[i];
      assert readings[|readings| - 1] == Reading(readings[|readings| - 1].email, readings[|readings| - 1].total);
    }
  }

  /** A pass over distinct readings bills each client once, by its own reading and its anchor before the pass. */
  lemma {:induction false} BillReadingsOnClient(w: World, l: ListingId, readings: seq<Reading>, rate: real,
      reset: bool, e: Email)
    requires Distinct(readings) && e < |w.clients|
    ensures var v := BillReadings(w, l, readings, rate, reset);
      && |v.clients| == |w.clients|
      && match ReadingOf(readings, e)
         case None => v.clients[e] == w.clients[e] && BilledBytes(v.usage, e) == BilledBytes(w.usage, e)
         case Some(total) =>
           && v.clients[e] == Advance(w.clients[e], l, total, reset)
           && BilledBytes(v.usage, e) == BilledBytes(w.usage, e) + ChargedBytes(w.clients[e], l, total)
  {
    if readings == [] {
    } else {
      var init, last := readings[..|readings| - 1], readings[|readings| - 1];
      BillReadingsOnClient(w, l, init, rate, reset, e);
      ReadingOfMentioned(init, e);
      var u := BillReadings(w, l, init, rate, reset);
      var v := BillReading(u, l, last, rate, reset);
      if last.email < |u.clients| {
        var row := ConfigUsage(last.email, l, ChargedBytes(u.clients[last.email], l, last.total),
                               GbUnits(ChargedBytes(u.clients[last.email], l, last.total)),
                               Charge(ChargedBytes(u.clients[last.email], l, last.total), rate));
        assert (u.usage + [row])[..|u.usage|] == u.usage;
      }
    }
  }

  // ----- The buyer -----

  predicate InSubCycle(phase: Phase, l: ListingId)
  {
    (phase.SnapshotTaken? || phase.ResetDone?) && phase.listing == l
  }

  /** What the panel still counts beyond the snapshot: everything, once a reset is known to have taken. */
  function Beyond(c: Client, phase: Phase, total: nat): nat
  {
    if phase.ResetDone? && phase.succeeded then c.counter else Delta(c.counter, total)
  }

  /** What may still be billed to a client for a snapshot in flight is covered by what it moved. */
  predicate PhaseCovered(c: Client, billed: nat, e: Email, phase: Phase)
  {
    InSubCycle(phase, c.listing) && ReadingOf(phase.snap.clients, e).Some? ==>
      var total := ReadingOf(phase.snap.clients, e).value;
      billed + Delta(total, c.anchor) + Beyond(c, phase, total) <= c.moved
  }

  predicate Covered(c: Client, billed: nat) { billed + Delta(c.counter, c.anchor) <= c.moved }

  predicate DistinctSnapshot(phase: Phase)
  {
    phase.SnapshotTaken? || phase.ResetDone? ==> Distinct(phase.snap.clients)
  }

  ghost predicate ClientSafe(w: World, e: Email)
  {
    && e < |w.clients|
    && Covered(w.clients[e], BilledBytes(w.usage, e))
    && (forall k | k in w.phases :: PhaseCovered(w.clients[e], BilledBytes(w.usage, e), e, w.phases[k]))
    && (forall k | k in w.phases :: DistinctSnapshot(w.phases[k]))
  }

  /** At most one worker is inside a sub-cycle of this listing. */
  ghost predicate OneSubCycle(w: World, l: ListingId)
  {
    forall j, k | j in w.phases && k in w.phases && InSubCycle(w.phases[j], l) && InSubCycle(w.phases[k], l) :: j == k
  }

  /** A reset reported as done was done. One reported as failed may have been done as well. */
  predicate HonestReset(ev: Event)
  {
    match ev
    case ResetClients(_, took, reported) => reported ==> took
    case GlobalReset(_, took, reported) => reported ==> took
    case _ => true
  }

  lemma BillOnClient(w: World, k: Worker, commission: real, commit: Commit, e: Email)
    requires e < |w.clients| && (forall j | j in w.phases :: DistinctSnapshot(w.phases[j]))
    ensures
      var v := Step(w, Bill(k, commission, commit));
      && |v.clients| == |w.clients|
      && var phase := PhaseOf(w, k);
         if phase.ResetDone? && phase.listing < |w.inbounds| && commit.applied
            && ReadingOf(phase.snap.clients, e).Some?
         then
           var l, total := phase.listing, ReadingOf(phase.snap.clients, e).value;
           && v.clients[e] == Advance(w.clients[e], l, total, phase.succeeded)
           && BilledBytes(v.usage, e) == BilledBytes(w.usage, e) + ChargedBytes(w.clients[e], l, total)
         else v.clients[e] == w.clients[e] && BilledBytes(v.usage, e) == BilledBytes(w.usage, e)
  {
    var phase := PhaseOf(w, k);
    if phase.ResetDone? && phase.listing < |w.inbounds| && commit.applied {
      BillReadingsOnClient(CreditInbound(w, phase.listing, phase.snap.total), phase.listing, phase.snap.clients,
                           BuyerRate(w.inbounds[phase.listing].price, commission), phase.succeeded, e);
    }
  }

  lemma BillPhases(w: World, k: Worker, commission: real, commit: Commit)
    ensures
      var v := Step(w, Bill(k, commission, commit));
      var phase := PhaseOf(w, k);
      && (if phase.ResetDone? then
            v.phases == w.phases[k := BetweenListings(if phase.listing < |w.inbounds| && commit.ok
                                                      then phase.processed + {phase.listing} else phase.processed)]
          else v == w)
      && |v.inbounds| == |w.inbounds|
      && forall l | 0 <= l < |v.inbounds| ::
           v.inbounds[l] == w.inbounds[l].(anchor := v.inbounds[l].anchor, forgiven := v.inbounds[l].forgiven)
  {
    var phase := PhaseOf(w, k);
    if phase.ResetDone? && phase.listing < |w.inbounds| && commit.applied {
      BillReadingsFrame(CreditInbound(w, phase.listing, phase.snap.total), phase.listing, phase.snap.clients,
                        BuyerRate(w.inbounds[phase.listing].price, commission), phase.succeeded);
    }
  }

  lemma AdvanceStaysCovered(c: Client, billed: nat, e: Email, phase: Phase)
    requires Covered(c, billed) && PhaseCovered(c, billed, e, phase) && phase.ResetDone?
    requires ReadingOf(phase.snap.clients, e).Some?
    ensures
      var total := ReadingOf(phase.snap.clients, e).value;
      Covered(Advance(c, phase.listing, total, phase.succeeded), billed + ChargedBytes(c, phase.listing, total))
  {
  }

  lemma BillKeepsClientSafe(w: World, k: Worker, commission: real, commit: Commit, e: Email)
    requires ClientSafe(w, e) && OneSubCycle(w, w.clients[e].listing)
    ensures ClientSafe(Step(w, Bill(k, commission, commit)), e)
  {
    BillOnClient(w, k, commission, commit, e);
    BillPhases(w, k, commission, commit);
    var v, phase := Step(w, Bill(k, commission, commit)), PhaseOf(w, k);
    if phase.ResetDone? && ReadingOf(phase.snap.clients, e).Some? {
      AdvanceStaysCovered(w.clients[e], BilledBytes(w.usage, e), e, phase);
    }
    forall j | j in v.phases
      ensures PhaseCovered(v.clients[e], BilledBytes(v.usage, e), e, v.phases[j]) && DistinctSnapshot(v.phases[j])
    {
      if phase.ResetDone? && j != k && w.clients[e].listing == phase.listing {
        assert !InSubCycle(w.phases[j], phase.listing);
      }
    }
  }

  lemma WipeStaysCovered(c: Client, billed: nat, e: Email, phase: Phase, l: ListingId, reading: Option<nat>)
    requires Covered(c, billed) && PhaseCovered(c, billed, e, phase)
    ensures Covered(WipeClient(c, l, reading), billed) && PhaseCovered(WipeClient(c, l, reading), billed, e, phase)
  {
  }

  lemma ResetKeepsClientSafe(w: World, k: Worker, took: bool, reported: bool, e: Email)
    requires ClientSafe(w, e) && (reported ==> took)
    ensures ClientSafe(Step(w, ResetClients(k, took, reported)), e)
  {
    var v, phase := Step(w, ResetClients(k, took, reported)), PhaseOf(w, k);
    if phase.SnapshotTaken? {
      var reading := ReadingOf(phase.snap.clients, e);
      forall j | j in v.phases
        ensures PhaseCovered(v.clients[e], BilledBytes(v.usage, e), e, v.phases[j])
      {
        if took && j != k {
          WipeStaysCovered(w.clients[e], BilledBytes(w.usage, e), e, w.phases[j], phase.listing, reading);
        } else if took {
          WipeStaysCovered(w.clients[e], BilledBytes(w.usage, e), e, phase, phase.listing, reading);
        }
      }
    }
  }

  lemma ReadKeepsClientSafe(w: World, k: Worker, l: ListingId, readings: seq<Reading>, e: Email)
    requires ClientSafe(w, e)
    ensures ClientSafe(Step(w, Read(k, l, readings)), e)
  {
    ReadingOfMentioned(readings, e);
  }

  /** Events that are not a poll worker's. */
  predicate IsOutside(ev: Event)
  {
    ev.Traffic? || ev.OtherTraffic? || ev.OperatorReset? || ev.AddListing? || ev.DeleteListing? || ev.SetPrice?
    || ev.AddClient? || ev.SetActive?
  }

  /** From outside, a client's figures change only by traffic or by an operator's reset. */
  lemma OutsideShape(w: World, ev: Event, e: Email)
    requires e < |w.clients| && IsOutside(ev)
    ensures
      var v, c := Step(w, ev), w.clients[e];
      && v.usage == w.usage && v.phases == w.phases && e < |v.clients|
      && if ev.OperatorReset? then v.clients[e] == WipeClient(c, ev.listing, None)
         else
           && v.clients[e].counter >= c.counter && v.clients[e].listing == c.listing && v.clients[e].anchor == c.anchor
           && v.clients[e].counter - c.counter == v.clients[e].moved - c.moved
  {
  }

  lemma TrafficStaysCovered(c: Client, d: Client, billed: nat, e: Email, phase: Phase)
    requires PhaseCovered(c, billed, e, phase)
    requires d.counter >= c.counter && d.listing == c.listing && d.anchor == c.anchor
    requires d.counter - c.counter == d.moved - c.moved
    ensures PhaseCovered(d, billed, e, phase)
  {
  }

  lemma OutsideKeepsClientSafe(w: World, ev: Event, e: Email)
    requires ClientSafe(w, e) && IsOutside(ev)
    ensures ClientSafe(Step(w, ev), e)
  {
    OutsideShape(w, ev, e);
    hide Step;
    var v, c := Step(w, ev), w.clients[e];
    forall j | j in v.phases
      ensures PhaseCovered(v.clients[e], BilledBytes(v.usage, e), e, v.phases[j])
    {
      if ev.OperatorReset? {
        WipeStaysCovered(c, BilledBytes(w.usage, e), e, w.phases[j], ev.listing, None);
      } else {
        TrafficStaysCovered(c, v.clients[e], BilledBytes(w.usage, e), e, w.phases[j]);
      }
    }
  }

  /** The remaining worker events move only their own worker, and into no new snapshot. */
  lemma PhaseChangeShape(w: World, ev: Event)
    requires !IsOutside(ev) && !ev.Read? && !ev.ResetClients? && !ev.Bill?
    ensures
      var v, now, before := Step(w, ev), PhaseOf(Step(w, ev), ev.worker), PhaseOf(w, ev.worker);
      && v.usage == w.usage && v.clients == w.clients && |v.inbounds| == |w.inbounds|
      && (v.phases == w.phases || v.phases == w.phases[ev.worker := now])
      && (now == before
          || (before.SnapshotTaken? && now == ResetDone(before.processed, before.listing, before.snap, false))
          || (!now.SnapshotTaken? && !now.ResetDone? && (ev.Crash? || (!before.SnapshotTaken? && !before.ResetDone?))))
  {
  }

  lemma PhaseChangeKeepsClientSafe(w: World, ev: Event, e: Email)
    requires ClientSafe(w, e) && !IsOutside(ev) && !ev.Read? && !ev.ResetClients? && !ev.Bill?
    ensures ClientSafe(Step(w, ev), e)
  {
    PhaseChangeShape(w, ev);
  }

  lemma StepKeepsClientSafe(w: World, ev: Event, e: Email)
    requires ClientSafe(w, e) && OneSubCycle(w, w.clients[e].listing) && HonestReset(ev)
    ensures ClientSafe(Step(w, ev), e)
  {
    match ev
    case Bill(k, commission, commit) => BillKeepsClientSafe(w, k, commission, commit, e);
    case ResetClients(k, took, reported) => ResetKeepsClientSafe(w, k, took, reported, e);
    case Read(k, l, readings) => ReadKeepsClientSafe(w, k, l, readings, e);
    case _ =>
      if IsOutside(ev) {
        OutsideKeepsClientSafe(w, ev, e);
      } else {
        PhaseChangeKeepsClientSafe(w, ev, e);
      }
  }

  lemma StepKeepsListing(w: World, ev: Event, e: Email)
    requires e < |w.clients| && (forall j | j in w.phases :: DistinctSnapshot(w.phases[j]))
    ensures e < |Step(w, ev).clients| && Step(w, ev).clients[e].listing == w.clients[e].listing
  {
    if ev.Bill? {
      BillOnClient(w, ev.worker, ev.commission, ev.commit, e);
    }
  }

  /** Sub-cycles of the client's listing never overlap, and resets are honest, all along the run. */
  ghost predicate BuyerAssumptions(w: World, evs: seq<Event>, l: ListingId)
    decreases |evs|
  {
    OneSubCycle(w, l) && (evs == [] || (HonestReset(evs[0]) && BuyerAssumptions(Step(w, evs[0]), evs[1..], l)))
  }

  lemma {:induction false} RunKeepsClientSafe(w: World, evs: seq<Event>, e: Email)
    requires ClientSafe(w, e) && BuyerAssumptions(w, evs, w.clients[e].listing)
    ensures ClientSafe(Run(w, evs), e)
    decreases |evs|
  {
    if evs == [] {
    } else {
      StepKeepsClientSafe(w, evs[0], e);
      StepKeepsListing(w, evs[0], e);
      RunKeepsClientSafe(Step(w, evs[0]), evs[1..], e);
    }
  }

  /** A client nobody has billed, in no snapshot in flight. Its listing's sub-cycle may well be under way. */
  ghost predicate Untouched(w: World, e: Email)
  {
    && e < |w.clients|
    && w.clients[e].anchor == 0 && w.clients[e].counter <= w.clients[e].moved
    && BilledBytes(w.usage, e) == 0
    && (forall k | k in w.phases :: DistinctSnapshot(w.phases[k]))
    && (forall k | k in w.phases && InSubCycle(w.phases[k], w.clients[e].listing) ::
          ReadingOf(w.phases[k].snap.clients, e).None?)
  }

  /** The buyer is never billed for more bytes than the client moved. */
  lemma BuyerNeverOverbilled(w: World, evs: seq<Event>, e: Email)
    requires Untouched(w, e) && BuyerAssumptions(w, evs, w.clients[e].listing)
    ensures
      var v := Run(w, evs);
      e < |v.clients| && BilledBytes(v.usage, e) <= v.clients[e].moved
  {
    RunKeepsClientSafe(w, evs, e);
  }

  // ----- From the empty world -----

  /** Snapshots in flight and usage rows name only clients that exist. */
  ghost predicate Known(w: World)
  {
    && (forall k | k in w.phases :: DistinctSnapshot(w.phases[k]))
    && (forall k, e: Email | k in w.phases && (w.phases[k].SnapshotTaken? || w.phases[k].ResetDone?)
                             && e >= |w.clients| ::
          ReadingOf(w.phases[k].snap.clients, e).None?)
    && (forall e: Email | e >= |w.clients| :: BilledBytes(w.usage, e) == 0)
  }

  lemma {:induction false} BillReadingsIgnoresUnknown(w: World, l: ListingId, readings: seq<Reading>, rate: real,
      reset: bool, e: Email)
    requires e >= |w.clients|
    ensures BilledBytes(BillReadings(w, l, readings, rate, reset).usage, e) == BilledBytes(w.usage, e)
  {
    if readings != [] {
      var init, last := readings[..|readings| - 1], readings[|readings| - 1];
      BillReadingsIgnoresUnknown(w, l, init, rate, reset, e);
      BillReadingsFrame(w, l, init, rate, reset);
      var u := BillReadings(w, l, init, rate, reset);
      if last.email < |u.clients| {
        var bytes := ChargedBytes(u.clients[last.email], l, last.total);
        var row := ConfigUsage(last.email, l, bytes, GbUnits(bytes), Charge(bytes, rate));
        assert (u.usage + [row])[..|u.usage|] == u.usage;
      }
    }
  }

  lemma BillKeepsKnown(w: World, k: Worker, commission: real, commit: Commit)
    requires Known(w)
    ensures Known(Step(w, Bill(k, commission, commit))) && |Step(w, Bill(k, commission, commit)).clients| == |w.clients|
  {
    BillPhases(w, k, commission, commit);
    var v, phase := Step(w, Bill(k, commission, commit)), PhaseOf(w, k);
    if phase.ResetDone? && phase.listing < |w.inbounds| && commit.applied {
      var credited := CreditInbound(w, phase.listing, phase.snap.total);
      var rate := BuyerRate(w.inbounds[phase.listing].price, commission);
      BillReadingsFrame(credited, phase.listing, phase.snap.clients, rate, phase.succeeded);
      forall e: Email | e >= |v.clients|
        ensures BilledBytes(v.usage, e) == 0
      {
        BillReadingsIgnoresUnknown(credited, phase.listing, phase.snap.clients, rate, phase.succeeded, e);
      }
    }
  }

  lemma ReadKeepsKnown(w: World, k: Worker, l: ListingId, readings: seq<Reading>)
    requires Known(w)
    ensures Known(Step(w, Read(k, l, readings)))
  {
    forall e: Email | e >= |w.clients| && Truthful(w, l, readings)
      ensures ReadingOf(readings, e).None?
    {
      ReadingOfMentioned(readings, e);
    }
  }

  lemma StepKeepsKnown(w: World, ev: Event)
    requires Known(w)
    ensures Known(Step(w, ev))
  {
    if ev.Bill? {
      BillKeepsKnown(w, ev.worker, ev.commission, ev.commit);
    } else if ev.Read? {
      ReadKeepsKnown(w, ev.worker, ev.listing, ev.readings);
    } else if IsOutside(ev) || ev.ResetClients? {
      assert Step(w, ev).usage == w.usage;
    } else {
      PhaseChangeShape(w, ev);
    }
  }

  lemma {:induction false} RunKeepsKnown(w: World, evs: seq<Event>)
    requires Known(w)
    ensures Known(Run(w, evs))
    decreases |evs|
  {
    hide Step, Known;
    if evs != [] {
      StepKeepsKnown(w, evs[0]);
      RunKeepsKnown(Step(w, evs[0]), evs[1..]);
    }
  }

  /** A client that a step adds is untouched, whatever is in flight. */
  lemma NewClientIsUntouched(w: World, ev: Event, e: Email)
    requires Known(w) && |w.clients| <= e < |Step(w, ev).clients|
    ensures Untouched(Step(w, ev), e)
  {
    if ev.Bill? {
      BillKeepsKnown(w, ev.worker, ev.commission, ev.commit);
    }
    assert ev.AddClient?;
  }

  lemma {:induction false} RunKeepsListing(w: World, evs: seq<Event>, e: Email)
    requires e < |w.clients| && Known(w)
    ensures e < |Run(w, evs).clients| && Run(w, evs).clients[e].listing == w.clients[e].listing
    decreases |evs|
  {
    hide Step;
    if evs != [] {
      StepKeepsListing(w, evs[0], e);
      StepKeepsKnown(w, evs[0]);
      RunKeepsListing(Step(w, evs[0]), evs[1..], e);
    }
  }

  /** In every run from the start no buyer of a listing whose sub-cycles stay apart is billed for more bytes
      than the client moved, however the client joined. */
  lemma {:induction false} NobodyOverbilled(w: World, evs: seq<Event>, l: ListingId, e: Email)
    requires Known(w) && e >= |w.clients| && BuyerAssumptions(w, evs, l)
    requires e < |Run(w, evs).clients| && Run(w, evs).clients[e].listing == l
    ensures BilledBytes(Run(w, evs).usage, e) <= Run(w, evs).clients[e].moved
    decreases |evs|
  {
    hide Step, Known, Untouched;
    var v := Step(w, evs[0]);
    StepKeepsKnown(w, evs[0]);
    if e < |v.clients| {
      NewClientIsUntouched(w, evs[0], e);
      RunKeepsListing(v, evs[1..], e);
      BuyerNeverOverbilled(v, evs[1..], e);
    } else {
      NobodyOverbilled(v, evs[1..], l, e);
    }
  }

  lemma NobodyOverbilledFromStart(evs: seq<Event>, e: Email)
    requires e < |Run(EMPTY, evs).clients| && BuyerAssumptions(EMPTY, evs, Run(EMPTY, evs).clients[e].listing)
    ensures BilledBytes(Run(EMPTY, evs).usage, e) <= Run(EMPTY, evs).clients[e].moved
  {
    NobodyOverbilled(EMPTY, evs, Run(EMPTY, evs).clients[e].listing, e);
  }
}
