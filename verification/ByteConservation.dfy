/** Where every byte of a client went: billed, forgiven, lost between read and reset, or still on the counter. */
module ByteConservation {
  import opened BillingMath
  import opened Metering
  import opened MeteringSafety

  /** Bytes of a client with a known end: billed, forgiven or lost. */
  function Settled(c: Client, billed: nat): nat { billed + c.forgiven + c.lost }

  ghost predicate InFlight(w: World, l: ListingId)
  {
    exists k | k in w.phases :: InSubCycle(w.phases[k], l)
  }

  /** During a sub-cycle the bytes still to be billed are split by the snapshot once the reset has wiped the
      counter; a client the snapshot does not list has everything on its counter. */
  predicate HeldInFlight(c: Client, e: Email, phase: Phase, held: int)
    requires phase.SnapshotTaken? || phase.ResetDone?
  {
    var reading := ReadingOf(phase.snap.clients, e);
    if reading.None? then c.anchor == 0 && held == c.counter
    else if phase.ResetDone? && phase.succeeded then
      c.anchor <= reading.value && held == (reading.value - c.anchor) + c.counter
    else c.anchor <= reading.value <= c.counter && held == c.counter - c.anchor
  }

  /** Exactly `held` bytes of the client wait to be billed, the anchor never ahead of what was counted. */
  ghost predicate Holds(w: World, e: Email, held: int)
    requires e < |w.clients|
  {
    var c := w.clients[e];
    && (!InFlight(w, c.listing) ==> c.anchor <= c.counter && held == c.counter - c.anchor)
    && (forall k | k in w.phases && InSubCycle(w.phases[k], c.listing) :: HeldInFlight(c, e, w.phases[k], held))
  }

  ghost predicate DistinctSnapshots(w: World) { forall k | k in w.phases :: DistinctSnapshot(w.phases[k]) }

  /** What the client moved beyond its settled bytes waits to be billed, apart from a constant `gap`. */
  ghost predicate Exact(w: World, e: Email, gap: int)
  {
    && e < |w.clients| && w.clients[e].active && w.clients[e].listing < |w.inbounds|
    && Holds(w, e, w.clients[e].moved - Settled(w.clients[e], BilledBytes(w.usage, e)) - gap)
    && DistinctSnapshots(w)
  }

  /** Nothing goes wrong for this client: snapshots list it, resets do what they report, commits take
      effect, no worker dies in its sub-cycle, nobody else resets it, and it stays active. */
  predicate Clean(w: World, ev: Event, e: Email)
    requires e < |w.clients|
  {
    var home := w.clients[e].listing;
    match ev
    case OperatorReset(l) => l != home
    case SetActive(e', _) => e' != e
    case Read(_, l, readings) => l == home ==> ReadingOf(readings, e).Some?
    case ResetClients(_, took, reported) => took == reported
    case Bill(k, _, commit) => InSubCycle(PhaseOf(w, k), home) ==> commit.applied
    case Crash(k) => !InSubCycle(PhaseOf(w, k), home)
    case _ => true
  }

  /** Changing one worker's phase without leaving or entering a sub-cycle of the listing keeps `InFlight`. */
  lemma InFlightByPhases(w: World, v: World, k: Worker, l: ListingId)
    requires v.phases == w.phases[k := PhaseOf(v, k)]
    requires InSubCycle(PhaseOf(w, k), l) == InSubCycle(PhaseOf(v, k), l)
    ensures InFlight(v, l) == InFlight(w, l)
  {
    if InFlight(w, l) {
      var j :| j in w.phases && InSubCycle(w.phases[j], l);
      assert InSubCycle(v.phases[j], l);
    }
    if InFlight(v, l) {
      var j :| j in v.phases && InSubCycle(v.phases[j], l);
      assert InSubCycle(w.phases[j], l);
    }
  }

  lemma BillKeepsExact(w: World, k: Worker, commission: real, commit: Commit, e: Email, gap: int)
    requires Exact(w, e, gap) && OneSubCycle(w, w.clients[e].listing) && Clean(w, Bill(k, commission, commit), e)
    ensures Exact(Step(w, Bill(k, commission, commit)), e, gap)
  {
    var v, phase := Step(w, Bill(k, commission, commit)), PhaseOf(w, k);
    BillOnClient(w, k, commission, commit, e);
    BillPhases(w, k, commission, commit);
    var home := w.clients[e].listing;
    if phase.ResetDone? && phase.listing == home {
      assert InSubCycle(w.phases[k], home);
      assert forall j | j in v.phases && j != k :: !InSubCycle(w.phases[j], home);
      assert !InFlight(v, home);
    } else if phase.ResetDone? {
      InFlightByPhases(w, v, k, home);
      assert v.clients[e] == w.clients[e];
    }
  }

  lemma ResetKeepsExact(w: World, k: Worker, took: bool, reported: bool, e: Email, gap: int)
    requires Exact(w, e, gap) && OneSubCycle(w, w.clients[e].listing) && took == reported
    ensures Exact(Step(w, ResetClients(k, took, reported)), e, gap)
  {
    var v, phase := Step(w, ResetClients(k, took, reported)), PhaseOf(w, k);
    var home := w.clients[e].listing;
    if phase.SnapshotTaken? && phase.snap.clients != [] {
      InFlightByPhases(w, v, k, home);
      assert phase.listing == home ==> forall j | j in w.phases && j != k :: !InSubCycle(w.phases[j], home);
    }
  }

  lemma ReadKeepsExact(w: World, k: Worker, l: ListingId, readings: seq<Reading>, e: Email, gap: int)
    requires Exact(w, e, gap) && Clean(w, Read(k, l, readings), e)
    requires OneSubCycle(Step(w, Read(k, l, readings)), w.clients[e].listing)
    ensures Exact(Step(w, Read(k, l, readings)), e, gap)
  {
    var v := Step(w, Read(k, l, readings));
    var home := w.clients[e].listing;
    ReadingOfMentioned(readings, e);
    if v != w {
      assert v.clients == w.clients && v.usage == w.usage;
      if l == home {
        assert InSubCycle(v.phases[k], home);
        assert forall j | j in w.phases && j != k :: !InSubCycle(v.phases[j], home);
        assert !InFlight(w, home);
      } else {
        InFlightByPhases(w, v, k, home);
      }
    }
  }

  lemma PhaseChangeKeepsExact(w: World, ev: Event, e: Email, gap: int)
    requires Exact(w, e, gap) && Clean(w, ev, e) && !IsOutside(ev) && !ev.Read? && !ev.ResetClients? && !ev.Bill?
    ensures Exact(Step(w, ev), e, gap)
  {
    var v, home := Step(w, ev), w.clients[e].listing;
    PhaseChangeShape(w, ev);
    if v.phases != w.phases {
      InFlightByPhases(w, v, ev.worker, home);
    }
  }

  /** Bytes this event brings the client. */
  function Arriving(ev: Event, e: Email): nat { if ev.Traffic? && ev.email == e then ev.bytes else 0 }

  lemma OutsideOnClient(w: World, ev: Event, e: Email)
    requires e < |w.clients| && IsOutside(ev) && Clean(w, ev, e)
    ensures
      var v, c, n := Step(w, ev), w.clients[e], Arriving(ev, e);
      && v.usage == w.usage && v.phases == w.phases && |w.inbounds| <= |v.inbounds|
      && e < |v.clients| && v.clients[e] == c.(counter := c.counter + n, moved := c.moved + n)
  {
  }

  lemma ArrivalKeepsHolds(w: World, v: World, e: Email, n: nat, held: int)
    requires e < |w.clients| && e < |v.clients| && v.phases == w.phases && Holds(w, e, held)
    requires v.clients[e] == w.clients[e].(counter := w.clients[e].counter + n, moved := w.clients[e].moved + n)
    ensures Holds(v, e, held + n)
  {
    assert InFlight(v, w.clients[e].listing) == InFlight(w, w.clients[e].listing);
  }

  lemma OutsideKeepsExact(w: World, ev: Event, e: Email, gap: int)
    requires Exact(w, e, gap) && Clean(w, ev, e) && IsOutside(ev)
    ensures Exact(Step(w, ev), e, gap)
  {
    OutsideOnClient(w, ev, e);
    hide Step, Holds, Clean;
    ArrivalKeepsHolds(w, Step(w, ev), e, Arriving(ev, e),
      w.clients[e].moved - Settled(w.clients[e], BilledBytes(w.usage, e)) - gap);
  }

  lemma StepKeepsExact(w: World, ev: Event, e: Email, gap: int)
    requires Exact(w, e, gap) && Clean(w, ev, e)
    requires OneSubCycle(w, w.clients[e].listing) && OneSubCycle(Step(w, ev), w.clients[e].listing)
    ensures Exact(Step(w, ev), e, gap)
  {
    match ev
    case Bill(k, commission, commit) => BillKeepsExact(w, k, commission, commit, e, gap);
    case ResetClients(k, took, reported) => ResetKeepsExact(w, k, took, reported, e, gap);
    case Read(k, l, readings) => ReadKeepsExact(w, k, l, readings, e, gap);
    case _ =>
      if IsOutside(ev) {
        OutsideKeepsExact(w, ev, e, gap);
      } else {
        PhaseChangeKeepsExact(w, ev, e, gap);
      }
  }

  ghost predicate CleanRun(w: World, evs: seq<Event>, e: Email)
    decreases |evs|
  {
    && e < |w.clients| && OneSubCycle(w, w.clients[e].listing)
    && (evs == [] || (Clean(w, evs[0], e) && CleanRun(Step(w, evs[0]), evs[1..], e)))
  }

  lemma {:induction false} RunKeepsExact(w: World, evs: seq<Event>, e: Email, gap: int)
    requires Exact(w, e, gap) && CleanRun(w, evs, e)
    ensures Exact(Run(w, evs), e, gap)
    decreases |evs|
  {
    if evs == [] {
    } else {
      StepKeepsListing(w, evs[0], e);
      StepKeepsExact(w, evs[0], e, gap);
      RunKeepsExact(Step(w, evs[0]), evs[1..], e, gap);
    }
  }

  /** An active config with anchor zero that no snapshot in flight lists. */
  ghost predicate Joined(w: World, e: Email)
  {
    && e < |w.clients| && w.clients[e].active && w.clients[e].listing < |w.inbounds| && w.clients[e].anchor == 0
    && DistinctSnapshots(w)
    && (forall k | k in w.phases && InSubCycle(w.phases[k], w.clients[e].listing) ::
          ReadingOf(w.phases[k].snap.clients, e).None?)
  }

  /** In a clean run what the client moves, plus what its counter showed at the start, is what was billed,
      forgiven and lost plus what waits between anchor and counter or in the snapshot in flight. */
  lemma BytesConserved(w: World, evs: seq<Event>, e: Email)
    requires Joined(w, e) && CleanRun(w, evs, e)
    ensures
      var v := Run(w, evs);
      && e < |v.clients|
      && var c0, c := w.clients[e], v.clients[e];
         Holds(v, e, (c.moved - c0.moved) + c0.counter
                     - (Settled(c, BilledBytes(v.usage, e)) - Settled(c0, BilledBytes(w.usage, e))))
  {
    var c0 := w.clients[e];
    RunKeepsExact(w, evs, e, c0.moved - Settled(c0, BilledBytes(w.usage, e)) - c0.counter);
  }

  /** A config bought at any moment of any run from the start, on a listing that may be mid-cycle: as long as
      nothing goes wrong for it, moved = billed + forgiven + lost + (counter - anchor) between sub-cycles. */
  lemma NewConfigConserved(before: seq<Event>, l: ListingId, after: seq<Event>)
    requires l < |Run(EMPTY, before).inbounds|
    requires
      var w, e := Run(EMPTY, before), |Run(EMPTY, before).clients|;
      CleanRun(Step(Step(w, AddClient(l)), SetActive(e, true)), after, e)
    ensures
      var w, e := Run(EMPTY, before), |Run(EMPTY, before).clients|;
      var v := Run(Step(Step(w, AddClient(l)), SetActive(e, true)), after);
      && e < |v.clients|
      && Holds(v, e, v.clients[e].moved - Settled(v.clients[e], BilledBytes(v.usage, e)))
  {
    var w := Run(EMPTY, before);
    var e := |w.clients|;
    RunKeepsKnown(EMPTY, before);
    var u := Step(Step(w, AddClient(l)), SetActive(e, true));
    assert u.clients[e] == Client(l, true, 0, 0, 0, 0, 0) && u.usage == w.usage && u.phases == w.phases;
    BytesConserved(u, after, e);
  }

  // ----- How much can be forgiven -----

  /** This step bills the listing, for good. */
  predicate BillsHome(w: World, ev: Event, l: ListingId)
  {
    && ev.Bill? && ev.commit.applied
    && PhaseOf(w, ev.worker).ResetDone? && PhaseOf(w, ev.worker).listing == l < |w.inbounds|
  }

  /** How often a run bills the listing: at most once for each sub-cycle of it. */
  function HomeBills(w: World, evs: seq<Event>, l: ListingId): nat
    decreases |evs|
  {
    if evs == [] then 0 else (if BillsHome(w, evs[0], l) then 1 else 0) + HomeBills(Step(w, evs[0]), evs[1..], l)
  }

  lemma StepForgives(w: World, ev: Event, e: Email)
    requires e < |w.clients| && DistinctSnapshots(w)
    ensures var v := Step(w, ev);
      && DistinctSnapshots(v) && e < |v.clients| && v.clients[e].listing == w.clients[e].listing
      && v.clients[e].forgiven
         <= w.clients[e].forgiven + if BillsHome(w, ev, w.clients[e].listing) then MIN_BILLABLE - 1 else 0
  {
    StepKeepsListing(w, ev, e);
    if ev.Bill? {
      BillOnClient(w, ev.worker, ev.commission, ev.commit, e);
      BillPhases(w, ev.worker, ev.commission, ev.commit);
    }
  }

  /** n billing passes over a client's own listing forgive it less than the billable minimum each, whatever
      goes wrong and however often other listings are billed. */
  lemma {:induction false} ForgivenessBound(w: World, evs: seq<Event>, e: Email)
    requires e < |w.clients| && DistinctSnapshots(w)
    ensures var v := Run(w, evs);
      && e < |v.clients|
      && v.clients[e].forgiven
         <= w.clients[e].forgiven + HomeBills(w, evs, w.clients[e].listing) * (MIN_BILLABLE - 1)
    decreases |evs|
  {
    hide Step;
    if evs != [] {
      StepForgives(w, evs[0], e);
      ForgivenessBound(Step(w, evs[0]), evs[1..], e);
    }
  }
}
