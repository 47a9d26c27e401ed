/** Why the metering theorems assume what they assume: dropping an assumption loses the guarantee. */
module MeteringLimits {
  import opened Common
  import opened Metering
  import opened MeteringSafety
  import opened SellerSafety
  import opened ByteConservation
  import opened InboundConservation

  const MIB: nat := 1048576

  /** One listing whose only client, an active one, has moved 1 MiB nobody has polled. */
  const START: World :=
    World([Inbound(1.0, true, false, 0, MIB, MIB, 0, 0)], [Client(0, true, 0, MIB, MIB, 0, 0)], [], [], [], map[])

  const SEEN: seq<Reading> := [Reading(0, MIB)]
  const FINE: Commit := Commit(true, true)

  lemma BillOneReading(w: World, k: Worker, done: set<ListingId>, total: nat, succeeded: bool)
    requires PhaseOf(w, k) == ResetDone(done, 0, Snapshot(total, SEEN), succeeded)
    requires forall j | j in w.phases :: DistinctSnapshot(w.phases[j])
    requires |w.inbounds| == 1 && |w.clients| == 1
    requires w.clients[0].listing == 0 && w.clients[0].active && w.clients[0].anchor == 0
    ensures
      var v := Step(w, Bill(k, 0.15, FINE));
      && |v.clients| == 1 && v.clients[0] == w.clients[0].(anchor := if succeeded then 0 else MIB)
      && |v.inbounds| == 1 && v.inbounds[0].provisioned == w.inbounds[0].provisioned
      && v.phases == w.phases[k := BetweenListings(done + {0})]
      && BilledBytes(v.usage, 0) == BilledBytes(w.usage, 0) + MIB
  {
    BillOnClient(w, k, 0.15, FINE, 0);
    BillPhases(w, k, 0.15, FINE);
    assert ReadingOf(SEEN, 0) == Some(MIB);
  }

  /** From a snapshot of the unpolled megabyte, a reset reported as done and a commit bill it and leave the anchor at
      zero. */
  lemma ResetThenBill(w: World, k: Worker, done: set<ListingId>, total: nat, took: bool)
    requires PhaseOf(w, k) == SnapshotTaken(done, 0, Snapshot(total, SEEN))
    requires forall j | j in w.phases :: DistinctSnapshot(w.phases[j])
    requires |w.inbounds| == 1 && |w.clients| == 1
    requires w.clients[0].listing == 0 && w.clients[0].active && w.clients[0].anchor == 0
    ensures
      var v := Step(Step(w, ResetClients(k, took, true)), Bill(k, 0.15, FINE));
      && |v.inbounds| == 1 && |v.clients| == 1 && v.inbounds[0].provisioned == w.inbounds[0].provisioned
      && v.clients[0] == w.clients[0].(counter := if took then 0 else w.clients[0].counter, lost := v.clients[0].lost)
      && v.phases == w.phases[k := BetweenListings(done + {0})]
      && BilledBytes(v.usage, 0) == BilledBytes(w.usage, 0) + MIB
  {
    var u := Step(w, ResetClients(k, took, true));
    assert u.usage == w.usage;
    assert u.clients[0]
        == w.clients[0].(counter := if took then 0 else w.clients[0].counter, lost := u.clients[0].lost);
    BillOneReading(u, k, done, total, true);
  }

  const IN_HAND: Phase := SnapshotTaken({}, 0, Snapshot(MIB, SEEN))

  lemma BothRead()
    ensures Step(Step(Step(Step(START, StartCycle(1)), StartCycle(2)), Read(1, 0, SEEN)), Read(2, 0, SEEN))
            == START.(phases := map[1 := IN_HAND, 2 := IN_HAND])
  {
    var w2 := Step(Step(START, StartCycle(1)), StartCycle(2));
    assert Truthful(w2, 0, SEEN);
    assert Truthful(Step(w2, Read(1, 0, SEEN)), 0, SEEN);
  }

  lemma RunOfFour(w: World, a: Event, b: Event, c: Event, d: Event)
    ensures Run(w, [a, b, c, d]) == Step(Step(Step(Step(w, a), b), c), d)
  {
    assert [a, b, c, d][1..] == [b, c, d] && [b, c, d][1..] == [c, d] && [c, d][1..] == [d] && [d][1..] == [];
    assert Run(w, [a, b, c, d]) == Run(Step(w, a), [b, c, d]);
    assert Run(Step(w, a), [b, c, d]) == Run(Step(Step(w, a), b), [c, d]);
    assert Run(Step(Step(w, a), b), [c, d]) == Run(Step(Step(Step(w, a), b), c), [d]);
  }

  lemma RunOfEight(w: World, a: Event, b: Event, c: Event, d: Event, e: Event, f: Event, g: Event, h: Event)
    ensures Run(w, [a, b, c, d, e, f, g, h])
            == Step(Step(Step(Step(Step(Step(Step(Step(w, a), b), c), d), e), f), g), h)
  {
    assert [a, b, c, d, e, f, g, h] == [a, b, c, d] + [e, f, g, h];
    RunAppends(w, [a, b, c, d], [e, f, g, h]);
    RunOfFour(w, a, b, c, d);
    RunOfFour(Run(w, [a, b, c, d]), e, f, g, h);
  }

  /** Two overlapping sub-cycles of one listing bill the same megabyte twice: the second reads before
      the first resets, and its anchor is already zero when it bills. */
  lemma OverlapBillsTwice()
    ensures
      var evs := [StartCycle(1), StartCycle(2), Read(1, 0, SEEN), Read(2, 0, SEEN),
                  ResetClients(1, true, true), Bill(1, 0.15, FINE), ResetClients(2, true, true), Bill(2, 0.15, FINE)];
      var v := Run(START, evs);
      && (forall i | 0 <= i < |evs| :: HonestReset(evs[i]))
      && |v.clients| == 1 && v.clients[0].moved == MIB && BilledBytes(v.usage, 0) == 2 * MIB
  {
    RunOfEight(START, StartCycle(1), StartCycle(2), Read(1, 0, SEEN), Read(2, 0, SEEN),
               ResetClients(1, true, true), Bill(1, 0.15, FINE), ResetClients(2, true, true), Bill(2, 0.15, FINE));
    BothRead();
    var w4 := START.(phases := map[1 := IN_HAND, 2 := IN_HAND]);
    ResetThenBill(w4, 1, {}, MIB, true);
    var w6 := Step(Step(w4, ResetClients(1, true, true)), Bill(1, 0.15, FINE));
    ResetThenBill(w6, 2, {}, MIB, true);
  }

  lemma RunOfThree(w: World, a: Event, b: Event, c: Event)
    ensures Run(w, [a, b, c]) == Step(Step(Step(w, a), b), c)
  {
    assert [a, b, c][1..] == [b, c] && [b, c][1..] == [c] && [c][1..] == [];
    assert Run(w, [a, b, c]) == Run(Step(w, a), [b, c]);
    assert Run(Step(w, a), [b, c]) == Run(Step(Step(w, a), b), [c]);
  }

  /** A sub-cycle whose reset is reported as done and was not. */
  const FALSE_RESET: seq<Event> := [Read(1, 0, SEEN), ResetClients(1, false, true), Bill(1, 0.15, FINE)]

  lemma FalseResetBills(w: World, done: set<ListingId>)
    requires w.phases == map[1 := BetweenListings(done)] && |w.inbounds| == 1 && |w.clients| == 1
    requires w.clients[0] == Client(0, true, 0, MIB, MIB, 0, w.clients[0].lost) && w.inbounds[0].provisioned
    ensures
      var v := Run(w, FALSE_RESET);
      && v.phases == map[1 := BetweenListings(done + {0})] && |v.inbounds| == 1 && |v.clients| == 1
      && v.clients[0] == Client(0, true, 0, MIB, MIB, 0, v.clients[0].lost) && v.inbounds[0].provisioned
      && BilledBytes(v.usage, 0) == BilledBytes(w.usage, 0) + MIB
  {
    RunOfThree(w, Read(1, 0, SEEN), ResetClients(1, false, true), Bill(1, 0.15, FINE));
    assert Truthful(w, 0, SEEN);
    var u := Step(w, Read(1, 0, SEEN));
    assert u == At(w, 1, SnapshotTaken(done, 0, Snapshot(w.inbounds[0].counter, SEEN)));
    ResetThenBill(u, 1, done, w.inbounds[0].counter, false);
  }

  /** A reset reported as done that was not done makes the next sub-cycle bill the same megabyte again. */
  lemma FalseResetBillsTwice()
    ensures
      var v := Run(Step(START, StartCycle(1)), FALSE_RESET + FALSE_RESET);
      |v.clients| == 1 && v.clients[0].moved == MIB && BilledBytes(v.usage, 0) == 2 * MIB
  {
    var w := Step(START, StartCycle(1));
    RunAppends(w, FALSE_RESET, FALSE_RESET);
    FalseResetBills(w, {});
    FalseResetBills(Run(w, FALSE_RESET), {} + {0});
  }

  /** An inbound that carried 1 MiB nobody has polled, and then three quarters of one more. */
  const QUIET: World := World([Inbound(1.0, true, false, 0, MIB, MIB, 0, 0)], [], [], [], [], map[])

  const MORE: nat := 786432

  function Poll(k: Worker): seq<Event> { [Read(k, 0, []), SkipReset(k), Bill(k, 0.15, FINE)] }

  lemma ReadsNoClients(w: World, k: Worker, done: set<ListingId>)
    requires PhaseOf(w, k) == BetweenListings(done) && |w.inbounds| == 1 && w.inbounds[0].provisioned
    ensures
      Step(Step(w, Read(k, 0, [])), SkipReset(k))
      == w.(phases := w.phases[k := ResetDone(done, 0, Snapshot(w.inbounds[0].counter, []), false)])
  {
    assert Truthful(w, 0, []);
    hide BillInbound, WipeClients, WipeInbounds;
  }

  /** One sub-cycle without clients credits what the counter shows beyond the anchor. */
  lemma PollInbound(w: World, k: Worker, done: set<ListingId>)
    requires PhaseOf(w, k) == BetweenListings(done) && |w.inbounds| == 1 && w.inbounds[0].provisioned
    ensures
      var v := Run(w, Poll(k));
      && v.inbounds == [AdvanceInbound(w.inbounds[0], w.inbounds[0].counter)]
      && v.phases == w.phases[k := BetweenListings(done + {0})]
      && CreditedBytes(v.outbound, 0)
         == CreditedBytes(w.outbound, 0) + Billable(Delta(w.inbounds[0].counter, w.inbounds[0].anchor))
  {
    RunOfThree(w, Read(k, 0, []), SkipReset(k), Bill(k, 0.15, FINE));
    ReadsNoClients(w, k, done);
    hide Step;
    var u := w.(phases := w.phases[k := ResetDone(done, 0, Snapshot(w.inbounds[0].counter, []), false)]);
    BillOnInbound(u, k, 0.15, FINE, 0);
    BillPhases(u, k, 0.15, FINE);
  }

  const BETWEEN: seq<Event> := [GlobalReset(1, true, true), OtherTraffic(0, MORE), StartCycle(2)]

  lemma BetweenTheCycles(w: World)
    requires w.inbounds == [Inbound(1.0, true, false, MIB, MIB, MIB, 0, 0)]
    requires w.phases == map[1 := BetweenListings({0})]
    ensures
      var v := Run(w, BETWEEN);
      && v.inbounds == [Inbound(1.0, true, false, MIB, MORE, MIB + MORE, 0, 0)] && v.outbound == w.outbound
      && v.phases == map[1 := GlobalResetDone({0}, true), 2 := BetweenListings({})]
  {
    RunOfThree(w, GlobalReset(1, true, true), OtherTraffic(0, MORE), StartCycle(2));
  }

  lemma LateZero(t: World)
    requires t.inbounds == [Inbound(1.0, true, false, MORE, MORE, MIB + MORE, 0, 0)]
    requires t.phases == map[1 := GlobalResetDone({0}, true), 2 := BetweenListings({0})]
    ensures
      var u := Step(t, ZeroAnchors(1, true));
      && u.inbounds == [Inbound(1.0, true, false, 0, MORE, MIB + MORE, 0, 0)] && u.outbound == t.outbound
      && PhaseOf(u, 2) == BetweenListings({0})
  {
  }

  lemma QuietStart()
    ensures Step(QUIET, StartCycle(1)) == QUIET.(phases := map[1 := BetweenListings({})])
    ensures CreditedBytes(QUIET.outbound, 0) == 0
  {
  }

  /** Two overlapping cycles credit more than was carried although their sub-cycles do not overlap: the
      first cycle zeroes an anchor the second has just advanced over the reset counter. */
  lemma OverlappingCyclesOvercredit()
    ensures
      var w2 := Run(Run(Step(QUIET, StartCycle(1)), Poll(1)), BETWEEN);
      var v := Run(Step(Run(w2, Poll(2)), ZeroAnchors(1, true)), Poll(2));
      |v.inbounds| == 1 && v.inbounds[0].moved == MIB + MORE && CreditedBytes(v.outbound, 0) == MIB + 2 * MORE
  {
    QuietStart();
    hide Step, Run, Poll;
    var w0 := Step(QUIET, StartCycle(1));
    PollInbound(w0, 1, {});
    var w1 := Run(w0, Poll(1));
    var none: set<ListingId> := {};
    assert none + {0} == {0};
    BetweenTheCycles(w1);
    var w2 := Run(w1, BETWEEN);
    PollInbound(w2, 2, {});
    var w3 := Run(w2, Poll(2));
    LateZero(w3);
    PollInbound(Step(w3, ZeroAnchors(1, true)), 2, {0});
  }

  // ----- Which overlaps harm -----

  /** Everything the client moved is settled or waits between anchor and counter: so it is when no sub-cycle of its
      listing is in flight, or when another one has just billed. */
  predicate Balanced(c: Client, billed: nat)
  {
    c.anchor <= c.counter && c.moved == Settled(c, billed) + c.counter - c.anchor
  }

  /** What the next reading would settle still fits into what the client moved. */
  predicate StillCovered(c: Client, billed: nat) { Settled(c, billed) + Delta(c.counter, c.anchor) <= c.moved }

  /** A worker whose snapshot another sub-cycle has overtaken bills without harm if and only if its snapshot lies
      between the anchor and the counter as they are now, or, when it believes in its reset, if both are zero. */
  lemma StaleBillHarmsIff(w: World, k: Worker, commission: real, e: Email)
    requires e < |w.clients| && (forall j | j in w.phases :: DistinctSnapshot(w.phases[j]))
    requires PhaseOf(w, k).ResetDone? && PhaseOf(w, k).listing == w.clients[e].listing < |w.inbounds|
    requires ReadingOf(PhaseOf(w, k).snap.clients, e).Some? && w.clients[e].active
    requires Balanced(w.clients[e], BilledBytes(w.usage, e))
    ensures
      var v, c := Step(w, Bill(k, commission, FINE)), w.clients[e];
      var phase := PhaseOf(w, k);
      var total := ReadingOf(phase.snap.clients, e).value;
      && e < |v.clients|
      && (StillCovered(v.clients[e], BilledBytes(v.usage, e))
          <==> if phase.succeeded then total == 0 == c.anchor else c.anchor <= total <= c.counter)
  {
    BillOnClient(w, k, commission, FINE, e);
    hide Step, BilledBytes, ReadingOf;
  }

  /** Harm shows: once the next reading no longer fits, a sub-cycle that bills the counter as it is settles more than
      the client moved. */
  lemma HarmShows(w: World, k: Worker, commission: real, e: Email)
    requires e < |w.clients| && (forall j | j in w.phases :: DistinctSnapshot(w.phases[j]))
    requires PhaseOf(w, k).ResetDone? && PhaseOf(w, k).listing == w.clients[e].listing < |w.inbounds|
    requires ReadingOf(PhaseOf(w, k).snap.clients, e) == Some(w.clients[e].counter) && w.clients[e].active
    requires !StillCovered(w.clients[e], BilledBytes(w.usage, e))
    ensures
      var v := Step(w, Bill(k, commission, FINE));
      e < |v.clients| && Settled(v.clients[e], BilledBytes(v.usage, e)) > v.clients[e].moved
  {
    BillOnClient(w, k, commission, FINE, e);
    hide Step, BilledBytes, ReadingOf;
  }

  predicate InboundBalanced(inb: Inbound, credited: nat)
  {
    inb.anchor <= inb.counter && inb.moved == SettledInbound(inb, credited) + inb.counter - inb.anchor
  }

  predicate InboundStillCovered(inb: Inbound, credited: nat)
  {
    SettledInbound(inb, credited) + Delta(inb.counter, inb.anchor) <= inb.moved
  }

  /** An overtaken snapshot of an inbound is credited without harm if and only if it lies between the anchor and the
      counter as they are now. */
  lemma StaleCreditHarmsIff(w: World, k: Worker, commission: real, m: ListingId)
    requires m < |w.inbounds| && PhaseOf(w, k).ResetDone? && PhaseOf(w, k).listing == m
    requires InboundBalanced(w.inbounds[m], CreditedBytes(w.outbound, m))
    ensures
      var v, inb := Step(w, Bill(k, commission, FINE)), w.inbounds[m];
      && m < |v.inbounds|
      && (InboundStillCovered(v.inbounds[m], CreditedBytes(v.outbound, m))
          <==> inb.anchor <= PhaseOf(w, k).snap.total <= inb.counter)
  {
    BillOnInbound(w, k, commission, FINE, m);
    hide Step, CreditedBytes;
  }

  /** A worker that zeroes the anchors of its cycle after another has read does no harm if and only if the anchor is
      zero already. */
  lemma LateZeroHarmsIff(w: World, k: Worker, m: ListingId)
    requires m < |w.inbounds| && PhaseOf(w, k).GlobalResetDone?
    requires PhaseOf(w, k).succeeded && m in PhaseOf(w, k).processed
    requires InboundBalanced(w.inbounds[m], CreditedBytes(w.outbound, m))
    ensures
      var v := Step(w, ZeroAnchors(k, true));
      && m < |v.inbounds|
      && (InboundStillCovered(v.inbounds[m], CreditedBytes(v.outbound, m)) <==> w.inbounds[m].anchor == 0)
  {
    ZeroStep(w, k, true);
    hide Step, CreditedBytes;
  }
}
