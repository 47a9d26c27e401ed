/** What the scheduler's single-instance guard buys: a poll worker no other poll worker interferes with meets
    the non-overlap assumptions, bills each listing at most once in a cycle, and so keeps every bound of the
    metering over any number of cycles from an empty marketplace.
*/
module PollCycles {
  import opened BillingMath
  import opened Common
  import opened Metering
  import opened MeteringSafety
  import opened SellerSafety
  import opened ByteConservation
  import opened Poller

  // ----- A worker alone meets the assumptions -----

  predicate Quiet(evs: seq<Event>) { forall i | 0 <= i < |evs| :: IsOutside(evs[i]) }

  /** No other poll worker acts in any gap, and resets are reported as done only when they are. */
  ghost predicate LoneScript(s: CycleScript)
  {
    && (forall l: ListingId ::
          && Quiet(s.subs(l).before) && Quiet(s.subs(l).gap) && Quiet(s.subs(l).pause)
          && (s.subs(l).resetReported ==> s.subs(l).resetTook))
    && Quiet(s.beforeGlobal) && Quiet(s.beforeZero) && (s.globalReported ==> s.globalTook)
  }

  predicate Mine(evs: seq<Event>, me: Worker)
  {
    forall i | 0 <= i < |evs| :: (IsOutside(evs[i]) || ActsFor(evs[i], me)) && HonestReset(evs[i])
  }

  predicate OthersIdle(w: World, me: Worker) { forall k | k in w.phases && k != me :: w.phases[k].Idle? }

  lemma StepKeepsOthersIdle(w: World, ev: Event, me: Worker)
    requires OthersIdle(w, me) && (IsOutside(ev) || ActsFor(ev, me))
    ensures OthersIdle(Step(w, ev), me)
  {
    if ev.Bill? {
      BillPhases(w, ev.worker, ev.commission, ev.commit);
    }
  }

  lemma {:induction false} LoneWorkerIsExclusive(w: World, evs: seq<Event>, me: Worker, l: ListingId)
    requires OthersIdle(w, me) && Mine(evs, me)
    ensures SellerAssumptions(w, evs) && BuyerAssumptions(w, evs, l)
    decreases |evs|
  {
    hide Step;
    if evs != [] {
      StepKeepsOthersIdle(w, evs[0], me);
      LoneWorkerIsExclusive(Step(w, evs[0]), evs[1..], me, l);
    }
  }

  lemma MineAppends(a: seq<Event>, b: seq<Event>, me: Worker)
    requires Mine(a, me) && Mine(b, me)
    ensures Mine(a + b, me)
  {
  }

  lemma QuietIsMine(evs: seq<Event>, me: Worker)
    requires Quiet(evs)
    ensures Mine(evs, me)
  {
  }

  lemma SubCycleIsMine(me: Worker, resetEnabled: bool, commission: real, w: World, l: ListingId, s: SubScript)
    requires Quiet(s.before) && Quiet(s.gap) && Quiet(s.pause) && (s.resetReported ==> s.resetTook)
    ensures Mine(SubCycle(me, resetEnabled, commission, w, l, s), me)
  {
    hide Run, Listed;
    var readings := Listed(Run(w, s.before), l, s.emails);
    var reset := ResetEvent(me, resetEnabled, readings, s.resetTook, s.resetReported);
    assert Mine([Read(me, l, readings)], me) && Mine([reset], me) && Mine([Bill(me, commission, s.commit)], me);
    assert Mine(s.before, me) && Mine(s.gap, me) && Mine(s.pause, me);
    hide Mine, Quiet;
    MineAppends(s.before, [Read(me, l, readings)], me);
    MineAppends(s.before + [Read(me, l, readings)], s.gap, me);
    MineAppends(s.before + [Read(me, l, readings)] + s.gap, [reset], me);
    MineAppends(s.before + [Read(me, l, readings)] + s.gap + [reset], s.pause, me);
    MineAppends(s.before + [Read(me, l, readings)] + s.gap + [reset] + s.pause, [Bill(me, commission, s.commit)], me);
  }

  lemma StartIsMine(me: Worker)
    ensures Mine([StartCycle(me)], me)
  {
  }

  lemma {:induction false} SubCyclesAreMine(me: Worker, resetEnabled: bool, commission: real, w: World,
      ids: seq<ListingId>, s: CycleScript, n: nat)
    requires n <= |ids| && LoneScript(s)
    ensures Mine(SubCycles(me, resetEnabled, commission, w, ids, s, n), me)
  {
    hide Step, Run, SubCycle, Mine, Quiet;
    if n == 0 {
      StartIsMine(me);
    } else {
      SubCyclesAreMine(me, resetEnabled, commission, w, ids, s, n - 1);
      var before, id := SubCycles(me, resetEnabled, commission, w, ids, s, n - 1), ids[n - 1];
      SubCycleIsMine(me, resetEnabled, commission, Run(w, before), id, s.subs(id));
      MineAppends(before, SubCycle(me, resetEnabled, commission, Run(w, before), id, s.subs(id)), me);
    }
  }

  lemma CycleIsMine(me: Worker, resetEnabled: bool, commission: real, w: World, s: CycleScript)
    requires LoneScript(s)
    ensures Mine(Cycle(me, resetEnabled, commission, w, s), me)
  {
    var ids := Provisioned(w.inbounds);
    if ids != [] {
      SubCyclesAreMine(me, resetEnabled, commission, w, ids, s, |ids|);
      var a := SubCycles(me, resetEnabled, commission, w, ids, s, |ids|);
      var b := a + s.beforeGlobal;
      var global := GlobalEvent(me, resetEnabled, PhaseOf(Run(w, b), me), s.globalTook, s.globalReported);
      assert Mine([global], me) && Mine([ZeroAnchors(me, s.zeroApplied)], me);
      hide Step, Run, SubCycles, Mine, Quiet, PhaseOf, GlobalEvent, Provisioned;
      QuietIsMine(s.beforeGlobal, me);
      QuietIsMine(s.beforeZero, me);
      MineAppends(a, s.beforeGlobal, me);
      MineAppends(b, [global], me);
      MineAppends(b + [global], s.beforeZero, me);
      MineAppends(b + [global] + s.beforeZero, [ZeroAnchors(me, s.zeroApplied)], me);
    }
  }

  /** A cycle no other poll worker interferes with meets both non-overlap assumptions, for every listing. */
  lemma LoneCycleIsExclusive(me: Worker, resetEnabled: bool, commission: real, w: World, s: CycleScript, l: ListingId)
    requires OthersIdle(w, me) && LoneScript(s)
    ensures
      var evs := Cycle(me, resetEnabled, commission, w, s);
      SellerAssumptions(w, evs) && BuyerAssumptions(w, evs, l)
  {
    CycleIsMine(me, resetEnabled, commission, w, s);
    LoneWorkerIsExclusive(w, Cycle(me, resetEnabled, commission, w, s), me, l);
  }

  // ----- One bill per listing and cycle -----

  lemma {:induction false} HomeBillsAppends(w: World, a: seq<Event>, b: seq<Event>, l: ListingId)
    ensures HomeBills(w, a + b, l) == HomeBills(w, a, l) + HomeBills(Run(w, a), b, l)
    decreases |a|
  {
    hide Step, BillsHome;
    if a == [] {
      assert a + b == b;
    } else {
      assert (a + b)[0] == a[0] && (a + b)[1..] == a[1..] + b;
      HomeBillsAppends(Step(w, a[0]), a[1..], b, l);
    }
  }

  lemma {:induction false} QuietKeeps(w: World, evs: seq<Event>, me: Worker, l: ListingId)
    requires Quiet(evs)
    ensures PhaseOf(Run(w, evs), me) == PhaseOf(w, me) && HomeBills(w, evs, l) == 0
    decreases |evs|
  {
    if evs != [] {
      OthersKeepPhase(w, evs[0], me);
      hide Step;
      QuietKeeps(Step(w, evs[0]), evs[1..], me, l);
    }
  }

  lemma OneEvent(w: World, ev: Event, l: ListingId)
    ensures Run(w, [ev]) == Step(w, ev) && HomeBills(w, [ev], l) == if BillsHome(w, ev, l) then 1 else 0
  {
    hide Step, BillsHome;
    assert [ev][1..] == [];
  }

  /** One step of the worker and then a quiet gap. */
  lemma StepThenQuiet(w: World, ev: Event, gap: seq<Event>, me: Worker, l: ListingId)
    requires Quiet(gap)
    ensures
      && PhaseOf(Run(w, [ev] + gap), me) == PhaseOf(Step(w, ev), me)
      && HomeBills(w, [ev] + gap, l) == if BillsHome(w, ev, l) then 1 else 0
  {
    hide Step, BillsHome, PhaseOf;
    OneEvent(w, ev, l);
    HomeBillsAppends(w, [ev], gap, l);
    RunAppends(w, [ev], gap);
    QuietKeeps(Step(w, ev), gap, me, l);
  }

  lemma ReadStep(w: World, me: Worker, l: ListingId, emails: seq<Email>)
    requires PhaseOf(w, me).BetweenListings? && l < |w.inbounds| && w.inbounds[l].provisioned
    ensures
      var p := PhaseOf(Step(w, Read(me, l, Listed(w, l, emails))), me);
      p.SnapshotTaken? && p.listing == l && p.snap.clients == Listed(w, l, emails)
  {
    hide Listed;
  }

  lemma ResetPhase(w: World, me: Worker, resetEnabled: bool, readings: seq<Reading>, took: bool, reported: bool)
    requires PhaseOf(w, me).SnapshotTaken? && PhaseOf(w, me).snap.clients == readings
    ensures
      var p := PhaseOf(Step(w, ResetEvent(me, resetEnabled, readings, took, reported)), me);
      p.ResetDone? && p.listing == PhaseOf(w, me).listing
  {
  }

  lemma BillPhase(w: World, me: Worker, commission: real, commit: Commit)
    requires PhaseOf(w, me).ResetDone?
    ensures PhaseOf(Step(w, Bill(me, commission, commit)), me).BetweenListings?
  {
    BillPhases(w, me, commission, commit);
  }

  /** A sub-cycle bills its own listing at most once, and no other. */
  lemma SubCycleBills(me: Worker, resetEnabled: bool, commission: real, w: World, id: ListingId, s: SubScript,
      l: ListingId)
    requires PhaseOf(w, me).BetweenListings? && Quiet(s.before) && Quiet(s.gap) && Quiet(s.pause)
    ensures
      var evs := SubCycle(me, resetEnabled, commission, w, id, s);
      && HomeBills(w, evs, l) <= (if id == l then 1 else 0)
      && PhaseOf(Run(w, evs), me).BetweenListings?
  {
    hide Step, Run, Listed, Quiet, HomeBills, PhaseOf;
    var u := Run(w, s.before);
    QuietKeeps(w, s.before, me, l);
    if id < |u.inbounds| && u.inbounds[id].provisioned && s.readOk {
      var readings := Listed(u, id, s.emails);
      var read := [Read(me, id, readings)] + s.gap;
      var reset := [ResetEvent(me, resetEnabled, readings, s.resetTook, s.resetReported)] + s.pause;
      var bill := [Bill(me, commission, s.commit)];
      ReadStep(u, me, id, s.emails);
      StepThenQuiet(u, read[0], s.gap, me, l);
      var v := Run(u, read);
      ResetPhase(v, me, resetEnabled, readings, s.resetTook, s.resetReported);
      StepThenQuiet(v, reset[0], s.pause, me, l);
      var x := Run(v, reset);
      BillPhase(x, me, commission, s.commit);
      OneEvent(x, bill[0], l);
      assert SubCycle(me, resetEnabled, commission, w, id, s) == s.before + (read + (reset + bill));
      HomeBillsAppends(w, s.before, read + (reset + bill), l);
      HomeBillsAppends(u, read, reset + bill, l);
      HomeBillsAppends(v, reset, bill, l);
      RunAppends(w, s.before, read + (reset + bill));
      RunAppends(u, read, reset + bill);
      RunAppends(v, reset, bill);
    }
  }

  lemma AscendingPrefix(ids: seq<ListingId>, n: nat)
    requires 0 < n <= |ids| && forall i, j | 0 <= i < j < |ids| :: ids[i] < ids[j]
    ensures ids[n - 1] !in ids[..n - 1]
    ensures forall l: ListingId :: l in ids[..n] <==> l in ids[..n - 1] || l == ids[n - 1]
  {
    assert ids[..n] == ids[..n - 1] + [ids[n - 1]];
  }

  lemma {:induction false} SubCyclesBill(me: Worker, resetEnabled: bool, commission: real, w: World,
      ids: seq<ListingId>, s: CycleScript, n: nat, l: ListingId)
    requires n <= |ids| && PhaseOf(w, me).Idle? && LoneScript(s)
    requires forall i, j | 0 <= i < j < |ids| :: ids[i] < ids[j]
    ensures
      var evs := SubCycles(me, resetEnabled, commission, w, ids, s, n);
      && HomeBills(w, evs, l) <= (if l in ids[..n] then 1 else 0)
      && PhaseOf(Run(w, evs), me).BetweenListings?
  {
    if n == 0 {
      OneEvent(w, StartCycle(me), l);
    } else {
      var before, id := SubCycles(me, resetEnabled, commission, w, ids, s, n - 1), ids[n - 1];
      SubCyclesBill(me, resetEnabled, commission, w, ids, s, n - 1, l);
      SubCycleBills(me, resetEnabled, commission, Run(w, before), id, s.subs(id), l);
      hide SubCycle, Run, HomeBills, PhaseOf, LoneScript;
      HomeBillsAppends(w, before, SubCycle(me, resetEnabled, commission, Run(w, before), id, s.subs(id)), l);
      RunAppends(w, before, SubCycle(me, resetEnabled, commission, Run(w, before), id, s.subs(id)));
      AscendingPrefix(ids, n);
    }
  }

  lemma GlobalPhase(w: World, me: Worker, resetEnabled: bool, took: bool, reported: bool)
    requires PhaseOf(w, me).BetweenListings?
    ensures PhaseOf(Step(w, GlobalEvent(me, resetEnabled, PhaseOf(w, me), took, reported)), me).GlobalResetDone?
  {
  }

  lemma ZeroPhase(w: World, me: Worker, applied: bool)
    requires PhaseOf(w, me).GlobalResetDone?
    ensures PhaseOf(Step(w, ZeroAnchors(me, applied)), me).Idle?
  {
  }

  lemma Regroup(a: seq<Event>, b: seq<Event>, c: seq<Event>, d: seq<Event>)
    ensures a + b + c + d == a + (b + c + d)
  {
  }

  /** The end of a cycle bills nothing. */
  lemma CycleEnds(me: Worker, resetEnabled: bool, w: World, s: CycleScript, l: ListingId)
    requires PhaseOf(w, me).BetweenListings? && Quiet(s.beforeZero)
    ensures
      var global := [GlobalEvent(me, resetEnabled, PhaseOf(w, me), s.globalTook, s.globalReported)] + s.beforeZero;
      var evs := global + [ZeroAnchors(me, s.zeroApplied)];
      HomeBills(w, evs, l) == 0 && PhaseOf(Run(w, evs), me).Idle?
  {
    hide Step, Run, HomeBills, PhaseOf, Quiet;
    var global := [GlobalEvent(me, resetEnabled, PhaseOf(w, me), s.globalTook, s.globalReported)] + s.beforeZero;
    GlobalPhase(w, me, resetEnabled, s.globalTook, s.globalReported);
    StepThenQuiet(w, global[0], s.beforeZero, me, l);
    var v := Run(w, global);
    ZeroPhase(v, me, s.zeroApplied);
    OneEvent(v, ZeroAnchors(me, s.zeroApplied), l);
    HomeBillsAppends(w, global, [ZeroAnchors(me, s.zeroApplied)], l);
    RunAppends(w, global, [ZeroAnchors(me, s.zeroApplied)]);
  }

  /** A cycle bills every listing at most once and leaves its worker idle. */
  lemma CycleBillsOnce(me: Worker, resetEnabled: bool, commission: real, w: World, s: CycleScript, l: ListingId)
    requires PhaseOf(w, me).Idle? && LoneScript(s)
    ensures
      var evs := Cycle(me, resetEnabled, commission, w, s);
      HomeBills(w, evs, l) <= 1 && PhaseOf(Run(w, evs), me).Idle?
  {
    var ids := Provisioned(w.inbounds);
    if ids == [] {
      assert HomeBills(w, [], l) == 0;
    } else {
      SubCyclesBill(me, resetEnabled, commission, w, ids, s, |ids|, l);
      hide Step, Run, Quiet, HomeBills, PhaseOf, SubCycles, Provisioned;
      var a := SubCycles(me, resetEnabled, commission, w, ids, s, |ids|);
      QuietKeeps(Run(w, a), s.beforeGlobal, me, l);
      HomeBillsAppends(w, a, s.beforeGlobal, l);
      RunAppends(w, a, s.beforeGlobal);
      var v := Run(w, a + s.beforeGlobal);
      CycleEnds(me, resetEnabled, v, s, l);
      var global := [GlobalEvent(me, resetEnabled, PhaseOf(v, me), s.globalTook, s.globalReported)] + s.beforeZero;
      var end := global + [ZeroAnchors(me, s.zeroApplied)];
      HomeBillsAppends(w, a + s.beforeGlobal, end, l);
      RunAppends(w, a + s.beforeGlobal, end);
      Regroup(a + s.beforeGlobal, [global[0]], s.beforeZero, [ZeroAnchors(me, s.zeroApplied)]);
    }
  }

  // ----- Any number of cycles -----

  /** What others do after the previous cycle, the cycle, and after how many of its steps, those of others included,
      its worker dies, if it does. */
  datatype Round = Round(before: seq<Event>, cycle: CycleScript, dies: Option<nat>)

  ghost predicate LoneRounds(rounds: seq<Round>)
  {
    forall i | 0 <= i < |rounds| :: Quiet(rounds[i].before) && LoneScript(rounds[i].cycle)
  }

  /** A cycle as far as its worker lives. A transaction the death interrupts has not happened. */
  function Lived(me: Worker, evs: seq<Event>, dies: Option<nat>): seq<Event>
  {
    if dies.None? || dies.value > |evs| then evs else evs[..dies.value] + [Crash(me)]
  }

  function RoundEvents(me: Worker, resetEnabled: bool, commission: real, w: World, round: Round): seq<Event>
  {
    round.before + Lived(me, Cycle(me, resetEnabled, commission, Run(w, round.before), round.cycle), round.dies)
  }

  function Rounds(me: Worker, resetEnabled: bool, commission: real, w: World, rounds: seq<Round>): seq<Event>
    decreases |rounds|
  {
    if rounds == [] then []
    else
      var evs := RoundEvents(me, resetEnabled, commission, w, rounds[0]);
      evs + Rounds(me, resetEnabled, commission, Run(w, evs), rounds[1..])
  }

  lemma CrashIdles(w: World, me: Worker, l: ListingId)
    ensures PhaseOf(Step(w, Crash(me)), me).Idle? && !BillsHome(w, Crash(me), l)
  {
  }

  /** Cut short anywhere, a worker's steps bill no more than they would have, and leave it idle. */
  lemma LivedBills(w: World, me: Worker, evs: seq<Event>, dies: Option<nat>, l: ListingId)
    requires PhaseOf(Run(w, evs), me).Idle?
    ensures
      var lived := Lived(me, evs, dies);
      HomeBills(w, lived, l) <= HomeBills(w, evs, l) && PhaseOf(Run(w, lived), me).Idle?
  {
    if dies.Some? && dies.value <= |evs| {
      var k := dies.value;
      assert evs == evs[..k] + evs[k..];
      HomeBillsAppends(w, evs[..k], evs[k..], l);
      HomeBillsAppends(w, evs[..k], [Crash(me)], l);
      RunAppends(w, evs[..k], [Crash(me)]);
      OneEvent(Run(w, evs[..k]), Crash(me), l);
      CrashIdles(Run(w, evs[..k]), me, l);
    }
  }

  lemma RoundBillsOnce(me: Worker, resetEnabled: bool, commission: real, w: World, round: Round, l: ListingId)
    requires PhaseOf(w, me).Idle? && Quiet(round.before) && LoneScript(round.cycle)
    ensures
      var evs := RoundEvents(me, resetEnabled, commission, w, round);
      HomeBills(w, evs, l) <= 1 && PhaseOf(Run(w, evs), me).Idle?
  {
    hide Run, HomeBills, PhaseOf, Cycle, Quiet, LoneScript, Lived;
    var u := Run(w, round.before);
    var cycle := Cycle(me, resetEnabled, commission, u, round.cycle);
    QuietKeeps(w, round.before, me, l);
    CycleBillsOnce(me, resetEnabled, commission, u, round.cycle, l);
    LivedBills(u, me, cycle, round.dies, l);
    HomeBillsAppends(w, round.before, Lived(me, cycle, round.dies), l);
    RunAppends(w, round.before, Lived(me, cycle, round.dies));
  }

  /** One round, and whatever is billed after it. */
  lemma RoundThenRest(me: Worker, resetEnabled: bool, commission: real, w: World, round: Round, rest: seq<Event>,
      l: ListingId, n: nat)
    requires PhaseOf(w, me).Idle? && Quiet(round.before) && LoneScript(round.cycle)
    requires HomeBills(Run(w, RoundEvents(me, resetEnabled, commission, w, round)), rest, l) <= n
    ensures HomeBills(w, RoundEvents(me, resetEnabled, commission, w, round) + rest, l) <= n + 1
  {
    hide Step, Run, HomeBills, PhaseOf, RoundEvents, Quiet, LoneScript;
    RoundBillsOnce(me, resetEnabled, commission, w, round, l);
    HomeBillsAppends(w, RoundEvents(me, resetEnabled, commission, w, round), rest, l);
  }

  lemma {:induction false} RoundsBill(me: Worker, resetEnabled: bool, commission: real, w: World, rounds: seq<Round>,
      l: ListingId)
    requires PhaseOf(w, me).Idle? && LoneRounds(rounds)
    ensures HomeBills(w, Rounds(me, resetEnabled, commission, w, rounds), l) <= |rounds|
    decreases |rounds|
  {
    if rounds == [] {
      assert HomeBills(w, [], l) == 0;
    } else {
      hide Step, Run, HomeBills, PhaseOf, RoundEvents, Quiet, LoneScript;
      var evs := RoundEvents(me, resetEnabled, commission, w, rounds[0]);
      RoundBillsOnce(me, resetEnabled, commission, w, rounds[0], l);
      RoundsBill(me, resetEnabled, commission, Run(w, evs), rounds[1..], l);
      var rest := Rounds(me, resetEnabled, commission, Run(w, evs), rounds[1..]);
      RoundThenRest(me, resetEnabled, commission, w, rounds[0], rest, l, |rounds| - 1);
    }
  }

  lemma LivedIsMine(me: Worker, evs: seq<Event>, dies: Option<nat>)
    requires Mine(evs, me)
    ensures Mine(Lived(me, evs, dies), me)
  {
    hide Step;
  }

  lemma RoundIsMine(me: Worker, resetEnabled: bool, commission: real, w: World, round: Round)
    requires Quiet(round.before) && LoneScript(round.cycle)
    ensures Mine(RoundEvents(me, resetEnabled, commission, w, round), me)
  {
    hide Step, Run, Cycle, LoneScript, Lived, Mine, Quiet;
    var cycle := Cycle(me, resetEnabled, commission, Run(w, round.before), round.cycle);
    QuietIsMine(round.before, me);
    CycleIsMine(me, resetEnabled, commission, Run(w, round.before), round.cycle);
    LivedIsMine(me, cycle, round.dies);
    MineAppends(round.before, Lived(me, cycle, round.dies), me);
  }

  lemma {:induction false} RoundsAreMine(me: Worker, resetEnabled: bool, commission: real, w: World, rounds: seq<Round>)
    requires LoneRounds(rounds)
    ensures Mine(Rounds(me, resetEnabled, commission, w, rounds), me)
    decreases |rounds|
  {
    if rounds != [] {
      RoundIsMine(me, resetEnabled, commission, w, rounds[0]);
      hide Run, RoundEvents, Mine, LoneScript, Quiet;
      var evs := RoundEvents(me, resetEnabled, commission, w, rounds[0]);
      RoundsAreMine(me, resetEnabled, commission, Run(w, evs), rounds[1..]);
      MineAppends(evs, Rounds(me, resetEnabled, commission, Run(w, evs), rounds[1..]), me);
    }
  }

  /** n cycles, each cut short by its worker's death or not, forgive at most n times one byte less than the billable
      minimum of one config. */
  lemma CyclesForgive(me: Worker, resetEnabled: bool, commission: real, w: World, rounds: seq<Round>, e: Email)
    requires PhaseOf(w, me).Idle? && LoneRounds(rounds) && e < |w.clients| && DistinctSnapshots(w)
    ensures
      var v := Run(w, Rounds(me, resetEnabled, commission, w, rounds));
      e < |v.clients| && v.clients[e].forgiven <= w.clients[e].forgiven + |rounds| * (MIN_BILLABLE - 1)
  {
    hide Run, HomeBills, Rounds, LoneRounds, PhaseOf;
    RoundsBill(me, resetEnabled, commission, w, rounds, w.clients[e].listing);
    ForgivenessBound(w, Rounds(me, resetEnabled, commission, w, rounds), e);
  }

  /** From an empty marketplace, however many cycles one poll worker runs, whatever fails in them and wherever it dies:
      no buyer is billed for more than the client moved and no seller credited for more than the inbound carried. */
  lemma LoneWorkerIsFair(me: Worker, resetEnabled: bool, commission: real, rounds: seq<Round>)
    requires LoneRounds(rounds)
    ensures
      var v := Run(EMPTY, Rounds(me, resetEnabled, commission, EMPTY, rounds));
      && (forall e: Email | e < |v.clients| :: BilledBytes(v.usage, e) <= v.clients[e].moved)
      && (forall l: ListingId | l < |v.inbounds| :: CreditedBytes(v.outbound, l) <= v.inbounds[l].moved)
  {
    hide Run, Rounds, LoneRounds;
    var evs := Rounds(me, resetEnabled, commission, EMPTY, rounds);
    RoundsAreMine(me, resetEnabled, commission, EMPTY, rounds);
    var v := Run(EMPTY, evs);
    forall e: Email | e < |v.clients|
      ensures BilledBytes(v.usage, e) <= v.clients[e].moved
    {
      LoneWorkerIsExclusive(EMPTY, evs, me, v.clients[e].listing);
      NobodyOverbilledFromStart(evs, e);
    }
    forall l: ListingId | l < |v.inbounds|
      ensures CreditedBytes(v.outbound, l) <= v.inbounds[l].moved
    {
      LoneWorkerIsExclusive(EMPTY, evs, me, l);
      NobodyOvercreditedFromStart(evs, l);
    }
  }
}
