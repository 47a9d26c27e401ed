/** The poll worker as it runs: table rows and panel counters updated in place, one call after another.

    Calls to the panel and to the database end as a script says, and between any two of them the
    script lets other actors act. Every method returns the events it amounts to, so whatever holds
    of all runs of `Metering` holds of the worker.
*/
module Poller {
  import opened BillingMath
  import opened Common
  import opened Metering
  import opened MeteringSafety
  import opened SellerSafety

  /** Who acts: the worker of the event, or nobody when it comes from outside the workers. */
  predicate ActsFor(ev: Event, k: Worker)
  {
    match ev
    case StartCycle(j) => j == k
    case Read(j, _, _) => j == k
    case ResetClients(j, _, _) => j == k
    case SkipReset(j) => j == k
    case Bill(j, _, _) => j == k
    case GlobalReset(j, _, _) => j == k
    case SkipGlobalReset(j) => j == k
    case ZeroAnchors(j, _) => j == k
    case Crash(j) => j == k
    case _ => false
  }

  predicate Others(evs: seq<Event>, me: Worker) { forall i | 0 <= i < |evs| :: !ActsFor(evs[i], me) }

  lemma OthersKeepPhase(w: World, ev: Event, me: Worker)
    requires !ActsFor(ev, me)
    ensures PhaseOf(Step(w, ev), me) == PhaseOf(w, me)
  {
    if ev.Bill? {
      BillPhases(w, ev.worker, ev.commission, ev.commit);
    }
  }

  /** The clients the panel lists, in its order: this inbound's, each once, with their counters. */
  function Listed(w: World, l: ListingId, emails: seq<Email>): (readings: seq<Reading>)
    ensures Truthful(w, l, readings)
  {
    if emails == [] then []
    else
      var init, e := Listed(w, l, emails[..|emails| - 1]), emails[|emails| - 1];
      if e < |w.clients| && w.clients[e].listing == l && ReadingOf(init, e).None? then
        ReadingOfMentioned(init, e);
        init + [Reading(e, w.clients[e].counter)]
      else init
  }

  lemma {:induction false} ListedIff(w: World, l: ListingId, emails: seq<Email>, e: Email)
    ensures
      ReadingOf(Listed(w, l, emails), e)
      == if e in emails && e < |w.clients| && w.clients[e].listing == l then Some(w.clients[e].counter) else None
  {
    if emails != [] {
      var init, last := emails[..|emails| - 1], emails[|emails| - 1];
      ListedIff(w, l, init, e);
      ListedIff(w, l, init, last);
      assert e in emails <==> e in init || e == last;
      var before := Listed(w, l, init);
      if last < |w.clients| && w.clients[last].listing == l && ReadingOf(before, last).None? {
        assert (before + [Reading(last, w.clients[last].counter)])[..|before|] == before;
      }
    }
  }

  /** How one listing's sub-cycle goes: what others do before the read, between read and reset and
      before the commit, what the panel answers, and how the commit ends. */
  datatype SubScript = SubScript(
    before: seq<Event>, readOk: bool, emails: seq<Email>,
    gap: seq<Event>, resetTook: bool, resetReported: bool,
    pause: seq<Event>, commit: Commit)

  datatype CycleScript = CycleScript(
    subs: ListingId -> SubScript, beforeGlobal: seq<Event>, globalTook: bool, globalReported: bool,
    beforeZero: seq<Event>, zeroApplied: bool)

  predicate SubScriptFor(s: SubScript, me: Worker) { Others(s.before, me) && Others(s.gap, me) && Others(s.pause, me) }

  ghost predicate ScriptFor(s: CycleScript, me: Worker)
  {
    && (forall l: ListingId :: SubScriptFor(s.subs(l), me))
    && Others(s.beforeGlobal, me) && Others(s.beforeZero, me)
  }

  // ----- The events a cycle amounts to -----

  function ResetEvent(me: Worker, resetEnabled: bool, readings: seq<Reading>, took: bool, reported: bool): Event
  {
    if resetEnabled && readings != [] then ResetClients(me, took, reported) else SkipReset(me)
  }

  /** Others, then read, reset and bill with others in each gap; nothing but the others when the read fails. */
  function SubCycle(me: Worker, resetEnabled: bool, commission: real, w: World, l: ListingId, s: SubScript): seq<Event>
  {
    var u := Run(w, s.before);
    if l >= |u.inbounds| || !u.inbounds[l].provisioned || !s.readOk then s.before
    else
      var readings := Listed(u, l, s.emails);
      s.before
      + [Read(me, l, readings)] + s.gap
      + [ResetEvent(me, resetEnabled, readings, s.resetTook, s.resetReported)] + s.pause
      + [Bill(me, commission, s.commit)]
  }

  /** The start of a cycle and the sub-cycles of the first `n` listings, one after another. */
  function SubCycles(me: Worker, resetEnabled: bool, commission: real, w: World, ids: seq<ListingId>, s: CycleScript,
      n: nat): seq<Event>
    requires n <= |ids|
  {
    if n == 0 then [StartCycle(me)]
    else
      var before := SubCycles(me, resetEnabled, commission, w, ids, s, n - 1);
      before + SubCycle(me, resetEnabled, commission, Run(w, before), ids[n - 1], s.subs(ids[n - 1]))
  }

  function Provisioned(inbounds: seq<Inbound>): (ids: seq<ListingId>)
    ensures forall l: ListingId :: l in ids <==> l < |inbounds| && inbounds[l].provisioned && !inbounds[l].deleted
    ensures forall i, j | 0 <= i < j < |ids| :: ids[i] < ids[j]
  {
    if inbounds == [] then []
    else
      var last := |inbounds| - 1;
      var before := Provisioned(inbounds[..last]);
      assert forall i | 0 <= i < |before| :: before[i] in before;
      if inbounds[last].provisioned && !inbounds[last].deleted then before + [last] else before
  }

  function GlobalEvent(me: Worker, resetEnabled: bool, phase: Phase, took: bool, reported: bool): Event
  {
    if resetEnabled && phase.BetweenListings? && phase.processed != {}
    then GlobalReset(me, took, reported)
    else SkipGlobalReset(me)
  }

  /** A whole cycle: every listing, then the global reset if anything was processed, then the anchors. */
  function Cycle(me: Worker, resetEnabled: bool, commission: real, w: World, s: CycleScript): seq<Event>
  {
    var ids := Provisioned(w.inbounds);
    if ids == [] then []
    else
      var a := SubCycles(me, resetEnabled, commission, w, ids, s, |ids|) + s.beforeGlobal;
      a + [GlobalEvent(me, resetEnabled, PhaseOf(Run(w, a), me), s.globalTook, s.globalReported)] + s.beforeZero
      + [ZeroAnchors(me, s.zeroApplied)]
  }

  lemma NothingYet(w: World)
    ensures Run(w, []) == w
  {
  }

  lemma RunsAreSafe(w: World, evs: seq<Event>)
    ensures forall e: Email | ClientSafe(w, e) && BuyerAssumptions(w, evs, w.clients[e].listing) ::
              ClientSafe(Run(w, evs), e)
    ensures forall l: ListingId | InboundSafe(w, l) && SellerAssumptions(w, evs) :: InboundSafe(Run(w, evs), l)
  {
    forall e: Email | ClientSafe(w, e) && BuyerAssumptions(w, evs, w.clients[e].listing)
      ensures ClientSafe(Run(w, evs), e)
    {
      RunKeepsClientSafe(w, evs, e);
    }
    forall l: ListingId | InboundSafe(w, l) && SellerAssumptions(w, evs)
      ensures InboundSafe(Run(w, evs), l)
    {
      RunKeepsInboundSafe(w, evs, l);
    }
  }

  /** What one reading does to the tables, with the rule for small deltas written out. */
  lemma ReadingInFull(w: World, l: ListingId, r: Reading, rate: real, reset: bool)
    ensures r.email >= |w.clients| || w.clients[r.email].listing != l || !w.clients[r.email].active ==>
              BillReading(w, l, r, rate, reset) == w
    ensures
      r.email < |w.clients| && w.clients[r.email].listing == l && w.clients[r.email].active ==>
        var c := w.clients[r.email];
        var due := if r.total < c.anchor then r.total else r.total - c.anchor;
        var debit := Charge(due, rate);
        var anchor := if reset then 0 else r.total;
        BillReading(w, l, r, rate, reset)
        == if due < 524288 then
             w.(clients := w.clients[r.email := c.(anchor := anchor, forgiven := c.forgiven + due)])
           else
             w.(clients := w.clients[r.email := c.(anchor := anchor)],
                usage := w.usage + [ConfigUsage(r.email, l, due, GbUnits(due), debit)],
                ledger := w.ledger + if debit > 0 then [UsageDebit(r.email, -debit)] else [])
  {
    hide Charge, GbUnits;
    if r.email < |w.clients| && (w.clients[r.email].listing != l || !w.clients[r.email].active) {
      assert w.clients[r.email := w.clients[r.email]] == w.clients;
    }
  }

  lemma CreditInFull(w: World, l: ListingId, total: nat)
    requires l < |w.inbounds|
    ensures
      var inb, v := w.inbounds[l], CreditInbound(w, l, total);
      var due := if total < inb.anchor then total else total - inb.anchor;
      var credit := Charge(due, SellerRate(inb.price));
      && v == w.(inbounds := v.inbounds, outbound := v.outbound, ledger := v.ledger)
      && (due < 524288 ==>
            && v.inbounds == w.inbounds[l := inb.(anchor := total, forgiven := inb.forgiven + due)]
            && v.outbound == w.outbound && v.ledger == w.ledger)
      && (due >= 524288 ==>
            && v.inbounds == w.inbounds[l := inb.(anchor := total)]
            && v.outbound == w.outbound + [OutboundUsage(l, due, GbUnits(due), credit)]
            && v.ledger == w.ledger + if credit > 0 then [UsageCredit(l, credit)] else [])
  {
    hide Charge, GbUnits, SellerRate;
    var inb := w.inbounds[l];
    var due := if total < inb.anchor then total else total - inb.anchor;
    assert AdvanceInbound(inb, total)
        == inb.(anchor := total, forgiven := inb.forgiven + if due < 524288 then due else 0);
  }

  class PollWorker {
    const me: Worker
    const resetEnabled: bool
    const commission: real

    var inbounds: seq<Inbound>
    var clients: seq<Client>
    var usage: seq<ConfigUsage>
    var outbound: seq<OutboundUsage>
    var ledger: seq<Entry>
    var phases: map<Worker, Phase>

    function State(): World
      reads this
    {
      World(inbounds, clients, usage, outbound, ledger, phases)
    }

    constructor (me: Worker, resetEnabled: bool, commission: real, w: World)
      ensures this.me == me && this.resetEnabled == resetEnabled && this.commission == commission && State() == w
    {
      this.me, this.resetEnabled, this.commission := me, resetEnabled, commission;
      inbounds, clients, phases := w.inbounds, w.clients, w.phases;
      usage, outbound, ledger := w.usage, w.outbound, w.ledger;
    }

    method Load(w: World)
      modifies this
      ensures State() == w
    {
      inbounds, clients, phases := w.inbounds, w.clients, w.phases;
      usage, outbound, ledger := w.usage, w.outbound, w.ledger;
    }

    /** Others act while this worker waits. */
    method Await(evs: seq<Event>)
      requires Others(evs, me)
      modifies this
      ensures State() == Run(old(State()), evs) && PhaseOf(State(), me) == old(PhaseOf(State(), me))
    {
      var i := 0;
      while i < |evs|
        invariant 0 <= i <= |evs|
        invariant Run(State(), evs[i..]) == Run(old(State()), evs)
        invariant PhaseOf(State(), me) == old(PhaseOf(State(), me))
      {
        OthersKeepPhase(State(), evs[i], me);
        assert evs[i..][1..] == evs[i + 1..];
        Load(Step(State(), evs[i]));
        i := i + 1;
      }
    }

    method PaySeller(l: ListingId, bytes: nat, credit: int)
      modifies `outbound, `ledger
      ensures outbound == old(outbound) + [OutboundUsage(l, bytes, GbUnits(bytes), credit)]
      ensures ledger == old(ledger) + if credit > 0 then [UsageCredit(l, credit)] else []
    {
      outbound := outbound + [OutboundUsage(l, bytes, GbUnits(bytes), credit)];
      if credit > 0 {
        ledger := ledger + [UsageCredit(l, credit)];
      }
    }

    /** The seller's part: one usage row and one credit from the inbound's delta. */
    method CreditSeller(l: ListingId, total: nat)
      requires l < |inbounds|
      modifies this
      ensures
        var inb := old(inbounds)[l];
        var due := if total < inb.anchor then total else total - inb.anchor;
        var credit := Charge(due, SellerRate(inb.price));
        && (due < 524288 ==>
              && inbounds == old(inbounds)[l := inb.(anchor := total, forgiven := inb.forgiven + due)]
              && outbound == old(outbound) && ledger == old(ledger))
        && (due >= 524288 ==>
              && inbounds == old(inbounds)[l := inb.(anchor := total)]
              && outbound == old(outbound) + [OutboundUsage(l, due, GbUnits(due), credit)]
              && ledger == old(ledger) + if credit > 0 then [UsageCredit(l, credit)] else [])
      ensures State() == CreditInbound(old(State()), l, total)
    {
      CreditInFull(State(), l, total);
      hide Charge, GbUnits, SellerRate, CreditInbound;
      var inb := inbounds[l];
      var delta := if total >= inb.anchor then total - inb.anchor else total;
      var forgiven := delta;
      if delta >= MIN_BILLABLE {
        forgiven := 0;
        PaySeller(l, delta, Charge(delta, SellerRate(inb.price)));
      }
      inbounds := inbounds[l := inb.(anchor := total, forgiven := inb.forgiven + forgiven)];
    }

    method DebitBuyer(email: Email, l: ListingId, bytes: nat, debit: int)
      modifies `usage, `ledger
      ensures usage == old(usage) + [ConfigUsage(email, l, bytes, GbUnits(bytes), debit)]
      ensures ledger == old(ledger) + if debit > 0 then [UsageDebit(email, -debit)] else []
    {
      usage := usage + [ConfigUsage(email, l, bytes, GbUnits(bytes), debit)];
      if debit > 0 {
        ledger := ledger + [UsageDebit(email, -debit)];
      }
    }

    /** One client of the snapshot: charge its active config for the delta, or forgive it, and move the anchor. */
    method BillClient(l: ListingId, ct: Reading, rate: real, succeeded: bool)
      modifies this
      ensures ct.email >= |old(clients)| || old(clients)[ct.email].listing != l || !old(clients)[ct.email].active ==>
                State() == old(State())
      ensures
        ct.email < |old(clients)| && old(clients)[ct.email].listing == l && old(clients)[ct.email].active ==>
          var cfg := old(clients)[ct.email];
          var due := if ct.total < cfg.anchor then ct.total else ct.total - cfg.anchor;
          var debit := Charge(due, rate);
          var anchor := if succeeded then 0 else ct.total;
          && (due < 524288 ==>
                && clients == old(clients)[ct.email := cfg.(anchor := anchor, forgiven := cfg.forgiven + due)]
                && usage == old(usage) && ledger == old(ledger))
          && (due >= 524288 ==>
                && clients == old(clients)[ct.email := cfg.(anchor := anchor)]
                && usage == old(usage) + [ConfigUsage(ct.email, l, due, GbUnits(due), debit)]
                && ledger == old(ledger) + if debit > 0 then [UsageDebit(ct.email, -debit)] else [])
      ensures State() == BillReading(old(State()), l, ct, rate, succeeded)
    {
      ReadingInFull(State(), l, ct, rate, succeeded);
      hide Charge, GbUnits, BillReading;
      if ct.email < |clients| && clients[ct.email].listing == l && clients[ct.email].active {
        var cfg := clients[ct.email];
        var bytes := if ct.total >= cfg.anchor then ct.total - cfg.anchor else ct.total;
        if bytes >= MIN_BILLABLE {
          DebitBuyer(ct.email, l, bytes, Charge(bytes, rate));
        } else {
          cfg := cfg.(forgiven := cfg.forgiven + bytes);
        }
        clients := clients[ct.email := cfg.(anchor := if succeeded then 0 else ct.total)];
      }
    }

    /** Insert the cycle's usage rows and wallet entries for one listing, and advance its anchors. */
    method BillRows(l: ListingId, snap: Snapshot, succeeded: bool)
      requires l < |inbounds|
      modifies this
      ensures State() == BillInbound(old(State()), l, snap, commission, succeeded)
    {
      var rate := BuyerRate(inbounds[l].price, commission);
      CreditSeller(l, snap.total);
      ghost var credited := State();
      var i := 0;
      while i < |snap.clients|
        invariant 0 <= i <= |snap.clients|
        invariant State() == BillReadings(credited, l, snap.clients[..i], rate, succeeded)
      {
        BillClient(l, snap.clients[i], rate, succeeded);
        assert snap.clients[..i + 1][..i] == snap.clients[..i];
        i := i + 1;
      }
      assert snap.clients[..i] == snap.clients;
    }

    /** 1. Read the snapshot. */
    method TakeSnapshot(l: ListingId, emails: seq<Email>) returns (snap: Snapshot)
      requires l < |inbounds| && inbounds[l].provisioned && PhaseOf(State(), me).BetweenListings?
      modifies `phases
      ensures State() == Step(old(State()), Read(me, l, snap.clients))
      ensures PhaseOf(State(), me) == SnapshotTaken(old(PhaseOf(State(), me)).processed, l, snap)
      ensures snap.clients == Listed(old(State()), l, emails) && snap.total == inbounds[l].counter
      ensures forall e: Email ::
                ReadingOf(snap.clients, e)
                == if e in emails && e < |clients| && clients[e].listing == l then Some(clients[e].counter) else None
    {
      forall e: Email {
        ListedIff(State(), l, emails, e);
      }
      snap := Snapshot(inbounds[l].counter, Listed(State(), l, emails));
      phases := phases[me := SnapshotTaken(PhaseOf(State(), me).processed, l, snap)];
    }

    /** 2. Reset the clients' counters at once, unless disabled or pointless. */
    method ResetStep(took: bool, reported: bool) returns (succeeded: bool, ghost ev: Event)
      requires PhaseOf(State(), me).SnapshotTaken?
      modifies this
      ensures inbounds == old(inbounds) && usage == old(usage) && outbound == old(outbound) && ledger == old(ledger)
      ensures resetEnabled && old(PhaseOf(State(), me)).snap.clients != []
              ==> succeeded == reported && ev == ResetClients(me, took, reported)
      ensures !resetEnabled || old(PhaseOf(State(), me)).snap.clients == [] ==> !succeeded && clients == old(clients)
      ensures |clients| == |old(clients)| && forall e | 0 <= e < |clients| ::
                && clients[e].anchor == old(clients)[e].anchor && clients[e].forgiven == old(clients)[e].forgiven
                && clients[e].counter
                   == if ev.ResetClients? && took && clients[e].listing == old(PhaseOf(State(), me)).listing then 0
                      else old(clients)[e].counter
      ensures State() == Step(old(State()), ev)
      ensures ev == ResetEvent(me, resetEnabled, old(PhaseOf(State(), me)).snap.clients, took, reported)
      ensures var p := old(PhaseOf(State(), me));
              PhaseOf(State(), me) == ResetDone(p.processed, p.listing, p.snap, succeeded)
    {
      var p := PhaseOf(State(), me);
      succeeded, ev := false, SkipReset(me);
      if resetEnabled && p.snap.clients != [] {
        if took {
          clients := WipeClients(clients, p.listing, p.snap.clients);
        }
        succeeded, ev := reported, ResetClients(me, took, reported);
      }
      phases := phases[me := ResetDone(p.processed, p.listing, p.snap, succeeded)];
    }

    /** 3. The database transaction, rolled back when the commit does not take effect. */
    method BillStep(commit: Commit) returns (ok: bool)
      requires PhaseOf(State(), me).ResetDone?
      modifies this
      ensures ok == (commit.ok && old(PhaseOf(State(), me)).listing < |old(inbounds)|)
      ensures !commit.applied ==>
                && inbounds == old(inbounds) && clients == old(clients)
                && usage == old(usage) && outbound == old(outbound) && ledger == old(ledger)
      ensures State() == Step(old(State()), Bill(me, commission, commit))
      ensures var p := old(PhaseOf(State(), me));
              PhaseOf(State(), me) == BetweenListings(p.processed + if ok then {p.listing} else {})
    {
      var p := PhaseOf(State(), me);
      ok := false;
      if p.listing < |inbounds| {
        var saved := State();
        BillRows(p.listing, p.snap, p.succeeded);
        if !commit.applied {
          Load(saved);
        }
        ok := commit.ok;
      }
      phases := phases[me := BetweenListings(if ok then p.processed + {p.listing} else p.processed)];
    }

    ghost method Extend(start: World, evs: seq<Event>, ev: Event) returns (longer: seq<Event>)
      ensures longer == evs + [ev] && Run(start, longer) == Step(Run(start, evs), ev)
    {
      longer := evs + [ev];
      RunAppends(start, evs, [ev]);
      assert [ev][1..] == [];
    }

    ghost method ExtendAll(start: World, evs: seq<Event>, more: seq<Event>) returns (longer: seq<Event>)
      ensures longer == evs + more && Run(start, longer) == Run(Run(start, evs), more)
    {
      longer := evs + more;
      RunAppends(start, evs, more);
    }

    /** One read -> reset -> bill sub-cycle. */
    method ProcessListing(l: ListingId, s: SubScript) returns (ok: bool, ghost evs: seq<Event>)
      requires PhaseOf(State(), me).BetweenListings? && SubScriptFor(s, me)
      modifies this
      ensures evs == SubCycle(me, resetEnabled, commission, old(State()), l, s)
      ensures State() == Run(old(State()), evs)
      ensures PhaseOf(State(), me) == BetweenListings(old(PhaseOf(State(), me).processed) + if ok then {l} else {})
    {
      ghost var start := State();
      ok, evs := false, s.before;
      Await(s.before);
      if l >= |inbounds| || !inbounds[l].provisioned || !s.readOk {
        return;
      }
      var snap := TakeSnapshot(l, s.emails);
      evs := Extend(start, evs, Read(me, l, snap.clients));
      Await(s.gap);
      evs := ExtendAll(start, evs, s.gap);
      var succeeded;
      ghost var ev;
      succeeded, ev := ResetStep(s.resetTook, s.resetReported);
      evs := Extend(start, evs, ev);
      Await(s.pause);
      evs := ExtendAll(start, evs, s.pause);
      ok := BillStep(s.commit);
      evs := Extend(start, evs, Bill(me, commission, s.commit));
    }

    /** End of cycle: zero every inbound's counter on the panel. */
    method GlobalResetStep(took: bool, reported: bool) returns (ghost ev: Event)
      requires PhaseOf(State(), me).BetweenListings?
      modifies this
      ensures clients == old(clients) && usage == old(usage) && outbound == old(outbound) && ledger == old(ledger)
      ensures ev
              == if resetEnabled && old(PhaseOf(State(), me)).processed != {} then GlobalReset(me, took, reported)
                 else SkipGlobalReset(me)
      ensures |inbounds| == |old(inbounds)| && forall l | 0 <= l < |inbounds| ::
                && inbounds[l].anchor == old(inbounds)[l].anchor && inbounds[l].moved == old(inbounds)[l].moved
                && inbounds[l].counter == if ev.GlobalReset? && took then 0 else old(inbounds)[l].counter
      ensures State() == Step(old(State()), ev) && PhaseOf(State(), me).GlobalResetDone?
      ensures ev == GlobalEvent(me, resetEnabled, old(PhaseOf(State(), me)), took, reported)
    {
      var processed := PhaseOf(State(), me).processed;
      var resetOk := false;
      ev := SkipGlobalReset(me);
      if resetEnabled && processed != {} {
        if took {
          inbounds := WipeInbounds(inbounds);
        }
        resetOk := reported;
        ev := GlobalReset(me, took, reported);
      }
      phases := phases[me := GlobalResetDone(processed, resetOk)];
    }

    /** If the global reset succeeded, zero the anchors of the processed listings. */
    method ZeroAnchorsStep(applied: bool)
      requires PhaseOf(State(), me).GlobalResetDone?
      modifies this
      ensures clients == old(clients) && usage == old(usage) && outbound == old(outbound) && ledger == old(ledger)
      ensures
        var p := old(PhaseOf(State(), me));
        && |inbounds| == |old(inbounds)|
        && forall l | 0 <= l < |inbounds| ::
             inbounds[l]
             == if p.succeeded && applied && l in p.processed then old(inbounds)[l].(anchor := 0) else old(inbounds)[l]
      ensures State() == Step(old(State()), ZeroAnchors(me, applied)) && PhaseOf(State(), me).Idle?
    {
      ZeroStep(State(), me, applied);
      hide Step;
      var p := PhaseOf(State(), me);
      if p.succeeded && applied {
        inbounds := ZeroProcessed(inbounds, p.processed);
      }
      phases := phases[me := Idle];
    }

    /** The provisioned listings that are not deleted, in order. */
    method ProvisionedListings() returns (ids: seq<ListingId>)
      ensures ids == Provisioned(inbounds)
    {
      ids := [];
      var l := 0;
      while l < |inbounds|
        invariant 0 <= l <= |inbounds|
        invariant ids == Provisioned(inbounds[..l])
      {
        assert inbounds[..l + 1][..l] == inbounds[..l];
        if inbounds[l].provisioned && !inbounds[l].deleted {
          ids := ids + [l];
        }
        l := l + 1;
      }
      assert inbounds[..l] == inbounds;
    }

    /** Start a cycle and take the listings in turn. */
    method ProcessAll(ids: seq<ListingId>, s: CycleScript) returns (ghost evs: seq<Event>)
      requires PhaseOf(State(), me).Idle? && ScriptFor(s, me)
      modifies this
      ensures evs == SubCycles(me, resetEnabled, commission, old(State()), ids, s, |ids|)
      ensures State() == Run(old(State()), evs) && PhaseOf(State(), me).BetweenListings?
    {
      hide SubCycle, Run;
      ghost var start := State();
      NothingYet(start);
      evs := Extend(start, [], StartCycle(me));
      phases := phases[me := BetweenListings({})];
      hide Step;
      var i := 0;
      while i < |ids|
        invariant 0 <= i <= |ids|
        invariant State() == Run(start, evs) && PhaseOf(State(), me).BetweenListings?
        invariant evs == SubCycles(me, resetEnabled, commission, start, ids, s, i)
      {
        var ok;
        ghost var sub;
        ok, sub := ProcessListing(ids[i], s.subs(ids[i]));
        evs := ExtendAll(start, evs, sub);
        i := i + 1;
      }
    }

    /** One full cycle: every provisioned listing in turn, then the global reset and the anchors it allows to zero. */
    method PollTrafficOnce(s: CycleScript) returns (ghost evs: seq<Event>)
      requires PhaseOf(State(), me).Idle? && ScriptFor(s, me)
      modifies this
      ensures evs == Cycle(me, resetEnabled, commission, old(State()), s)
      ensures State() == Run(old(State()), evs) && PhaseOf(State(), me).Idle?
      ensures forall e: Email | ClientSafe(old(State()), e)
                                && BuyerAssumptions(old(State()), evs, old(State()).clients[e].listing) ::
                ClientSafe(State(), e)
      ensures forall l: ListingId | InboundSafe(old(State()), l) && SellerAssumptions(old(State()), evs) ::
                InboundSafe(State(), l)
    {
      hide SubCycles, Run, Step, ClientSafe, InboundSafe, BuyerAssumptions, SellerAssumptions;
      ghost var start := State();
      NothingYet(start);
      evs := [];
      var ids := ProvisionedListings();
      RunsAreSafe(start, evs);
      if ids == [] {
        return;
      }
      evs := ProcessAll(ids, s);
      Await(s.beforeGlobal);
      evs := ExtendAll(start, evs, s.beforeGlobal);
      ghost var ev := GlobalResetStep(s.globalTook, s.globalReported);
      evs := Extend(start, evs, ev);
      Await(s.beforeZero);
      evs := ExtendAll(start, evs, s.beforeZero);
      ZeroAnchorsStep(s.zeroApplied);
      evs := Extend(start, evs, ZeroAnchors(me, s.zeroApplied));
      RunsAreSafe(start, evs);
    }
  }
}
