/** Listing health: the probe log, its two cached maxima on each listing, and the three-pass gate.

    Probe samples arrive in batches and in any order. Each listing caches the time of its newest sample
    and of its newest successful sample. The gate promotes, breaks and recovers listings: the demote
    pass reads the caches, the other two read the log itself. Times are integers of one unit.
*/
module ListingHealth {
  import opened Common

  type Id = nat

  datatype Status = Pending | Active | Broken | Disabled | Deleted

  datatype Listing = Listing(
    status: Status, createdAt: int, pendingUntil: Option<int>,
    lastProbed: Option<int>, lastOk: Option<int>,
    brokenSince: Option<int>, recoveredAt: Option<int>)

  datatype Sample = Sample(listing: Id, ok: bool, at: int)

  /** A sample as posted; `at` may be missing. `clock` is what the application's clock reads when it comes to
      this sample of the batch. */
  datatype Report = Report(listing: Id, ok: bool, at: Option<int>, clock: int)

  datatype World = World(rows: map<Id, Listing>, log: seq<Sample>)

  // ----- The log -----

  function Later(a: Option<int>, b: Option<int>): Option<int>
  {
    if a.None? then b else if b.None? || a.value >= b.value then a else b
  }

  /** The newest time among a listing's samples, or among its successful ones. */
  function LastTime(log: seq<Sample>, id: Id, onlyOk: bool): Option<int>
  {
    if log == [] then None
    else
      var s := log[|log| - 1];
      var before := LastTime(log[..|log| - 1], id, onlyOk);
      if s.listing == id && (s.ok || !onlyOk) then Later(before, Some(s.at)) else before
  }

  ghost predicate Matches(s: Sample, id: Id, onlyOk: bool) { s.listing == id && (s.ok || !onlyOk) }

  lemma {:induction false} LastTimeIsNewest(log: seq<Sample>, id: Id, onlyOk: bool)
    ensures LastTime(log, id, onlyOk).None? <==> forall s | s in log :: !Matches(s, id, onlyOk)
    ensures LastTime(log, id, onlyOk).Some? ==>
              (exists s :: s in log && Matches(s, id, onlyOk) && s.at == LastTime(log, id, onlyOk).value) &&
              (forall s | s in log && Matches(s, id, onlyOk) :: s.at <= LastTime(log, id, onlyOk).value)
  {
    if log != [] {
      var init, s := log[..|log| - 1], log[|log| - 1];
      LastTimeIsNewest(init, id, onlyOk);
      var before, after := LastTime(init, id, onlyOk), LastTime(log, id, onlyOk);
      assert after == if Matches(s, id, onlyOk) then Later(before, Some(s.at)) else before;
      hide LastTime;
      assert log == init + [s];
      assert forall x :: x in log <==> x in init || x == s;
    }
  }

  lemma {:induction false} LastTimeAppends(a: seq<Sample>, b: seq<Sample>, id: Id, onlyOk: bool)
    ensures LastTime(a + b, id, onlyOk) == Later(LastTime(a, id, onlyOk), LastTime(b, id, onlyOk))
  {
    if b == [] {
      assert a + b == a;
    } else {
      var last := |b| - 1;
      assert (a + b)[..|a| + last] == a + b[..last];
      LastTimeAppends(a, b[..last], id, onlyOk);
    }
  }

  /** `ORDER BY sampled_at DESC LIMIT 1` over the samples after `since`. The database breaks ties as it
      likes: `tie` says whether it prefers a successful sample. */
  function NewestSince(log: seq<Sample>, id: Id, since: int, tie: bool): (r: Option<Sample>)
    ensures r.None? <==> forall s | s in log :: s.listing == id ==> s.at <= since
    ensures r.Some? ==> r.value in log && r.value.listing == id && r.value.at > since
    ensures r.Some? ==> forall s | s in log && s.listing == id :: s.at <= r.value.at
    ensures r.Some? ==> forall s | s in log && s.listing == id && s.at == r.value.at && s.ok == tie :: r.value.ok == tie
  {
    if log == [] then None
    else
      var s := log[|log| - 1];
      var before := NewestSince(log[..|log| - 1], id, since, tie);
      assert log == log[..|log| - 1] + [s];
      if s.listing == id && s.at > since
         && (before.None? || s.at > before.value.at || (s.at == before.value.at && s.ok == tie))
      then Some(s) else before
  }

  predicate HadOk(log: seq<Sample>, id: Id, since: int)
  {
    exists i | 0 <= i < |log| :: log[i].listing == id && log[i].ok && log[i].at >= since
  }

  // ----- The gate, row by row -----

  function PendingPass(l: Listing, id: Id, log: seq<Sample>, now: int): Listing
  {
    if l.status != Pending then l
    else if HadOk(log, id, l.createdAt) then l.(status := Active, pendingUntil := None)
    else if l.pendingUntil.None? || l.pendingUntil.value <= now then
      l.(status := Broken, brokenSince := Some(now), pendingUntil := None)
    else l
  }

  function DemotePass(l: Listing, now: int, cutoff: int): Listing
  {
    if l.status != Active then l
    else if l.lastOk.Some? && l.lastOk.value >= cutoff then l
    else if l.lastProbed.None? || l.lastProbed.value < cutoff then l
    else l.(status := Broken, brokenSince := Some(now), recoveredAt := None)
  }

  function RecoverPass(l: Listing, id: Id, log: seq<Sample>, now: int, tie: bool): Listing
  {
    if l.status != Broken then l
    else
      var since := if l.brokenSince.Some? then l.brokenSince.value else l.createdAt;
      var newest := NewestSince(log, id, since, tie);
      if newest.Some? && newest.value.ok
      then l.(status := Active, brokenSince := None, recoveredAt := Some(now)) else l
  }

  function Gate(l: Listing, id: Id, log: seq<Sample>, now: int, cutoff: int, tie: bool): Listing
  {
    RecoverPass(DemotePass(PendingPass(l, id, log, now), now, cutoff), id, log, now, tie)
  }

  // ----- The machine -----

  datatype Event =
    | Samples(batch: seq<Report>, dbNow: int)
    | Tick(now: int, window: nat, ties: set<Id>)
    | Create(id: Id, now: int, until: int)
    | Enable(id: Id)
    | Disable(id: Id)
    | Retry(id: Id, until: int)
    | Edit(id: Id, changed: bool, until: int)
    | Delete(id: Id)

  /** Whose clock stands in for a missing time: the application's, sample by sample, or the database's, which
      reads the same for the whole transaction. */
  datatype Clock = App | Db(now: int)

  function TimeOf(r: Report, clock: Clock): int
  {
    if r.at.Some? then r.at.value else if clock.App? then r.clock else clock.now
  }

  function Stamp(batch: seq<Report>, rows: set<Id>, clock: Clock): seq<Sample>
  {
    if batch == [] then []
    else
      var r := batch[|batch| - 1];
      var before := Stamp(batch[..|batch| - 1], rows, clock);
      if r.listing in rows then before + [Sample(r.listing, r.ok, TimeOf(r, clock))] else before
  }

  function Cached(l: Listing, id: Id, samples: seq<Sample>): Listing
  {
    l.(lastProbed := Later(l.lastProbed, LastTime(samples, id, false)),
       lastOk := Later(l.lastOk, LastTime(samples, id, true)))
  }

  function Ingest(w: World, batch: seq<Report>, dbNow: int): World
  {
    var cache := Stamp(batch, w.rows.Keys, App);
    World(map id | id in w.rows :: Cached(w.rows[id], id, cache), w.log + Stamp(batch, w.rows.Keys, Db(dbNow)))
  }

  function GateTick(w: World, now: int, window: nat, ties: set<Id>): World
  {
    w.(rows := map id | id in w.rows :: Gate(w.rows[id], id, w.log, now, now - window, id in ties))
  }

  function Fresh(now: int, until: int): Listing
  {
    Listing(Pending, now, Some(until), None, None, None, None)
  }

  /** What the seller's five requests do to a row; a request the route refuses changes nothing. */
  function Touched(l: Listing, e: Event): Listing
  {
    if l.status == Deleted then l
    else match e
      case Enable(_) => if l.status == Active then l else l.(status := Active)
      case Disable(_) => l.(status := Disabled)
      case Retry(_, until) =>
        if l.status == Broken then l.(status := Pending, pendingUntil := Some(until), brokenSince := None) else l
      case Edit(_, changed, until) =>
        if changed && l.status in {Broken, Disabled}
        then l.(status := Pending, pendingUntil := Some(until), brokenSince := None, recoveredAt := None) else l
      case Delete(_) => l.(status := Deleted)
      case _ => l
  }

  function Step(w: World, e: Event): World
  {
    match e
    case Samples(batch, dbNow) => Ingest(w, batch, dbNow)
    case Tick(now, window, ties) => GateTick(w, now, window, ties)
    case Create(id, now, until) => if id in w.rows then w else w.(rows := w.rows[id := Fresh(now, until)])
    case _ => if e.id in w.rows then w.(rows := w.rows[e.id := Touched(w.rows[e.id], e)]) else w
  }

  function Run(w: World, evs: seq<Event>): World
    decreases |evs|
  {
    if evs == [] then w else Run(Step(w, evs[0]), evs[1..])
  }

  // ----- The caches are the log's maxima -----

  ghost predicate RowAgrees(l: Listing, id: Id, log: seq<Sample>)
  {
    l.lastProbed == LastTime(log, id, false) && l.lastOk == LastTime(log, id, true)
  }

  ghost predicate CachesAgree(w: World)
  {
    && (forall s | s in w.log :: s.listing in w.rows)
    && (forall id | id in w.rows :: RowAgrees(w.rows[id], id, w.log))
  }

  lemma {:induction false} StampKnown(batch: seq<Report>, rows: set<Id>, clock: Clock)
    ensures forall s | s in Stamp(batch, rows, clock) :: s.listing in rows
  {
    if batch != [] {
      StampKnown(batch[..|batch| - 1], rows, clock);
    }
  }

  lemma StampNext(batch: seq<Report>, i: nat, rows: set<Id>, clock: Clock)
    requires i < |batch|
    ensures
      Stamp(batch[..i + 1], rows, clock)
      == Stamp(batch[..i], rows, clock)
         + if batch[i].listing in rows then [Sample(batch[i].listing, batch[i].ok, TimeOf(batch[i], clock))] else []
  {
    assert batch[..i + 1][..i] == batch[..i];
  }

  /** How many of the reports name a known listing. */
  function KnownReports(batch: seq<Report>, rows: set<Id>): nat
  {
    if batch == [] then 0
    else KnownReports(batch[..|batch| - 1], rows) + if batch[|batch| - 1].listing in rows then 1 else 0
  }

  /** A batch is stored report by report: each that names a known listing in its turn, with its outcome and its own time
      or else the clock's, and no other. */
  lemma {:induction false} StoredInTurn(batch: seq<Report>, rows: set<Id>, clock: Clock)
    ensures |Stamp(batch, rows, clock)| == KnownReports(batch, rows)
    ensures forall i | 0 <= i < |batch| && batch[i].listing in rows ::
              && KnownReports(batch[..i], rows) < |Stamp(batch, rows, clock)|
              && Stamp(batch, rows, clock)[KnownReports(batch[..i], rows)]
                 == Sample(batch[i].listing, batch[i].ok,
                           if batch[i].at != None then batch[i].at.value
                           else if clock.Db? then clock.now else batch[i].clock)
  {
    if batch != [] {
      var init := batch[..|batch| - 1];
      StoredInTurn(init, rows, clock);
      assert forall i | 0 <= i < |init| :: batch[i] == init[i] && batch[..i] == init[..i];
    }
  }

  function ReportTime(r: Report): int { if r.at != None then r.at.value else r.clock }

  /** The newest of a known time and the times of a listing's reports, or of its successful ones. */
  ghost predicate IsLatest(x: Option<int>, known: Option<int>, batch: seq<Report>, id: Id, onlyOk: bool)
  {
    && (known.Some? ==> x.Some? && x.value >= known.value)
    && (forall r | r in batch && r.listing == id && (r.ok || !onlyOk) :: x.Some? && x.value >= ReportTime(r))
    && (x == known || exists r :: r in batch && r.listing == id && (r.ok || !onlyOk) && x == Some(ReportTime(r)))
  }

  lemma LatestOfOneMore(x: Option<int>, known: Option<int>, init: seq<Report>, r: Report, id: Id, onlyOk: bool)
    requires IsLatest(x, known, init, id, onlyOk)
    ensures IsLatest(if r.listing == id && (r.ok || !onlyOk) then Later(x, Some(ReportTime(r))) else x, known,
                     init + [r], id, onlyOk)
  {
    assert forall q :: q in init + [r] <==> q in init || q == r;
  }

  lemma LastOfAppended(samples: seq<Sample>, s: Sample, id: Id, onlyOk: bool)
    ensures
      LastTime(samples + [s], id, onlyOk)
      == if s.listing == id && (s.ok || !onlyOk) then Later(LastTime(samples, id, onlyOk), Some(s.at))
         else LastTime(samples, id, onlyOk)
  {
    assert (samples + [s])[..|samples|] == samples;
  }

  lemma {:induction false} CacheIsLatest(known: Option<int>, batch: seq<Report>, rows: set<Id>, id: Id, onlyOk: bool)
    requires id in rows
    ensures IsLatest(Later(known, LastTime(Stamp(batch, rows, App), id, onlyOk)), known, batch, id, onlyOk)
  {
    if batch != [] {
      var init, r := batch[..|batch| - 1], batch[|batch| - 1];
      CacheIsLatest(known, init, rows, id, onlyOk);
      var before := LastTime(Stamp(init, rows, App), id, onlyOk);
      LatestOfOneMore(Later(known, before), known, init, r, id, onlyOk);
      assert batch == init + [r];
      LastOfAppended(Stamp(init, rows, App), Sample(r.listing, r.ok, ReportTime(r)), id, onlyOk);
      hide LastTime, IsLatest;
    }
  }

  /** The log after a batch: what was there, and then the known reports in turn. */
  ghost predicate Stored(log: seq<Sample>, before: seq<Sample>, batch: seq<Report>, rows: set<Id>, dbNow: int)
  {
    && |log| == |before| + KnownReports(batch, rows) && log[..|before|] == before
    && forall i | 0 <= i < |batch| && batch[i].listing in rows ::
         && |before| + KnownReports(batch[..i], rows) < |log|
         && log[|before| + KnownReports(batch[..i], rows)]
            == Sample(batch[i].listing, batch[i].ok, if batch[i].at != None then batch[i].at.value else dbNow)
  }

  /** A batch stores each report for a known listing with its time or else the database's, and moves each cache to the
      newest time it knows of, reading the application's clock for a missing one. */
  lemma BatchIsTaken(w: World, batch: seq<Report>, dbNow: int)
    ensures
      var v := Step(w, Samples(batch, dbNow));
      && Stored(v.log, w.log, batch, w.rows.Keys, dbNow) && v.rows.Keys == w.rows.Keys
      && forall id | id in w.rows ::
           && v.rows[id] == w.rows[id].(lastProbed := v.rows[id].lastProbed, lastOk := v.rows[id].lastOk)
           && IsLatest(v.rows[id].lastProbed, w.rows[id].lastProbed, batch, id, false)
           && IsLatest(v.rows[id].lastOk, w.rows[id].lastOk, batch, id, true)
  {
    var rows := w.rows.Keys;
    StoredInTurn(batch, rows, Db(dbNow));
    forall id | id in w.rows
      ensures
        var v := Step(w, Samples(batch, dbNow));
        && IsLatest(v.rows[id].lastProbed, w.rows[id].lastProbed, batch, id, false)
        && IsLatest(v.rows[id].lastOk, w.rows[id].lastOk, batch, id, true)
    {
      CacheIsLatest(w.rows[id].lastProbed, batch, rows, id, false);
      CacheIsLatest(w.rows[id].lastOk, batch, rows, id, true);
      hide IsLatest, LastTime, Stamp, Later;
    }
    hide IsLatest, Later, LastTime, Stamp, KnownReports;
  }

  /** The newest time a batch itself gives for a listing. */
  function Given(batch: seq<Report>, id: Id, onlyOk: bool): Option<int>
  {
    if batch == [] then None
    else
      var r := batch[|batch| - 1];
      var before := Given(batch[..|batch| - 1], id, onlyOk);
      if r.listing == id && (r.ok || !onlyOk) then Later(before, r.at) else before
  }

  /** The newest reading of a clock that stands in for a missing time of a listing. */
  function Filled(batch: seq<Report>, id: Id, onlyOk: bool, clock: Clock): Option<int>
  {
    if batch == [] then None
    else
      var r := batch[|batch| - 1];
      var before := Filled(batch[..|batch| - 1], id, onlyOk, clock);
      if r.listing == id && (r.ok || !onlyOk) && r.at.None? then Later(before, Some(TimeOf(r, clock))) else before
  }

  predicate Unstamped(batch: seq<Report>, id: Id, onlyOk: bool)
  {
    exists r | r in batch :: r.listing == id && (r.ok || !onlyOk) && r.at.None?
  }

  lemma LaterIsMax(a: Option<int>, b: Option<int>, t: int)
    ensures Later(Later(a, b), Some(t)) == Later(Later(a, Some(t)), b) == Later(a, Later(b, Some(t)))
    ensures Later(a, None) == a
  {
  }

  lemma {:induction false} StampSplits(batch: seq<Report>, rows: set<Id>, id: Id, onlyOk: bool, clock: Clock)
    requires id in rows
    ensures
      LastTime(Stamp(batch, rows, clock), id, onlyOk)
      == Later(Given(batch, id, onlyOk), Filled(batch, id, onlyOk, clock))
  {
    if batch != [] {
      var init, r := batch[..|batch| - 1], batch[|batch| - 1];
      StampSplits(init, rows, id, onlyOk, clock);
      hide Later, LastTime;
      LaterIsMax(Given(init, id, onlyOk), Filled(init, id, onlyOk, clock), TimeOf(r, clock));
      LaterIsMax(Given(init, id, onlyOk), None, 0);
      if r.listing in rows {
        LastOfAppended(Stamp(init, rows, clock), Sample(r.listing, r.ok, TimeOf(r, clock)), id, onlyOk);
      }
    } else {
      hide TimeOf;
    }
  }

  lemma {:induction false} FilledByClock(batch: seq<Report>, id: Id, onlyOk: bool, dbNow: int)
    ensures Filled(batch, id, onlyOk, App).Some? <==> Unstamped(batch, id, onlyOk)
    ensures Filled(batch, id, onlyOk, Db(dbNow)) == if Unstamped(batch, id, onlyOk) then Some(dbNow) else None
  {
    if batch != [] {
      var last := |batch| - 1;
      FilledByClock(batch[..last], id, onlyOk, dbNow);
      var r := batch[last];
      assert batch == batch[..last] + [r];
      assert Unstamped(batch, id, onlyOk)
        <==> (Unstamped(batch[..last], id, onlyOk) || (r.listing == id && (r.ok || !onlyOk) && r.at.None?));
    }
  }

  /** A batch does this listing's cache no harm: every time is given, the newest application reading that stands in
      is the database's, or something at least as new as both is known. */
  ghost predicate Harmless(w: World, batch: seq<Report>, dbNow: int, id: Id, onlyOk: bool)
  {
    var known := Later(LastTime(w.log, id, onlyOk), Given(batch, id, onlyOk));
    var reading := Filled(batch, id, onlyOk, App);
    || !Unstamped(batch, id, onlyOk)
    || reading == Some(dbNow)
    || (known.Some? && reading.Some? && known.value >= reading.value && known.value >= dbNow)
  }

  /** A listing's cache stays the maximum of the log if and only if the batch does it no harm. */
  lemma CacheIsExactIff(w: World, batch: seq<Report>, dbNow: int, id: Id, onlyOk: bool)
    requires CachesAgree(w) && id in w.rows
    ensures
      var after := Ingest(w, batch, dbNow);
      (if onlyOk then after.rows[id].lastOk else after.rows[id].lastProbed) == LastTime(after.log, id, onlyOk)
      <==> Harmless(w, batch, dbNow, id, onlyOk)
  {
    LastTimeAppends(w.log, Stamp(batch, w.rows.Keys, Db(dbNow)), id, onlyOk);
    StampSplits(batch, w.rows.Keys, id, onlyOk, App);
    StampSplits(batch, w.rows.Keys, id, onlyOk, Db(dbNow));
    FilledByClock(batch, id, onlyOk, dbNow);
    hide LastTime, Given, Filled, Stamp, Unstamped;
  }

  ghost predicate HarmlessBatch(w: World, batch: seq<Report>, dbNow: int)
  {
    forall id | id in w.rows :: Harmless(w, batch, dbNow, id, false) && Harmless(w, batch, dbNow, id, true)
  }

  lemma IngestKeepsCachesIff(w: World, batch: seq<Report>, dbNow: int)
    requires CachesAgree(w)
    ensures CachesAgree(Ingest(w, batch, dbNow)) <==> HarmlessBatch(w, batch, dbNow)
  {
    StampKnown(batch, w.rows.Keys, Db(dbNow));
    var v := Ingest(w, batch, dbNow);
    forall id | id in w.rows
      ensures
        RowAgrees(v.rows[id], id, v.log)
        <==> (Harmless(w, batch, dbNow, id, false) && Harmless(w, batch, dbNow, id, true))
    {
      CacheIsExactIff(w, batch, dbNow, id, false);
      CacheIsExactIff(w, batch, dbNow, id, true);
    }
    hide LastTime, Harmless, Stamp, Cached;
  }

  /** A batch whose every sample carries its time does no harm; the prober always sends them so. */
  lemma GivenTimesAreHarmless(w: World, batch: seq<Report>, dbNow: int)
    requires forall r | r in batch :: r.at.Some?
    ensures HarmlessBatch(w, batch, dbNow)
  {
  }

  /** Every batch of the run does no harm. */
  ghost predicate HarmlessRun(w: World, evs: seq<Event>)
    decreases |evs|
  {
    || evs == []
    || ((evs[0].Samples? ==> HarmlessBatch(w, evs[0].batch, evs[0].dbNow)) && HarmlessRun(Step(w, evs[0]), evs[1..]))
  }

  lemma NoSamplesYet(log: seq<Sample>, id: Id)
    requires forall s | s in log :: s.listing != id
    ensures LastTime(log, id, false) == None && LastTime(log, id, true) == None
  {
    LastTimeIsNewest(log, id, false);
    LastTimeIsNewest(log, id, true);
  }

  lemma GateKeepsCaches(l: Listing, id: Id, log: seq<Sample>, now: int, cutoff: int, tie: bool)
    ensures Gate(l, id, log, now, cutoff, tie).lastProbed == l.lastProbed
    ensures Gate(l, id, log, now, cutoff, tie).lastOk == l.lastOk
  {
  }

  lemma TickKeepsCaches(w: World, now: int, window: nat, ties: set<Id>)
    requires CachesAgree(w)
    ensures CachesAgree(GateTick(w, now, window, ties))
  {
    hide NewestSince, HadOk, LastTime, Gate;
    forall id | id in w.rows
      ensures RowAgrees(GateTick(w, now, window, ties).rows[id], id, w.log)
    {
      GateKeepsCaches(w.rows[id], id, w.log, now, now - window, id in ties);
    }
  }

  lemma RequestKeepsCaches(w: World, e: Event)
    requires CachesAgree(w) && !e.Samples? && !e.Tick?
    ensures CachesAgree(Step(w, e))
  {
    hide LastTime, NewestSince, HadOk, Gate;
    if e.Create? && e.id !in w.rows {
      NoSamplesYet(w.log, e.id);
    }
  }

  lemma StepKeepsCaches(w: World, e: Event)
    requires CachesAgree(w) && (e.Samples? ==> HarmlessBatch(w, e.batch, e.dbNow))
    ensures CachesAgree(Step(w, e))
  {
    if e.Samples? {
      IngestKeepsCachesIff(w, e.batch, e.dbNow);
    } else if e.Tick? {
      TickKeepsCaches(w, e.now, e.window, e.ties);
    } else {
      RequestKeepsCaches(w, e);
    }
  }

  /** Batches in any order, between any other steps: each cache is the maximum over the whole log. */
  lemma {:induction false} CachesAreMaxima(w: World, evs: seq<Event>)
    requires CachesAgree(w) && HarmlessRun(w, evs)
    ensures CachesAgree(Run(w, evs))
    decreases |evs|
  {
    hide Step, CachesAgree, HarmlessBatch;
    if evs != [] {
      StepKeepsCaches(w, evs[0]);
      CachesAreMaxima(Step(w, evs[0]), evs[1..]);
    }
  }

  /** Probed inside the window and never successfully: stated on the log, not on the caches. */
  ghost predicate Stale(log: seq<Sample>, id: Id, cutoff: int)
  {
    && (exists s :: s in log && s.listing == id && s.at >= cutoff)
    && (forall s | s in log && s.listing == id && s.ok :: s.at < cutoff)
  }

  /** The listing of the witness below: active since time zero. */
  function OneActive(probed: Option<int>, ok: Option<int>, log: seq<Sample>): World
  {
    World(map[1 := Listing(Active, 0, None, probed, ok, None, None)], log)
  }

  /** A success without a time, read at 5 by the application, and a failure at 4. */
  const SKEWED: seq<Report> := [Report(1, true, None, 5), Report(1, false, Some(4), 5)]

  lemma SkewedStamps(clock: Clock)
    ensures Stamp(SKEWED, {1}, clock) == [Sample(1, true, if clock.App? then 5 else clock.now), Sample(1, false, 4)]
  {
    StampNext(SKEWED, 0, {1}, clock);
    StampNext(SKEWED, 1, {1}, clock);
    assert SKEWED[..2] == SKEWED;
  }

  lemma LastTimeOfTwo(a: Sample, b: Sample)
    requires a.listing == 1 == b.listing && a.ok && !b.ok
    ensures LastTime([a, b], 1, true) == Some(a.at)
    ensures LastTime([a, b], 1, false) == Later(Some(a.at), Some(b.at))
  {
    assert [a] == [] + [a] && [a, b] == [a] + [b];
    LastOfAppended([], a, 1, true);
    LastOfAppended([], a, 1, false);
    LastOfAppended([a], b, 1, true);
    LastOfAppended([a], b, 1, false);
  }

  lemma SkewedIngest()
    ensures
      Ingest(OneActive(None, None, []), SKEWED, 3)
      == OneActive(Some(5), Some(5), [Sample(1, true, 3), Sample(1, false, 4)])
  {
    SkewedStamps(App);
    SkewedStamps(Db(3));
    LastTimeOfTwo(Sample(1, true, 5), Sample(1, false, 4));
    hide Stamp, LastTime;
    assert OneActive(None, None, []).rows.Keys == {1};
  }

  /** The database reads 3: the cache is ahead of the log, and a tick with cutoff 4 leaves a stale listing active. */
  lemma SkewLeavesStaleActive()
    ensures
      var w := OneActive(None, None, []);
      var v := Step(w, Samples(SKEWED, 3));
      && CachesAgree(w) && !HarmlessBatch(w, SKEWED, 3)
      && v == OneActive(Some(5), Some(5), [Sample(1, true, 3), Sample(1, false, 4)]) && !CachesAgree(v)
      && Stale(v.log, 1, 4) && 1 in Step(v, Tick(10, 6, {})).rows && Step(v, Tick(10, 6, {})).rows[1].status == Active
  {
    var w := OneActive(None, None, []);
    var v := OneActive(Some(5), Some(5), [Sample(1, true, 3), Sample(1, false, 4)]);
    SkewedIngest();
    LastTimeOfTwo(Sample(1, true, 3), Sample(1, false, 4));
    assert !RowAgrees(v.rows[1], 1, v.log);
    IngestKeepsCachesIff(w, SKEWED, 3);
    assert v.log[1] in v.log;
    hide LastTime, Stamp, Ingest, HarmlessBatch;
    assert PendingPass(v.rows[1], 1, v.log, 10) == v.rows[1];
    assert Gate(v.rows[1], 1, v.log, 10, 4, false) == v.rows[1];
  }

  // ----- What holds after a tick -----

  ghost predicate BrokenHasSince(w: World)
  {
    forall id | id in w.rows :: w.rows[id].status == Broken ==> w.rows[id].brokenSince.Some?
  }

  ghost predicate Settled(l: Listing, id: Id, log: seq<Sample>, now: int, cutoff: int)
  {
    && (l.status == Pending ==> l.pendingUntil.Some? && l.pendingUntil.value > now)
    && (l.status == Pending ==> forall s | s in log && s.listing == id && s.ok :: s.at < l.createdAt)
    && (l.status == Broken ==> l.brokenSince.Some?)
    && (l.status == Active ==> !Stale(log, id, cutoff))
  }

  lemma StaleByCache(l: Listing, id: Id, log: seq<Sample>, cutoff: int)
    requires RowAgrees(l, id, log)
    ensures Stale(log, id, cutoff) <==>
            l.lastProbed.Some? && l.lastProbed.value >= cutoff && !(l.lastOk.Some? && l.lastOk.value >= cutoff)
  {
    LastTimeIsNewest(log, id, false);
    LastTimeIsNewest(log, id, true);
    assert forall s | s in log :: Matches(s, id, true) <==> s.listing == id && s.ok;
    assert forall s | s in log :: Matches(s, id, false) <==> s.listing == id;
  }

  lemma GateSettles(l: Listing, id: Id, log: seq<Sample>, now: int, cutoff: int, tie: bool)
    requires RowAgrees(l, id, log) && (l.status == Broken ==> l.brokenSince.Some?)
    ensures Settled(Gate(l, id, log, now, cutoff, tie), id, log, now, cutoff)
  {
    StaleByCache(l, id, log, cutoff);
    var after := Gate(l, id, log, now, cutoff, tie);
    var second := DemotePass(PendingPass(l, id, log, now), now, cutoff);
    if second.status == Broken && after.status == Active {
      var since := second.brokenSince.value;
      var newest := NewestSince(log, id, since, tie).value;
      assert newest in log && newest.ok;
    }
  }

  /** An active listing is broken by a tick exactly when the log shows it stale. */
  lemma DemotionNeedsEvidence(l: Listing, id: Id, log: seq<Sample>, now: int, cutoff: int, tie: bool)
    requires RowAgrees(l, id, log) && l.status == Active && cutoff <= now
    ensures var after := Gate(l, id, log, now, cutoff, tie);
            if Stale(log, id, cutoff)
            then after == l.(status := Broken, brokenSince := Some(now), recoveredAt := None)
            else after == l
  {
    StaleByCache(l, id, log, cutoff);
    if Stale(log, id, cutoff) {
      assert DemotePass(l, now, cutoff).brokenSince == Some(now);
    }
  }

  /** The newest sample after `since` succeeded; at a tie the database's preference decides. */
  ghost predicate BackUp(log: seq<Sample>, id: Id, since: int, tie: bool)
  {
    exists s :: s in log && s.listing == id && s.ok && s.at > since
      && forall t | t in log && t.listing == id :: t.at < s.at || (t.at == s.at && (t.ok || tie))
  }

  lemma NewestIsBackUp(log: seq<Sample>, id: Id, since: int, tie: bool)
    ensures var r := NewestSince(log, id, since, tie); (r.Some? && r.value.ok) <==> BackUp(log, id, since, tie)
  {
    hide NewestSince;
    var r := NewestSince(log, id, since, tie);
    assert r.Some? && !tie ==>
             forall t | t in log && t.listing == id && t.at == r.value.at && t.ok == tie :: r.value.ok == tie;
  }

  /** A broken listing recovers exactly when its newest sample since it broke succeeded. */
  lemma RecoveryNeedsSuccess(l: Listing, id: Id, log: seq<Sample>, now: int, cutoff: int, tie: bool)
    requires l.status == Broken && l.brokenSince.Some?
    ensures var after := Gate(l, id, log, now, cutoff, tie);
            if BackUp(log, id, l.brokenSince.value, tie)
            then after == l.(status := Active, brokenSince := None, recoveredAt := Some(now)) else after == l
  {
    NewestIsBackUp(log, id, l.brokenSince.value, tie);
  }

  /** A pending listing leaves that state exactly when a sample since its creation succeeded or its deadline
      is over. A success takes it to `Active` unless it is already stale again; without one the deadline takes it to
      `Broken`, unless a success dated after the tick is the newest sample. */
  lemma PendingVerdict(l: Listing, id: Id, log: seq<Sample>, now: int, cutoff: int, tie: bool)
    requires RowAgrees(l, id, log) && l.status == Pending && cutoff <= now
    ensures
      var everOk := exists s :: s in log && s.listing == id && s.ok && s.at >= l.createdAt;
      var expired := l.pendingUntil.None? || l.pendingUntil.value <= now;
      var back := BackUp(log, id, now, tie);
      Gate(l, id, log, now, cutoff, tie)
      == if everOk && Stale(log, id, cutoff) then
           l.(status := Broken, pendingUntil := None, brokenSince := Some(now), recoveredAt := None)
         else if everOk then l.(status := Active, pendingUntil := None)
         else if expired && back then
           l.(status := Active, pendingUntil := None, brokenSince := None, recoveredAt := Some(now))
         else if expired then l.(status := Broken, pendingUntil := None, brokenSince := Some(now))
         else l
  {
    StaleByCache(l, id, log, cutoff);
    NewestIsBackUp(log, id, now, tie);
    assert forall i | 0 <= i < |log| :: log[i] in log;
  }

  /** The gate leaves paused and deleted listings alone. */
  lemma GateSparesOthers(l: Listing, id: Id, log: seq<Sample>, now: int, cutoff: int, tie: bool)
    requires l.status == Disabled || l.status == Deleted
    ensures Gate(l, id, log, now, cutoff, tie) == l
  {
  }

  /** What one tick makes of each row whose caches are right, from the log alone. */
  lemma TickOutcome(w: World, now: int, window: nat, ties: set<Id>, id: Id)
    requires id in w.rows && RowAgrees(w.rows[id], id, w.log)
    requires w.rows[id].status == Broken ==> w.rows[id].brokenSince.Some?
    ensures
      var v, l := Step(w, Tick(now, window, ties)), w.rows[id];
      var stale := Stale(w.log, id, now - window);
      var everOk := exists s :: s in w.log && s.listing == id && s.ok && s.at >= l.createdAt;
      && v.log == w.log && v.rows.Keys == w.rows.Keys
      && match l.status
         case Active =>
           v.rows[id] == if stale then l.(status := Broken, brokenSince := Some(now), recoveredAt := None) else l
         case Broken =>
           v.rows[id] == if BackUp(w.log, id, l.brokenSince.value, id in ties)
                         then l.(status := Active, brokenSince := None, recoveredAt := Some(now)) else l
         case Pending =>
           && (everOk ==> v.rows[id].status == if stale then Broken else Active)
           && (!everOk && l.pendingUntil.Some? && l.pendingUntil.value > now ==> v.rows[id] == l)
           && (!everOk && (l.pendingUntil.None? || l.pendingUntil.value <= now) ==>
                 v.rows[id].status == if BackUp(w.log, id, now, id in ties) then Active else Broken)
         case _ => v.rows[id] == l
  {
    var l, cutoff := w.rows[id], now - window;
    assert Step(w, Tick(now, window, ties)).rows[id] == Gate(l, id, w.log, now, cutoff, id in ties);
    hide Step, Gate, Stale, BackUp, RowAgrees;
    match l.status
    case Active => DemotionNeedsEvidence(l, id, w.log, now, cutoff, id in ties);
    case Broken => RecoveryNeedsSuccess(l, id, w.log, now, cutoff, id in ties);
    case Pending => PendingVerdict(l, id, w.log, now, cutoff, id in ties);
    case _ => GateSparesOthers(l, id, w.log, now, cutoff, id in ties);
  }

  /** A retried listing is judged on every success since its creation, not only on those since the retry:
      with an old success in the log the next tick takes it out of `Pending` at once. */
  lemma RetryCountsOldSuccess(l: Listing, id: Id, log: seq<Sample>, s: Sample, until: int, now: int, cutoff: int,
      tie: bool)
    requires RowAgrees(l, id, log) && l.status == Broken && cutoff <= now
    requires s in log && s.listing == id && s.ok && s.at >= l.createdAt
    ensures
      Gate(Touched(l, Retry(id, until)), id, log, now, cutoff, tie).status
      == if Stale(log, id, cutoff) then Broken else Active
  {
    PendingVerdict(Touched(l, Retry(id, until)), id, log, now, cutoff, tie);
  }

  /** A listing's newest sample may be dated after the tick. If it is a success, the tick leaves every listing on
      sale or due a verdict active; if it is a failure, no broken listing recovers while it stays the newest. */
  lemma FutureSampleRules(l: Listing, id: Id, log: seq<Sample>, s: Sample, now: int, cutoff: int, tie: bool)
    requires RowAgrees(l, id, log) && cutoff <= now < s.at && s in log && s.listing == id
    requires forall t | t in log && t.listing == id && t != s :: t.at < s.at
    requires l.createdAt <= s.at && (l.status == Broken ==> l.brokenSince.Some? && l.brokenSince.value < s.at)
    ensures
      var after := Gate(l, id, log, now, cutoff, tie).status;
      && (s.ok && l.status in {Pending, Active, Broken} ==> after == Active)
      && (!s.ok && l.status == Broken ==> after == Broken)
  {
    assert Matches(s, id, s.ok) && Matches(s, id, false);
    StaleByCache(l, id, log, cutoff);
    if l.status == Pending {
      PendingVerdict(l, id, log, now, cutoff, tie);
    } else if l.status == Broken {
      RecoveryNeedsSuccess(l, id, log, now, cutoff, tie);
    }
  }

  /** A second tick at the same instant finds nothing to do. */
  lemma GateIsIdempotent(l: Listing, id: Id, log: seq<Sample>, now: int, cutoff: int, tie: bool)
    requires RowAgrees(l, id, log) && (l.status == Broken ==> l.brokenSince.Some?)
    ensures var once := Gate(l, id, log, now, cutoff, tie); Gate(once, id, log, now, cutoff, tie) == once
  {
    var once := Gate(l, id, log, now, cutoff, tie);
    GateSettles(l, id, log, now, cutoff, tie);
    StaleByCache(once, id, log, cutoff);
    assert forall i | 0 <= i < |log| :: log[i] in log;
  }

  lemma StepKeepsSince(w: World, e: Event)
    requires BrokenHasSince(w)
    ensures BrokenHasSince(Step(w, e))
  {
    hide NewestSince, HadOk, LastTime;
  }

  lemma {:induction false} BrokenAlwaysHasSince(w: World, evs: seq<Event>)
    requires BrokenHasSince(w)
    ensures BrokenHasSince(Run(w, evs))
    decreases |evs|
  {
    hide Step;
    if evs != [] {
      StepKeepsSince(w, evs[0]);
      BrokenAlwaysHasSince(Step(w, evs[0]), evs[1..]);
    }
  }

  /** After every tick of every run each row is settled, whatever was promoted, broken or recovered in it. */
  lemma EveryTickSettles(w: World, evs: seq<Event>, now: int, window: nat, ties: set<Id>)
    requires CachesAgree(w) && BrokenHasSince(w) && HarmlessRun(w, evs)
    ensures var after := Step(Run(w, evs), Tick(now, window, ties));
            forall id | id in after.rows :: Settled(after.rows[id], id, after.log, now, now - window)
    ensures var after := Step(Run(w, evs), Tick(now, window, ties)); Step(after, Tick(now, window, ties)) == after
  {
    hide Settled, Gate, LastTime, Run, HarmlessRun;
    CachesAreMaxima(w, evs);
    BrokenAlwaysHasSince(w, evs);
    var before := Run(w, evs);
    var after := Step(before, Tick(now, window, ties));
    forall id | id in after.rows
      ensures Settled(after.rows[id], id, after.log, now, now - window)
      ensures Gate(after.rows[id], id, after.log, now, now - window, id in ties) == after.rows[id]
    {
      GateSettles(before.rows[id], id, before.log, now, now - window, id in ties);
      GateIsIdempotent(before.rows[id], id, before.log, now, now - window, id in ties);
    }
    assert Step(after, Tick(now, window, ties)).rows == after.rows;
  }

  /** So it is in every run from the empty registry whose batches do no harm. */
  lemma EveryTickSettlesFromStart(evs: seq<Event>, now: int, window: nat, ties: set<Id>)
    requires HarmlessRun(World(map[], []), evs)
    ensures
      var after := Step(Run(World(map[], []), evs), Tick(now, window, ties));
      && (forall id | id in after.rows :: Settled(after.rows[id], id, after.log, now, now - window))
      && Step(after, Tick(now, window, ties)) == after
  {
    EveryTickSettles(World(map[], []), evs, now, window, ties);
  }

  // ----- The workers -----

  function Advanced(latest: map<Id, int>, s: Sample): map<Id, int>
  {
    if s.listing !in latest || s.at > latest[s.listing] then latest[s.listing := s.at] else latest
  }

  ghost predicate Folded(latest: map<Id, int>, samples: seq<Sample>, onlyOk: bool)
  {
    forall id: Id :: LastTime(samples, id, onlyOk) == if id in latest then Some(latest[id]) else None
  }

  lemma FoldNext(latest: map<Id, int>, samples: seq<Sample>, s: Sample, onlyOk: bool)
    requires Folded(latest, samples, onlyOk)
    ensures Folded(if s.ok || !onlyOk then Advanced(latest, s) else latest, samples + [s], onlyOk)
  {
    assert (samples + [s])[..|samples|] == samples;
  }

  class Registry {
    var rows: map<Id, Listing>
    var log: seq<Sample>

    function State(): World
      reads this
    {
      World(rows, log)
    }

    constructor ()
      ensures State() == World(map[], [])
    {
      rows, log := map[], [];
    }

    /** The batch loop: the rows to store, and the newest time per listing, overall and successful. */
    method FoldBatch(batch: seq<Report>, dbNow: int)
      returns (added: seq<Sample>, latestProbed: map<Id, int>, latestOk: map<Id, int>)
      ensures added == Stamp(batch, rows.Keys, Db(dbNow))
      ensures Folded(latestProbed, Stamp(batch, rows.Keys, App), false)
      ensures Folded(latestOk, Stamp(batch, rows.Keys, App), true)
    {
      added, latestProbed, latestOk := [], map[], map[];
      ghost var cache: seq<Sample> := [];
      assert Folded(latestProbed, cache, false) && Folded(latestOk, cache, true);
      assert added == Stamp(batch[..0], rows.Keys, Db(dbNow)) && cache == Stamp(batch[..0], rows.Keys, App);
      hide LastTime, Stamp, Folded;
      var i := 0;
      while i < |batch|
        invariant 0 <= i <= |batch|
        invariant added == Stamp(batch[..i], rows.Keys, Db(dbNow)) && cache == Stamp(batch[..i], rows.Keys, App)
        invariant Folded(latestProbed, cache, false) && Folded(latestOk, cache, true)
      {
        var r := batch[i];
        StampNext(batch, i, rows.Keys, Db(dbNow));
        StampNext(batch, i, rows.Keys, App);
        if r.listing in rows {
          var sampledAt := if r.at.Some? then r.at.value else r.clock;
          added := added + [Sample(r.listing, r.ok, if r.at.Some? then r.at.value else dbNow)];
          ghost var s := Sample(r.listing, r.ok, sampledAt);
          FoldNext(latestProbed, cache, s, false);
          FoldNext(latestOk, cache, s, true);
          cache := cache + [s];
          if r.listing !in latestProbed || sampledAt > latestProbed[r.listing] {
            latestProbed := latestProbed[r.listing := sampledAt];
          }
          if r.ok && (r.listing !in latestOk || sampledAt > latestOk[r.listing]) {
            latestOk := latestOk[r.listing := sampledAt];
          }
        }
        i := i + 1;
      }
      assert batch[..i] == batch;
    }

    /** `GREATEST` of what is cached and the batch's newest. */
    method AdvanceCaches(latestProbed: map<Id, int>, latestOk: map<Id, int>, ghost samples: seq<Sample>)
      requires Folded(latestProbed, samples, false) && Folded(latestOk, samples, true)
      modifies this`rows
      ensures rows == old(map id | id in rows :: Cached(rows[id], id, samples))
    {
      hide LastTime;
      rows := map id | id in rows ::
        rows[id].(
          lastProbed :=
            if id in latestProbed then Later(rows[id].lastProbed, Some(latestProbed[id])) else rows[id].lastProbed,
          lastOk := if id in latestOk then Later(rows[id].lastOk, Some(latestOk[id])) else rows[id].lastOk);
    }

    /** The prober's batch: append the rows, then advance each cache to the newest time, never back. */
    method PostSamples(batch: seq<Report>, dbNow: int)
      modifies this
      ensures Stored(log, old(log), batch, old(rows).Keys, dbNow) && rows.Keys == old(rows).Keys
      ensures forall id | id in rows ::
                && rows[id] == old(rows)[id].(lastProbed := rows[id].lastProbed, lastOk := rows[id].lastOk)
                && IsLatest(rows[id].lastProbed, old(rows)[id].lastProbed, batch, id, false)
                && IsLatest(rows[id].lastOk, old(rows)[id].lastOk, batch, id, true)
      ensures State() == old(Step(State(), Samples(batch, dbNow)))
    {
      BatchIsTaken(State(), batch, dbNow);
      hide Stamp, LastTime, IsLatest, Stored, Cached, Folded;
      var added, latestProbed, latestOk := FoldBatch(batch, dbNow);
      log := log + added;
      AdvanceCaches(latestProbed, latestOk, Stamp(batch, rows.Keys, App));
    }

    method PendingLoop(now: int)
      modifies this`rows
      ensures rows == old(map id | id in rows :: PendingPass(rows[id], id, log, now))
    {
      var todo := set id | id in rows && rows[id].status == Pending;
      while todo != {}
        invariant rows.Keys == old(rows).Keys && todo <= rows.Keys
        invariant forall id | id in todo :: rows[id] == old(rows)[id] && rows[id].status == Pending
        invariant forall id | id in rows && id !in todo :: rows[id] == PendingPass(old(rows)[id], id, log, now)
        decreases |todo|
      {
        var id :| id in todo;
        var l := rows[id];
        assert l == old(rows)[id];
        todo := todo - {id};
        if HadOk(log, id, l.createdAt) {
          rows := rows[id := l.(status := Active, pendingUntil := None)];
        } else if l.pendingUntil.None? || l.pendingUntil.value <= now {
          rows := rows[id := l.(status := Broken, brokenSince := Some(now), pendingUntil := None)];
        }
      }
    }

    method DemoteLoop(now: int, cutoff: int)
      modifies this`rows
      ensures rows == old(map id | id in rows :: DemotePass(rows[id], now, cutoff))
    {
      var todo := set id | id in rows && rows[id].status == Active;
      while todo != {}
        invariant rows.Keys == old(rows).Keys && todo <= rows.Keys
        invariant forall id | id in todo :: rows[id] == old(rows)[id] && rows[id].status == Active
        invariant forall id | id in rows && id !in todo :: rows[id] == DemotePass(old(rows)[id], now, cutoff)
        decreases |todo|
      {
        var id :| id in todo;
        var l := rows[id];
        assert l == old(rows)[id];
        todo := todo - {id};
        if l.lastOk.Some? && l.lastOk.value >= cutoff {
          continue;
        }
        if l.lastProbed.None? || l.lastProbed.value < cutoff {
          continue;
        }
        rows := rows[id := l.(status := Broken, brokenSince := Some(now), recoveredAt := None)];
      }
    }

    method RecoverLoop(now: int, ties: set<Id>)
      modifies this`rows
      ensures rows == old(map id | id in rows :: RecoverPass(rows[id], id, log, now, id in ties))
    {
      var todo := set id | id in rows && rows[id].status == Broken;
      while todo != {}
        invariant rows.Keys == old(rows).Keys && todo <= rows.Keys
        invariant forall id | id in todo :: rows[id] == old(rows)[id] && rows[id].status == Broken
        invariant forall id | id in rows && id !in todo ::
                    rows[id] == RecoverPass(old(rows)[id], id, log, now, id in ties)
        decreases |todo|
      {
        var id :| id in todo;
        var l := rows[id];
        assert l == old(rows)[id];
        todo := todo - {id};
        var since := if l.brokenSince.Some? then l.brokenSince.value else l.createdAt;
        var recent := NewestSince(log, id, since, id in ties);
        if recent.Some? && recent.value.ok {
          rows := rows[id := l.(status := Active, brokenSince := None, recoveredAt := Some(now))];
        }
      }
    }

    method ListingQualityGateOnce(now: int, window: nat, ties: set<Id>)
      modifies this
      ensures State() == old(Step(State(), Tick(now, window, ties)))
    {
      hide PendingPass, DemotePass, RecoverPass;
      PendingLoop(now);
      DemoteLoop(now, now - window);
      RecoverLoop(now, ties);
    }

    method EnableListing(id: Id) returns (found: bool)
      modifies this`rows
      ensures found == old(id in rows && rows[id].status != Deleted)
      ensures rows == if found then old(rows)[id := old(rows)[id].(status := Active)] else old(rows)
      ensures State() == old(Step(State(), Enable(id)))
    {
      found := id in rows && rows[id].status != Deleted;
      if found && rows[id].status == Active {
        assert rows[id := rows[id].(status := Active)] == rows;
      } else if found {
        rows := rows[id := rows[id].(status := Active)];
      }
    }

    method DisableListing(id: Id) returns (found: bool)
      modifies this`rows
      ensures found == old(id in rows && rows[id].status != Deleted)
      ensures rows == if found then old(rows)[id := old(rows)[id].(status := Disabled)] else old(rows)
      ensures State() == old(Step(State(), Disable(id)))
    {
      found := id in rows && rows[id].status != Deleted;
      if found && rows[id].status == Disabled {
        assert rows[id := rows[id].(status := Disabled)] == rows;
      } else if found {
        rows := rows[id := rows[id].(status := Disabled)];
      }
    }

    method RetryListing(id: Id, until: int) returns (allowed: bool)
      modifies this`rows
      ensures allowed == old(id in rows && rows[id].status == Broken)
      ensures rows
              == if allowed
                 then old(rows)[id := old(rows)[id].(status := Pending, pendingUntil := Some(until),
                                                     brokenSince := None)]
                 else old(rows)
      ensures State() == old(Step(State(), Retry(id, until)))
    {
      allowed := id in rows && rows[id].status == Broken;
      if allowed {
        rows := rows[id := rows[id].(status := Pending, pendingUntil := Some(until), brokenSince := None)];
      }
    }

    method PatchListing(id: Id, changed: bool, until: int) returns (found: bool)
      modifies this`rows
      ensures found == old(id in rows && rows[id].status != Deleted)
      ensures rows
              == if found && changed && old(rows)[id].status in {Broken, Disabled}
                 then old(rows)[id := old(rows)[id].(status := Pending, pendingUntil := Some(until),
                                                     brokenSince := None, recoveredAt := None)]
                 else old(rows)
      ensures State() == old(Step(State(), Edit(id, changed, until)))
    {
      found := id in rows && rows[id].status != Deleted;
      if found && changed && rows[id].status in {Broken, Disabled} {
        var l := rows[id].(status := Pending, pendingUntil := Some(until));
        rows := rows[id := l.(brokenSince := None, recoveredAt := None)];
      }
    }

    method DeleteListing(id: Id) returns (found: bool)
      modifies this`rows
      ensures found == old(id in rows && rows[id].status != Deleted)
      ensures rows == if found then old(rows)[id := old(rows)[id].(status := Deleted)] else old(rows)
      ensures State() == old(Step(State(), Delete(id)))
    {
      found := id in rows && rows[id].status != Deleted;
      if found {
        rows := rows[id := rows[id].(status := Deleted)];
      }
    }
  }
}
