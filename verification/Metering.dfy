/** The read -> reset -> bill protocol between the panel's counters and the database's anchors.

    The world is everything the protocol touches: the two tables with their anchors, the panel's
    counters, the rows billing appends, and where each poll worker stands. A client is identified
    by its panel e-mail, a listing by its row number; tables are sequences indexed by them. Up and
    down bytes are added up, since billing uses only their total. `moved`, `forgiven` and `lost`
    are bookkeeping that no program reads.

    Every call that can fail is an event whose arguments say how it ended, and any event may happen
    between any two others. An event that cannot happen where it stands leaves the world alone.
*/
module Metering {
  import opened BillingMath
  import opened Common

  type ListingId = nat
  type Email = nat
  type Worker = nat

  /** A panel client and, once a buyer owns it, the config row of the same e-mail. */
  datatype Client = Client(
    listing: ListingId,
    active: bool,      // the config row exists with status `active`
    anchor: nat,       // Config.last_snapshot_bytes
    counter: nat,      // the panel's counter
    moved: nat, forgiven: nat, lost: nat)

  datatype Inbound = Inbound(
    price: real,
    provisioned: bool,
    deleted: bool,
    anchor: nat,       // Listing.last_outbound_up_bytes + last_outbound_down_bytes
    counter: nat,      // the panel's counter
    moved: nat, forgiven: nat, lost: nat)

  datatype Reading = Reading(email: Email, total: nat)

  datatype Snapshot = Snapshot(total: nat, clients: seq<Reading>)

  datatype ConfigUsage = ConfigUsage(email: Email, listing: ListingId, bytes: nat, gb: nat, debit: int)

  datatype OutboundUsage = OutboundUsage(listing: ListingId, bytes: nat, gb: nat, credit: int)

  datatype Entry = UsageDebit(email: Email, amount: int) | UsageCredit(listing: ListingId, amount: int)

  datatype Phase =
    | Idle
    | BetweenListings(processed: set<ListingId>)
    | SnapshotTaken(processed: set<ListingId>, listing: ListingId, snap: Snapshot)
    | ResetDone(processed: set<ListingId>, listing: ListingId, snap: Snapshot, succeeded: bool)
    | GlobalResetDone(processed: set<ListingId>, succeeded: bool)

  datatype World = World(
    inbounds: seq<Inbound>,
    clients: seq<Client>,
    usage: seq<ConfigUsage>,
    outbound: seq<OutboundUsage>,
    ledger: seq<Entry>,
    phases: map<Worker, Phase>)

  /** How a commit ended: whether it took effect and whether the poller counts the listing as done.
      A commit may raise after taking effect, and an integrity error counts as done. */
  datatype Commit = Commit(applied: bool, ok: bool)

  datatype Event =
    | Traffic(email: Email, bytes: nat)
    | OtherTraffic(listing: ListingId, bytes: nat)
    | OperatorReset(listing: ListingId)
    | AddListing(price: real)
    | DeleteListing(listing: ListingId)
    | SetPrice(listing: ListingId, price: real)
    | AddClient(listing: ListingId)
    | SetActive(email: Email, active: bool)
    | StartCycle(worker: Worker)
    | Read(worker: Worker, listing: ListingId, readings: seq<Reading>)
    | ResetClients(worker: Worker, took: bool, reported: bool)
    | SkipReset(worker: Worker)
    | Bill(worker: Worker, commission: real, commit: Commit)
    | GlobalReset(worker: Worker, took: bool, reported: bool)
    | SkipGlobalReset(worker: Worker)
    | ZeroAnchors(worker: Worker, applied: bool)
    | Crash(worker: Worker)

  // ----- Billing -----

  /** New bytes since the anchor; a counter below its anchor was reset, so all of it is new. */
  function Delta(total: nat, anchor: nat): nat { if total >= anchor then total - anchor else total }

  function Billable(delta: nat): nat { if delta >= MIN_BILLABLE then delta else 0 }

  predicate IsBilled(c: Client, l: ListingId) { c.listing == l && c.active }

  function ChargedBytes(c: Client, l: ListingId, total: nat): nat
  {
    if IsBilled(c, l) then Billable(Delta(total, c.anchor)) else 0
  }

  function Advance(c: Client, l: ListingId, total: nat, reset: bool): Client
  {
    if IsBilled(c, l) then
      var delta := Delta(total, c.anchor);
      c.(anchor := if reset then 0 else total, forgiven := c.forgiven + delta - Billable(delta))
    else c
  }

  function BillReading(w: World, l: ListingId, r: Reading, rate: real, reset: bool): World
  {
    if r.email >= |w.clients| then w
    else
      var c := w.clients[r.email];
      var bytes := ChargedBytes(c, l, r.total);
      var debit := Charge(bytes, rate);
      w.(clients := w.clients[r.email := Advance(c, l, r.total, reset)],
         usage := if bytes > 0 then w.usage + [ConfigUsage(r.email, l, bytes, GbUnits(bytes), debit)] else w.usage,
         ledger := if bytes > 0 && debit > 0 then w.ledger + [UsageDebit(r.email, -debit)] else w.ledger)
  }

  function BillReadings(w: World, l: ListingId, readings: seq<Reading>, rate: real, reset: bool): World
  {
    if readings == [] then w
    else
      var last := |readings| - 1;
      BillReading(BillReadings(w, l, readings[..last], rate, reset), l, readings[last], rate, reset)
  }

  function AdvanceInbound(inb: Inbound, total: nat): Inbound
  {
    var delta := Delta(total, inb.anchor);
    inb.(anchor := total, forgiven := inb.forgiven + delta - Billable(delta))
  }

  function CreditInbound(w: World, l: ListingId, total: nat): World
    requires l < |w.inbounds|
  {
    var inb := w.inbounds[l];
    var bytes := Billable(Delta(total, inb.anchor));
    var credit := Charge(bytes, SellerRate(inb.price));
    w.(inbounds := w.inbounds[l := AdvanceInbound(inb, total)],
       outbound := if bytes > 0 then w.outbound + [OutboundUsage(l, bytes, GbUnits(bytes), credit)] else w.outbound,
       ledger := if bytes > 0 && credit > 0 then w.ledger + [UsageCredit(l, credit)] else w.ledger)
  }

  function BillInbound(w: World, l: ListingId, snap: Snapshot, commission: real, reset: bool): World
    requires l < |w.inbounds|
  {
    BillReadings(CreditInbound(w, l, snap.total), l, snap.clients, BuyerRate(w.inbounds[l].price, commission), reset)
  }

  // ----- Steps -----

  function PhaseOf(w: World, k: Worker): Phase { if k in w.phases then w.phases[k] else Idle }

  function At(w: World, k: Worker, phase: Phase): World { w.(phases := w.phases[k := phase]) }

  function ReadingOf(readings: seq<Reading>, e: Email): Option<nat>
  {
    if readings == [] then None
    else
      var last := readings[|readings| - 1];
      if last.email == e then Some(last.total) else ReadingOf(readings[..|readings| - 1], e)
  }

  predicate Distinct(readings: seq<Reading>)
  {
    forall i, j | 0 <= i < j < |readings| :: readings[i].email != readings[j].email
  }

  /** The panel reports counters of this inbound's clients, each at most once, and possibly not all. */
  predicate Truthful(w: World, l: ListingId, readings: seq<Reading>)
  {
    && Distinct(readings)
    && forall i | 0 <= i < |readings| ::
         && readings[i].email < |w.clients|
         && w.clients[readings[i].email].listing == l
         && w.clients[readings[i].email].counter == readings[i].total
  }

  /** Bytes a reset wipes that nobody can bill any more: those past the reading, or without a reading
      those past the anchor. */
  function Missed(c: Client, reading: Option<nat>): nat
  {
    if reading.None? then Delta(c.counter, c.anchor)
    else if c.counter >= reading.value then c.counter - reading.value else 0
  }

  function WipeClient(c: Client, l: ListingId, reading: Option<nat>): Client
  {
    if c.listing == l then c.(counter := 0, lost := c.lost + Missed(c, reading)) else c
  }

  function WipeClients(clients: seq<Client>, l: ListingId, readings: seq<Reading>): (r: seq<Client>)
    ensures |r| == |clients|
    ensures forall e | 0 <= e < |r| :: r[e] == WipeClient(clients[e], l, ReadingOf(readings, e))
  {
    seq(|clients|, e requires 0 <= e < |clients| => WipeClient(clients[e], l, ReadingOf(readings, e)))
  }

  /** A wiped counter takes with it what no cycle has read. */
  function WipeInbound(inb: Inbound): Inbound
  {
    inb.(counter := 0, lost := inb.lost + Delta(inb.counter, inb.anchor))
  }

  function WipeInbounds(inbounds: seq<Inbound>): (r: seq<Inbound>)
    ensures |r| == |inbounds|
    ensures forall l | 0 <= l < |r| :: r[l] == WipeInbound(inbounds[l])
  {
    seq(|inbounds|, l requires 0 <= l < |inbounds| => WipeInbound(inbounds[l]))
  }

  function ZeroProcessed(inbounds: seq<Inbound>, processed: set<ListingId>): (r: seq<Inbound>)
    ensures |r| == |inbounds|
    ensures forall l | 0 <= l < |r| :: r[l] == if l in processed then inbounds[l].(anchor := 0) else inbounds[l]
  {
    seq(|inbounds|, l requires 0 <= l < |inbounds| => if l in processed then inbounds[l].(anchor := 0) else inbounds[l])
  }

  /** The end of a cycle: after a reset that reported success the processed listings' anchors follow. */
  function FollowAnchors(w: World, k: Worker, applied: bool): World
    requires PhaseOf(w, k).GlobalResetDone?
  {
    var p := PhaseOf(w, k);
    At(if p.succeeded && applied then w.(inbounds := ZeroProcessed(w.inbounds, p.processed)) else w, k, Idle)
  }

  function AddInboundBytes(inbounds: seq<Inbound>, l: ListingId, bytes: nat): (r: seq<Inbound>)
    ensures |r| == |inbounds|
  {
    if l < |inbounds| then
      inbounds[l := inbounds[l].(counter := inbounds[l].counter + bytes, moved := inbounds[l].moved + bytes)]
    else inbounds
  }

  function Step(w: World, ev: Event): World
  {
    match ev
    case Traffic(e, n) =>
      if e < |w.clients| then
        var c := w.clients[e];
        w.(clients := w.clients[e := c.(counter := c.counter + n, moved := c.moved + n)],
           inbounds := AddInboundBytes(w.inbounds, c.listing, n))
      else w
    case OtherTraffic(l, n) => w.(inbounds := AddInboundBytes(w.inbounds, l, n))
    case OperatorReset(l) =>
      w.(clients := WipeClients(w.clients, l, []),
         inbounds := if l < |w.inbounds| then w.inbounds[l := WipeInbound(w.inbounds[l])] else w.inbounds)
    case AddListing(price) => w.(inbounds := w.inbounds + [Inbound(price, true, false, 0, 0, 0, 0, 0)])
    case DeleteListing(l) =>
      if l < |w.inbounds| then w.(inbounds := w.inbounds[l := w.inbounds[l].(deleted := true)]) else w
    case SetPrice(l, price) =>
      if l < |w.inbounds| then w.(inbounds := w.inbounds[l := w.inbounds[l].(price := price)]) else w
    case AddClient(l) => w.(clients := w.clients + [Client(l, false, 0, 0, 0, 0, 0)])
    case SetActive(e, active) =>
      if e < |w.clients| then w.(clients := w.clients[e := w.clients[e].(active := active)]) else w
    case StartCycle(k) => if PhaseOf(w, k).Idle? then At(w, k, BetweenListings({})) else w
    case Read(k, l, readings) =>
      if PhaseOf(w, k).BetweenListings? && l < |w.inbounds| && w.inbounds[l].provisioned && Truthful(w, l, readings)
      then
        At(w, k, SnapshotTaken(PhaseOf(w, k).processed, l, Snapshot(w.inbounds[l].counter, readings)))
      else w
    case ResetClients(k, took, reported) =>
      (match PhaseOf(w, k)
       case SnapshotTaken(done, l, snap) =>
         if snap.clients == [] then w
         else
           At(if took then w.(clients := WipeClients(w.clients, l, snap.clients)) else w,
              k, ResetDone(done, l, snap, reported))
       case _ => w)
    case SkipReset(k) =>
      (match PhaseOf(w, k)
       case SnapshotTaken(done, l, snap) => At(w, k, ResetDone(done, l, snap, false))
       case _ => w)
    case Bill(k, commission, commit) =>
      (match PhaseOf(w, k)
       case ResetDone(done, l, snap, succeeded) =>
         var billed := if l < |w.inbounds| && commit.applied then BillInbound(w, l, snap, commission, succeeded) else w;
         At(billed, k, BetweenListings(if l < |w.inbounds| && commit.ok then done + {l} else done))
       case _ => w)
    case GlobalReset(k, took, reported) =>
      (match PhaseOf(w, k)
       case BetweenListings(done) =>
         if done == {} then w
         else At(if took then w.(inbounds := WipeInbounds(w.inbounds)) else w, k, GlobalResetDone(done, reported))
       case _ => w)
    case SkipGlobalReset(k) =>
      (match PhaseOf(w, k)
       case BetweenListings(done) => At(w, k, GlobalResetDone(done, false))
       case _ => w)
    case ZeroAnchors(k, applied) =>
      if PhaseOf(w, k).GlobalResetDone? then FollowAnchors(w, k, applied) else w
    case Crash(k) => At(w, k, Idle)
  }

  lemma ZeroStep(w: World, me: Worker, applied: bool)
    requires PhaseOf(w, me).GlobalResetDone?
    ensures Step(w, ZeroAnchors(me, applied)) == FollowAnchors(w, me, applied)
  {
    hide FollowAnchors, BillInbound, WipeClients, WipeInbounds, Truthful, AddInboundBytes;
  }

  /** Before the first listing. */
  const EMPTY: World := World([], [], [], [], [], map[])

  function Run(w: World, evs: seq<Event>): World
    decreases |evs|
  {
    if evs == [] then w else Run(Step(w, evs[0]), evs[1..])
  }

  lemma {:induction false} RunAppends(w: World, a: seq<Event>, b: seq<Event>)
    ensures Run(w, a + b) == Run(Run(w, a), b)
    decreases |a|
  {
    if a == [] {
      assert a + b == b;
    } else {
      assert (a + b)[0] == a[0] && (a + b)[1..] == a[1..] + b;
      RunAppends(Step(w, a[0]), a[1..], b);
    }
  }

  // ----- What was billed -----

  /** Bytes on the usage rows of one config. */
  function BilledBytes(rows: seq<ConfigUsage>, e: Email): nat
  {
    if rows == [] then 0
    else
      var last := rows[|rows| - 1];
      BilledBytes(rows[..|rows| - 1], e) + if last.email == e then last.bytes else 0
  }

  /** Bytes on the usage rows of one listing's inbound. */
  function CreditedBytes(rows: seq<OutboundUsage>, l: ListingId): nat
  {
    if rows == [] then 0
    else
      var last := rows[|rows| - 1];
      CreditedBytes(rows[..|rows| - 1], l) + if last.listing == l then last.bytes else 0
  }
}
