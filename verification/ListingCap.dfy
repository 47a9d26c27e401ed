/** The five-listings cap under concurrent requests, and what becomes of the panel inbounds.

    A create request counts, provisions an inbound on the panel, adds a probe client, takes the
    seller's lock, counts again and commits. Any number of requests run interleaved, one await at a
    time; panel calls and commits may fail, and a request may die anywhere.
*/
module ListingCap {

  type Seller = nat
  type ListingId = nat
  type RequestId = nat
  type Inbound = nat
  type Port = nat

  const MAX_LISTINGS: nat := 5

  datatype Listing = Listing(seller: Seller, port: Port, inbound: Inbound, deleted: bool)

  /** How far a create request has come. From `Provisioned` on it holds an inbound; in `Locked` and
      `Counted` it also holds its seller's lock; in `Cleaning` it owes the panel a `delete_inbound`. */
  datatype Phase = Checked | Provisioned | Probed | Locked | Counted | Cleaning | Done

  datatype Request = Request(seller: Seller, port: Port, phase: Phase, inbound: Inbound)

  /** `provisioned`, `handedOver`, `leaked`, `removing` and `lost` are history: inbounds the panel ever
      created, inbounds passed to `delete_inbound`, inbounds dropped by an exit the code does not handle,
      listings whose own removal reached the panel, and listings saved by a commit that raised. */
  datatype World = World(
    listings: map<ListingId, Listing>, requests: map<RequestId, Request>, locks: map<nat, RequestId>,
    provisioned: set<Inbound>, handedOver: set<Inbound>, leaked: set<Inbound>,
    removing: set<ListingId>, lost: set<ListingId>)

  function LockKey(s: Seller): nat { s % 0x8000_0000 }

  function LiveOf(listings: map<ListingId, Listing>, s: Seller): set<ListingId>
  {
    set l | l in listings && listings[l].seller == s && !listings[l].deleted
  }

  /** The port column is unique over all rows, deleted ones included. */
  predicate PortTaken(listings: map<ListingId, Listing>, port: Port)
  {
    exists l | l in listings :: listings[l].port == port
  }

  datatype CommitOutcome = Saved | RolledBack | SavedButRaised

  datatype Event =
    | Begin(id: RequestId, seller: Seller, port: Port)
    | AddInbound(id: RequestId, inbound: Inbound)
    | InboundRefused(id: RequestId)
    | InboundLost(id: RequestId, inbound: Inbound)
    | AddProbe(id: RequestId, ok: bool)
    | TakeLock(id: RequestId)
    | Recount(id: RequestId)
    | Commit(id: RequestId, listing: ListingId, outcome: CommitOutcome)
    | HandOver(id: RequestId)
    | Abort(id: RequestId)
    | RemoveInbound(listing: ListingId)
    | RemoveRow(listing: ListingId)

  predicate At(w: World, id: RequestId, phase: Phase) { id in w.requests && w.requests[id].phase == phase }

  function Moved(w: World, id: RequestId, phase: Phase): World
    requires id in w.requests
  {
    w.(requests := w.requests[id := w.requests[id].(phase := phase)])
  }

  /** The transaction ends: its advisory lock goes with it. */
  function Unlocked(w: World, id: RequestId): World
    requires id in w.requests
  {
    w.(locks := w.locks - {LockKey(w.requests[id].seller)})
  }

  /** What becomes of a commit: a taken port makes it roll back. */
  function Ends(w: World, id: RequestId, outcome: CommitOutcome): CommitOutcome
    requires id in w.requests
  {
    if PortTaken(w.listings, w.requests[id].port) then RolledBack else outcome
  }

  function Inserted(w: World, id: RequestId, l: ListingId): World
    requires id in w.requests
  {
    w.(listings := w.listings[l := Listing(w.requests[id].seller, w.requests[id].port, w.requests[id].inbound, false)])
  }

  predicate Holds(r: Request) { r.phase !in {Checked, Done} }

  function CommitStep(w: World, id: RequestId, l: ListingId, outcome: CommitOutcome): World
  {
    if !At(w, id, Counted) || l in w.listings then w
    else match Ends(w, id, outcome)
      case Saved => Moved(Unlocked(Inserted(w, id, l), id), id, Done)
      case RolledBack => Moved(Unlocked(w, id), id, Cleaning)
      case SavedButRaised => Moved(Unlocked(Inserted(w, id, l), id), id, Cleaning).(lost := w.lost + {l})
  }

  function AbortStep(w: World, id: RequestId): World
  {
    if id !in w.requests then w
    else
      var r := w.requests[id];
      var w' := if Holds(r) then w.(leaked := w.leaked + {r.inbound}) else w;
      Moved(if r.phase in {Locked, Counted} then Unlocked(w', id) else w', id, Done)
  }

  predicate MayBegin(w: World, s: Seller, port: Port)
  {
    |LiveOf(w.listings, s)| < MAX_LISTINGS && !PortTaken(w.listings, port)
  }

  function Step(w: World, e: Event): World
  {
    match e
    case Begin(id, s, port) =>
      if id in w.requests || !MayBegin(w, s, port) then w
      else w.(requests := w.requests[id := Request(s, port, Checked, 0)])
    case AddInbound(id, i) =>
      if !At(w, id, Checked) || i in w.provisioned then w
      else
        w.(requests := w.requests[id := w.requests[id].(phase := Provisioned, inbound := i)],
           provisioned := w.provisioned + {i})
    case InboundRefused(id) => if At(w, id, Checked) then Moved(w, id, Done) else w
    case InboundLost(id, i) =>
      if !At(w, id, Checked) || i in w.provisioned then w
      else Moved(w, id, Done).(provisioned := w.provisioned + {i}, leaked := w.leaked + {i})
    case AddProbe(id, ok) => if At(w, id, Provisioned) then Moved(w, id, if ok then Probed else Cleaning) else w
    case TakeLock(id) =>
      if !At(w, id, Probed) || LockKey(w.requests[id].seller) in w.locks then w
      else Moved(w.(locks := w.locks[LockKey(w.requests[id].seller) := id]), id, Locked)
    case Recount(id) =>
      if !At(w, id, Locked) then w
      else if |LiveOf(w.listings, w.requests[id].seller)| >= MAX_LISTINGS then Moved(Unlocked(w, id), id, Cleaning)
      else Moved(w, id, Counted)
    case Commit(id, l, outcome) => CommitStep(w, id, l, outcome)
    case HandOver(id) =>
      if At(w, id, Cleaning) then Moved(w, id, Done).(handedOver := w.handedOver + {w.requests[id].inbound}) else w
    case Abort(id) => AbortStep(w, id)
    case RemoveInbound(l) =>
      if l in w.listings && !w.listings[l].deleted
      then w.(handedOver := w.handedOver + {w.listings[l].inbound}, removing := w.removing + {l}) else w
    case RemoveRow(l) =>
      if l in w.listings then w.(listings := w.listings[l := w.listings[l].(deleted := true)]) else w
  }

  function Run(w: World, evs: seq<Event>): World
    decreases |evs|
  {
    if evs == [] then w else Run(Step(w, evs[0]), evs[1..])
  }

  const EMPTY: World := World(map[], map[], map[], {}, {}, {}, {}, {})

  // ----- The cap -----

  predicate InLock(r: Request) { r.phase in {Locked, Counted} }

  /** Who is past the lock holds it. */
  ghost predicate LocksHeld(w: World)
  {
    forall id | id in w.requests && InLock(w.requests[id]) ::
      LockKey(w.requests[id].seller) in w.locks && w.locks[LockKey(w.requests[id].seller)] == id
  }

  /** Within the cap, and with room left for whoever has counted under the lock. */
  ghost predicate Capped(w: World)
  {
    && (forall s: Seller :: |LiveOf(w.listings, s)| <= MAX_LISTINGS)
    && (forall id | id in w.requests && w.requests[id].phase == Counted ::
          |LiveOf(w.listings, w.requests[id].seller)| < MAX_LISTINGS)
  }

  lemma Insertion(listings: map<ListingId, Listing>, l: ListingId, row: Listing, s: Seller)
    requires l !in listings && !row.deleted
    ensures |LiveOf(listings[l := row], s)| == |LiveOf(listings, s)| + if row.seller == s then 1 else 0
  {
    var after := LiveOf(listings[l := row], s);
    if row.seller == s {
      assert after == LiveOf(listings, s) + {l};
    } else {
      assert after == LiveOf(listings, s);
    }
  }

  lemma Removal(listings: map<ListingId, Listing>, l: ListingId, s: Seller)
    requires l in listings
    ensures |LiveOf(listings[l := listings[l].(deleted := true)], s)| <= |LiveOf(listings, s)|
  {
    assert LiveOf(listings[l := listings[l].(deleted := true)], s) == LiveOf(listings, s) - {l};
    if l in LiveOf(listings, s) {
      assert |LiveOf(listings, s) - {l}| == |LiveOf(listings, s)| - 1;
    } else {
      assert LiveOf(listings, s) - {l} == LiveOf(listings, s);
    }
  }

  /** Every step but these four leaves the locks and who is inside them alone. */
  predicate MovesLocks(e: Event) { e.TakeLock? || e.Recount? || e.Commit? || e.Abort? }

  lemma OthersKeepLocks(w: World, e: Event)
    requires LocksHeld(w) && !MovesLocks(e)
    ensures LocksHeld(Step(w, e))
  {
    hide LiveOf;
    var v := Step(w, e);
    assert v.locks == w.locks;
    assert forall id | id in v.requests && InLock(v.requests[id]) ::
             id in w.requests && v.requests[id] == w.requests[id];
  }

  lemma StepKeepsLocks(w: World, e: Event)
    requires LocksHeld(w)
    ensures LocksHeld(Step(w, e))
  {
    hide LiveOf;
    if !MovesLocks(e) {
      OthersKeepLocks(w, e);
    }
  }

  lemma OneMore(w: World, v: World, s: Seller)
    requires Capped(w) && |LiveOf(w.listings, s)| < MAX_LISTINGS
    requires forall t: Seller :: |LiveOf(v.listings, t)| == |LiveOf(w.listings, t)| + if t == s then 1 else 0
    requires forall id | id in v.requests && v.requests[id].phase == Counted ::
               id in w.requests && v.requests[id] == w.requests[id] && w.requests[id].seller != s
    ensures Capped(v)
  {
    hide LiveOf;
  }

  lemma OneInside(w: World, id: RequestId, jd: RequestId)
    requires LocksHeld(w) && id in w.requests && jd in w.requests && id != jd
    requires InLock(w.requests[id]) && InLock(w.requests[jd])
    ensures w.requests[id].seller != w.requests[jd].seller
  {
  }

  lemma InsertKeepsCap(w: World, id: RequestId, l: ListingId, outcome: CommitOutcome)
    requires LocksHeld(w) && Capped(w)
    ensures Capped(CommitStep(w, id, l, outcome))
  {
    hide LiveOf;
    if At(w, id, Counted) && l !in w.listings && Ends(w, id, outcome) != RolledBack {
      var row := Listing(w.requests[id].seller, w.requests[id].port, w.requests[id].inbound, false);
      var v := CommitStep(w, id, l, outcome);
      forall s: Seller
        ensures |LiveOf(v.listings, s)| == |LiveOf(w.listings, s)| + if s == row.seller then 1 else 0
      {
        Insertion(w.listings, l, row, s);
      }
      forall jd | jd in v.requests && v.requests[jd].phase == Counted
        ensures jd in w.requests && v.requests[jd] == w.requests[jd] && w.requests[jd].seller != row.seller
      {
        OneInside(w, id, jd);
      }
      OneMore(w, v, row.seller);
    }
  }

  lemma SameListingsKeepCap(w: World, e: Event)
    requires Capped(w) && !e.Commit? && !e.RemoveRow?
    ensures Capped(Step(w, e))
  {
    hide LiveOf;
    assert Step(w, e).listings == w.listings;
  }

  lemma StepKeepsCap(w: World, e: Event)
    requires LocksHeld(w) && Capped(w)
    ensures Capped(Step(w, e))
  {
    if e.Commit? {
      InsertKeepsCap(w, e.id, e.listing, e.outcome);
    } else if e.RemoveRow? {
      if e.listing in w.listings {
        forall s: Seller
          ensures |LiveOf(Step(w, e).listings, s)| <= |LiveOf(w.listings, s)|
        {
          Removal(w.listings, e.listing, s);
        }
      }
    } else {
      SameListingsKeepCap(w, e);
    }
  }

  /** In every interleaving of any number of creates and removals, no seller ever exceeds the cap. */
  lemma {:induction false} CapHolds(w: World, evs: seq<Event>)
    requires LocksHeld(w) && Capped(w)
    ensures LocksHeld(Run(w, evs)) && Capped(Run(w, evs))
    decreases |evs|
  {
    hide Step, LocksHeld, Capped;
    if evs != [] {
      StepKeepsLocks(w, evs[0]);
      StepKeepsCap(w, evs[0]);
      CapHolds(Step(w, evs[0]), evs[1..]);
    }
  }

  lemma CapHoldsFromStart(evs: seq<Event>, s: Seller)
    ensures |LiveOf(Run(EMPTY, evs).listings, s)| <= MAX_LISTINGS
  {
    forall t: Seller
      ensures LiveOf(EMPTY.listings, t) == {}
    {
    }
    CapHolds(EMPTY, evs);
  }

  /** Every lock is held by a request that is past it, of a seller with that key. */
  ghost predicate LocksUsed(w: World)
  {
    forall k | k in w.locks ::
      && w.locks[k] in w.requests && InLock(w.requests[w.locks[k]]) && LockKey(w.requests[w.locks[k]].seller) == k
  }

  /** Only this request moves, and only its own seller's lock may change hands. */
  lemma OneMoves(w: World, v: World, id: RequestId)
    requires LocksHeld(w) && LocksUsed(w) && id in w.requests && id in v.requests
    requires v.requests[id].seller == w.requests[id].seller && v.requests == w.requests[id := v.requests[id]]
    requires
      var k := LockKey(w.requests[id].seller);
      if InLock(v.requests[id]) then v.locks == w.locks[k := id]
      else v.locks == if InLock(w.requests[id]) then w.locks - {k} else w.locks
    ensures LocksUsed(v)
  {
    forall k | k in v.locks
      ensures
        && v.locks[k] in v.requests && InLock(v.requests[v.locks[k]]) && LockKey(v.requests[v.locks[k]].seller) == k
    {
      if v.locks[k] != id {
        assert k in w.locks && w.locks[k] == v.locks[k];
      }
    }
  }

  lemma LockStepShape(w: World, e: Event)
    requires LocksHeld(w) && MovesLocks(e) && Step(w, e) != w
    ensures
      var v, id := Step(w, e), e.id;
      && id in w.requests && id in v.requests && v.requests[id].seller == w.requests[id].seller
      && v.requests == w.requests[id := v.requests[id]]
      && var k := LockKey(w.requests[id].seller);
         if InLock(v.requests[id]) then v.locks == w.locks[k := id]
         else v.locks == if InLock(w.requests[id]) then w.locks - {k} else w.locks
  {
    hide LiveOf, PortTaken, LockKey;
    if e.Recount? {
      assert w.locks[LockKey(w.requests[e.id].seller) := e.id] == w.locks;
    }
  }

  lemma StepKeepsLocksUsed(w: World, e: Event)
    requires LocksHeld(w) && LocksUsed(w)
    ensures LocksUsed(Step(w, e))
  {
    hide LiveOf;
    if !MovesLocks(e) {
      assert Step(w, e).locks == w.locks;
      assert forall id | id in w.requests && InLock(w.requests[id]) ::
               id in Step(w, e).requests && Step(w, e).requests[id] == w.requests[id];
    } else if Step(w, e) != w {
      LockStepShape(w, e);
      hide Step;
      OneMoves(w, Step(w, e), e.id);
    }
  }

  /** Locks come free again: all along a run a seller's key is locked exactly while a request of a seller with that key
      is between taking the lock and ending its transaction. */
  lemma {:induction false} LocksAreReleased(w: World, evs: seq<Event>, k: nat)
    requires LocksHeld(w) && Capped(w) && LocksUsed(w)
    ensures
      var v := Run(w, evs);
      k in v.locks <==> exists id :: id in v.requests && LockKey(v.requests[id].seller) == k
                                     && v.requests[id].phase in {Locked, Counted}
    decreases |evs|
  {
    if evs != [] {
      hide Step, LocksHeld, Capped, LocksUsed, InLock;
      StepKeepsLocks(w, evs[0]);
      StepKeepsCap(w, evs[0]);
      StepKeepsLocksUsed(w, evs[0]);
      LocksAreReleased(Step(w, evs[0]), evs[1..], k);
    } else {
      assert Run(w, evs) == w;
      assert k in w.locks ==> w.locks[k] in w.requests && InLock(w.requests[w.locks[k]]);
    }
  }

  lemma LocksAreReleasedFromStart(evs: seq<Event>, k: nat)
    ensures
      var v := Run(EMPTY, evs);
      k in v.locks <==> exists id :: id in v.requests && LockKey(v.requests[id].seller) == k
                                     && v.requests[id].phase in {Locked, Counted}
  {
    forall t: Seller
      ensures LiveOf(EMPTY.listings, t) == {}
    {
    }
    LocksAreReleased(EMPTY, evs, k);
  }

  /** Fewer than five listings of the seller are not deleted. */
  predicate RoomFor(listings: map<ListingId, Listing>, s: Seller)
  {
    |set l | l in listings && listings[l].seller == s && !listings[l].deleted| < 5
  }

  /** No row has the port, not even a deleted one. */
  predicate PortFree(listings: map<ListingId, Listing>, port: Port)
  {
    forall l | l in listings :: listings[l].port != port
  }

  lemma RoomIff(listings: map<ListingId, Listing>, s: Seller)
    ensures RoomFor(listings, s) <==> |LiveOf(listings, s)| < MAX_LISTINGS
  {
    assert LiveOf(listings, s) == set l | l in listings && listings[l].seller == s && !listings[l].deleted;
  }

  lemma BeginIff(w: World, s: Seller, port: Port)
    ensures MayBegin(w, s, port) <==> RoomFor(w.listings, s) && PortFree(w.listings, port)
  {
    RoomIff(w.listings, s);
  }

  lemma LockTaken(w: World, id: RequestId)
    requires At(w, id, Probed) && LockKey(w.requests[id].seller) !in w.locks
    ensures
      var v := Step(w, TakeLock(id));
      id in v.requests && v.requests[id] == w.requests[id].(phase := Locked)
  {
    hide LiveOf, LockKey;
  }

  /** Under the lock the second count lets a request through exactly while there is room. */
  lemma RecountIff(w: World, id: RequestId)
    requires At(w, id, Locked)
    ensures
      var v, phase := Step(w, Recount(id)), if RoomFor(w.listings, w.requests[id].seller) then Counted else Cleaning;
      id in v.requests && v.requests[id] == w.requests[id].(phase := phase)
  {
    RoomIff(w.listings, w.requests[id].seller);
    hide LiveOf, RoomFor;
  }

  /** A commit saves the request's row exactly when its port is free and the commit takes effect; the request is over
      only if it does not raise either. */
  lemma CommitIff(w: World, id: RequestId, l: ListingId, outcome: CommitOutcome)
    requires At(w, id, Counted) && l !in w.listings
    ensures
      var v, r := Step(w, Commit(id, l, outcome)), w.requests[id];
      var saved := PortFree(w.listings, r.port) && outcome != RolledBack;
      && v.listings == (if saved then w.listings[l := Listing(r.seller, r.port, r.inbound, false)] else w.listings)
      && At(v, id, if saved && outcome == Saved then Done else Cleaning)
  {
    hide LiveOf;
  }

  /** Removing a listing hands its inbound to the panel and marks its row deleted, and touches no other. */
  lemma RemovalOutcome(w: World, l: ListingId)
    requires l in w.listings && !w.listings[l].deleted
    ensures
      var v := Step(Step(w, RemoveInbound(l)), RemoveRow(l));
      && v.listings == w.listings[l := w.listings[l].(deleted := true)]
      && v.handedOver == w.handedOver + {w.listings[l].inbound} && v.requests == w.requests && v.locks == w.locks
  {
    hide LiveOf;
  }

  // ----- The ports -----

  ghost predicate PortsApart(listings: map<ListingId, Listing>)
  {
    forall l, m | l in listings && m in listings && l != m :: listings[l].port != listings[m].port
  }

  lemma StepKeepsPorts(w: World, e: Event)
    requires PortsApart(w.listings)
    ensures PortsApart(Step(w, e).listings)
  {
  }

  /** Rows are never dropped, and keep their port. */
  ghost predicate RowsStay(before: map<ListingId, Listing>, after: map<ListingId, Listing>)
  {
    forall l | l in before :: l in after && after[l].port == before[l].port
  }

  lemma {:induction false} RunKeepsRows(w: World, evs: seq<Event>)
    ensures RowsStay(w.listings, Run(w, evs).listings)
    decreases |evs|
  {
    if evs != [] {
      assert RowsStay(w.listings, Step(w, evs[0]).listings);
      hide Step;
      RunKeepsRows(Step(w, evs[0]), evs[1..]);
    }
  }

  /** No two listings ever share a port, although the early check holds no lock. */
  lemma {:induction false} PortsStayApart(w: World, evs: seq<Event>)
    requires PortsApart(w.listings)
    ensures PortsApart(Run(w, evs).listings)
    decreases |evs|
  {
    hide Step, PortsApart;
    if evs != [] {
      StepKeepsPorts(w, evs[0]);
      PortsStayApart(Step(w, evs[0]), evs[1..]);
    }
  }

  // ----- The inbounds -----

  ghost predicate Owned(w: World, i: Inbound) { exists l :: l in w.listings && w.listings[l].inbound == i }

  ghost predicate Held(w: World, i: Inbound)
  {
    exists id :: id in w.requests && Holds(w.requests[id]) && w.requests[id].inbound == i
  }

  /** Every inbound the panel created is a listing's, in a running request's hands, handed over, or leaked. */
  ghost predicate Accounted(w: World)
  {
    forall i | i in w.provisioned :: Owned(w, i) || Held(w, i) || i in w.handedOver || i in w.leaked
  }

  ghost predicate RequestsApart(w: World)
  {
    && (forall id | id in w.requests && Holds(w.requests[id]) :: w.requests[id].inbound in w.provisioned)
    && (forall id, jd | id in w.requests && jd in w.requests && id != jd
                        && Holds(w.requests[id]) && Holds(w.requests[jd]) ::
          w.requests[id].inbound != w.requests[jd].inbound)
  }

  ghost predicate ListingsApart(w: World)
  {
    && (forall l | l in w.listings :: w.listings[l].inbound in w.provisioned)
    && (forall l, m | l in w.listings && m in w.listings && l != m :: w.listings[l].inbound != w.listings[m].inbound)
  }

  ghost predicate HandsApart(w: World)
  {
    forall id, l | id in w.requests && l in w.listings && Holds(w.requests[id])
                   && w.requests[id].inbound == w.listings[l].inbound ::
      w.requests[id].phase == Cleaning && l in w.lost
  }

  /** No two requests, no two listings and no request before its commit share an inbound. */
  ghost predicate Apart(w: World) { RequestsApart(w) && ListingsApart(w) && HandsApart(w) }

  /** A listing's inbound is deleted on the panel only by its own removal, or when its commit raised. */
  ghost predicate InboundsKept(w: World)
  {
    && (forall l | l in w.listings && w.listings[l].inbound in w.handedOver :: l in w.removing || l in w.lost)
    && (forall id | id in w.requests && Holds(w.requests[id]) :: w.requests[id].inbound in w.handedOver ==>
          exists l :: l in w.lost && l in w.listings && w.listings[l].inbound == w.requests[id].inbound)
    && w.handedOver <= w.provisioned
  }

  lemma RequestsStayApart(w: World, v: World, id: RequestId)
    requires RequestsApart(w) && id in w.requests && Holds(w.requests[id]) && v.provisioned == w.provisioned
    requires v.requests.Keys == w.requests.Keys && v.requests[id].inbound == w.requests[id].inbound
    requires forall jd | jd in w.requests && jd != id :: v.requests[jd] == w.requests[jd]
    ensures RequestsApart(v)
  {
  }

  lemma ListingsStayApart(w: World, v: World, l: ListingId, row: Listing)
    requires ListingsApart(w) && v.listings == w.listings[l := row] && v.provisioned == w.provisioned
    requires row.inbound in w.provisioned && forall m | m in w.listings :: w.listings[m].inbound != row.inbound
    ensures ListingsApart(v)
  {
  }

  lemma InsertKeepsApart(w: World, id: RequestId, l: ListingId, outcome: CommitOutcome)
    requires Apart(w) && At(w, id, Counted) && l !in w.listings && Ends(w, id, outcome) != RolledBack
    ensures Apart(CommitStep(w, id, l, outcome))
  {
    var v := CommitStep(w, id, l, outcome);
    var row := Listing(w.requests[id].seller, w.requests[id].port, w.requests[id].inbound, false);
    assert v.listings == w.listings[l := row] && v.provisioned == w.provisioned;
    assert forall m | m in w.listings :: w.listings[m].inbound != row.inbound;
    RequestsStayApart(w, v, id);
    ListingsStayApart(w, v, l, row);
  }

  lemma CommitKeepsApart(w: World, id: RequestId, l: ListingId, outcome: CommitOutcome)
    requires Apart(w)
    ensures Apart(CommitStep(w, id, l, outcome))
  {
    if At(w, id, Counted) && l !in w.listings && Ends(w, id, outcome) != RolledBack {
      InsertKeepsApart(w, id, l, outcome);
    }
  }

  lemma AddInboundKeepsApart(w: World, id: RequestId, i: Inbound)
    requires Apart(w)
    ensures Apart(Step(w, AddInbound(id, i)))
  {
  }

  /** Every other step only lets go of inbounds. */
  ghost predicate LetsGo(w: World, v: World)
  {
    && w.provisioned <= v.provisioned && v.lost == w.lost && v.listings.Keys == w.listings.Keys
    && (forall l | l in w.listings :: v.listings[l].inbound == w.listings[l].inbound)
    && (forall id | id in v.requests && Holds(v.requests[id]) ::
          && id in w.requests && Holds(w.requests[id]) && v.requests[id].inbound == w.requests[id].inbound
          && (w.requests[id].phase == Cleaning ==> v.requests[id].phase == Cleaning))
  }

  lemma LettingGoKeepsApart(w: World, v: World)
    requires Apart(w) && LetsGo(w, v)
    ensures Apart(v)
  {
  }

  lemma OthersLetGo(w: World, e: Event)
    requires !e.Commit? && !e.AddInbound?
    ensures LetsGo(w, Step(w, e))
  {
  }

  lemma StepKeepsApart(w: World, e: Event)
    requires Apart(w)
    ensures Apart(Step(w, e))
  {
    if e.Commit? {
      CommitKeepsApart(w, e.id, e.listing, e.outcome);
    } else if e.AddInbound? {
      AddInboundKeepsApart(w, e.id, e.inbound);
    } else {
      OthersLetGo(w, e);
      LettingGoKeepsApart(w, Step(w, e));
    }
  }

  lemma StaysOwned(w: World, e: Event, l: ListingId)
    requires l in w.listings
    ensures Owned(Step(w, e), w.listings[l].inbound)
  {
    assert l in Step(w, e).listings && Step(w, e).listings[l].inbound == w.listings[l].inbound;
  }

  /** An inbound leaves a request's hands only into a listing, to the panel, or by an abort. */
  lemma LeavesHands(w: World, e: Event, id: RequestId)
    requires id in w.requests && Holds(w.requests[id])
    ensures var i, v := w.requests[id].inbound, Step(w, e);
            Owned(v, i) || Held(v, i) || i in v.handedOver || i in v.leaked
  {
    var i, v := w.requests[id].inbound, Step(w, e);
    if e.Commit? && e.id == id && At(w, id, Counted) && e.listing !in w.listings && Ends(w, id, e.outcome) == Saved {
      assert e.listing in v.listings && v.listings[e.listing].inbound == i;
    } else {
      assert id in v.requests && v.requests[id].inbound == i;
      assert Holds(v.requests[id]) || i in v.handedOver || i in v.leaked;
    }
  }

  lemma StepKeepsAccounts(w: World, e: Event)
    requires Accounted(w)
    ensures Accounted(Step(w, e))
  {
    var v := Step(w, e);
    forall i | i in v.provisioned
      ensures Owned(v, i) || Held(v, i) || i in v.handedOver || i in v.leaked
    {
      if i !in w.provisioned {
        assert e.AddInbound? || e.InboundLost?;
        assert e.AddInbound? ==> v.requests[e.id].inbound == i && Holds(v.requests[e.id]);
      } else if Owned(w, i) {
        var l :| l in w.listings && w.listings[l].inbound == i;
        StaysOwned(w, e, l);
      } else if Held(w, i) {
        var id :| id in w.requests && Holds(w.requests[id]) && w.requests[id].inbound == i;
        LeavesHands(w, e, id);
      } else {
        assert w.handedOver <= v.handedOver && w.leaked <= v.leaked;
      }
    }
  }

  lemma CommitKeepsInbounds(w: World, id: RequestId, l: ListingId, outcome: CommitOutcome)
    requires Apart(w) && InboundsKept(w)
    ensures InboundsKept(CommitStep(w, id, l, outcome))
  {
  }

  lemma HandOverKeepsInbounds(w: World, id: RequestId)
    requires Apart(w) && InboundsKept(w)
    ensures InboundsKept(Step(w, HandOver(id)))
  {
  }

  lemma RemoveKeepsInbounds(w: World, l: ListingId)
    requires Apart(w) && InboundsKept(w)
    ensures InboundsKept(Step(w, RemoveInbound(l)))
  {
  }

  lemma AddInboundKeepsInbounds(w: World, id: RequestId, i: Inbound)
    requires Apart(w) && InboundsKept(w)
    ensures InboundsKept(Step(w, AddInbound(id, i)))
  {
  }

  lemma OthersHandNothingOver(w: World, e: Event)
    requires !e.Commit? && !e.AddInbound? && !e.HandOver? && !e.RemoveInbound?
    ensures Step(w, e).handedOver == w.handedOver && Step(w, e).removing == w.removing
  {
  }

  lemma LettingGoKeepsInbounds(w: World, v: World)
    requires InboundsKept(w) && LetsGo(w, v) && v.handedOver == w.handedOver && v.removing == w.removing
    ensures InboundsKept(v)
  {
  }

  lemma StepKeepsInbounds(w: World, e: Event)
    requires Apart(w) && InboundsKept(w)
    ensures InboundsKept(Step(w, e))
  {
    if e.Commit? {
      CommitKeepsInbounds(w, e.id, e.listing, e.outcome);
    } else if e.AddInbound? {
      AddInboundKeepsInbounds(w, e.id, e.inbound);
    } else if e.HandOver? {
      HandOverKeepsInbounds(w, e.id);
    } else if e.RemoveInbound? {
      RemoveKeepsInbounds(w, e.listing);
    } else {
      OthersHandNothingOver(w, e);
      OthersLetGo(w, e);
      LettingGoKeepsInbounds(w, Step(w, e));
    }
  }

  lemma {:induction false} InboundsAccounted(w: World, evs: seq<Event>)
    requires Accounted(w) && Apart(w) && InboundsKept(w)
    ensures Accounted(Run(w, evs)) && Apart(Run(w, evs)) && InboundsKept(Run(w, evs))
    decreases |evs|
  {
    hide Step, Accounted, Apart, InboundsKept;
    if evs != [] {
      StepKeepsApart(w, evs[0]);
      StepKeepsAccounts(w, evs[0]);
      StepKeepsInbounds(w, evs[0]);
      InboundsAccounted(Step(w, evs[0]), evs[1..]);
    }
  }

  predicate Leaks(e: Event) { e.Abort? || e.InboundLost? }

  predicate Raises(e: Event) { e.Commit? && e.outcome == SavedButRaised }

  lemma LeakStep(w: World, e: Event)
    ensures !Leaks(e) ==> Step(w, e).leaked == w.leaked
    ensures !Raises(e) ==> Step(w, e).lost == w.lost
  {
  }

  lemma {:induction false} OnlyLeaksLeak(w: World, evs: seq<Event>)
    ensures (forall e | e in evs :: !Leaks(e)) ==> Run(w, evs).leaked == w.leaked
    ensures (forall e | e in evs :: !Raises(e)) ==> Run(w, evs).lost == w.lost
    decreases |evs|
  {
    hide Step;
    if evs != [] {
      LeakStep(w, evs[0]);
      assert evs[0] in evs && forall e | e in evs[1..] :: e in evs;
      OnlyLeaksLeak(Step(w, evs[0]), evs[1..]);
    }
  }

  /** From the start: without a death or a lost panel answer every provisioned inbound is a listing's, held by
      a running request, or was handed over; and unless a commit raised after saving, a listing's inbound
      was handed over only by the listing's own removal. */
  lemma InboundsFromStart(evs: seq<Event>)
    ensures var w := Run(EMPTY, evs);
            && ((forall e | e in evs :: !Leaks(e)) ==>
                  forall i | i in w.provisioned :: Owned(w, i) || Held(w, i) || i in w.handedOver)
            && ((forall e | e in evs :: !Raises(e)) ==>
                  forall l | l in w.listings && w.listings[l].inbound in w.handedOver :: l in w.removing)
  {
    InboundsAccounted(EMPTY, evs);
    OnlyLeaksLeak(EMPTY, evs);
  }

  lemma StillInHand(w: World, id: RequestId)
    requires Apart(w) && InboundsKept(w) && At(w, id, Counted)
    ensures w.requests[id].inbound !in w.handedOver
  {
  }

  /** A commit that saves the row and then raises, as when the refresh after it fails, makes the handler
      delete the inbound of a listing that exists; no other outcome does. */
  lemma StrandedIff(w: World, id: RequestId, l: ListingId, outcome: CommitOutcome)
    requires Apart(w) && InboundsKept(w) && At(w, id, Counted) && l !in w.listings
    ensures var v := Step(Step(w, Commit(id, l, outcome)), HandOver(id));
            l in v.listings && !v.listings[l].deleted && v.listings[l].inbound in v.handedOver
            <==> Ends(w, id, outcome) == SavedButRaised
  {
    StillInHand(w, id);
    assert forall m | m in w.listings :: w.listings[m].inbound != w.requests[id].inbound;
  }

  lemma RunTwice(w: World, a: Event, b: Event, evs: seq<Event>)
    ensures Run(w, [a, b] + evs) == Run(Step(Step(w, a), b), evs)
  {
    hide Step;
    assert ([a, b] + evs)[1..] == [b] + evs && ([b] + evs)[1..] == evs;
  }

  lemma ReachLock()
    ensures Run(EMPTY, [Begin(1, 7, 443), AddInbound(1, 2), AddProbe(1, true)])
         == EMPTY.(requests := map[1 := Request(7, 443, Probed, 2)], provisioned := {2})
  {
    assert LiveOf(map[], 7) == {};
    hide LiveOf;
    var w1 := EMPTY.(requests := map[1 := Request(7, 443, Checked, 0)]);
    assert Step(EMPTY, Begin(1, 7, 443)) == w1;
    var w2 := w1.(requests := map[1 := Request(7, 443, Provisioned, 2)], provisioned := {2});
    assert Step(w1, AddInbound(1, 2)) == w2;
    var w3 := w2.(requests := map[1 := Request(7, 443, Probed, 2)]);
    assert Step(w2, AddProbe(1, true)) == w3;
    hide Step;
    assert [Begin(1, 7, 443), AddInbound(1, 2), AddProbe(1, true)]
        == [Begin(1, 7, 443), AddInbound(1, 2)] + [AddProbe(1, true)];
    RunTwice(EMPTY, Begin(1, 7, 443), AddInbound(1, 2), [AddProbe(1, true)]);
    assert Run(w2, [AddProbe(1, true)]) == Run(w3, []);
  }

  lemma {:induction false} RunAppends(w: World, a: seq<Event>, b: seq<Event>)
    ensures Run(w, a + b) == Run(Run(w, a), b)
    decreases |a|
  {
    if a == [] {
      assert a + b == b;
    } else {
      assert (a + b)[1..] == a[1..] + b;
      RunAppends(Step(w, a[0]), a[1..], b);
    }
  }

  /** Such a state is reached: request 1 of seller 7, alone. */
  lemma CountedIsReachable()
    ensures At(Run(EMPTY, [Begin(1, 7, 443), AddInbound(1, 2), AddProbe(1, true), TakeLock(1), Recount(1)]), 1, Counted)
  {
    ReachLock();
    var w := EMPTY.(requests := map[1 := Request(7, 443, Probed, 2)], provisioned := {2});
    assert LiveOf(map[], 7) == {};
    hide LiveOf;
    assert At(Step(Step(w, TakeLock(1)), Recount(1)), 1, Counted);
    hide Step;
    RunTwice(w, TakeLock(1), Recount(1), []);
    RunAppends(EMPTY, [Begin(1, 7, 443), AddInbound(1, 2), AddProbe(1, true)], [TakeLock(1), Recount(1)]);
    assert [Begin(1, 7, 443), AddInbound(1, 2), AddProbe(1, true)] + [TakeLock(1), Recount(1)]
        == [Begin(1, 7, 443), AddInbound(1, 2), AddProbe(1, true), TakeLock(1), Recount(1)];
  }

  // ----- The route -----

  predicate About(e: Event, id: RequestId) { !e.RemoveInbound? && !e.RemoveRow? && e.id == id }

  lemma OtherLeavesAlone(w: World, e: Event, id: RequestId)
    requires id in w.requests && !About(e, id)
    ensures id in Step(w, e).requests && Step(w, e).requests[id] == w.requests[id]
    ensures w.provisioned <= Step(w, e).provisioned
  {
  }

  lemma {:induction false} OthersLeaveAlone(w: World, others: seq<Event>, id: RequestId)
    requires id in w.requests && forall e | e in others :: !About(e, id)
    ensures id in Run(w, others).requests && Run(w, others).requests[id] == w.requests[id]
    ensures w.provisioned <= Run(w, others).provisioned
    decreases |others|
  {
    hide Step;
    if others != [] {
      OtherLeavesAlone(w, others[0], id);
      assert others[0] in others && forall e | e in others[1..] :: e in others;
      OthersLeaveAlone(Step(w, others[0]), others[1..], id);
    }
  }

  datatype PanelAnswer = Added | Refused | AnswerLost

  datatype Outcome = Created | Conflict | PanelError | SaveFailed | StillWaiting

  /** What the environment does to one request: the panel's answers, the commit, and what other requests
      do during each await (`waits` while the lock is taken). */
  datatype Script = Script(
    add: PanelAnswer, probeOk: bool, commit: CommitOutcome, gaps: seq<seq<Event>>, waits: seq<seq<Event>>)

  ghost predicate Foreign(gaps: seq<seq<Event>>, id: RequestId)
  {
    forall g, e | g in gaps && e in g :: !About(e, id)
  }

  function Concat(parts: seq<seq<Event>>): seq<Event>
  {
    if parts == [] then [] else Concat(parts[..|parts| - 1]) + parts[|parts| - 1]
  }

  // ----- The events one create request amounts to, as far as it gets -----

  function AnswerEvent(id: RequestId, inbound: Inbound, answer: PanelAnswer): Event
  {
    match answer
    case Added => AddInbound(id, inbound)
    case Refused => InboundRefused(id)
    case AnswerLost => InboundLost(id, inbound)
  }

  function ProvisionEvents(w: World, id: RequestId, seller: Seller, port: Port, inbound: Inbound, s: Script): seq<Event>
    requires |s.gaps| == 7
  {
    var a := [Begin(id, seller, port)];
    if !MayBegin(w, seller, port) then a else a + s.gaps[0] + [AnswerEvent(id, inbound, s.add)]
  }

  function ProbeEvents(evs: seq<Event>, id: RequestId, s: Script): seq<Event>
    requires |s.gaps| == 7
  {
    var a := evs + s.gaps[1] + [AddProbe(id, s.probeOk)];
    if s.probeOk then a else a + s.gaps[2] + [HandOver(id)]
  }

  /** Wait `waited` times for the lock; with it, count again, and hand the inbound back at the cap. */
  function TurnEvents(w: World, evs: seq<Event>, id: RequestId, seller: Seller, port: Port, waited: nat,
      s: Script): seq<Event>
    requires |s.gaps| == 7 && waited <= |s.waits|
  {
    var a := evs + Concat(s.waits[..waited]);
    if LockKey(seller) in Run(w, a).locks then a
    else
      var b := a + [TakeLock(id)] + s.gaps[3] + [Recount(id)];
      if At(Run(w, b), id, Cleaning) then b + s.gaps[4] + [HandOver(id)] else b
  }

  /** Commit; unless that ends the request, hand the inbound back. */
  function SaveEvents(w: World, evs: seq<Event>, id: RequestId, listing: ListingId, s: Script): seq<Event>
    requires |s.gaps| == 7
  {
    var a := evs + s.gaps[5] + [Commit(id, listing, s.commit)];
    if At(Run(w, a), id, Done) then a else a + s.gaps[6] + [HandOver(id)]
  }

  function CreateEvents(w: World, id: RequestId, seller: Seller, port: Port, inbound: Inbound, waited: nat,
      listing: ListingId, s: Script): seq<Event>
    requires |s.gaps| == 7 && waited <= |s.waits|
  {
    var a := ProvisionEvents(w, id, seller, port, inbound, s);
    if !MayBegin(w, seller, port) || s.add != Added then a
    else
      var b := ProbeEvents(a, id, s);
      if !s.probeOk then b
      else
        var c := TurnEvents(w, b, id, seller, port, waited, s);
        if At(Run(w, c), id, Counted) then SaveEvents(w, c, id, listing, s) else c
  }

  method FreshNat(taken: set<nat>) returns (n: nat)
    ensures n !in taken
  {
    n := 0;
    var left := taken;
    while left != {}
      invariant left <= taken && forall k | k in taken && k !in left :: k < n
      decreases |left|
    {
      var k :| k in left;
      left := left - {k};
      n := if k < n then n else k + 1;
    }
  }

  lemma NothingYet(w: World)
    ensures Run(w, []) == w
  {
  }

  /** The state in which a run comes to an event. */
  ghost predicate JustBefore(start: World, evs: seq<Event>, e: Event, v: World)
  {
    exists n | 0 <= n < |evs| && evs[n] == e :: v == Run(start, evs[..n])
  }

  lemma ComesTo(start: World, a: seq<Event>, e: Event, b: seq<Event>)
    ensures JustBefore(start, a + [e] + b, e, Run(start, a))
  {
    hide Run;
    var evs := a + [e] + b;
    assert evs[|a|] == e && evs[..|a|] == a;
  }

  lemma CameTo(start: World, evs: seq<Event>, longer: seq<Event>, e: Event, v: World)
    requires JustBefore(start, evs, e, v) && evs <= longer
    ensures JustBefore(start, longer, e, v)
  {
    hide Run;
    var n :| 0 <= n < |evs| && evs[n] == e && v == Run(start, evs[..n]);
    assert longer[n] == e && longer[..n] == evs[..n];
  }

  class Desk {
    var world: World

    /** One event of this request. */
    method Emit(e: Event, ghost start: World, ghost evs: seq<Event>) returns (ghost evs': seq<Event>)
      requires world == Run(start, evs)
      modifies this
      ensures world == Step(old(world), e) && evs' == evs + [e] && world == Run(start, evs')
      ensures old(world).provisioned <= world.provisioned && RowsStay(old(world).listings, world.listings)
    {
      world := Step(world, e);
      evs' := evs + [e];
      RunAppends(start, evs, [e]);
      assert Run(old(world), [e]) == Run(Step(old(world), e), [e][1..]);
      RunKeepsRows(old(world), [e]);
    }

    /** An await: the other requests move. */
    method Await(id: RequestId, others: seq<Event>, ghost start: World, ghost evs: seq<Event>)
      returns (ghost evs': seq<Event>)
      requires world == Run(start, evs) && id in world.requests && forall e | e in others :: !About(e, id)
      modifies this
      ensures evs' == evs + others && world == Run(start, evs') && old(world).provisioned <= world.provisioned
      ensures id in world.requests && world.requests[id] == old(world).requests[id]
      ensures RowsStay(old(world).listings, world.listings)
    {
      RunKeepsRows(world, others);
      RunAppends(start, evs, others);
      OthersLeaveAlone(world, others, id);
      evs' := evs + others;
      world := Run(world, others);
    }

    /** Count, then provision the inbound: `StillWaiting` here means the request goes on. */
    method Provision(id: RequestId, seller: Seller, port: Port, script: Script, ghost start: World)
      returns (outcome: Outcome, inbound: Inbound, ghost mine: set<Inbound>, ghost evs: seq<Event>)
      requires world == start && id !in world.requests && |script.gaps| == 7 && Foreign(script.gaps, id)
      modifies this
      ensures evs == ProvisionEvents(start, id, seller, port, inbound, script)
      ensures outcome == if !RoomFor(start.listings, seller) || !PortFree(start.listings, port) then Conflict
                         else if script.add != Added then PanelError else StillWaiting
      ensures world == Run(start, evs) && mine <= world.provisioned && mine <= {inbound}
      ensures outcome == StillWaiting ==>
                && id in world.requests && mine == {inbound}
                && world.requests[id] == Request(seller, port, Provisioned, inbound)
      ensures outcome != StillWaiting ==> id !in world.requests || world.requests[id].phase == Done
      ensures outcome != StillWaiting && script.add != AnswerLost ==> mine == {}
      ensures script.add == AnswerLost ==> mine <= world.leaked
    {
      BeginIff(start, seller, port);
      hide LiveOf, Run, RoomFor, PortFree;
      mine, inbound := {}, 0;
      NothingYet(start);
      evs := Emit(Begin(id, seller, port), start, []);
      assert evs == [Begin(id, seller, port)];
      if id !in world.requests {
        return Conflict, inbound, mine, evs;
      }
      evs := Await(id, script.gaps[0], start, evs);
      inbound := FreshNat(world.provisioned);
      match script.add
      case Refused =>
        evs := Emit(InboundRefused(id), start, evs);
        outcome := PanelError;
      case AnswerLost =>
        mine := {inbound};
        evs := Emit(InboundLost(id, inbound), start, evs);
        outcome := PanelError;
      case Added =>
        mine := {inbound};
        evs := Emit(AddInbound(id, inbound), start, evs);
        outcome := StillWaiting;
    }

    /** `delete_inbound` on the inbound in hand; whether the call succeeds makes no difference. */
    method Clean(id: RequestId, gap: seq<Event>, ghost start: World, ghost evs: seq<Event>)
      returns (ghost evs': seq<Event>)
      requires world == Run(start, evs) && At(world, id, Cleaning) && forall e | e in gap :: !About(e, id)
      modifies this
      ensures world == Run(start, evs') && At(world, id, Done) && evs' == evs + gap + [HandOver(id)]
      ensures old(world).requests[id].inbound in world.handedOver && old(world).provisioned <= world.provisioned
      ensures RowsStay(old(world).listings, world.listings)
    {
      hide LiveOf, Run;
      evs' := Await(id, gap, start, evs);
      evs' := Emit(HandOver(id), start, evs');
    }

    /** Add the probe client; a failure hands the inbound back. */
    method AddProbeClient(id: RequestId, seller: Seller, port: Port, ghost inbound: Inbound, script: Script,
        ghost start: World, ghost evs: seq<Event>)
      returns (ok: bool, ghost evs': seq<Event>)
      requires world == Run(start, evs)
      requires id in world.requests && world.requests[id] == Request(seller, port, Provisioned, inbound)
      requires |script.gaps| == 7 && Foreign(script.gaps, id)
      modifies this
      ensures ok == script.probeOk && evs' == ProbeEvents(evs, id, script)
      ensures world == Run(start, evs') && old(world).provisioned <= world.provisioned && id in world.requests
      ensures ok ==> world.requests[id] == Request(seller, port, Probed, inbound)
      ensures !ok ==> At(world, id, Done) && inbound in world.handedOver
    {
      hide LiveOf, Run;
      evs' := Await(id, script.gaps[1], start, evs);
      evs' := Emit(AddProbe(id, script.probeOk), start, evs');
      ok := script.probeOk;
      if !ok {
        evs' := Clean(id, script.gaps[2], start, evs');
      }
    }

    /** Under the lock: count again; at the cap the inbound is handed back. */
    method CountAgain(id: RequestId, seller: Seller, port: Port, ghost inbound: Inbound, gap: seq<Event>,
        ghost start: World, ghost evs: seq<Event>)
      returns (outcome: Outcome, ghost counted: World, ghost evs': seq<Event>)
      requires world == Run(start, evs)
      requires id in world.requests && world.requests[id] == Request(seller, port, Locked, inbound)
      requires forall e | e in gap :: !About(e, id)
      modifies this
      ensures
        var b := evs + [Recount(id)];
        evs' == if At(Run(start, b), id, Cleaning) then b + gap + [HandOver(id)] else b
      ensures world == Run(start, evs') && old(world).provisioned <= world.provisioned
      ensures counted == old(world) && outcome == if RoomFor(counted.listings, seller) then Created else Conflict
      ensures id in world.requests
      ensures outcome == Created ==> world.requests[id] == Request(seller, port, Counted, inbound)
      ensures outcome == Conflict ==> At(world, id, Done) && inbound in world.handedOver
    {
      hide LiveOf, Run, Step, RoomFor, RowsStay, LockKey;
      counted := world;
      RecountIff(world, id);
      evs' := Emit(Recount(id), start, evs);
      if world.requests[id].phase == Cleaning {
        evs' := Clean(id, gap, start, evs');
        return Conflict, counted, evs';
      }
      outcome := Created;
    }

    /** Wait for the lock, take it, count again: `Created` here means the request may commit. */
    method TakeTurn(id: RequestId, seller: Seller, port: Port, ghost inbound: Inbound, script: Script,
        ghost start: World, ghost evs: seq<Event>)
      returns (outcome: Outcome, waited: nat, ghost counted: World, ghost evs': seq<Event>)
      requires world == Run(start, evs)
      requires id in world.requests && world.requests[id] == Request(seller, port, Probed, inbound)
      requires |script.gaps| == 7 && Foreign(script.gaps, id) && Foreign(script.waits, id)
      modifies this
      ensures waited <= |script.waits| && evs' == TurnEvents(start, evs, id, seller, port, waited, script)
      ensures outcome == StillWaiting ==> waited == |script.waits| && LockKey(seller) in world.locks
      ensures world == Run(start, evs') && old(world).provisioned <= world.provisioned
      ensures outcome in {Created, Conflict, StillWaiting} && id in world.requests
      ensures outcome != StillWaiting ==>
                && JustBefore(start, evs', Recount(id), counted) && evs <= evs'
                && outcome == if RoomFor(counted.listings, seller) then Created else Conflict
      ensures outcome == StillWaiting ==> world.requests[id].phase == Probed
      ensures outcome == Created ==> world.requests[id] == Request(seller, port, Counted, inbound)
      ensures outcome == Conflict ==> At(world, id, Done) && inbound in world.handedOver
    {
      hide LiveOf, Run, Step, RoomFor, JustBefore, RowsStay, LockKey;
      evs', waited, counted := evs, 0, world;
      while LockKey(seller) in world.locks && waited < |script.waits|
        invariant 0 <= waited <= |script.waits|
        invariant world == Run(start, evs') && old(world).provisioned <= world.provisioned
        invariant evs' == evs + Concat(script.waits[..waited])
        invariant id in world.requests && world.requests[id] == Request(seller, port, Probed, inbound)
      {
        assert script.waits[..waited + 1][..waited] == script.waits[..waited];
        evs' := Await(id, script.waits[waited], start, evs');
        waited := waited + 1;
      }
      if LockKey(seller) in world.locks {
        return StillWaiting, waited, counted, evs';
      }
      LockTaken(world, id);
      evs' := Emit(TakeLock(id), start, evs');
      evs' := Await(id, script.gaps[3], start, evs');
      ghost var soFar := evs';
      outcome, counted, evs' := CountAgain(id, seller, port, inbound, script.gaps[4], start, evs');
      ComesTo(start, soFar, Recount(id), []);
      assert soFar + [Recount(id)] + [] == soFar + [Recount(id)];
      CameTo(start, soFar + [Recount(id)], evs', Recount(id), counted);
    }

    /** Commit the row, or hand the inbound back. */
    method Save(id: RequestId, seller: Seller, port: Port, ghost inbound: Inbound, script: Script, ghost start: World,
        ghost evs: seq<Event>)
      returns (outcome: Outcome, listing: ListingId, ghost before: World, ghost evs': seq<Event>)
      requires world == Run(start, evs)
      requires id in world.requests && world.requests[id] == Request(seller, port, Counted, inbound)
      requires |script.gaps| == 7 && Foreign(script.gaps, id)
      modifies this
      ensures world == Run(start, evs') && old(world).provisioned <= world.provisioned
      ensures evs' == SaveEvents(start, evs, id, listing, script)
      ensures JustBefore(start, evs', Commit(id, listing, script.commit), before) && evs <= evs'
      ensures outcome == if script.commit == Saved && PortFree(before.listings, port) then Created else SaveFailed
      ensures At(world, id, Done) && outcome in {Created, SaveFailed} && (outcome == Created ==> script.commit == Saved)
      ensures outcome == SaveFailed ==> script.commit != Saved || PortTaken(world.listings, port)
      ensures outcome == Created ==>
                listing in world.listings && world.listings[listing] == Listing(seller, port, inbound, false)
      ensures outcome == SaveFailed ==> inbound in world.handedOver
    {
      hide LiveOf, Run, JustBefore, PortFree;
      evs' := Await(id, script.gaps[5], start, evs);
      listing := FreshNat(world.listings.Keys);
      before := world;
      CommitIff(world, id, listing, script.commit);
      ghost var soFar := evs';
      evs' := Emit(Commit(id, listing, script.commit), start, evs');
      ComesTo(start, soFar, Commit(id, listing, script.commit), []);
      assert soFar + [Commit(id, listing, script.commit)] + [] == evs';
      if world.requests[id].phase == Done {
        return Created, listing, before, evs';
      }
      soFar := evs';
      evs' := Clean(id, script.gaps[6], start, evs');
      CameTo(start, soFar, evs', Commit(id, listing, script.commit), before);
      outcome := SaveFailed;
    }

    /** One create request from start to answer. On every exit but a lost panel answer the inbound it
        provisioned belongs to the listing it saved or was handed to `delete_inbound`. */
    method CreateListing(id: RequestId, seller: Seller, port: Port, script: Script)
      returns (outcome: Outcome, inbound: Inbound, waited: nat, listing: ListingId, ghost mine: set<Inbound>,
          ghost counted: World, ghost before: World, ghost evs: seq<Event>)
      requires id !in world.requests && |script.gaps| == 7
      requires Foreign(script.gaps, id) && Foreign(script.waits, id)
      modifies this
      ensures waited <= |script.waits|
      ensures evs == CreateEvents(old(world), id, seller, port, inbound, waited, listing, script)
      ensures world == Run(old(world), evs) && mine <= world.provisioned && mine <= {inbound}
      ensures outcome == Created ==>
                && listing in world.listings && world.listings[listing] == Listing(seller, port, inbound, false)
                && mine == {inbound}
      ensures outcome != StillWaiting ==> id !in world.requests || world.requests[id].phase == Done
      ensures outcome == StillWaiting ==> waited == |script.waits| && LockKey(seller) in world.locks
      ensures
        outcome == if !RoomFor(old(world).listings, seller) || !PortFree(old(world).listings, port) then Conflict
                   else if script.add != Added || !script.probeOk then PanelError
                   else if outcome == StillWaiting then StillWaiting
                   else if !RoomFor(counted.listings, seller) then Conflict
                   else if script.commit == Saved && PortFree(before.listings, port) then Created
                   else SaveFailed
      ensures outcome in {Created, SaveFailed} ==>
                && JustBefore(old(world), evs, Recount(id), counted)
                && JustBefore(old(world), evs, Commit(id, listing, script.commit), before)
      ensures outcome == Created ==> script.commit == Saved
      ensures outcome == SaveFailed ==> script.commit != Saved || PortTaken(world.listings, port)
      ensures outcome !in {Created, StillWaiting} && script.add != AnswerLost ==> mine <= world.handedOver
      ensures script.add == AnswerLost ==> mine <= world.leaked
    {
      BeginIff(world, seller, port);
      hide Run, Foreign, LiveOf, ProvisionEvents, ProbeEvents, TurnEvents, SaveEvents, RoomFor, PortFree, JustBefore;
      ghost var start := world;
      listing, waited, counted, before := 0, 0, world, world;
      outcome, inbound, mine, evs := Provision(id, seller, port, script, start);
      if outcome == StillWaiting {
        var probed;
        probed, evs := AddProbeClient(id, seller, port, inbound, script, start, evs);
        if !probed {
          outcome := PanelError;
          return;
        }
        outcome, waited, counted, evs := TakeTurn(id, seller, port, inbound, script, start, evs);
        if outcome == Created {
          ghost var soFar := evs;
          outcome, listing, before, evs := Save(id, seller, port, inbound, script, start, evs);
          CameTo(start, soFar, evs, Recount(id), counted);
        }
      }
    }
  }
}
