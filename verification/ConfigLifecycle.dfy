/** A buyer's configs: who may stop one, and when the balance worker may start it again.

    The balance worker stops every active config of a buyer whose wallet is empty and stamps it, and
    restarts stamped configs once the wallet has recovered. Buyers, sellers, price changes and the
    quota worker stop configs without a stamp. Money and limits are integers, limits in 10^-4 GB.
*/
module ConfigLifecycle {
  import opened Common
  import opened Rounding
  import Health = ListingHealth

  type Id = nat
  type User = nat

  const MIN_BALANCE: int := 50000000
  const MAX_CONFIGS: nat := 20

  datatype Status = Active | Disabled | Deleted

  datatype Cause = Nobody | BalanceWorker | QuotaWorker | Buyer | Seller | PriceRise

  /** `stoppedBy` and `reopened` are history: who stopped the config last, and whether its buyer restarted it
      while it was stamped. No branch of any operation reads them. */
  datatype Config = Config(
    buyer: User, listing: Id, status: Status, stamp: Option<int>, limit: Option<int>, onPriceRise: bool,
    stoppedBy: Cause, reopened: bool)

  datatype Listing = Listing(seller: User, inbound: bool, status: Health.Status)

  datatype World = World(
    configs: map<Id, Config>, listings: map<Id, Listing>, balances: map<User, int>, used: map<Id, nat>)

  function Balance(balances: map<User, int>, u: User): int { if u in balances then balances[u] else 0 }

  function Used(used: map<Id, nat>, id: Id): nat { if id in used then used[id] else 0 }

  // ----- What each operation does to a row -----

  function Stopped(c: Config, cause: Cause): Config { c.(status := Disabled, stoppedBy := cause) }

  function PassOne(c: Config, balance: int, now: int): Config
  {
    if c.status == Active && balance <= 0
    then Stopped(c, BalanceWorker).(stamp := Some(now), reopened := false) else c
  }

  predicate Sellable(l: Listing) { l.status == Health.Active || l.status == Health.Pending }

  function PassTwo(c: Config, balance: int, l: Listing, panelOk: bool): Config
  {
    if c.status == Disabled && c.stamp.Some? && balance > 0 && Sellable(l) && (l.inbound ==> panelOk)
    then c.(status := Active, stamp := None, stoppedBy := Nobody, reopened := false) else c
  }

  /** The cap in bytes: `limit` ten-thousandths of 2^30 bytes, rounded half to even. */
  function LimitBytes(limit: int): int { HalfEven(limit as real * 107374.1824) }

  predicate OverQuota(c: Config, used: nat)
  {
    c.limit.Some? && c.limit.value > 0 && used >= LimitBytes(c.limit.value)
  }

  function QuotaRow(c: Config, used: nat): Config
  {
    if c.status == Active && OverQuota(c, used) then Stopped(c, QuotaWorker) else c
  }

  // ----- The machine -----

  datatype Event =
    | SetBalance(user: User, amount: int)
    | Use(id: Id, bytes: nat)
    | EnforceBalances(now: int, panelOk: set<Id>)
    | EnforceQuotas
    | CreateConfig(id: Id, user: User, listing: Id, limit: Option<int>, onPriceRise: bool, named: bool, added: bool)
    | DisableConfig(id: Id, user: User)
    | EnableConfig(id: Id, user: User)
    | DeleteConfig(id: Id, user: User)
    | CreateListing(listing: Id, seller: User, inbound: bool)
    | Regrade(listing: Id, status: Health.Status)
    | DisableListing(listing: Id)
    | RaisePrice(listing: Id, panelOk: set<Id>)
    | DeleteListing(listing: Id)

  /** Every config's listing exists: a foreign key. */
  ghost predicate Linked(configs: map<Id, Config>, listings: map<Id, Listing>)
  {
    forall id | id in configs :: configs[id].listing in listings
  }

  function ListingOf(listings: map<Id, Listing>, c: Config): Listing
  {
    if c.listing in listings then listings[c.listing] else Listing(0, false, Health.Deleted)
  }

  function AfterPassOne(w: World, now: int): World
  {
    w.(configs := map id | id in w.configs :: PassOne(w.configs[id], Balance(w.balances, w.configs[id].buyer), now))
  }

  function AfterPassTwo(w: World, panelOk: set<Id>): World
  {
    w.(configs := map id | id in w.configs ::
                    PassTwo(w.configs[id], Balance(w.balances, w.configs[id].buyer),
                            ListingOf(w.listings, w.configs[id]), id in panelOk))
  }

  predicate Owned(configs: map<Id, Config>, id: Id, user: User)
  {
    id in configs && configs[id].buyer == user && configs[id].status != Deleted
  }

  predicate Open(w: World, listing: Id) { listing in w.listings && w.listings[listing].status != Health.Deleted }

  predicate MayEnable(w: World, id: Id, user: User)
  {
    && Owned(w.configs, id, user) && w.configs[id].status == Disabled
    && ListingOf(w.listings, w.configs[id]).status == Health.Active
  }

  /** The buyer's configs of one listing that are not deleted. */
  function ConfigsOf(configs: map<Id, Config>, u: User, listing: Id): set<Id>
  {
    set id | id in configs && configs[id].buyer == u && configs[id].listing == listing && configs[id].status != Deleted
  }

  predicate MayBuy(w: World, u: User, listing: Id)
  {
    && Balance(w.balances, u) >= MIN_BALANCE
    && listing in w.listings && w.listings[listing].status == Health.Active
    && w.listings[listing].seller != u && w.listings[listing].inbound
    && |ConfigsOf(w.configs, u, listing)| < MAX_CONFIGS
  }

  function SellerRow(c: Config, listing: Id): Config
  {
    if c.listing == listing && c.status == Active then Stopped(c, Seller) else c
  }

  function PriceRow(c: Config, listing: Id, panelOk: bool): Config
  {
    if c.listing == listing && c.status == Active && c.onPriceRise && panelOk then Stopped(c, PriceRise) else c
  }

  function DeletedRow(c: Config, listing: Id): Config
  {
    if c.listing == listing then c.(status := Deleted) else c
  }

  function ListingStep(w: World, e: Event): World
  {
    match e
    case CreateListing(l, seller, inbound) =>
      if l in w.listings then w else w.(listings := w.listings[l := Listing(seller, inbound, Health.Pending)])
    case Regrade(l, status) =>
      if Open(w, l) && status in {Health.Pending, Health.Active, Health.Broken}
      then w.(listings := w.listings[l := w.listings[l].(status := status)]) else w
    case DisableListing(l) =>
      if Open(w, l) && w.listings[l].status != Health.Disabled then
        w.(listings := w.listings[l := w.listings[l].(status := Health.Disabled)],
           configs := map id | id in w.configs :: SellerRow(w.configs[id], l))
      else w
    case RaisePrice(l, panelOk) =>
      if Open(w, l) && w.listings[l].inbound then
        w.(configs := map id | id in w.configs :: PriceRow(w.configs[id], l, id in panelOk))
      else w
    case DeleteListing(l) =>
      if Open(w, l) then
        w.(listings := w.listings[l := w.listings[l].(status := Health.Deleted)],
           configs := map id | id in w.configs :: DeletedRow(w.configs[id], l))
      else w
    case _ => w
  }

  function Step(w: World, e: Event): World
  {
    match e
    case SetBalance(u, amount) => w.(balances := w.balances[u := amount])
    case Use(id, bytes) => w.(used := w.used[id := Used(w.used, id) + bytes])
    case EnforceBalances(now, panelOk) => AfterPassTwo(AfterPassOne(w, now), panelOk)
    case EnforceQuotas => w.(configs := map id | id in w.configs :: QuotaRow(w.configs[id], Used(w.used, id)))
    case CreateConfig(id, u, l, limit, flag, named, added) =>
      if id !in w.configs && MayBuy(w, u, l) && named && added
      then w.(configs := w.configs[id := Config(u, l, Active, None, limit, flag, Nobody, false)]) else w
    case DisableConfig(id, u) =>
      if Owned(w.configs, id, u) && w.configs[id].status != Disabled
      then w.(configs := w.configs[id := Stopped(w.configs[id], Buyer)]) else w
    case EnableConfig(id, u) =>
      if MayEnable(w, id, u) then
        var c := w.configs[id];
        var again := c.reopened || c.stamp.Some?;
        w.(configs := w.configs[id := c.(status := Active, stoppedBy := Nobody, reopened := again)])
      else w
    case DeleteConfig(id, u) =>
      if Owned(w.configs, id, u) then w.(configs := w.configs[id := w.configs[id].(status := Deleted)]) else w
    case _ => ListingStep(w, e)
  }

  function Run(w: World, evs: seq<Event>): World
    decreases |evs|
  {
    if evs == [] then w else Run(Step(w, evs[0]), evs[1..])
  }

  lemma StepKeepsLinks(w: World, e: Event)
    requires Linked(w.configs, w.listings)
    ensures Linked(Step(w, e).configs, Step(w, e).listings)
  {
  }

  lemma {:induction false} RunKeepsLinks(w: World, evs: seq<Event>)
    requires Linked(w.configs, w.listings)
    ensures Linked(Run(w, evs).configs, Run(w, evs).listings)
    decreases |evs|
  {
    hide Step;
    if evs != [] {
      StepKeepsLinks(w, evs[0]);
      RunKeepsLinks(Step(w, evs[0]), evs[1..]);
    }
  }

  // ----- One enforcement run -----

  /** What one run makes of a config. An empty wallet has none active: those that were are off and stamped. A funded
      buyer's stamped config that is off starts again, its stamp cleared, exactly when its listing is active or pending
      and, where that has an inbound, the panel call succeeded. Nothing else is touched. */
  predicate Enforced(before: Config, after: Config, balance: int, l: Listing, now: int, panelOk: bool)
  {
    var forSale := l.status == Health.Active || l.status == Health.Pending;
    after
    == if before.status == Active && balance <= 0 then
         before.(status := Disabled, stamp := Some(now), stoppedBy := BalanceWorker, reopened := false)
       else if && before.status == Disabled && before.stamp != None && balance > 0
               && forSale && (!l.inbound || panelOk) then
         before.(status := Active, stamp := None, stoppedBy := Nobody, reopened := false)
       else before
  }

  lemma BalancesEnforced(w: World, now: int, panelOk: set<Id>, id: Id)
    requires Linked(w.configs, w.listings) && id in w.configs
    ensures
      var c := w.configs[id];
      Enforced(c, Step(w, EnforceBalances(now, panelOk)).configs[id],
               Balance(w.balances, c.buyer), w.listings[c.listing], now, id in panelOk)
  {
  }

  lemma PassOneIdles(now: int)
    ensures forall c: Config, balance: int :: c.status != Active || balance > 0 ==> PassOne(c, balance, now) == c
  {
  }

  lemma PassTwoIdles()
    ensures forall c: Config, balance: int, l: Listing, panelOk: bool ::
              c.status != Disabled || c.stamp.None? || balance <= 0 ==> PassTwo(c, balance, l, panelOk) == c
  {
  }

  /** Off and stamped, on an active or a pending listing, with a successful panel call where there is an inbound. */
  predicate MayRestart(c: Config, listings: map<Id, Listing>, panelOk: bool)
  {
    && c.status == Disabled && c.stamp != None && c.listing in listings
    && (listings[c.listing].status == Health.Active || listings[c.listing].status == Health.Pending)
    && (!listings[c.listing].inbound || panelOk)
  }

  lemma EnforcedRows(w: World, now: int, panelOk: set<Id>)
    ensures var after := Step(w, EnforceBalances(now, panelOk));
            && after == w.(configs := after.configs) && after.configs.Keys == w.configs.Keys
            && forall id | id in w.configs ::
                 after.configs[id] == PassTwo(PassOne(w.configs[id], Balance(w.balances, w.configs[id].buyer), now),
                   Balance(w.balances, w.configs[id].buyer), ListingOf(w.listings, w.configs[id]), id in panelOk)
  {
  }

  lemma RowsEnforced(w: World, now: int, panelOk: set<Id>)
    requires Linked(w.configs, w.listings)
    ensures
      var after := Step(w, EnforceBalances(now, panelOk));
      && after.configs.Keys == w.configs.Keys && Linked(after.configs, after.listings)
      && forall id | id in w.configs ::
           Enforced(w.configs[id], after.configs[id], Balance(w.balances, w.configs[id].buyer),
                    w.listings[w.configs[id].listing], now, id in panelOk)
  {
    StepKeepsLinks(w, EnforceBalances(now, panelOk));
    EnforcedRows(w, now, panelOk);
    hide Step, Enforced;
    forall id | id in w.configs
      ensures
        Enforced(w.configs[id], Step(w, EnforceBalances(now, panelOk)).configs[id],
                 Balance(w.balances, w.configs[id].buyer), w.listings[w.configs[id].listing], now, id in panelOk)
    {
      BalancesEnforced(w, now, panelOk, id);
    }
  }

  lemma SecondPassIsIdle(c: Config, balance: int, l: Listing, panelOk: bool, now: int, later: int, laterOk: bool)
    requires panelOk
    ensures var once := PassTwo(PassOne(c, balance, now), balance, l, panelOk);
            PassTwo(PassOne(once, balance, later), balance, l, laterOk) == once
  {
  }

  lemma PassesKeepLinks(c: Config, balance: int, l: Listing, panelOk: bool, now: int)
    ensures PassOne(c, balance, now).buyer == c.buyer && PassOne(c, balance, now).listing == c.listing
    ensures
      var once := PassTwo(PassOne(c, balance, now), balance, l, panelOk);
      once.buyer == c.buyer && once.listing == c.listing
  {
  }

  /** If every panel call succeeded, a second run finds nothing to change, whatever its own calls do. */
  lemma SecondRunIsIdle(w: World, now: int, panelOk: set<Id>, later: int, laterOk: set<Id>)
    requires Linked(w.configs, w.listings) && forall id | id in w.configs :: id in panelOk
    ensures var once := Step(w, EnforceBalances(now, panelOk)); Step(once, EnforceBalances(later, laterOk)) == once
  {
    EnforcedRows(w, now, panelOk);
    EnforcedRows(Step(w, EnforceBalances(now, panelOk)), later, laterOk);
    hide PassOne, PassTwo, Step, Balance, Linked;
    var once := Step(w, EnforceBalances(now, panelOk));
    var twice := Step(once, EnforceBalances(later, laterOk));
    forall id | id in w.configs
      ensures twice.configs[id] == once.configs[id]
    {
      var c := w.configs[id];
      PassesKeepLinks(c, Balance(w.balances, c.buyer), ListingOf(w.listings, c), id in panelOk, now);
      PassesKeepLinks(once.configs[id], Balance(w.balances, c.buyer), ListingOf(w.listings, c), id in laterOk, later);
      SecondPassIsIdle(c, Balance(w.balances, c.buyer), ListingOf(w.listings, c), id in panelOk,
                       now, later, id in laterOk);
    }
    assert twice.configs == once.configs;
  }

  /** Before the first listing and the first buyer. */
  const EMPTY: World := World(map[], map[], map[], map[])

  /** After any run from the empty shop an enforcement run leaves every config as it should be, and if all its panel
      calls succeeded the next one, at any time and whatever its own calls do, changes nothing. */
  lemma EveryRunIsEnforced(evs: seq<Event>, now: int, panelOk: set<Id>, later: int, laterOk: set<Id>)
    ensures
      var w := Run(EMPTY, evs);
      var once := Step(w, EnforceBalances(now, panelOk));
      && Linked(w.configs, w.listings) && once.configs.Keys == w.configs.Keys
      && (forall id | id in w.configs ::
            Enforced(w.configs[id], once.configs[id], Balance(w.balances, w.configs[id].buyer),
                     w.listings[w.configs[id].listing], now, id in panelOk))
      && (w.configs.Keys <= panelOk ==> Step(once, EnforceBalances(later, laterOk)) == once)
  {
    RunKeepsLinks(EMPTY, evs);
    var w := Run(EMPTY, evs);
    EnforcedRows(w, now, panelOk);
    hide Run, Step, Enforced;
    forall id | id in w.configs
      ensures
        Enforced(w.configs[id], Step(w, EnforceBalances(now, panelOk)).configs[id],
                 Balance(w.balances, w.configs[id].buyer), w.listings[w.configs[id].listing], now, id in panelOk)
    {
      BalancesEnforced(w, now, panelOk, id);
    }
    if w.configs.Keys <= panelOk {
      SecondRunIsIdle(w, now, panelOk, later, laterOk);
    }
  }

  /** A quota run turns off exactly the active configs with a positive cap that have used at least the cap, rounded to
      the byte, and touches nothing else, stamps included. */
  lemma QuotasEnforced(w: World, id: Id)
    requires id in w.configs
    ensures
      var c, after := w.configs[id], Step(w, EnforceQuotas).configs[id];
      var cap := if c.limit.Some? then c.limit.value as real * 107374.1824 else 0.0;
      var used := Used(w.used, id) as real;
      && (after == c || after == c.(status := Disabled, stoppedBy := QuotaWorker))
      && (after != c ==> c.status == Active && c.limit.Some? && c.limit.value > 0 && used >= cap - 0.5)
      && (after.status == Active && c.limit.Some? && c.limit.value > 0 ==> used < cap + 0.5)
  {
  }

  /** What the seller's three requests do to a config. Pausing turns its active configs off, removing deletes all of
      them, and a price rise turns off exactly the active ones that asked for it and whose panel call succeeded; no
      stamp changes, and no config of another listing. */
  lemma SellerStopsConfigs(w: World, listing: Id, panelOk: set<Id>, id: Id)
    requires id in w.configs && listing in w.listings && w.listings[listing].status != Health.Deleted
    ensures
      var c, own := w.configs[id], w.configs[id].listing == listing;
      var paused, raised := Step(w, DisableListing(listing)), Step(w, RaisePrice(listing, panelOk));
      var removed := Step(w, DeleteListing(listing));
      && (w.listings[listing].status != Health.Disabled ==>
            paused.configs[id] == if own && c.status == Active then c.(status := Disabled, stoppedBy := Seller) else c)
      && raised.configs[id]
         == (if own && c.status == Active && c.onPriceRise && id in panelOk && w.listings[listing].inbound
             then c.(status := Disabled, stoppedBy := PriceRise) else c)
      && removed.configs[id] == (if own then c.(status := Deleted) else c)
      && paused.listings == w.listings[listing := w.listings[listing].(status := Health.Disabled)]
      && raised.listings == w.listings
      && removed.listings == w.listings[listing := w.listings[listing].(status := Health.Deleted)]
  {
    hide MayBuy, AfterPassOne, AfterPassTwo, QuotaRow;
    if w.listings[listing].status == Health.Disabled {
      assert w.listings[listing := w.listings[listing].(status := Health.Disabled)] == w.listings;
    }
  }

  // ----- Provenance of an automatic restart -----

  /** A stamp on a live config means the balance worker stopped it, unless its buyer restarted it since. */
  ghost predicate StampExplained(c: Config)
  {
    c.status != Deleted && c.stamp.Some? ==> (c.status == Disabled && c.stoppedBy == BalanceWorker) || c.reopened
  }

  ghost predicate StampsExplained(w: World) { forall id | id in w.configs :: StampExplained(w.configs[id]) }

  lemma StepKeepsStamps(w: World, e: Event)
    requires StampsExplained(w)
    ensures StampsExplained(Step(w, e))
  {
  }

  lemma {:induction false} RunKeepsStamps(w: World, evs: seq<Event>)
    requires StampsExplained(w)
    ensures StampsExplained(Run(w, evs))
    decreases |evs|
  {
    hide Step;
    if evs != [] {
      StepKeepsStamps(w, evs[0]);
      RunKeepsStamps(Step(w, evs[0]), evs[1..]);
    }
  }

  /** The buyer restarts a config that still carries the balance worker's stamp. */
  predicate RestartsStamped(w: World, e: Event)
  {
    e.EnableConfig? && MayEnable(w, e.id, e.user) && w.configs[e.id].stamp.Some?
  }

  ghost predicate NeverRestartsStamped(w: World, evs: seq<Event>)
    decreases |evs|
  {
    evs == [] || (!RestartsStamped(w, evs[0]) && NeverRestartsStamped(Step(w, evs[0]), evs[1..]))
  }

  /** On live configs a stamp means exactly a stop by the balance worker. */
  ghost predicate StampMeansBalance(w: World)
  {
    forall id | id in w.configs && w.configs[id].status != Deleted && w.configs[id].stamp.Some? ::
      w.configs[id].status == Disabled && w.configs[id].stoppedBy == BalanceWorker
  }

  lemma EnforcingKeepsMeaning(w: World, now: int, panelOk: set<Id>)
    requires StampMeansBalance(w)
    ensures StampMeansBalance(Step(w, EnforceBalances(now, panelOk)))
  {
    EnforcedRows(w, now, panelOk);
    hide Step, Balance, ListingOf;
  }

  lemma MeaningKept(w: World, e: Event)
    requires StampMeansBalance(w) && !RestartsStamped(w, e)
    ensures StampMeansBalance(Step(w, e))
  {
    if e.EnforceBalances? {
      EnforcingKeepsMeaning(w, e.now, e.panelOk);
    } else {
      hide PassOne, PassTwo, AfterPassOne, AfterPassTwo, MayBuy, OverQuota;
    }
  }

  /** One step keeps that meaning if and only if it does not restart a stamped config. */
  lemma MeaningKeptIff(w: World, e: Event)
    requires StampMeansBalance(w)
    ensures StampMeansBalance(Step(w, e)) <==> !RestartsStamped(w, e)
  {
    if RestartsStamped(w, e) {
      var c := Step(w, e).configs[e.id];
      assert c.status == Active && c.stamp.Some?;
    } else {
      MeaningKept(w, e);
    }
  }

  lemma {:induction false} MeaningKeptInRuns(w: World, evs: seq<Event>)
    requires StampMeansBalance(w) && NeverRestartsStamped(w, evs)
    ensures StampMeansBalance(Run(w, evs))
    decreases |evs|
  {
    hide Step, RestartsStamped;
    if evs != [] {
      MeaningKept(w, evs[0]);
      MeaningKeptInRuns(Step(w, evs[0]), evs[1..]);
    }
  }

  /** In every run, what an enforcement run restarts was stopped by the balance worker or had been
      restarted by its buyer under the stamp; without such restarts only the former is left. */
  lemma RestartsOnlyItsOwn(w: World, evs: seq<Event>, now: int, panelOk: set<Id>, id: Id)
    requires StampsExplained(w) && id in Run(w, evs).configs
    requires Run(w, evs).configs[id].status == Disabled
    requires Step(Run(w, evs), EnforceBalances(now, panelOk)).configs[id].status == Active
    ensures Run(w, evs).configs[id].stoppedBy == BalanceWorker || Run(w, evs).configs[id].reopened
    ensures StampMeansBalance(w) && NeverRestartsStamped(w, evs) ==> Run(w, evs).configs[id].stoppedBy == BalanceWorker
  {
    RunKeepsStamps(w, evs);
    if StampMeansBalance(w) && NeverRestartsStamped(w, evs) {
      MeaningKeptInRuns(w, evs);
    }
  }

  function Row(status: Status, stamp: Option<int>, cause: Cause, reopened: bool): Config
  {
    Config(5, 1, status, stamp, None, false, cause, reopened)
  }

  /** One listing, and buyer 5 with the given config 9 and balance. */
  function OneConfig(configs: map<Id, Config>, balance: int): World
  {
    World(configs, map[1 := Listing(7, true, Health.Active)], map[5 := balance], map[])
  }

  lemma Story(w: World, e: Event, evs: seq<Event>)
    ensures Run(w, [e] + evs) == Run(Step(w, e), evs)
  {
    assert ([e] + evs)[1..] == evs;
  }

  lemma StoryStart()
    ensures StampMeansBalance(OneConfig(map[9 := Row(Active, None, Nobody, false)], 0))
    ensures Step(OneConfig(map[9 := Row(Active, None, Nobody, false)], 0), EnforceBalances(10, {}))
         == OneConfig(map[9 := Row(Disabled, Some(10), BalanceWorker, false)], 0)
  {
  }

  lemma StoryMiddle()
    ensures Step(OneConfig(map[9 := Row(Disabled, Some(10), BalanceWorker, false)], 0), EnableConfig(9, 5))
         == OneConfig(map[9 := Row(Active, Some(10), Nobody, true)], 0)
  {
  }

  lemma StoryStop()
    ensures Step(OneConfig(map[9 := Row(Active, Some(10), Nobody, true)], 0), DisableConfig(9, 5))
         == OneConfig(map[9 := Row(Disabled, Some(10), Buyer, true)], 0)
  {
  }

  lemma StoryTopUp()
    ensures Step(OneConfig(map[9 := Row(Disabled, Some(10), Buyer, true)], 0), SetBalance(5, 1))
         == OneConfig(map[9 := Row(Disabled, Some(10), Buyer, true)], 1)
  {
  }

  lemma StoryEnd()
    ensures Run(Step(OneConfig(map[9 := Row(Disabled, Some(10), BalanceWorker, false)], 0), EnableConfig(9, 5)),
                [DisableConfig(9, 5)] + ([SetBalance(5, 1)] + []))
         == OneConfig(map[9 := Row(Disabled, Some(10), Buyer, true)], 1)
  {
    StoryMiddle();
    StoryStop();
    StoryTopUp();
    hide Step, OneConfig;
    var w2 := OneConfig(map[9 := Row(Active, Some(10), Nobody, true)], 0);
    Story(w2, DisableConfig(9, 5), [SetBalance(5, 1)] + []);
    Story(Step(w2, DisableConfig(9, 5)), SetBalance(5, 1), []);
  }

  lemma RestartFollows(w: World)
    requires w == OneConfig(map[9 := Row(Disabled, Some(10), Buyer, true)], 1)
    ensures
      var v := Step(w, EnforceBalances(20, {9}));
      9 in v.configs && v.configs[9].status == Active
  {
  }

  /** Without the restriction the rule fails: a buyer who restarts a stamped config and then stops it
      finds it running again after a top-up. */
  lemma BuyerStopUndone()
    ensures var w := OneConfig(map[9 := Row(Active, None, Nobody, false)], 0);
            var evs := [EnforceBalances(10, {})]
                       + ([EnableConfig(9, 5)] + ([DisableConfig(9, 5)] + ([SetBalance(5, 1)] + [])));
            && StampMeansBalance(w)
            && Run(w, evs) == OneConfig(map[9 := Row(Disabled, Some(10), Buyer, true)], 1)
            && 9 in Step(Run(w, evs), EnforceBalances(20, {9})).configs
            && Step(Run(w, evs), EnforceBalances(20, {9})).configs[9].status == Active
  {
    hide Step, Run, OneConfig, StampMeansBalance;
    var w0 := OneConfig(map[9 := Row(Active, None, Nobody, false)], 0);
    StoryStart();
    StoryEnd();
    Story(w0, EnforceBalances(10, {}), [EnableConfig(9, 5)] + ([DisableConfig(9, 5)] + ([SetBalance(5, 1)] + [])));
    Story(Step(w0, EnforceBalances(10, {})), EnableConfig(9, 5), [DisableConfig(9, 5)] + ([SetBalance(5, 1)] + []));
    RestartFollows(OneConfig(map[9 := Row(Disabled, Some(10), Buyer, true)], 1));
  }

  // ----- The workers and the routes -----

  function ActiveBuyers(configs: map<Id, Config>): (buyers: set<User>)
    ensures forall id | id in configs && configs[id].buyer !in buyers :: configs[id].status != Active
  {
    set id | id in configs && configs[id].status == Active :: configs[id].buyer
  }

  function StampedBuyers(configs: map<Id, Config>): (buyers: set<User>)
    ensures forall id | id in configs && configs[id].buyer !in buyers ::
              configs[id].status != Disabled || configs[id].stamp.None?
  {
    set id | id in configs && configs[id].status == Disabled && configs[id].stamp.Some? :: configs[id].buyer
  }

  /** Only this config may differ. */
  predicate OthersKept(before: map<Id, Config>, after: map<Id, Config>, id: Id)
  {
    after.Keys == before.Keys && forall j | j in before && j != id :: after[j] == before[j]
  }

  class Shop {
    var configs: map<Id, Config>
    var listings: map<Id, Listing>
    var balances: map<User, int>
    var used: map<Id, nat>

    function State(): World
      reads this
    {
      World(configs, listings, balances, used)
    }

    /** The inner loop of the first pass: every active config of one buyer. */
    method StopBuyer(buyer: User, now: int)
      requires Linked(configs, listings) && Balance(balances, buyer) <= 0
      modifies this`configs
      ensures configs.Keys == old(configs).Keys && Linked(configs, listings)
      ensures forall id | id in configs ::
                configs[id].buyer == old(configs)[id].buyer &&
                configs[id]
                == if old(configs)[id].buyer == buyer then PassOne(old(configs)[id], Balance(balances, buyer), now)
                   else old(configs)[id]
      ensures forall id | id in configs ::
                configs[id]
                == if old(configs)[id].buyer == buyer && old(configs)[id].status == Active then
                     old(configs)[id].(status := Disabled, stamp := Some(now), stoppedBy := BalanceWorker,
                                       reopened := false)
                   else old(configs)[id]
    {
      var rows := set id | id in configs && configs[id].buyer == buyer && configs[id].status == Active
                           && configs[id].listing in listings;
      while rows != {}
        invariant configs.Keys == old(configs).Keys && rows <= configs.Keys
        invariant forall id | id in rows ::
                    configs[id] == old(configs)[id] && configs[id].status == Active && configs[id].buyer == buyer
        invariant forall id | id in configs && id !in rows ::
                    configs[id]
                    == if old(configs)[id].buyer == buyer then PassOne(old(configs)[id], Balance(balances, buyer), now)
                       else old(configs)[id]
        decreases |rows|
      {
        var id :| id in rows;
        rows := rows - {id};
        configs := configs[id := Stopped(configs[id], BalanceWorker).(stamp := Some(now), reopened := false)];
      }
    }

    method DisableEmpty(now: int)
      requires Linked(configs, listings)
      modifies this`configs
      ensures State() == old(AfterPassOne(State(), now))
    {
      hide Linked, Balance, PassOne, ActiveBuyers;
      PassOneIdles(now);
      var buyers := ActiveBuyers(configs);
      while buyers != {}
        invariant configs.Keys == old(configs).Keys && Linked(configs, listings)
        invariant forall id | id in configs :: configs[id].buyer == old(configs)[id].buyer
        invariant forall id | id in configs && configs[id].buyer in buyers :: configs[id] == old(configs)[id]
        invariant forall id | id in configs && configs[id].buyer !in buyers ::
                    configs[id] == PassOne(old(configs)[id], Balance(balances, old(configs)[id].buyer), now)
        decreases |buyers|
      {
        var buyer :| buyer in buyers;
        buyers := buyers - {buyer};
        if Balance(balances, buyer) > 0 {
          continue;
        }
        StopBuyer(buyer, now);
      }
    }

    ghost function Restarted(c: Config, id: Id, panelOk: set<Id>): Config
      reads this`balances, this`listings
    {
      PassTwo(c, Balance(balances, c.buyer), ListingOf(listings, c), id in panelOk)
    }

    /** The inner loop of the second pass: every stamped disabled config of one buyer. */
    method RestartBuyer(buyer: User, panelOk: set<Id>)
      requires Linked(configs, listings) && Balance(balances, buyer) > 0
      modifies this`configs
      ensures configs.Keys == old(configs).Keys && Linked(configs, listings)
      ensures forall id | id in configs ::
                configs[id].buyer == old(configs)[id].buyer &&
                configs[id]
                == if old(configs)[id].buyer == buyer then Restarted(old(configs)[id], id, panelOk)
                   else old(configs)[id]
      ensures forall id | id in configs ::
                configs[id]
                == if old(configs)[id].buyer == buyer && MayRestart(old(configs)[id], listings, id in panelOk) then
                     old(configs)[id].(status := Active, stamp := None, stoppedBy := Nobody, reopened := false)
                   else old(configs)[id]
    {
      var rows := set id | id in configs && configs[id].buyer == buyer && configs[id].status == Disabled
                           && configs[id].stamp.Some? && configs[id].listing in listings;
      while rows != {}
        invariant configs.Keys == old(configs).Keys && rows <= configs.Keys
        invariant forall id | id in rows ::
                    && configs[id] == old(configs)[id] && configs[id].status == Disabled && configs[id].stamp.Some?
                    && configs[id].buyer == buyer && configs[id].listing in listings
        invariant forall id | id in configs && id !in rows ::
                    configs[id]
                    == if old(configs)[id].buyer == buyer then Restarted(old(configs)[id], id, panelOk)
                       else old(configs)[id]
        decreases |rows|
      {
        var id :| id in rows;
        rows := rows - {id};
        var l := listings[configs[id].listing];
        if l.status !in {Health.Active, Health.Pending} {
          continue;
        }
        var ok := true;
        if l.inbound {
          ok := id in panelOk;
        }
        if ok {
          var restarted := configs[id].(status := Active, stamp := None, stoppedBy := Nobody, reopened := false);
          configs := configs[id := restarted];
        }
      }
    }

    method ReenableFunded(panelOk: set<Id>)
      requires Linked(configs, listings)
      modifies this`configs
      ensures State() == old(AfterPassTwo(State(), panelOk))
    {
      hide Linked, Balance, PassTwo, ListingOf, StampedBuyers, MayRestart;
      PassTwoIdles();
      var buyers := StampedBuyers(configs);
      while buyers != {}
        invariant configs.Keys == old(configs).Keys && Linked(configs, listings)
        invariant forall id | id in configs :: configs[id].buyer == old(configs)[id].buyer
        invariant forall id | id in configs && configs[id].buyer in buyers :: configs[id] == old(configs)[id]
        invariant forall id | id in configs && configs[id].buyer !in buyers ::
                    configs[id] == Restarted(old(configs)[id], id, panelOk)
        decreases |buyers|
      {
        var buyer :| buyer in buyers;
        buyers := buyers - {buyer};
        if Balance(balances, buyer) <= 0 {
          continue;
        }
        RestartBuyer(buyer, panelOk);
      }
    }

    method EnforceBalancesOnce(now: int, panelOk: set<Id>)
      requires Linked(configs, listings)
      modifies this`configs
      ensures configs.Keys == old(configs).Keys && Linked(configs, listings)
      ensures forall id | id in configs ::
                Enforced(old(configs)[id], configs[id], Balance(balances, old(configs)[id].buyer),
                         listings[old(configs)[id].listing], now, id in panelOk)
      ensures State() == old(Step(State(), EnforceBalances(now, panelOk)))
    {
      RowsEnforced(State(), now, panelOk);
      DisableEmpty(now);
      ReenableFunded(panelOk);
    }

    method EnforceQuotasOnce()
      requires Linked(configs, listings)
      modifies this`configs
      ensures State() == old(Step(State(), EnforceQuotas))
    {
      hide LimitBytes, MayBuy, AfterPassOne, AfterPassTwo, ListingStep;
      var rows := set id | id in configs && configs[id].status == Active && configs[id].limit.Some?;
      while rows != {}
        invariant configs.Keys == old(configs).Keys && rows <= configs.Keys
        invariant forall id | id in rows ::
                    configs[id] == old(configs)[id] && configs[id].status == Active && configs[id].limit.Some?
        invariant forall id | id in configs && id !in rows :: configs[id] == QuotaRow(old(configs)[id], Used(used, id))
        decreases |rows|
      {
        var id :| id in rows;
        rows := rows - {id};
        var limit := configs[id].limit.value;
        if limit <= 0 {
          continue;
        }
        if Used(used, id) < LimitBytes(limit) {
          continue;
        }
        configs := configs[id := Stopped(configs[id], QuotaWorker)];
      }
    }

    // ----- The buyer's and the seller's requests -----

    /** 404, 403 and 404 again: no such row, someone else's, deleted. */
    function Loaded(id: Id, user: User): (code: int)
      reads this`configs
      ensures code == 200 <==> id in configs && configs[id].buyer == user && configs[id].status != Deleted
      ensures code == 403 <==> id in configs && configs[id].buyer != user
    {
      if id !in configs then 404
      else if configs[id].buyer != user then 403
      else if configs[id].status == Deleted then 404
      else 200
    }

    /** The route's answers in its order: bad name, balance, listing, own listing, provisioning, the buyer's configs
        of the listing, the panel. `named` says that something is left of the name, `added` how the panel answers. */
    method Buy(id: Id, user: User, listing: Id, limit: Option<int>, onPriceRise: bool, named: bool, added: bool)
      returns (code: int)
      requires id !in configs
      modifies this`configs
      ensures
        var mine := set i | i in old(configs) && old(configs)[i].buyer == user && old(configs)[i].listing == listing
                            && old(configs)[i].status != Deleted;
        code == if !named then 422
                else if Balance(balances, user) < 50000000 then 402
                else if listing !in listings || listings[listing].status != Health.Active then 404
                else if listings[listing].seller == user then 400
                else if !listings[listing].inbound then 500
                else if |mine| >= 20 then 409
                else if !added then 502
                else 200
      ensures configs
              == if code == 200
                 then old(configs)[id := Config(user, listing, Active, None, limit, onPriceRise, Nobody, false)]
                 else old(configs)
      ensures State() == old(Step(State(), CreateConfig(id, user, listing, limit, onPriceRise, named, added)))
    {
      assert ConfigsOf(configs, user, listing)
          == set i | i in configs && configs[i].buyer == user && configs[i].listing == listing
                     && configs[i].status != Deleted;
      if !named {
        return 422;
      }
      if Balance(balances, user) < MIN_BALANCE {
        return 402;
      }
      if listing !in listings || listings[listing].status != Health.Active {
        return 404;
      }
      if listings[listing].seller == user {
        return 400;
      }
      if !listings[listing].inbound {
        return 500;
      }
      if |ConfigsOf(configs, user, listing)| >= MAX_CONFIGS {
        return 409;
      }
      if !added {
        return 502;
      }
      configs := configs[id := Config(user, listing, Active, None, limit, onPriceRise, Nobody, false)];
      return 200;
    }

    method DisableOwn(id: Id, user: User) returns (code: int)
      modifies this`configs
      ensures code == old(Loaded(id, user))
      ensures OthersKept(old(configs), configs, id) && (code != 200 ==> configs == old(configs))
      ensures code == 200 ==>
                configs[id] == if old(configs)[id].status == Disabled then old(configs)[id]
                               else old(configs)[id].(status := Disabled, stoppedBy := Buyer)
      ensures State() == old(Step(State(), DisableConfig(id, user)))
    {
      code := Loaded(id, user);
      if code == 200 && configs[id].status != Disabled {
        configs := configs[id := Stopped(configs[id], Buyer)];
      }
    }

    method EnableOwn(id: Id, user: User) returns (code: int)
      requires Linked(configs, listings)
      modifies this`configs
      ensures code == old(if Loaded(id, user) != 200 then Loaded(id, user)
                          else if listings[configs[id].listing].status != Health.Active then 409 else 200)
      ensures OthersKept(old(configs), configs, id) && (code != 200 ==> configs == old(configs))
      ensures code == 200 ==>
                var c := old(configs)[id];
                configs[id] == if c.status == Active then c
                               else c.(status := Active, stoppedBy := Nobody, reopened := c.reopened || c.stamp != None)
      ensures State() == old(Step(State(), EnableConfig(id, user)))
    {
      code := Loaded(id, user);
      if code != 200 {
        return;
      }
      if listings[configs[id].listing].status != Health.Active {
        return 409;
      }
      if configs[id].status == Active {
        return;
      }
      var again := configs[id].reopened || configs[id].stamp.Some?;
      configs := configs[id := configs[id].(status := Active, stoppedBy := Nobody, reopened := again)];
    }

    method DeleteOwn(id: Id, user: User) returns (code: int)
      modifies this`configs
      ensures code == old(Loaded(id, user))
      ensures OthersKept(old(configs), configs, id) && (code != 200 ==> configs == old(configs))
      ensures code == 200 ==> configs[id] == old(configs)[id].(status := Deleted)
      ensures State() == old(Step(State(), DeleteConfig(id, user)))
    {
      code := Loaded(id, user);
      if code == 200 {
        configs := configs[id := configs[id].(status := Deleted)];
      }
    }

    /** Every active config of a listing is stopped on the seller's behalf. */
    method StopListing(listing: Id)
      modifies this`configs
      ensures configs == old(map id | id in configs :: SellerRow(configs[id], listing))
    {
      var rows := set id | id in configs && configs[id].listing == listing && configs[id].status == Active;
      while rows != {}
        invariant configs.Keys == old(configs).Keys && rows <= configs.Keys
        invariant forall id | id in rows ::
                    configs[id] == old(configs)[id] && configs[id].listing == listing && configs[id].status == Active
        invariant forall id | id in configs && id !in rows :: configs[id] == SellerRow(old(configs)[id], listing)
        decreases |rows|
      {
        var id :| id in rows;
        rows := rows - {id};
        configs := configs[id := Stopped(configs[id], Seller)];
      }
    }

    method PauseListing(listing: Id)
      modifies this`configs, this`listings
      ensures
        if listing in old(listings) && old(listings)[listing].status !in {Health.Deleted, Health.Disabled} then
          && listings == old(listings)[listing := old(listings)[listing].(status := Health.Disabled)]
          && configs.Keys == old(configs).Keys && forall id | id in configs ::
               configs[id]
               == if old(configs)[id].listing == listing && old(configs)[id].status == Active
                  then old(configs)[id].(status := Disabled, stoppedBy := Seller) else old(configs)[id]
        else listings == old(listings) && configs == old(configs)
      ensures State() == old(Step(State(), DisableListing(listing)))
    {
      if listing !in listings || listings[listing].status in {Health.Deleted, Health.Disabled} {
        return;
      }
      StopListing(listing);
      listings := listings[listing := listings[listing].(status := Health.Disabled)];
    }

    /** Active configs of the listing that asked for it are stopped when their panel call succeeds. */
    method StopOnPriceRise(listing: Id, panelOk: set<Id>)
      modifies this`configs
      ensures configs == old(map id | id in configs :: PriceRow(configs[id], listing, id in panelOk))
    {
      var rows := set id | id in configs && configs[id].listing == listing && configs[id].status == Active
                           && configs[id].onPriceRise;
      while rows != {}
        invariant configs.Keys == old(configs).Keys && rows <= configs.Keys
        invariant forall id | id in rows ::
                    && configs[id] == old(configs)[id] && configs[id].listing == listing && configs[id].status == Active
                    && configs[id].onPriceRise
        invariant forall id | id in configs && id !in rows ::
                    configs[id] == PriceRow(old(configs)[id], listing, id in panelOk)
        decreases |rows|
      {
        var id :| id in rows;
        rows := rows - {id};
        if id in panelOk {
          configs := configs[id := Stopped(configs[id], PriceRise)];
        }
      }
    }

    method IncreasePrice(listing: Id, panelOk: set<Id>)
      modifies this`configs
      ensures configs.Keys == old(configs).Keys && forall id | id in configs ::
                configs[id]
                == if && listing in listings && listings[listing].status != Health.Deleted && listings[listing].inbound
                      && old(configs)[id].listing == listing && old(configs)[id].status == Active
                      && old(configs)[id].onPriceRise && id in panelOk
                   then old(configs)[id].(status := Disabled, stoppedBy := PriceRise) else old(configs)[id]
      ensures State() == old(Step(State(), RaisePrice(listing, panelOk)))
    {
      if listing in listings && listings[listing].status != Health.Deleted && listings[listing].inbound {
        StopOnPriceRise(listing, panelOk);
      }
    }

    method DropConfigs(listing: Id)
      modifies this`configs
      ensures configs == old(map id | id in configs :: DeletedRow(configs[id], listing))
    {
      var rows := set id | id in configs && configs[id].listing == listing && configs[id].status != Deleted;
      while rows != {}
        invariant configs.Keys == old(configs).Keys && rows <= configs.Keys
        invariant forall id | id in rows :: configs[id] == old(configs)[id] && configs[id].listing == listing
        invariant forall id | id in configs && id !in rows :: configs[id] == DeletedRow(old(configs)[id], listing)
        decreases |rows|
      {
        var id :| id in rows;
        rows := rows - {id};
        configs := configs[id := configs[id].(status := Deleted)];
      }
    }

    method RemoveListing(listing: Id)
      modifies this`configs, this`listings
      ensures
        if listing in old(listings) && old(listings)[listing].status != Health.Deleted then
          && listings == old(listings)[listing := old(listings)[listing].(status := Health.Deleted)]
          && configs.Keys == old(configs).Keys && forall id | id in configs ::
               configs[id] == if old(configs)[id].listing == listing then old(configs)[id].(status := Deleted)
                              else old(configs)[id]
        else listings == old(listings) && configs == old(configs)
      ensures State() == old(Step(State(), DeleteListing(listing)))
    {
      if listing !in listings || listings[listing].status == Health.Deleted {
        return;
      }
      DropConfigs(listing);
      listings := listings[listing := listings[listing].(status := Health.Deleted)];
    }
  }
}
