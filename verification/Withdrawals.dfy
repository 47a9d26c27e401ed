/** Withdrawals from request to receipt: the durable rows and ledger, the chain, and the worker between them.

    Money is counted in units of 10^-8 USD, and a signed transaction stands for its hash, which is a
    collision-free function of its content. Each event is one step between two awaits; how a commit
    or a call ended is an argument. The worker's place in its tick is volatile: a crash forgets it.
    There is one worker, and a receipt is final.
*/
module Withdrawals {
  import opened Common

  type UserId = nat
  type Address = nat
  type Time = int
  type Id = nat

  datatype Settings = Settings(
    minAmount: nat, maxAmount: nat, perDay: nat,
    scale: nat,           // token units per USD, 10 to the token's decimals
    recoverAfter: nat)    // how long a row may sit in `submitting`

  const DAY: int := 86400
  const CLAIM_LIMIT: nat := 20
  const CONFIRM_LIMIT: nat := 50
  const USD: nat := 100000000

  datatype Status = Pending | Submitting | Submitted | Confirmed | Failed | Refunded

  datatype Tx = Tx(nonce: nat, to: Address, units: nat, gasPrice: nat)

  /** `checkedAt` is the instant the creation rules were evaluated; no column holds it. */
  datatype Withdrawal = Withdrawal(
    user: UserId, amount: nat, net: nat, to: Address,
    status: Status, hash: Option<Tx>, gasPrice: nat,
    createdAt: Time, updatedAt: Time, checkedAt: Time)

  /** A payout or refund row names its withdrawal; every other credit or debit is `Other`. */
  datatype Kind = Payout(id: Id) | Refund(id: Id) | Other

  datatype Entry = Entry(user: UserId, amount: int, kind: Kind)

  datatype Receipt = Receipt(tx: Tx, success: bool)

  datatype Send = Send(id: Id, tx: Tx)

  datatype Phase =
    | Idle
    | Recovered
    | Submit(queue: seq<Id>)              // claimed rows still to submit
    | Signed(queue: seq<Id>, tx: Tx)      // the head is signed, nothing stored
    | Persisted(queue: seq<Id>, tx: Tx)   // the head's hash is stored, nothing sent
    | Confirm(queue: seq<Id>)             // submitted rows still to check

  /** `payer` gives each transaction on the network the withdrawal that sent it first, and `transferred`
      adds up the units that successful transactions moved; both are bookkeeping. */
  datatype System = System(
    rows: seq<Withdrawal>,
    ledger: seq<Entry>,
    sent: seq<Send>,
    payer: map<Tx, Id>,
    mined: map<nat, Receipt>,
    transferred: nat,
    phase: Phase)

  datatype Request = Request(
    user: UserId, blocked: bool, amount: nat, to: Address, fee: nat, gasPrice: nat, hot: nat,
    now: Time,       // when the rules are evaluated
    stamp: Time)     // the row's created_at

  /** A commit may take effect and still raise; one that does not take effect always raises. */
  datatype Commit = Done | DoneButRaised | RolledBack

  datatype Signing = SignFailed(commit: Commit) | SignedWith(nonce: nat, gasPrice: nat)

  datatype Event =
    | Post(user: UserId, amount: int)
    | Create(request: Request)
    | Mine(tx: Tx, success: bool)
    | Recover(now: Time, commit: Commit)
    | Claim(now: Time, commit: Commit)
    | Sign(signing: Signing, now: Time)
    | Persist(now: Time, commit: Commit)
    | Broadcast(reached: bool)
    | SelectSubmitted
    | Check(answered: bool, now: Time, commit: Commit)
    | Crash

  // ----- Creation -----

  predicate NonTerminal(st: Status) { st.Pending? || st.Submitting? || st.Submitted? }

  predicate HasInFlight(rows: seq<Withdrawal>, u: UserId)
  {
    exists i | 0 <= i < |rows| :: rows[i].user == u && NonTerminal(rows[i].status)
  }

  predicate CountsTowardCap(r: Withdrawal, u: UserId, since: Time)
  {
    r.user == u && r.createdAt >= since && !r.status.Failed? && !r.status.Refunded?
  }

  function Spent(rows: seq<Withdrawal>, u: UserId, since: Time): nat
  {
    if rows == [] then 0
    else
      var last := rows[|rows| - 1];
      Spent(rows[..|rows| - 1], u, since) + if CountsTowardCap(last, u, since) then last.amount else 0
  }

  function Balance(ledger: seq<Entry>, u: UserId): int
  {
    if ledger == [] then 0
    else
      var last := ledger[|ledger| - 1];
      Balance(ledger[..|ledger| - 1], u) + if last.user == u then last.amount else 0
  }

  predicate MayCreate(cfg: Settings, s: System, q: Request)
  {
    && 0 < q.amount && cfg.minAmount <= q.amount <= cfg.maxAmount
    && !q.blocked
    && !HasInFlight(s.rows, q.user)
    && Spent(s.rows, q.user, q.now - DAY) + q.amount <= cfg.perDay
    && q.amount <= Balance(s.ledger, q.user)
    && q.fee < q.amount
    && (q.hot == 0 || q.amount - q.fee <= q.hot)
  }

  function NewRow(q: Request): Withdrawal
    requires q.fee < q.amount
  {
    Withdrawal(q.user, q.amount, q.amount - q.fee, q.to, Pending, None, q.gasPrice, q.stamp, q.stamp, q.now)
  }

  // ----- The worker's steps -----

  function Units(cfg: Settings, net: nat): nat { net * cfg.scale / USD }

  /** A transfer moves the net amount rounded down to whole token units. */
  lemma UnitsAreFloored(cfg: Settings, net: nat)
    ensures Units(cfg, net) * 100000000 <= net * cfg.scale < (Units(cfg, net) + 1) * 100000000
  {
  }

  function IdsWith(rows: seq<Withdrawal>, st: Status): (ids: seq<Id>)
    ensures forall i :: i in ids <==> 0 <= i < |rows| && rows[i].status == st
    ensures forall i, j | 0 <= i < j < |ids| :: ids[i] < ids[j]
  {
    if rows == [] then []
    else
      var last := |rows| - 1;
      var before := IdsWith(rows[..last], st);
      assert forall i | 0 <= i < |before| :: before[i] in before;
      if rows[last].status == st then before + [last] else before
  }

  function Take(ids: seq<Id>, n: nat): seq<Id> { if |ids| <= n then ids else ids[..n] }

  /** How many rows are in a status. */
  function CountWith(rows: seq<Withdrawal>, st: Status): nat
  {
    if rows == [] then 0
    else CountWith(rows[..|rows| - 1], st) + if rows[|rows| - 1].status == st then 1 else 0
  }

  lemma {:induction false} IdsInOrder(rows: seq<Withdrawal>, st: Status)
    ensures |IdsWith(rows, st)| == CountWith(rows, st)
    ensures forall k | 0 <= k < |IdsWith(rows, st)| ::
              IdsWith(rows, st)[k] < |rows| && CountWith(rows[..IdsWith(rows, st)[k]], st) == k
  {
    if rows != [] {
      var init, before := rows[..|rows| - 1], IdsWith(rows[..|rows| - 1], st);
      IdsInOrder(init, st);
      forall k | 0 <= k < |before|
        ensures rows[..before[k]] == init[..before[k]]
      {
      }
    }
  }

  /** These are the rows in a status with fewer than `n` such rows before them, in the order of their ids. */
  ghost predicate Oldest(ids: seq<Id>, rows: seq<Withdrawal>, st: Status, n: nat)
  {
    && (forall j, k | 0 <= j < k < |ids| :: ids[j] < ids[k])
    && (forall i: Id :: i in ids <==> i < |rows| && rows[i].status == st && CountWith(rows[..i], st) < n)
  }

  lemma TakenIff(rows: seq<Withdrawal>, st: Status, n: nat, i: Id)
    ensures i in Take(IdsWith(rows, st), n) <==> i < |rows| && rows[i].status == st && CountWith(rows[..i], st) < n
  {
    var all := IdsWith(rows, st);
    IdsInOrder(rows, st);
    hide IdsWith, CountWith;
    if i in all {
      var k :| 0 <= k < |all| && all[k] == i;
      if k < n {
        assert Take(all, n)[k] == i;
      }
    }
  }

  lemma OldestFirst(rows: seq<Withdrawal>, st: Status, n: nat)
    ensures
      var ids := Take(IdsWith(rows, st), n);
      Oldest(ids, rows, st, n) && forall k | 0 <= k < |ids| :: ids[k] < |rows| && CountWith(rows[..ids[k]], st) == k
  {
    IdsInOrder(rows, st);
    hide IdsWith, CountWith;
    forall i: Id
      ensures i in Take(IdsWith(rows, st), n) <==> i < |rows| && rows[i].status == st && CountWith(rows[..i], st) < n
    {
      TakenIff(rows, st, n, i);
    }
  }

  function SetStatus(rows: seq<Withdrawal>, ids: seq<Id>, st: Status, now: Time): (r: seq<Withdrawal>)
    ensures |r| == |rows|
    ensures forall i | 0 <= i < |rows| :: r[i] == if i in ids then rows[i].(status := st, updatedAt := now) else rows[i]
  {
    seq(|rows|, i requires 0 <= i < |rows| => if i in ids then rows[i].(status := st, updatedAt := now) else rows[i])
  }

  predicate Stuck(cfg: Settings, r: Withdrawal, now: Time)
  {
    r.status.Submitting? && r.updatedAt < now - cfg.recoverAfter
  }

  function RecoverRows(cfg: Settings, rows: seq<Withdrawal>, now: Time): (r: seq<Withdrawal>)
    ensures |r| == |rows|
    ensures forall i | 0 <= i < |rows| ::
              r[i] == if Stuck(cfg, rows[i], now) then rows[i].(status := Pending, updatedAt := now) else rows[i]
  {
    seq(|rows|, i requires 0 <= i < |rows| =>
      if Stuck(cfg, rows[i], now) then rows[i].(status := Pending, updatedAt := now) else rows[i])
  }

  predicate HasRefund(ledger: seq<Entry>, id: Id) { exists i | 0 <= i < |ledger| :: ledger[i].kind == Refund(id) }

  /** Credit the gross amount back and mark the row; a second refund row breaks the unique key, so its commit raises. */
  function RefundRow(s: System, id: Id, now: Time, commit: Commit): System
    requires id < |s.rows|
  {
    if commit.RolledBack? || HasRefund(s.ledger, id) then s.(phase := Idle)
    else
      var r := s.rows[id];
      s.(rows := s.rows[id := r.(status := Refunded, updatedAt := now)],
         ledger := s.ledger + [Entry(r.user, r.amount, Refund(id))],
         phase := if commit.Done? then s.phase else Idle)
  }

  function ConfirmRow(s: System, id: Id, now: Time, commit: Commit): System
    requires id < |s.rows|
  {
    if commit.RolledBack? then s.(phase := Idle)
    else
      s.(rows := s.rows[id := s.rows[id].(status := Confirmed, updatedAt := now)],
         phase := if commit.Done? then s.phase else Idle)
  }

  /** The transaction for a row: the stored gas price wins over the node's, and dust cannot be signed. */
  function SignedTx(cfg: Settings, r: Withdrawal, nonce: nat, gasPrice: nat): Tx
  {
    Tx(nonce, r.to, Units(cfg, r.net), if r.gasPrice > 0 then r.gasPrice else gasPrice)
  }

  function ReceiptOf(mined: map<nat, Receipt>, tx: Tx): Option<bool>
  {
    if tx.nonce in mined && mined[tx.nonce].tx == tx then Some(mined[tx.nonce].success) else None
  }

  function SignHead(cfg: Settings, s: System, signing: Signing, now: Time): System
    requires s.phase.Submit?
  {
    var q := s.phase.queue;
    if q == [] || q[0] >= |s.rows| then s
    else
      match signing
      case SignFailed(commit) => RefundRow(s.(phase := Submit(q[1..])), q[0], now, commit)
      case SignedWith(nonce, gasPrice) =>
        if Units(cfg, s.rows[q[0]].net) == 0 then s
        else s.(phase := Signed(q, SignedTx(cfg, s.rows[q[0]], nonce, gasPrice)))
  }

  function PersistHead(s: System, now: Time, commit: Commit): System
    requires s.phase.Signed?
  {
    var q, tx := s.phase.queue, s.phase.tx;
    if q == [] || q[0] >= |s.rows| then s
    else if commit.RolledBack? then s.(phase := Idle)
    else
      var r := s.rows[q[0]].(status := Submitted, hash := Some(tx), gasPrice := tx.gasPrice, updatedAt := now);
      s.(rows := s.rows[q[0] := r],
         phase := if commit.Done? then Persisted(q, tx) else Idle)
  }

  function BroadcastHead(s: System, reached: bool): System
    requires s.phase.Persisted?
  {
    var q, tx := s.phase.queue, s.phase.tx;
    if q == [] then s
    else if !reached then s.(phase := Submit(q[1..]))
    else
      s.(sent := s.sent + [Send(q[0], tx)],
         payer := if tx in s.payer then s.payer else s.payer[tx := q[0]],
         phase := Submit(q[1..]))
  }

  function CheckHead(s: System, answered: bool, now: Time, commit: Commit): System
    requires s.phase.Confirm?
  {
    var q := s.phase.queue;
    if q == [] then s.(phase := Idle)
    else if q[0] >= |s.rows| || s.rows[q[0]].hash.None? || !answered then s.(phase := Confirm(q[1..]))
    else
      var r := s.rows[q[0]];
      match ReceiptOf(s.mined, r.hash.value)
      case None => s.(phase := Confirm(q[1..]))
      case Some(true) => ConfirmRow(s.(phase := Confirm(q[1..])), q[0], now, commit)
      case Some(false) => RefundRow(s.(phase := Confirm(q[1..])), q[0], now, commit)
  }

  function Step(cfg: Settings, s: System, ev: Event): System
  {
    match ev
    case Post(u, amount) => s.(ledger := s.ledger + [Entry(u, amount, Other)])
    case Create(q) =>
      if MayCreate(cfg, s, q) then
        s.(rows := s.rows + [NewRow(q)],
           ledger := s.ledger + [Entry(q.user, -(q.amount as int), Payout(|s.rows|))])
      else s
    case Mine(tx, success) =>
      if tx in s.payer && tx.nonce !in s.mined then
        s.(mined := s.mined[tx.nonce := Receipt(tx, success)],
           transferred := s.transferred + if success then tx.units else 0)
      else s
    case Recover(now, commit) =>
      if s.phase.Idle? then
        s.(rows := if commit.RolledBack? then s.rows else RecoverRows(cfg, s.rows, now),
           phase := if commit.Done? then Recovered else Idle)
      else s
    case Claim(now, commit) =>
      if s.phase.Recovered? then
        var ids := Take(IdsWith(s.rows, Pending), CLAIM_LIMIT);
        s.(rows := if commit.RolledBack? then s.rows else SetStatus(s.rows, ids, Submitting, now),
           phase := if commit.Done? then Submit(ids) else Idle)
      else s
    case Sign(signing, now) => if s.phase.Submit? then SignHead(cfg, s, signing, now) else s
    case Persist(now, commit) => if s.phase.Signed? then PersistHead(s, now, commit) else s
    case Broadcast(reached) => if s.phase.Persisted? then BroadcastHead(s, reached) else s
    case SelectSubmitted =>
      if s.phase == Submit([]) then s.(phase := Confirm(Take(IdsWith(s.rows, Submitted), CONFIRM_LIMIT))) else s
    case Check(answered, now, commit) => if s.phase.Confirm? then CheckHead(s, answered, now, commit) else s
    case Crash => s.(phase := Idle)
  }

  function Run(cfg: Settings, s: System, evs: seq<Event>): System
    decreases |evs|
  {
    if evs == [] then s else Run(cfg, Step(cfg, s, evs[0]), evs[1..])
  }

  lemma {:induction false} RunAppends(cfg: Settings, s: System, a: seq<Event>, b: seq<Event>)
    ensures Run(cfg, s, a + b) == Run(cfg, Run(cfg, s, a), b)
    decreases |a|
  {
    hide Step;
    if a == [] {
      assert a + b == b;
    } else {
      assert (a + b)[0] == a[0] && (a + b)[1..] == a[1..] + b;
      RunAppends(cfg, Step(cfg, s, a[0]), a[1..], b);
    }
  }

  const INITIAL: System := System([], [], [], map[], map[], 0, Idle)
}
