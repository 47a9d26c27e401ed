/** Money across the rows, the ledger and the chain: every withdrawal has its payout row and at most its
    refund row, a user never takes out more than was ever credited, and the hot wallet never sends more
    than the withdrawals that were not refunded. */
module PayoutLedger {
  import opened Common
  import opened Withdrawals
  import opened PayoutSafety

  // ----- How rows evolve -----

  /** What no step changes about a row, and the directions in which its status may move. */
  predicate Evolves(r: Withdrawal, q: Withdrawal)
  {
    && q.user == r.user && q.amount == r.amount && q.net == r.net && q.to == r.to
    && q.createdAt == r.createdAt && q.checkedAt == r.checkedAt
    && (NonTerminal(q.status) ==> NonTerminal(r.status))
    && (r.status.Refunded? ==> q.status.Refunded?)
  }

  ghost predicate RowsEvolve(rows: seq<Withdrawal>, later: seq<Withdrawal>)
  {
    |later| == |rows| && forall i | 0 <= i < |rows| :: Evolves(rows[i], later[i])
  }

  lemma ClaimEvolves(cfg: Settings, s: System, now: Time, commit: Commit)
    ensures RowsEvolve(s.rows, Step(cfg, s, Claim(now, commit)).rows)
  {
    TakeIsPrefix(s.rows, Pending, CLAIM_LIMIT);
  }

  lemma HeadEvolves(rows: seq<Withdrawal>, later: seq<Withdrawal>, id: Id, r: Withdrawal)
    requires id < |rows| && Evolves(rows[id], r) && (later == rows || later == rows[id := r])
    ensures RowsEvolve(rows, later)
  {
  }

  lemma SignEvolves(cfg: Settings, s: System, signing: Signing, now: Time)
    requires Safe(cfg, s) && s.phase.Submit?
    ensures RowsEvolve(s.rows, SignHead(cfg, s, signing, now).rows)
  {
    if s.phase.queue != [] {
      var id := s.phase.queue[0];
      assert RowOk(cfg, s.mined, s.rows[id]);
      HeadEvolves(s.rows, SignHead(cfg, s, signing, now).rows, id, s.rows[id].(status := Refunded, updatedAt := now));
    }
  }

  lemma PersistEvolves(cfg: Settings, s: System, now: Time, commit: Commit)
    requires Safe(cfg, s) && s.phase.Signed?
    ensures RowsEvolve(s.rows, PersistHead(s, now, commit).rows)
  {
    var id, tx := s.phase.queue[0], s.phase.tx;
    assert RowOk(cfg, s.mined, s.rows[id]);
    HeadEvolves(s.rows, PersistHead(s, now, commit).rows, id,
      s.rows[id].(status := Submitted, hash := Some(tx), gasPrice := tx.gasPrice, updatedAt := now));
  }

  lemma CheckEvolves(cfg: Settings, s: System, answered: bool, now: Time, commit: Commit)
    requires Safe(cfg, s) && s.phase.Confirm?
    ensures RowsEvolve(s.rows, CheckHead(s, answered, now, commit).rows)
  {
    if s.phase.queue != [] {
      var id := s.phase.queue[0];
      assert RowOk(cfg, s.mined, s.rows[id]);
      var final := if ReceiptOf(s.mined, s.rows[id].hash.value) == Some(true) then Confirmed else Refunded;
      hide Safe, RowOk;
      HeadEvolves(s.rows, CheckHead(s, answered, now, commit).rows, id, s.rows[id].(status := final, updatedAt := now));
    }
  }

  /** Only a creation adds a row; every other step evolves the rows in place. */
  lemma StepEvolves(cfg: Settings, s: System, ev: Event)
    requires Safe(cfg, s)
    ensures
      if ev.Create? && MayCreate(cfg, s, ev.request) then Step(cfg, s, ev).rows == s.rows + [NewRow(ev.request)]
      else RowsEvolve(s.rows, Step(cfg, s, ev).rows)
  {
    if ev.Claim? {
      ClaimEvolves(cfg, s, ev.now, ev.commit);
    } else if ev.Sign? {
      if s.phase.Submit? {
        SignEvolves(cfg, s, ev.signing, ev.now);
      }
    } else if ev.Persist? {
      if s.phase.Signed? {
        PersistEvolves(cfg, s, ev.now, ev.commit);
      }
    } else if ev.Check? {
      if s.phase.Confirm? {
        CheckEvolves(cfg, s, ev.answered, ev.now, ev.commit);
      }
    }
    hide SignHead, PersistHead, CheckHead, Safe;
  }

  predicate RefundMoves(s: System, t: System, id: int)
    requires 0 <= id < |s.rows|
  {
    && !s.rows[id].status.Refunded? && |t.rows| == |s.rows|
    && t.ledger == s.ledger + [Entry(s.rows[id].user, s.rows[id].amount, Refund(id))]
    && forall i | 0 <= i < |s.rows| :: t.rows[i].status.Refunded? == (s.rows[i].status.Refunded? || i == id)
  }

  /** The ledger only grows: by a payout row with each creation, by a refund row exactly when a row becomes
      refunded, and by entries that concern no withdrawal. */
  predicate LedgerMoves(s: System, t: System, ev: Event)
  {
    || (t.ledger == s.ledger && |t.rows| == |s.rows|
        && forall i | 0 <= i < |s.rows| :: t.rows[i].status.Refunded? == s.rows[i].status.Refunded?)
    || (ev.Post? && t.ledger == s.ledger + [Entry(ev.user, ev.amount, Other)] && t.rows == s.rows)
    || (ev.Create? && ev.request.fee < ev.request.amount && t.rows == s.rows + [NewRow(ev.request)]
        && t.ledger == s.ledger + [Entry(ev.request.user, -(ev.request.amount as int), Payout(|s.rows|))])
    || (exists id | 0 <= id < |s.rows| :: RefundMoves(s, t, id))
  }

  lemma RefundMovesLedger(s: System, id: Id, now: Time, commit: Commit)
    requires id < |s.rows| && !s.rows[id].status.Refunded?
    ensures var t := RefundRow(s, id, now, commit);
      (t.ledger == s.ledger && t.rows == s.rows) || RefundMoves(s, t, id)
  {
  }

  lemma SignMovesLedger(cfg: Settings, s: System, signing: Signing, now: Time)
    requires Safe(cfg, s) && s.phase.Submit?
    ensures LedgerMoves(s, SignHead(cfg, s, signing, now), Sign(signing, now))
  {
    var q, t := s.phase.queue, SignHead(cfg, s, signing, now);
    if q != [] && signing.SignFailed? {
      RefundMovesLedger(s.(phase := Submit(q[1..])), q[0], now, signing.commit);
      hide RefundRow;
      assert t.ledger != s.ledger ==> RefundMoves(s, t, q[0]);
    }
  }

  lemma CheckMovesLedger(cfg: Settings, s: System, answered: bool, now: Time, commit: Commit)
    requires Safe(cfg, s) && s.phase.Confirm?
    ensures LedgerMoves(s, CheckHead(s, answered, now, commit), Check(answered, now, commit))
  {
    var q, t := s.phase.queue, CheckHead(s, answered, now, commit);
    if q != [] {
      assert RowOk(cfg, s.mined, s.rows[q[0]]);
      RefundMovesLedger(s.(phase := Confirm(q[1..])), q[0], now, commit);
      hide RefundRow;
      assert t.ledger != s.ledger ==> RefundMoves(s, t, q[0]);
    }
  }

  lemma PersistMovesLedger(cfg: Settings, s: System, now: Time, commit: Commit)
    requires Safe(cfg, s) && s.phase.Signed?
    ensures LedgerMoves(s, PersistHead(s, now, commit), Persist(now, commit))
  {
    assert RowOk(cfg, s.mined, s.rows[s.phase.queue[0]]);
  }

  lemma OtherStepMovesLedger(cfg: Settings, s: System, ev: Event)
    requires !ev.Sign? && !ev.Check? && !ev.Persist?
    ensures LedgerMoves(s, Step(cfg, s, ev), ev)
  {
    hide SignHead, PersistHead, CheckHead, Spent, Balance;
    if ev.Claim? {
      TakeIsPrefix(s.rows, Pending, CLAIM_LIMIT);
    }
    hide IdsWith, Take;
  }

  lemma StepMovesLedger(cfg: Settings, s: System, ev: Event)
    requires Safe(cfg, s)
    ensures LedgerMoves(s, Step(cfg, s, ev), ev)
  {
    hide Safe, SignHead, PersistHead, CheckHead;
    if ev.Sign? {
      if s.phase.Submit? {
        SignMovesLedger(cfg, s, ev.signing, ev.now);
      }
    } else if ev.Check? {
      if s.phase.Confirm? {
        CheckMovesLedger(cfg, s, ev.answered, ev.now, ev.commit);
      }
    } else if ev.Persist? {
      if s.phase.Signed? {
        PersistMovesLedger(cfg, s, ev.now, ev.commit);
      }
    } else {
      OtherStepMovesLedger(cfg, s, ev);
    }
  }

  // ----- Ledger agreement -----

  function Count(ledger: seq<Entry>, kind: Kind): nat
  {
    if ledger == [] then 0
    else Count(ledger[..|ledger| - 1], kind) + if ledger[|ledger| - 1].kind == kind then 1 else 0
  }

  lemma CountAppend(ledger: seq<Entry>, e: Entry, kind: Kind)
    ensures Count(ledger + [e], kind) == Count(ledger, kind) + if e.kind == kind then 1 else 0
  {
    assert (ledger + [e])[..|ledger|] == ledger;
  }

  /** The entry states the amount and the user of the withdrawal it names. */
  predicate EntryOk(rows: seq<Withdrawal>, e: Entry)
  {
    match e.kind
    case Payout(id) => id < |rows| && e.user == rows[id].user && e.amount == -(rows[id].amount as int)
    case Refund(id) => id < |rows| && e.user == rows[id].user && e.amount == rows[id].amount
    case Other => true
  }

  function Present(rows: seq<Withdrawal>, id: Id): nat { if id < |rows| then 1 else 0 }

  function Back(rows: seq<Withdrawal>, id: Id): nat { if id < |rows| && rows[id].status.Refunded? then 1 else 0 }

  ghost predicate LedgerOk(s: System)
  {
    && (forall i | 0 <= i < |s.ledger| :: EntryOk(s.rows, s.ledger[i]))
    && (forall id: Id :: Count(s.ledger, Payout(id)) == Present(s.rows, id))
    && (forall id: Id :: Count(s.ledger, Refund(id)) == Back(s.rows, id))
  }

  lemma EntriesStayOk(rows: seq<Withdrawal>, later: seq<Withdrawal>, e: Entry)
    requires EntryOk(rows, e)
    requires RowsEvolve(rows, later) || (|later| == |rows| + 1 && later[..|rows|] == rows)
    ensures EntryOk(later, e)
  {
    if !RowsEvolve(rows, later) {
      assert forall i | 0 <= i < |rows| :: later[i] == later[..|rows|][i];
    }
  }

  lemma GrowthKeepsLedgerOk(s: System, t: System, e: Entry)
    requires LedgerOk(s) && t.ledger == s.ledger + [e] && EntryOk(t.rows, e)
    requires forall i | 0 <= i < |s.ledger| :: EntryOk(t.rows, s.ledger[i])
    requires forall id: Id ::
               Present(t.rows, id) == Present(s.rows, id) + if e.kind == Payout(id) then 1 else 0
    requires forall id: Id ::
               Back(t.rows, id) == Back(s.rows, id) + if e.kind == Refund(id) then 1 else 0
    ensures LedgerOk(t)
  {
    hide EntryOk;
    forall kind: Kind
      ensures Count(t.ledger, kind) == Count(s.ledger, kind) + if e.kind == kind then 1 else 0
    {
      CountAppend(s.ledger, e, kind);
    }
  }

  lemma NewEntryIsOk(cfg: Settings, s: System, t: System, ev: Event)
    requires LedgerMoves(s, t, ev) && t.ledger != s.ledger
    requires RowsEvolve(s.rows, t.rows) || (|t.rows| == |s.rows| + 1 && t.rows[..|s.rows|] == s.rows)
    ensures |t.ledger| == |s.ledger| + 1 && t.ledger == s.ledger + [t.ledger[|s.ledger|]]
    ensures
      var e := t.ledger[|s.ledger|];
      && EntryOk(t.rows, e)
      && (forall id: Id ::
            Present(t.rows, id) == Present(s.rows, id) + if e.kind == Payout(id) then 1 else 0)
      && (forall id: Id ::
            Back(t.rows, id) == Back(s.rows, id) + if e.kind == Refund(id) then 1 else 0)
  {
  }

  lemma StepKeepsLedgerOk(cfg: Settings, s: System, ev: Event)
    requires Safe(cfg, s) && LedgerOk(s)
    ensures LedgerOk(Step(cfg, s, ev))
  {
    StepMovesLedger(cfg, s, ev);
    StepEvolves(cfg, s, ev);
    var t := Step(cfg, s, ev);
    hide Step, Safe;
    forall i | 0 <= i < |s.ledger|
      ensures EntryOk(t.rows, s.ledger[i])
    {
      EntriesStayOk(s.rows, t.rows, s.ledger[i]);
    }
    hide EntryOk, RowsEvolve, Evolves;
    if t.ledger != s.ledger {
      var e := t.ledger[|s.ledger|];
      NewEntryIsOk(cfg, s, t, ev);
      GrowthKeepsLedgerOk(s, t, e);
    }
  }

  ghost predicate Sound(cfg: Settings, s: System) { Safe(cfg, s) && LedgerOk(s) }

  lemma {:induction false} RunKeepsSound(cfg: Settings, s: System, evs: seq<Event>)
    requires Sound(cfg, s)
    ensures Sound(cfg, Run(cfg, s, evs))
    decreases |evs|
  {
    hide Step, Safe, LedgerOk;
    if evs != [] {
      StepKeepsSafe(cfg, s, evs[0]);
      StepKeepsLedgerOk(cfg, s, evs[0]);
      RunKeepsSound(cfg, Step(cfg, s, evs[0]), evs[1..]);
    }
  }

  lemma {:induction false} RefundCounts(ledger: seq<Entry>, id: Id)
    ensures HasRefund(ledger, id) <==> Count(ledger, Refund(id)) > 0
  {
    if ledger != [] {
      var init, last := ledger[..|ledger| - 1], ledger[|ledger| - 1];
      RefundCounts(init, id);
      assert HasRefund(ledger, id) <==> HasRefund(init, id) || last.kind == Refund(id) by {
        assert ledger == init + [last];
        assert last.kind == Refund(id) ==> ledger[|init|].kind == Refund(id);
        assert forall i | 0 <= i < |init| :: init[i] == ledger[i];
      }
    }
  }

  /** A refund's unique key is free as long as its row is not refunded. */
  lemma KeyIsFree(cfg: Settings, s: System, id: Id)
    requires Sound(cfg, s) && id < |s.rows| && !s.rows[id].status.Refunded?
    ensures !HasRefund(s.ledger, id)
  {
    RefundCounts(s.ledger, id);
  }

  // ----- One withdrawal in flight, and the daily cap -----

  ghost predicate OneInFlight(rows: seq<Withdrawal>)
  {
    forall i, j | 0 <= i < j < |rows| && rows[i].user == rows[j].user ::
      !(NonTerminal(rows[i].status) && NonTerminal(rows[j].status))
  }

  lemma StepKeepsOneInFlight(cfg: Settings, s: System, ev: Event)
    requires Safe(cfg, s) && OneInFlight(s.rows)
    ensures OneInFlight(Step(cfg, s, ev).rows)
  {
    StepEvolves(cfg, s, ev);
  }

  predicate Kept(r: Withdrawal) { !r.status.Failed? && !r.status.Refunded? }

  /** Each creation saw the rows before it within the cap, looking back from its own instant. */
  ghost predicate CapChecked(cfg: Settings, rows: seq<Withdrawal>)
  {
    forall j | 0 <= j < |rows| && Kept(rows[j]) ::
      Spent(rows[..j], rows[j].user, rows[j].checkedAt - DAY) + rows[j].amount <= cfg.perDay
  }

  /** What the cap counts, row by row: the user's rows stamped at or after `since` that are neither failed nor
      refunded. */
  function CapAmounts(rows: seq<Withdrawal>, u: UserId, since: Time): seq<int>
  {
    seq(|rows|, i requires 0 <= i < |rows| =>
      if rows[i].user == u && since <= rows[i].createdAt && rows[i].status !in {Failed, Refunded}
      then rows[i].amount else 0)
  }

  lemma {:induction false} SpentIsSum(rows: seq<Withdrawal>, u: UserId, since: Time)
    ensures Spent(rows, u, since) == SumOf(CapAmounts(rows, u, since))
  {
    if rows != [] {
      var last := |rows| - 1;
      SpentIsSum(rows[..last], u, since);
      assert CapAmounts(rows, u, since)[..last] == CapAmounts(rows[..last], u, since);
    }
  }

  /** A user's balance is the sum of the user's entries, whatever they are for. */
  lemma {:induction false} BalanceIsSum(ledger: seq<Entry>, u: UserId)
    ensures
      Balance(ledger, u)
      == SumOf(seq(|ledger|, i requires 0 <= i < |ledger| => if ledger[i].user == u then ledger[i].amount else 0))
  {
    if ledger != [] {
      var last := |ledger| - 1;
      BalanceIsSum(ledger[..last], u);
      var amounts := seq(|ledger|, i requires 0 <= i < |ledger| => if ledger[i].user == u then ledger[i].amount else 0);
      assert amounts[..last]
          == seq(last, i requires 0 <= i < last => if ledger[..last][i].user == u then ledger[..last][i].amount else 0);
    }
  }

  lemma {:induction false} SpentShrinks(rows: seq<Withdrawal>, later: seq<Withdrawal>, u: UserId, since: Time)
    requires RowsEvolve(rows, later) && forall i | 0 <= i < |rows| :: !rows[i].status.Failed?
    ensures Spent(later, u, since) <= Spent(rows, u, since)
  {
    if rows == [] {
    } else {
      var last := |rows| - 1;
      assert Evolves(rows[last], later[last]);
      SpentShrinks(rows[..last], later[..last], u, since);
    }
  }

  lemma EvolvingKeepsCapChecked(cfg: Settings, rows: seq<Withdrawal>, later: seq<Withdrawal>)
    requires CapChecked(cfg, rows) && RowsEvolve(rows, later) && forall i | 0 <= i < |rows| :: !rows[i].status.Failed?
    ensures CapChecked(cfg, later)
  {
    forall j | 0 <= j < |later| && Kept(later[j])
      ensures Spent(later[..j], later[j].user, later[j].checkedAt - DAY) + later[j].amount <= cfg.perDay
    {
      assert Evolves(rows[j], later[j]);
      SpentShrinks(rows[..j], later[..j], later[j].user, later[j].checkedAt - DAY);
    }
  }

  lemma CreationKeepsCapChecked(cfg: Settings, rows: seq<Withdrawal>, row: Withdrawal)
    requires CapChecked(cfg, rows) && Spent(rows, row.user, row.checkedAt - DAY) + row.amount <= cfg.perDay
    ensures CapChecked(cfg, rows + [row])
  {
    assert forall j | 0 <= j < |rows| :: (rows + [row])[..j] == rows[..j];
    assert (rows + [row])[..|rows|] == rows;
  }

  lemma StepKeepsCapChecked(cfg: Settings, s: System, ev: Event)
    requires Safe(cfg, s) && CapChecked(cfg, s.rows)
    ensures CapChecked(cfg, Step(cfg, s, ev).rows)
  {
    StepEvolves(cfg, s, ev);
    hide Step;
    if ev.Create? && MayCreate(cfg, s, ev.request) {
      CreationKeepsCapChecked(cfg, s.rows, NewRow(ev.request));
    } else {
      assert forall i | 0 <= i < |s.rows| :: RowOk(cfg, s.mined, s.rows[i]);
      EvolvingKeepsCapChecked(cfg, s.rows, Step(cfg, s, ev).rows);
    }
  }

  /** Withdrawals a user created in a closed window and has not been refunded. */
  function WindowTotal(rows: seq<Withdrawal>, u: UserId, from: Time, to: Time): nat
  {
    if rows == [] then 0
    else
      var last := rows[|rows| - 1];
      WindowTotal(rows[..|rows| - 1], u, from, to)
      + if last.user == u && Kept(last) && from <= last.createdAt <= to then last.amount else 0
  }

  lemma {:induction false} WindowWithinSpent(rows: seq<Withdrawal>, u: UserId, from: Time, to: Time, since: Time)
    requires since <= from
    ensures WindowTotal(rows, u, from, to) <= Spent(rows, u, since)
  {
    if rows == [] {
    } else {
      WindowWithinSpent(rows[..|rows| - 1], u, from, to, since);
    }
  }

  /** Every row was checked no later than `skew` after its `created_at`. */
  ghost predicate SkewWithin(rows: seq<Withdrawal>, skew: nat)
  {
    forall j | 0 <= j < |rows| :: rows[j].checkedAt <= rows[j].createdAt + skew
  }

  lemma {:induction false} CapHoldsInWindow(cfg: Settings, rows: seq<Withdrawal>, u: UserId, from: Time, to: Time,
      skew: nat)
    requires CapChecked(cfg, rows) && SkewWithin(rows, skew) && to - from <= DAY - skew
    ensures WindowTotal(rows, u, from, to) <= cfg.perDay
  {
    if rows == [] {
    } else {
      var last, init := rows[|rows| - 1], rows[..|rows| - 1];
      assert forall j | 0 <= j < |init| :: init[..j] == rows[..j];
      if last.user == u && Kept(last) && from <= last.createdAt <= to {
        WindowWithinSpent(init, u, from, to, last.checkedAt - DAY);
      } else {
        CapHoldsInWindow(cfg, init, u, from, to, skew);
      }
    }
  }

  lemma {:induction false} OldRowsAreFree(rows: seq<Withdrawal>, u: UserId, since: Time)
    requires forall i | 0 <= i < |rows| && rows[i].user == u :: rows[i].createdAt < since
    ensures Spent(rows, u, since) == 0
  {
    if rows != [] {
      OldRowsAreFree(rows[..|rows| - 1], u, since);
    }
  }

  /** The skew is what it costs. Rows stamped more than a day before the instant of the check, however many and
      however large, do not count against a creation; a window that holds them and its stamp holds both totals. */
  lemma CapFailsBeyondWindow(cfg: Settings, s: System, q: Request, from: Time, to: Time)
    requires !HasInFlight(s.rows, q.user) && from <= q.stamp <= to
    requires forall i | 0 <= i < |s.rows| && s.rows[i].user == q.user :: s.rows[i].createdAt < q.now - DAY
    requires 0 < q.amount <= cfg.perDay && cfg.minAmount <= q.amount <= cfg.maxAmount
    requires q.fee < q.amount && !q.blocked && (q.hot == 0 || q.amount - q.fee <= q.hot)
    requires q.amount <= Balance(s.ledger, q.user)
    ensures
      var t := Step(cfg, s, Create(q));
      WindowTotal(t.rows, q.user, from, to) == WindowTotal(s.rows, q.user, from, to) + q.amount
  {
    OldRowsAreFree(s.rows, q.user, q.now - DAY);
    assert MayCreate(cfg, s, q);
    var t := Step(cfg, s, Create(q));
    assert t.rows == s.rows + [NewRow(q)];
    hide Step, MayCreate, Spent;
    assert t.rows[..|s.rows|] == s.rows;
  }

  // ----- What users take out -----

  /** Payouts minus refunds of a user. */
  function TakenOut(ledger: seq<Entry>, u: UserId): int
  {
    if ledger == [] then 0
    else
      var last := ledger[|ledger| - 1];
      TakenOut(ledger[..|ledger| - 1], u) - if last.user == u && !last.kind.Other? then last.amount else 0
  }

  /** Credits ever posted to a user, other than refunds. */
  function Credited(ledger: seq<Entry>, u: UserId): nat
  {
    if ledger == [] then 0
    else
      var last := ledger[|ledger| - 1];
      Credited(ledger[..|ledger| - 1], u)
      + if last.user == u && last.kind.Other? && last.amount > 0 then last.amount else 0
  }

  lemma {:induction false} BalanceSplits(ledger: seq<Entry>, u: UserId)
    ensures Balance(ledger, u) + TakenOut(ledger, u) <= Credited(ledger, u)
  {
    if ledger == [] {
    } else {
      BalanceSplits(ledger[..|ledger| - 1], u);
    }
  }

  lemma AppendEntry(ledger: seq<Entry>, e: Entry, u: UserId)
    ensures TakenOut(ledger + [e], u) == TakenOut(ledger, u) - if e.user == u && !e.kind.Other? then e.amount else 0
    ensures Credited(ledger + [e], u)
            == Credited(ledger, u) + if e.user == u && e.kind.Other? && e.amount > 0 then e.amount else 0
  {
    assert (ledger + [e])[..|ledger|] == ledger;
  }

  /** Amounts of a user's withdrawals that were not refunded, row by row. */
  function KeptAmounts(rows: seq<Withdrawal>, u: UserId): (r: seq<int>)
    ensures |r| == |rows|
    ensures forall i | 0 <= i < |r| ::
              r[i] == if rows[i].user == u && !rows[i].status.Refunded? then rows[i].amount else 0
  {
    seq(|rows|, i requires 0 <= i < |rows| =>
      if rows[i].user == u && !rows[i].status.Refunded? then rows[i].amount else 0)
  }

  ghost predicate UserOk(s: System, u: UserId)
  {
    && TakenOut(s.ledger, u) == SumOf(KeptAmounts(s.rows, u))
    && TakenOut(s.ledger, u) <= Credited(s.ledger, u)
  }

  lemma CreateKeepsUserOk(s: System, t: System, q: Request, u: UserId)
    requires UserOk(s, u) && q.fee < q.amount && q.amount <= Balance(s.ledger, q.user)
    requires t.rows == s.rows + [NewRow(q)]
    requires t.ledger == s.ledger + [Entry(q.user, -(q.amount as int), Payout(|s.rows|))]
    ensures UserOk(t, u)
  {
    BalanceSplits(s.ledger, u);
    AppendEntry(s.ledger, Entry(q.user, -(q.amount as int), Payout(|s.rows|)), u);
    assert KeptAmounts(t.rows, u) == KeptAmounts(s.rows, u) + [if q.user == u then q.amount as int else 0];
    SumAppend(KeptAmounts(s.rows, u), if q.user == u then q.amount as int else 0);
  }

  lemma RefundKeepsUserOk(s: System, t: System, id: Id, u: UserId)
    requires UserOk(s, u) && id < |s.rows| && RefundMoves(s, t, id) && RowsEvolve(s.rows, t.rows)
    ensures UserOk(t, u)
  {
    AppendEntry(s.ledger, Entry(s.rows[id].user, s.rows[id].amount, Refund(id)), u);
    forall i | 0 <= i < |s.rows|
      ensures KeptAmounts(t.rows, u)[i] == KeptAmounts(s.rows, u)[id := 0][i]
    {
      assert Evolves(s.rows[i], t.rows[i]);
    }
    assert KeptAmounts(t.rows, u) == KeptAmounts(s.rows, u)[id := 0];
    SumUpdate(KeptAmounts(s.rows, u), id, 0);
  }

  lemma StepKeepsUserOk(cfg: Settings, s: System, ev: Event, u: UserId)
    requires Safe(cfg, s) && UserOk(s, u)
    ensures UserOk(Step(cfg, s, ev), u)
  {
    StepMovesLedger(cfg, s, ev);
    StepEvolves(cfg, s, ev);
    var t := Step(cfg, s, ev);
    assert ev.Create? && t.ledger != s.ledger ==> ev.request.amount <= Balance(s.ledger, ev.request.user);
    hide Step;
    if t.ledger == s.ledger {
      assert RowsEvolve(s.rows, t.rows);
      assert forall i | 0 <= i < |s.rows| :: Evolves(s.rows[i], t.rows[i]);
      assert KeptAmounts(t.rows, u) == KeptAmounts(s.rows, u);
    } else if ev.Post? {
      AppendEntry(s.ledger, Entry(ev.user, ev.amount, Other), u);
    } else if ev.Create? {
      CreateKeepsUserOk(s, t, ev.request, u);
    } else {
      var id :| 0 <= id < |s.rows| && RefundMoves(s, t, id);
      RefundKeepsUserOk(s, t, id, u);
    }
  }

  // ----- What the hot wallet sends -----

  /** Units the withdrawal's own transaction moved, counted for the withdrawal that sent it first. */
  function Moved(r: Withdrawal, id: Id, payer: map<Tx, Id>, mined: map<nat, Receipt>): nat
  {
    if r.hash.Some? && r.hash.value in payer && payer[r.hash.value] == id
       && ReceiptOf(mined, r.hash.value) == Some(true)
    then r.hash.value.units else 0
  }

  function MovedByRow(s: System): (r: seq<int>)
    ensures |r| == |s.rows|
    ensures forall i | 0 <= i < |r| :: r[i] == Moved(s.rows[i], i, s.payer, s.mined)
  {
    seq(|s.rows|, i requires 0 <= i < |s.rows| => Moved(s.rows[i], i, s.payer, s.mined))
  }

  ghost predicate TransfersOk(s: System) { s.transferred == SumOf(MovedByRow(s)) }

  lemma MineKeepsTransfersOk(cfg: Settings, s: System, tx: Tx, success: bool)
    requires Safe(cfg, s) && TransfersOk(s)
    ensures TransfersOk(Step(cfg, s, Mine(tx, success)))
  {
    if tx in s.payer && tx.nonce !in s.mined {
      var t, id := Step(cfg, s, Mine(tx, success)), s.payer[tx];
      forall i | 0 <= i < |s.rows| && i != id
        ensures Moved(t.rows[i], i, t.payer, t.mined) == Moved(s.rows[i], i, s.payer, s.mined)
      {
      }
      assert MovedByRow(t) == MovedByRow(s)[id := if success then tx.units else 0];
      SumUpdate(MovedByRow(s), id, if success then tx.units else 0);
    }
  }

  lemma CreateKeepsTransfersOk(cfg: Settings, s: System, q: Request)
    requires Safe(cfg, s) && TransfersOk(s)
    ensures TransfersOk(Step(cfg, s, Create(q)))
  {
    if MayCreate(cfg, s, q) {
      assert MovedByRow(Step(cfg, s, Create(q))) == MovedByRow(s) + [0];
      SumAppend(MovedByRow(s), 0);
    }
  }

  ghost predicate SameMoved(s: System, t: System)
  {
    && |t.rows| == |s.rows| && t.transferred == s.transferred
    && forall i | 0 <= i < |s.rows| :: Moved(t.rows[i], i, t.payer, t.mined) == Moved(s.rows[i], i, s.payer, s.mined)
  }

  lemma PersistKeepsMoved(cfg: Settings, s: System, now: Time, commit: Commit)
    requires Safe(cfg, s) && s.phase.Signed?
    ensures SameMoved(s, PersistHead(s, now, commit))
  {
    assert RowOk(cfg, s.mined, s.rows[s.phase.queue[0]]);
  }

  lemma BroadcastKeepsMoved(cfg: Settings, s: System, reached: bool)
    requires Safe(cfg, s) && s.phase.Persisted?
    ensures SameMoved(s, BroadcastHead(s, reached))
  {
    assert s.phase.tx !in s.payer ==> ReceiptOf(s.mined, s.phase.tx).None?;
  }

  lemma StepKeepsHashes(cfg: Settings, s: System, ev: Event)
    requires !ev.Mine? && !ev.Create? && !(ev.Persist? && s.phase.Signed?) && !(ev.Broadcast? && s.phase.Persisted?)
    ensures var t := Step(cfg, s, ev);
      && t.payer == s.payer && t.mined == s.mined && t.transferred == s.transferred && |t.rows| == |s.rows|
      && forall i | 0 <= i < |s.rows| :: t.rows[i].hash == s.rows[i].hash
  {
  }

  /** Outside mining and creation, only storing a hash and sending touch what a row can have moved, and both
      leave it. */
  lemma StepKeepsMoved(cfg: Settings, s: System, ev: Event)
    requires Safe(cfg, s) && !ev.Mine? && !ev.Create?
    ensures SameMoved(s, Step(cfg, s, ev))
  {
    if ev.Persist? && s.phase.Signed? {
      PersistKeepsMoved(cfg, s, ev.now, ev.commit);
    } else if ev.Broadcast? && s.phase.Persisted? {
      BroadcastKeepsMoved(cfg, s, ev.reached);
    } else {
      StepKeepsHashes(cfg, s, ev);
      hide Step;
    }
  }

  lemma StepKeepsTransfersOk(cfg: Settings, s: System, ev: Event)
    requires Safe(cfg, s) && TransfersOk(s)
    ensures TransfersOk(Step(cfg, s, ev))
  {
    hide Step, Safe;
    match ev
    case Mine(tx, success) => MineKeepsTransfersOk(cfg, s, tx, success);
    case Create(q) => CreateKeepsTransfersOk(cfg, s, q);
    case _ =>
      StepKeepsMoved(cfg, s, ev);
      assert MovedByRow(Step(cfg, s, ev)) == MovedByRow(s);
  }

  /** Net amounts of the withdrawals that were not refunded, row by row. */
  function KeptNets(rows: seq<Withdrawal>): (r: seq<int>)
    ensures |r| == |rows|
    ensures forall i | 0 <= i < |r| :: r[i] == if rows[i].status.Refunded? then 0 else rows[i].net
  {
    seq(|rows|, i requires 0 <= i < |rows| => if rows[i].status.Refunded? then 0 else rows[i].net)
  }

  lemma {:induction false} UnitsWithinNets(units: seq<int>, nets: seq<int>, scale: nat)
    requires |units| == |nets| && forall i | 0 <= i < |units| :: units[i] * USD <= nets[i] * scale
    ensures SumOf(units) * USD <= SumOf(nets) * scale
  {
    if units == [] {
    } else {
      var last := |units| - 1;
      UnitsWithinNets(units[..last], nets[..last], scale);
      assert (SumOf(nets[..last]) + nets[last]) * scale == SumOf(nets[..last]) * scale + nets[last] * scale;
    }
  }

  lemma UnitsFloor(cfg: Settings, net: nat)
    ensures Units(cfg, net) * USD <= net * cfg.scale
  {
  }

  /** The hot wallet never sends more than the net amounts of the withdrawals that were not refunded. */
  lemma SolventWhen(cfg: Settings, s: System)
    requires Safe(cfg, s) && TransfersOk(s)
    ensures s.transferred * USD <= SumOf(KeptNets(s.rows)) * cfg.scale
  {
    var units, nets := MovedByRow(s), KeptNets(s.rows);
    forall i | 0 <= i < |units|
      ensures units[i] * USD <= nets[i] * cfg.scale
    {
      assert RowOk(cfg, s.mined, s.rows[i]);
      UnitsFloor(cfg, s.rows[i].net);
    }
    UnitsWithinNets(units, nets, cfg.scale);
  }

  // ----- All of it, in every reachable state -----

  ghost predicate BooksOk(cfg: Settings, s: System, u: UserId)
  {
    && Safe(cfg, s) && LedgerOk(s) && OneInFlight(s.rows) && CapChecked(cfg, s.rows) && UserOk(s, u) && TransfersOk(s)
  }

  lemma {:induction false} RunKeepsBooks(cfg: Settings, s: System, evs: seq<Event>, u: UserId)
    requires BooksOk(cfg, s, u)
    ensures BooksOk(cfg, Run(cfg, s, evs), u)
    decreases |evs|
  {
    hide Step, Safe, LedgerOk, OneInFlight, CapChecked, UserOk, TransfersOk;
    if evs == [] {
    } else {
      StepKeepsSafe(cfg, s, evs[0]);
      StepKeepsLedgerOk(cfg, s, evs[0]);
      StepKeepsOneInFlight(cfg, s, evs[0]);
      StepKeepsCapChecked(cfg, s, evs[0]);
      StepKeepsUserOk(cfg, s, evs[0], u);
      StepKeepsTransfersOk(cfg, s, evs[0]);
      RunKeepsBooks(cfg, Step(cfg, s, evs[0]), evs[1..], u);
    }
  }

  lemma InitialBooks(cfg: Settings, u: UserId)
    ensures BooksOk(cfg, INITIAL, u)
  {
    assert KeptAmounts([], u) == [] && MovedByRow(INITIAL) == [];
  }

  /** Every withdrawal has exactly one payout row of minus its amount, exactly one refund row of plus its
      amount if it is refunded and none otherwise, and `failed` is never stored. */
  lemma LedgerAgrees(cfg: Settings, evs: seq<Event>, id: Id)
    ensures
      var s := Run(cfg, INITIAL, evs);
      id < |s.rows| ==>
        && Count(s.ledger, Payout(id)) == 1
        && Count(s.ledger, Refund(id)) == (if s.rows[id].status.Refunded? then 1 else 0)
        && !s.rows[id].status.Failed?
        && (forall i | 0 <= i < |s.ledger| && s.ledger[i].kind == Payout(id) ::
              s.ledger[i] == Entry(s.rows[id].user, -(s.rows[id].amount as int), Payout(id)))
        && (forall i | 0 <= i < |s.ledger| && s.ledger[i].kind == Refund(id) ::
              s.ledger[i] == Entry(s.rows[id].user, s.rows[id].amount, Refund(id)))
  {
    InitialBooks(cfg, 0);
    RunKeepsBooks(cfg, INITIAL, evs, 0);
    var s := Run(cfg, INITIAL, evs);
    assert forall i | 0 <= i < |s.ledger| :: EntryOk(s.rows, s.ledger[i]);
  }

  /** A user has at most one withdrawal that is not finished. */
  lemma AtMostOneInFlight(cfg: Settings, evs: seq<Event>, i: nat, j: nat)
    ensures
      var s := Run(cfg, INITIAL, evs);
      (i < |s.rows| && j < |s.rows| && s.rows[i].user == s.rows[j].user
       && NonTerminal(s.rows[i].status) && NonTerminal(s.rows[j].status)) ==> i == j
  {
    InitialBooks(cfg, 0);
    RunKeepsBooks(cfg, INITIAL, evs, 0);
  }

  /** In no window of a day, less the skew between a row's stamp and its check, do a user's kept withdrawals pass the
      cap. */
  lemma DailyCap(cfg: Settings, evs: seq<Event>, u: UserId, from: Time, to: Time, skew: nat)
    requires SkewWithin(Run(cfg, INITIAL, evs).rows, skew) && to - from <= DAY - skew
    ensures WindowTotal(Run(cfg, INITIAL, evs).rows, u, from, to) <= cfg.perDay
  {
    InitialBooks(cfg, 0);
    RunKeepsBooks(cfg, INITIAL, evs, 0);
    CapHoldsInWindow(cfg, Run(cfg, INITIAL, evs).rows, u, from, to, skew);
  }

  /** A user's payouts less refunds are exactly the withdrawals kept, and never exceed the credits ever posted. */
  lemma TakenOutWithinCredits(cfg: Settings, evs: seq<Event>, u: UserId)
    ensures
      var s := Run(cfg, INITIAL, evs);
      SumOf(KeptAmounts(s.rows, u)) == TakenOut(s.ledger, u) <= Credited(s.ledger, u)
  {
    InitialBooks(cfg, u);
    RunKeepsBooks(cfg, INITIAL, evs, u);
  }

  /** Successful transfers, in token units, never exceed the net amounts of the withdrawals not refunded. */
  lemma HotWalletSolvent(cfg: Settings, evs: seq<Event>)
    ensures
      var s := Run(cfg, INITIAL, evs);
      s.transferred * USD <= SumOf(KeptNets(s.rows)) * cfg.scale
  {
    InitialBooks(cfg, 0);
    RunKeepsBooks(cfg, INITIAL, evs, 0);
    SolventWhen(cfg, Run(cfg, INITIAL, evs));
  }
}
