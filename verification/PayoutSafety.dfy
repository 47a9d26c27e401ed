/** What no crash, lost commit or unanswered call can break: a withdrawal is sent at most once, only
    after its hash is stored, and a refunded one never moves money on the chain. */
module PayoutSafety {
  import opened Common
  import opened Withdrawals

  predicate Unsent(st: Status) { st.Pending? || st.Submitting? }

  /** A row's status agrees with its hash and with the chain. */
  predicate RowOk(cfg: Settings, mined: map<nat, Receipt>, r: Withdrawal)
  {
    && r.net <= r.amount
    && !r.status.Failed?
    && (Unsent(r.status) ==> r.hash.None?)
    && (r.status.Submitted? || r.status.Confirmed? ==> r.hash.Some?)
    && (r.hash.Some? ==> r.hash.value.to == r.to && r.hash.value.units == Units(cfg, r.net))
    && (r.status.Confirmed? ==> ReceiptOf(mined, r.hash.value) == Some(true))
    && (r.status.Refunded? && r.hash.Some? ==> ReceiptOf(mined, r.hash.value) == Some(false))
  }

  ghost predicate RowsOk(cfg: Settings, s: System)
  {
    forall id | 0 <= id < |s.rows| :: RowOk(cfg, s.mined, s.rows[id])
  }

  /** Everything sent is the stored hash of its withdrawal, and no withdrawal is sent twice. */
  ghost predicate SendsOk(s: System)
  {
    && (forall j | 0 <= j < |s.sent| ::
          && s.sent[j].id < |s.rows| && s.rows[s.sent[j].id].hash == Some(s.sent[j].tx)
          && s.sent[j].tx in s.payer)
    && (forall i, j | 0 <= i < j < |s.sent| :: s.sent[i].id != s.sent[j].id)
    && (forall tx | tx in s.payer :: s.payer[tx] < |s.rows| && s.rows[s.payer[tx]].hash == Some(tx))
    && (forall n | n in s.mined :: s.mined[n].tx.nonce == n && s.mined[n].tx in s.payer)
  }

  predicate DistinctIds(ids: seq<Id>) { forall i, j | 0 <= i < j < |ids| :: ids[i] != ids[j] }

  ghost predicate AllWith(rows: seq<Withdrawal>, ids: seq<Id>, st: Status)
  {
    forall i | 0 <= i < |ids| :: ids[i] < |rows| && rows[ids[i]].status == st
  }

  ghost predicate PhaseOk(cfg: Settings, s: System)
  {
    match s.phase
    case Submit(q) => DistinctIds(q) && AllWith(s.rows, q, Submitting)
    case Signed(q, tx) =>
      && q != [] && DistinctIds(q) && AllWith(s.rows, q, Submitting)
      && tx.to == s.rows[q[0]].to && tx.units == Units(cfg, s.rows[q[0]].net)
    case Persisted(q, tx) =>
      && q != [] && DistinctIds(q) && AllWith(s.rows, q[1..], Submitting)
      && q[0] < |s.rows| && s.rows[q[0]].status.Submitted? && s.rows[q[0]].hash == Some(tx)
      && (forall j | 0 <= j < |s.sent| :: s.sent[j].id != q[0])
    case Confirm(q) => DistinctIds(q) && AllWith(s.rows, q, Submitted)
    case _ => true
  }

  ghost predicate Safe(cfg: Settings, s: System) { RowsOk(cfg, s) && SendsOk(s) && PhaseOk(cfg, s) }

  lemma TakeIsPrefix(rows: seq<Withdrawal>, st: Status, n: nat)
    ensures var ids := Take(IdsWith(rows, st), n); DistinctIds(ids) && AllWith(rows, ids, st)
  {
    var all := IdsWith(rows, st);
    assert forall i | 0 <= i < |all| :: all[i] in all;
  }

  /** Stored hashes that stay put keep the sends in order. */
  lemma HashesKeepSends(s: System, t: System)
    requires SendsOk(s) && t.sent == s.sent && t.payer == s.payer && t.mined == s.mined
    requires |s.rows| <= |t.rows|
    requires forall i | 0 <= i < |s.rows| && s.rows[i].hash.Some? :: t.rows[i].hash == s.rows[i].hash
    ensures SendsOk(t)
  {
  }

  lemma MineKeepsSafe(cfg: Settings, s: System, tx: Tx, success: bool)
    requires Safe(cfg, s)
    ensures Safe(cfg, Step(cfg, s, Mine(tx, success)))
  {
    var t := Step(cfg, s, Mine(tx, success));
    forall id | 0 <= id < |t.rows|
      ensures RowOk(cfg, t.mined, t.rows[id])
    {
      assert RowOk(cfg, s.mined, s.rows[id]);
    }
    assert SendsOk(t);
  }

  lemma CreateKeepsSafe(cfg: Settings, s: System, q: Request)
    requires Safe(cfg, s)
    ensures Safe(cfg, Step(cfg, s, Create(q)))
  {
    var t := Step(cfg, s, Create(q));
    if MayCreate(cfg, s, q) {
      assert t.rows == s.rows + [NewRow(q)] && RowOk(cfg, s.mined, NewRow(q));
      assert t == s.(rows := t.rows, ledger := t.ledger);
      hide Step, MayCreate, RowOk;
      HashesKeepSends(s, t);
      assert RowsOk(cfg, t);
      assert PhaseOk(cfg, t);
    }
  }

  lemma RecoverKeepsSafe(cfg: Settings, s: System, now: Time, commit: Commit)
    requires Safe(cfg, s)
    ensures Safe(cfg, Step(cfg, s, Recover(now, commit)))
  {
    var t := Step(cfg, s, Recover(now, commit));
    if s.phase.Idle? {
      assert t == s.(rows := t.rows, phase := t.phase) && (t.phase.Idle? || t.phase.Recovered?);
      assert t.rows == s.rows || t.rows == RecoverRows(cfg, s.rows, now);
      hide Step;
      forall id | 0 <= id < |t.rows|
        ensures RowOk(cfg, t.mined, t.rows[id]) && t.rows[id].hash == s.rows[id].hash
      {
        assert RowOk(cfg, s.mined, s.rows[id]);
      }
      HashesKeepSends(s, t);
    }
  }

  lemma ClaimStep(cfg: Settings, s: System, now: Time, commit: Commit)
    requires s.phase.Recovered?
    ensures var ids := Take(IdsWith(s.rows, Pending), CLAIM_LIMIT);
      Step(cfg, s, Claim(now, commit)) ==
        s.(rows := if commit.RolledBack? then s.rows else SetStatus(s.rows, ids, Submitting, now),
           phase := if commit.Done? then Submit(ids) else Idle)
  {
  }

  lemma SelectStep(cfg: Settings, s: System)
    requires s.phase == Submit([])
    ensures Step(cfg, s, SelectSubmitted) == s.(phase := Confirm(Take(IdsWith(s.rows, Submitted), CONFIRM_LIMIT)))
  {
    hide IdsWith, Take;
  }

  lemma ClaimKeepsSafe(cfg: Settings, s: System, now: Time, commit: Commit)
    requires Safe(cfg, s)
    ensures Safe(cfg, Step(cfg, s, Claim(now, commit)))
  {
    var t := Step(cfg, s, Claim(now, commit));
    if s.phase.Recovered? {
      var ids := Take(IdsWith(s.rows, Pending), CLAIM_LIMIT);
      TakeIsPrefix(s.rows, Pending, CLAIM_LIMIT);
      forall id | 0 <= id < |t.rows|
        ensures RowOk(cfg, t.mined, t.rows[id]) && t.rows[id].hash == s.rows[id].hash
      {
        assert id in ids ==> s.rows[id].status.Pending?;
      }
      HashesKeepSends(s, t);
      assert AllWith(SetStatus(s.rows, ids, Submitting, now), ids, Submitting) by {
        assert forall i | 0 <= i < |ids| :: ids[i] in ids;
      }
    }
  }

  /** One row outside the queue may change, as long as its hash stays and it agrees with the chain. */
  lemma RowReplaced(cfg: Settings, s: System, t: System, id: Id, r: Withdrawal)
    requires Safe(cfg, s) && id < |s.rows| && (s.phase.Submit? || s.phase.Confirm?) && id !in s.phase.queue
    requires t == s.(rows := s.rows[id := r], ledger := t.ledger, phase := t.phase)
    requires t.phase == s.phase || t.phase.Idle?
    requires r.hash == s.rows[id].hash && RowOk(cfg, s.mined, r)
    ensures Safe(cfg, t)
  {
    assert RowsOk(cfg, t) by {
      hide RowOk;
    }
    hide RowOk;
    HashesKeepSends(s, t);
    assert PhaseOk(cfg, t);
  }

  /** A refund of an unsent row, or of one whose transaction reverted, agrees with the chain. */
  lemma RefundKeepsSafe(cfg: Settings, s: System, id: Id, now: Time, commit: Commit)
    requires Safe(cfg, s) && id < |s.rows|
    requires s.rows[id].hash.None? || ReceiptOf(s.mined, s.rows[id].hash.value) == Some(false)
    requires s.phase.Submit? || s.phase.Confirm?
    requires id !in s.phase.queue
    ensures Safe(cfg, RefundRow(s, id, now, commit))
  {
    assert RowOk(cfg, s.mined, s.rows[id]);
    var t, r := RefundRow(s, id, now, commit), s.rows[id].(status := Refunded, updatedAt := now);
    if t.rows != s.rows {
      assert RowOk(cfg, s.mined, r);
      hide Safe, RowOk;
      RowReplaced(cfg, s, t, id, r);
    }
  }

  lemma TailOfQueue(q: seq<Id>)
    requires q != [] && DistinctIds(q)
    ensures DistinctIds(q[1..]) && q[0] !in q[1..]
  {
  }

  lemma SignKeepsSafe(cfg: Settings, s: System, signing: Signing, now: Time)
    requires Safe(cfg, s)
    ensures Safe(cfg, Step(cfg, s, Sign(signing, now)))
  {
    if s.phase.Submit? && s.phase.queue != [] {
      var q := s.phase.queue;
      TailOfQueue(q);
      match signing
      case SignFailed(commit) => RefundKeepsSafe(cfg, s.(phase := Submit(q[1..])), q[0], now, commit);
      case SignedWith(_, _) =>
    }
  }

  lemma PersistKeepsSafe(cfg: Settings, s: System, now: Time, commit: Commit)
    requires Safe(cfg, s)
    ensures Safe(cfg, Step(cfg, s, Persist(now, commit)))
  {
    var t := Step(cfg, s, Persist(now, commit));
    if s.phase.Signed? {
      var head := s.phase.queue[0];
      TailOfQueue(s.phase.queue);
      assert RowOk(cfg, s.mined, s.rows[head]);
      assert forall i | 0 <= i < |s.rows| && i != head :: t.rows[i] == s.rows[i];
      HashesKeepSends(s, t);
    }
  }

  lemma BroadcastKeepsSafe(cfg: Settings, s: System, reached: bool)
    requires Safe(cfg, s)
    ensures Safe(cfg, Step(cfg, s, Broadcast(reached)))
  {
    if s.phase.Persisted? {
      TailOfQueue(s.phase.queue);
    }
  }

  lemma ConfirmKeepsSafe(cfg: Settings, s: System, id: Id, now: Time, commit: Commit)
    requires Safe(cfg, s) && id < |s.rows| && s.rows[id].status.Submitted?
    requires s.rows[id].hash.Some? && ReceiptOf(s.mined, s.rows[id].hash.value) == Some(true)
    requires s.phase.Confirm? && id !in s.phase.queue
    ensures Safe(cfg, ConfirmRow(s, id, now, commit))
  {
    assert RowOk(cfg, s.mined, s.rows[id]);
    var t, r := ConfirmRow(s, id, now, commit), s.rows[id].(status := Confirmed, updatedAt := now);
    if t.rows != s.rows {
      assert RowOk(cfg, s.mined, r);
      hide Safe, RowOk;
      RowReplaced(cfg, s, t, id, r);
    }
  }

  lemma TailKeepsSafe(cfg: Settings, s: System)
    requires Safe(cfg, s) && s.phase.Confirm? && s.phase.queue != []
    ensures Safe(cfg, s.(phase := Confirm(s.phase.queue[1..]))) && s.phase.queue[0] !in s.phase.queue[1..]
    ensures s.phase.queue[0] < |s.rows| && s.rows[s.phase.queue[0]].status.Submitted?
    ensures s.rows[s.phase.queue[0]].hash.Some?
  {
    TailOfQueue(s.phase.queue);
    assert RowOk(cfg, s.mined, s.rows[s.phase.queue[0]]);
  }

  lemma CheckHeadKeepsSafe(cfg: Settings, s: System, answered: bool, now: Time, commit: Commit)
    requires Safe(cfg, s) && s.phase.Confirm? && s.phase.queue != []
    ensures Safe(cfg, CheckHead(s, answered, now, commit))
  {
    TailKeepsSafe(cfg, s);
    hide Safe, RefundRow, ConfirmRow;
    var q := s.phase.queue;
    var r, rest := s.rows[q[0]], s.(phase := Confirm(q[1..]));
    if answered && ReceiptOf(s.mined, r.hash.value) == Some(false) {
      RefundKeepsSafe(cfg, rest, q[0], now, commit);
    } else if answered && ReceiptOf(s.mined, r.hash.value) == Some(true) {
      ConfirmKeepsSafe(cfg, rest, q[0], now, commit);
    }
  }

  lemma CheckKeepsSafe(cfg: Settings, s: System, answered: bool, now: Time, commit: Commit)
    requires Safe(cfg, s)
    ensures Safe(cfg, Step(cfg, s, Check(answered, now, commit)))
  {
    if s.phase.Confirm? && s.phase.queue != [] {
      CheckHeadKeepsSafe(cfg, s, answered, now, commit);
      hide Safe;
    }
  }

  lemma StepKeepsSafe(cfg: Settings, s: System, ev: Event)
    requires Safe(cfg, s)
    ensures Safe(cfg, Step(cfg, s, ev))
  {
    match ev
    case Recover(now, commit) => RecoverKeepsSafe(cfg, s, now, commit);
    case Claim(now, commit) => ClaimKeepsSafe(cfg, s, now, commit);
    case Sign(signing, now) => SignKeepsSafe(cfg, s, signing, now);
    case Persist(now, commit) => PersistKeepsSafe(cfg, s, now, commit);
    case Broadcast(reached) => BroadcastKeepsSafe(cfg, s, reached);
    case SelectSubmitted => TakeIsPrefix(s.rows, Submitted, CONFIRM_LIMIT);
    case Check(answered, now, commit) => CheckKeepsSafe(cfg, s, answered, now, commit);
    case Mine(tx, success) => MineKeepsSafe(cfg, s, tx, success);
    case Create(q) => CreateKeepsSafe(cfg, s, q);
    case _ =>
  }

  lemma {:induction false} RunKeepsSafe(cfg: Settings, s: System, evs: seq<Event>)
    requires Safe(cfg, s)
    ensures Safe(cfg, Run(cfg, s, evs))
    decreases |evs|
  {
    hide Step;
    if evs == [] {
    } else {
      StepKeepsSafe(cfg, s, evs[0]);
      RunKeepsSafe(cfg, Step(cfg, s, evs[0]), evs[1..]);
    }
  }

  lemma InitialIsSafe(cfg: Settings)
    ensures Safe(cfg, INITIAL)
  {
  }

  /** In every reachable state a withdrawal has been broadcast at most once, and only as the hash its row stores. */
  lemma BroadcastAtMostOnce(cfg: Settings, evs: seq<Event>, i: nat, j: nat)
    ensures var s := Run(cfg, INITIAL, evs);
      i < |s.sent| && j < |s.sent| && s.sent[i].id == s.sent[j].id ==> i == j
    ensures var s := Run(cfg, INITIAL, evs);
      i < |s.sent| ==> s.sent[i].id < |s.rows| && s.rows[s.sent[i].id].hash == Some(s.sent[i].tx)
                       && !Unsent(s.rows[s.sent[i].id].status)
  {
    InitialIsSafe(cfg);
    RunKeepsSafe(cfg, INITIAL, evs);
  }

  /** When a transaction reaches the network, its hash and `submitted` were already stored. */
  lemma StoredBeforeBroadcast(cfg: Settings, evs: seq<Event>, reached: bool)
    ensures
      var s := Run(cfg, INITIAL, evs);
      var t := Step(cfg, s, Broadcast(reached));
      t.sent != s.sent ==>
        && |t.sent| == |s.sent| + 1
        && var send := t.sent[|s.sent|];
           send.id < |s.rows| && s.rows[send.id].status.Submitted? && s.rows[send.id].hash == Some(send.tx)
  {
    InitialIsSafe(cfg);
    RunKeepsSafe(cfg, INITIAL, evs);
  }

  /** Recovery returns to `pending` exactly the rows that sat in `submitting` since before the cutoff, and touches
      nothing else. Such a row stores no hash and was never sent, so submitting it again cannot pay twice. */
  lemma RecoveredWasNeverSent(cfg: Settings, evs: seq<Event>, now: Time, commit: Commit, id: Id)
    requires id < |Run(cfg, INITIAL, evs).rows|
    ensures
      var s := Run(cfg, INITIAL, evs);
      var t, r := Step(cfg, s, Recover(now, commit)), s.rows[id];
      && t.sent == s.sent && t.ledger == s.ledger && |t.rows| == |s.rows|
      && if s.phase.Idle? && commit != RolledBack && r.status == Submitting && r.updatedAt < now - cfg.recoverAfter then
           && t.rows[id] == r.(status := Pending, updatedAt := now) && t.rows[id].hash.None?
           && forall j | 0 <= j < |s.sent| :: s.sent[j].id != id
         else t.rows[id] == r
  {
    InitialIsSafe(cfg);
    RunKeepsSafe(cfg, INITIAL, evs);
    assert RowOk(cfg, Run(cfg, INITIAL, evs).mined, Run(cfg, INITIAL, evs).rows[id]);
  }

  // ----- Refunded withdrawals -----

  /** Refunds and receipts are final, and so is the hash of a refunded row. */
  lemma ClaimKeepsRefunded(cfg: Settings, s: System, now: Time, commit: Commit, id: Id)
    requires id < |s.rows| && s.rows[id].status.Refunded?
    ensures var t := Step(cfg, s, Claim(now, commit)); id < |t.rows| && t.rows[id] == s.rows[id]
  {
    TakeIsPrefix(s.rows, Pending, CLAIM_LIMIT);
    assert forall i :: i in Take(IdsWith(s.rows, Pending), CLAIM_LIMIT) ==> i in IdsWith(s.rows, Pending);
  }

  lemma StepKeepsRefunded(cfg: Settings, s: System, ev: Event, id: Id)
    requires Safe(cfg, s) && id < |s.rows| && s.rows[id].status.Refunded?
    ensures var t := Step(cfg, s, ev); id < |t.rows| && t.rows[id] == s.rows[id]
  {
    if ev.Claim? {
      ClaimKeepsRefunded(cfg, s, ev.now, ev.commit, id);
    } else {
      hide IdsWith, Take, MayCreate;
      assert RowOk(cfg, s.mined, s.rows[id]);
    }
  }

  lemma {:induction false} RunKeepsRefunded(cfg: Settings, s: System, evs: seq<Event>, id: Id)
    requires Safe(cfg, s) && id < |s.rows| && s.rows[id].status.Refunded?
    ensures var t := Run(cfg, s, evs); id < |t.rows| && t.rows[id] == s.rows[id]
    decreases |evs|
  {
    hide Step;
    if evs == [] {
    } else {
      StepKeepsSafe(cfg, s, evs[0]);
      StepKeepsRefunded(cfg, s, evs[0], id);
      RunKeepsRefunded(cfg, Step(cfg, s, evs[0]), evs[1..], id);
    }
  }

  /** Once refunded, a withdrawal stays refunded and nothing it sent, then or later, succeeds on the chain. */
  lemma RefundedNeverPays(cfg: Settings, before: seq<Event>, after: seq<Event>, id: Id)
    requires var s := Run(cfg, INITIAL, before); id < |s.rows| && s.rows[id].status.Refunded?
    ensures
      var t := Run(cfg, Run(cfg, INITIAL, before), after);
      && id < |t.rows| && t.rows[id].status.Refunded?
      && (forall j | 0 <= j < |t.sent| && t.sent[j].id == id ::
            t.sent[j].tx.nonce in t.mined && t.mined[t.sent[j].tx.nonce] == Receipt(t.sent[j].tx, false))
  {
    InitialIsSafe(cfg);
    RunKeepsSafe(cfg, INITIAL, before);
    RunKeepsRefunded(cfg, Run(cfg, INITIAL, before), after, id);
    RunKeepsSafe(cfg, Run(cfg, INITIAL, before), after);
  }

  /** A confirmed withdrawal's transaction is on the chain, to its address, and moved its net amount, rounded down to
      whole token units. */
  lemma ConfirmedWasPaid(cfg: Settings, evs: seq<Event>, id: Id)
    ensures var s := Run(cfg, INITIAL, evs);
      id < |s.rows| && s.rows[id].status.Confirmed? ==>
        && s.rows[id].hash.Some?
        && var tx := s.rows[id].hash.value;
           && tx.nonce in s.mined && s.mined[tx.nonce] == Receipt(tx, true)
           && tx.to == s.rows[id].to
           && tx.units * 100000000 <= s.rows[id].net * cfg.scale < (tx.units + 1) * 100000000
  {
    InitialIsSafe(cfg);
    RunKeepsSafe(cfg, INITIAL, evs);
    var s := Run(cfg, INITIAL, evs);
    if id < |s.rows| {
      assert RowOk(cfg, s.mined, s.rows[id]);
      UnitsAreFloored(cfg, s.rows[id].net);
    }
    hide Run, Units;
  }
}
