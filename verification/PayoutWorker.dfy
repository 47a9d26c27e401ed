/** The withdrawal service and worker as they run: rows and ledger updated in place, an await at a time.

    A script says how every call and commit ends, what others do during each await and where the
    process dies. Whatever the script, a tick amounts to a run of `Withdrawals`, so every invariant of
    that machine holds of it.
*/
module PayoutWorker {
  import opened Common
  import opened Withdrawals
  import opened PayoutSafety
  import opened PayoutLedger

  predicate IsOutside(ev: Event) { ev.Post? || ev.Create? || ev.Mine? }

  predicate AllOutside(evs: seq<Event>) { forall i | 0 <= i < |evs| :: IsOutside(evs[i]) }

  /** One await: what others do meanwhile, and whether the process dies in it. */
  datatype Slot = Slot(evs: seq<Event>, dies: bool)

  /** `signs` is false when signing raises; a commit that raises ends the tick like a crash. */
  datatype SubmitScript = SubmitScript(
    beforeSign: Slot, signs: bool, nonce: nat, gasPrice: nat, failCommit: Commit,
    beforePersist: Slot, persist: Commit, beforeSend: Slot, reached: bool, now: Time)

  datatype CheckScript = CheckScript(before: Slot, answered: bool, now: Time, commit: Commit)

  datatype TickScript = TickScript(
    now: Time, recover: Commit, beforeClaim: Slot, claim: Commit,
    submits: nat -> SubmitScript, beforeConfirm: Slot, checks: nat -> CheckScript)

  predicate SubmitOk(s: SubmitScript)
  {
    AllOutside(s.beforeSign.evs) && AllOutside(s.beforePersist.evs) && AllOutside(s.beforeSend.evs)
  }

  ghost predicate SubmitsOk(submits: nat -> SubmitScript) { forall i: nat :: SubmitOk(submits(i)) }

  ghost predicate ChecksOk(checks: nat -> CheckScript) { forall i: nat :: AllOutside(checks(i).before.evs) }

  ghost predicate TickOk(s: TickScript)
  {
    AllOutside(s.beforeClaim.evs) && AllOutside(s.beforeConfirm.evs) && SubmitsOk(s.submits) && ChecksOk(s.checks)
  }

  // ----- The events a tick amounts to -----

  function AwaitEvents(slot: Slot): seq<Event> { slot.evs + if slot.dies then [Crash] else [] }

  function SignEvent(cfg: Settings, s: System, script: SubmitScript): Event
  {
    if script.signs && s.phase.Submit? && s.phase.queue != [] && s.phase.queue[0] < |s.rows|
       && Units(cfg, s.rows[s.phase.queue[0]].net) > 0
    then Sign(SignedWith(script.nonce, script.gasPrice), script.now)
    else Sign(SignFailed(script.failCommit), script.now)
  }

  /** One row: sign, store, send, each after an await, as far as it gets. */
  function SubmitEvents(cfg: Settings, s: System, script: SubmitScript): seq<Event>
  {
    var a := AwaitEvents(script.beforeSign);
    if script.beforeSign.dies then a
    else
      var b := a + [SignEvent(cfg, Run(cfg, s, a), script)];
      if !Run(cfg, s, b).phase.Signed? then b
      else
        var c := b + AwaitEvents(script.beforePersist);
        if script.beforePersist.dies then c
        else
          var d := c + [Persist(script.now, script.persist)];
          if Run(cfg, s, d).phase.Idle? then d
          else
            var e := d + AwaitEvents(script.beforeSend);
            if script.beforeSend.dies then e else e + [Broadcast(script.reached)]
  }

  /** The first `n` claimed rows, while the process lives. */
  function SubmitAllEvents(cfg: Settings, s: System, submits: nat -> SubmitScript, n: nat): seq<Event>
  {
    if n == 0 then []
    else
      var before := SubmitAllEvents(cfg, s, submits, n - 1);
      var t := Run(cfg, s, before);
      if t.phase.Submit? && t.phase.queue != [] then before + SubmitEvents(cfg, t, submits(n - 1)) else before
  }

  function CheckEvents(script: CheckScript): seq<Event>
  {
    AwaitEvents(script.before) + if script.before.dies then [] else [Check(script.answered, script.now, script.commit)]
  }

  /** The first `n` submitted rows, while the process lives. */
  function ConfirmAllEvents(cfg: Settings, s: System, checks: nat -> CheckScript, n: nat): seq<Event>
  {
    if n == 0 then []
    else
      var before := ConfirmAllEvents(cfg, s, checks, n - 1);
      var t := Run(cfg, s, before);
      if t.phase.Confirm? && t.phase.queue != [] then before + CheckEvents(checks(n - 1)) else before
  }

  function QueueLength(s: System): nat { if s.phase.Submit? || s.phase.Confirm? then |s.phase.queue| else 0 }

  /** The submitted rows, and the end of the tick. */
  function ConfirmEvents(cfg: Settings, s: System, checks: nat -> CheckScript, now: Time): seq<Event>
  {
    var a := ConfirmAllEvents(cfg, s, checks, QueueLength(s));
    if Run(cfg, s, a).phase.Idle? then a else a + [Check(true, now, Done)]
  }

  /** A whole tick: recover, claim, submit every claimed row, check every submitted row. */
  function TickEvents(cfg: Settings, s: System, script: TickScript): seq<Event>
  {
    var a := [Recover(script.now, script.recover)];
    if Run(cfg, s, a).phase.Idle? then a
    else
      var b := a + AwaitEvents(script.beforeClaim);
      if script.beforeClaim.dies then b
      else
        var c := b + [Claim(script.now, script.claim)];
        if Run(cfg, s, c).phase.Idle? then c
        else
          var t := Run(cfg, s, c);
          var d := c + SubmitAllEvents(cfg, t, script.submits, QueueLength(t));
          if Run(cfg, s, d).phase.Idle? then d
          else
            var e := d + AwaitEvents(script.beforeConfirm);
            if script.beforeConfirm.dies then e
            else
              var f := e + [SelectSubmitted];
              f + ConfirmEvents(cfg, Run(cfg, s, f), script.checks, script.now)
  }

  lemma OutsideKeepsPhase(cfg: Settings, s: System, ev: Event)
    requires IsOutside(ev)
    ensures Step(cfg, s, ev).phase == s.phase
  {
  }

  lemma SetOneMore(rows: seq<Withdrawal>, ids: seq<Id>, id: Id, now: Time)
    requires id < |rows|
    ensures
      var done := SetStatus(rows, ids, Submitting, now);
      SetStatus(rows, ids + [id], Submitting, now) == done[id := done[id].(status := Submitting, updatedAt := now)]
  {
  }

  /** The twenty oldest pending rows and no other are now in `submitting`. */
  ghost predicate OldestClaimed(rows: seq<Withdrawal>, later: seq<Withdrawal>, now: Time)
  {
    && |later| == |rows|
    && forall i | 0 <= i < |rows| ::
         later[i]
         == if rows[i].status == Pending && CountWith(rows[..i], Pending) < 20
            then rows[i].(status := Submitting, updatedAt := now) else rows[i]
  }

  lemma ClaimedRows(rows: seq<Withdrawal>, now: Time)
    ensures
      var ids := Take(IdsWith(rows, Pending), CLAIM_LIMIT);
      OldestClaimed(rows, SetStatus(rows, ids, Submitting, now), now) && Oldest(ids, rows, Pending, 20)
  {
    OldestFirst(rows, Pending, CLAIM_LIMIT);
    hide IdsWith, Take, CountWith;
  }

  lemma BalanceAppend(ledger: seq<Entry>, e: Entry, u: UserId)
    ensures Balance(ledger + [e], u) == Balance(ledger, u) + if e.user == u then e.amount else 0
  {
    assert (ledger + [e])[..|ledger|] == ledger;
  }

  lemma CheckStep(cfg: Settings, s: System, answered: bool, now: Time, commit: Commit)
    requires s.phase.Confirm?
    ensures Step(cfg, s, Check(answered, now, commit)) == CheckHead(s, answered, now, commit)
  {
    hide CheckHead;
  }

  datatype Refusal =
    | NotPositive | BelowMinimum | AboveMaximum | Blocked | AlreadyInFlight | OverDailyCap
    | InsufficientBalance | FeeExceedsAmount | NoLiquidity

  /** The stated reason is a true one. */
  predicate Applies(cfg: Settings, s: System, q: Request, why: Refusal)
  {
    match why
    case NotPositive => q.amount == 0
    case BelowMinimum => q.amount < cfg.minAmount
    case AboveMaximum => q.amount > cfg.maxAmount
    case Blocked => q.blocked
    case AlreadyInFlight => HasInFlight(s.rows, q.user)
    case OverDailyCap => Spent(s.rows, q.user, q.now - DAY) + q.amount > cfg.perDay
    case InsufficientBalance => Balance(s.ledger, q.user) < q.amount
    case FeeExceedsAmount => q.fee >= q.amount
    case NoLiquidity => q.fee < q.amount && 0 < q.hot < q.amount - q.fee
  }

  datatype Creation = Created(id: Id) | Refused(why: Refusal)

  ghost method Extend(cfg: Settings, start: System, evs: seq<Event>, ev: Event) returns (longer: seq<Event>)
    ensures longer == evs + [ev] && Run(cfg, start, longer) == Step(cfg, Run(cfg, start, evs), ev)
  {
    longer := evs + [ev];
    RunAppends(cfg, start, evs, [ev]);
    assert [ev][1..] == [];
  }

  ghost method ExtendAll(cfg: Settings, start: System, evs: seq<Event>, more: seq<Event>) returns (longer: seq<Event>)
    ensures longer == evs + more && Run(cfg, start, longer) == Run(cfg, Run(cfg, start, evs), more)
  {
    longer := evs + more;
    RunAppends(cfg, start, evs, more);
  }

  class Worker {
    const cfg: Settings

    var rows: seq<Withdrawal>
    var ledger: seq<Entry>
    var sent: seq<Send>
    var payer: map<Tx, Id>
    var mined: map<nat, Receipt>
    var transferred: nat
    var phase: Phase

    function State(): System
      reads this
    {
      System(rows, ledger, sent, payer, mined, transferred, phase)
    }

    constructor (cfg: Settings)
      ensures this.cfg == cfg && State() == INITIAL && Sound(cfg, State())
    {
      this.cfg := cfg;
      rows, ledger, sent, payer, mined, transferred, phase := [], [], [], map[], map[], 0, Idle;
    }

    method Load(s: System)
      modifies this
      ensures State() == s
    {
      rows, ledger, phase := s.rows, s.ledger, s.phase;
      sent, payer, mined, transferred := s.sent, s.payer, s.mined, s.transferred;
    }

    /** Validate, check balance and caps under the user's lock, and write the request with its payout row. */
    method CreateWithdrawal(q: Request) returns (r: Creation)
      modifies this
      ensures
        var balance, lastDay := Balance(old(ledger), q.user), Spent(old(rows), q.user, q.now - 86400);
        r.Created? <==>
          && 0 < q.amount && cfg.minAmount <= q.amount <= cfg.maxAmount && !q.blocked
          && (forall i | 0 <= i < |old(rows)| && old(rows)[i].user == q.user ::
                old(rows)[i].status !in {Pending, Submitting, Submitted})
          && lastDay + q.amount <= cfg.perDay && q.amount <= balance
          && q.fee < q.amount && (q.hot == 0 || q.amount - q.fee <= q.hot)
      ensures r.Refused? ==> State() == old(State()) && Applies(cfg, State(), q, r.why)
      ensures r.Created? ==>
                && r.id == |old(rows)| && q.fee < q.amount
                && rows == old(rows) + [Withdrawal(q.user, q.amount, q.amount - q.fee, q.to, Pending, None, q.gasPrice,
                                                   q.stamp, q.stamp, q.now)]
                && ledger == old(ledger) + [Entry(q.user, -(q.amount as int), Payout(r.id))]
                && Balance(ledger, q.user) == Balance(old(ledger), q.user) - q.amount
      ensures r.Created? <==> old(MayCreate(cfg, State(), q))
      ensures State() == Step(cfg, old(State()), Create(q))
    {
      hide Balance, Spent;
      if q.amount == 0 { return Refused(NotPositive); }
      if q.amount < cfg.minAmount { return Refused(BelowMinimum); }
      if q.amount > cfg.maxAmount { return Refused(AboveMaximum); }
      if q.blocked { return Refused(Blocked); }
      if HasInFlight(rows, q.user) { return Refused(AlreadyInFlight); }
      if Spent(rows, q.user, q.now - DAY) + q.amount > cfg.perDay { return Refused(OverDailyCap); }
      if Balance(ledger, q.user) < q.amount { return Refused(InsufficientBalance); }
      if q.amount <= q.fee { return Refused(FeeExceedsAmount); }
      if q.hot > 0 && q.hot < q.amount - q.fee { return Refused(NoLiquidity); }
      var debit := Entry(q.user, -(q.amount as int), Payout(|rows|));
      BalanceAppend(ledger, debit, q.user);
      r := Created(|rows|);
      rows := rows + [NewRow(q)];
      ledger := ledger + [debit];
    }

    /** Others act while the worker waits; the process may die. */
    method Await(slot: Slot) returns (alive: bool, ghost evs: seq<Event>)
      requires AllOutside(slot.evs)
      modifies this
      ensures State() == Run(cfg, old(State()), evs) && evs == AwaitEvents(slot)
      ensures alive == !slot.dies
      ensures alive ==> phase == old(phase)
      ensures !alive ==> phase == Idle
    {
      var i := 0;
      while i < |slot.evs|
        invariant 0 <= i <= |slot.evs|
        invariant Run(cfg, State(), slot.evs[i..]) == Run(cfg, old(State()), slot.evs)
        invariant phase == old(phase)
      {
        OutsideKeepsPhase(cfg, State(), slot.evs[i]);
        assert slot.evs[i..][1..] == slot.evs[i + 1..];
        Load(Step(cfg, State(), slot.evs[i]));
        i := i + 1;
      }
      alive, evs := !slot.dies, slot.evs;
      if slot.dies {
        evs := Extend(cfg, old(State()), evs, Crash);
        phase := Idle;
      }
    }

    /** (1) Rows abandoned in `submitting` go back to `pending`. */
    method RecoverStuck(now: Time, commit: Commit)
      requires phase.Idle?
      modifies this
      ensures ledger == old(ledger) && sent == old(sent) && |rows| == |old(rows)| && forall i | 0 <= i < |rows| ::
                rows[i]
                == if commit != RolledBack && old(rows)[i].status == Submitting
                      && old(rows)[i].updatedAt < now - cfg.recoverAfter
                   then old(rows)[i].(status := Pending, updatedAt := now) else old(rows)[i]
      ensures State() == Step(cfg, old(State()), Recover(now, commit))
      ensures phase == if commit == Done then Recovered else Idle
    {
      var saved := rows;
      var i := 0;
      while i < |rows|
        invariant 0 <= i <= |rows| == |saved|
        invariant forall j | 0 <= j < |rows| :: rows[j] == if j < i then RecoverRows(cfg, saved, now)[j] else saved[j]
        invariant State() == old(State()).(rows := rows)
      {
        if rows[i].status.Submitting? && rows[i].updatedAt < now - cfg.recoverAfter {
          rows := rows[i := rows[i].(status := Pending, updatedAt := now)];
        }
        i := i + 1;
      }
      assert rows == RecoverRows(cfg, saved, now);
      if commit.RolledBack? {
        rows := saved;
      }
      phase := if commit.Done? then Recovered else Idle;
    }

    method MarkSubmitting(ids: seq<Id>, now: Time)
      requires DistinctIds(ids) && forall i | 0 <= i < |ids| :: ids[i] < |rows|
      modifies `rows
      ensures rows == SetStatus(old(rows), ids, Submitting, now)
    {
      var i := 0;
      while i < |ids|
        invariant 0 <= i <= |ids| && |rows| == |old(rows)|
        invariant rows == SetStatus(old(rows), ids[..i], Submitting, now)
      {
        SetOneMore(old(rows), ids[..i], ids[i], now);
        rows := rows[ids[i] := rows[ids[i]].(status := Submitting, updatedAt := now)];
        assert ids[..i + 1] == ids[..i] + [ids[i]];
        i := i + 1;
      }
      assert ids[..i] == ids;
    }

    /** (2) The oldest pending rows are claimed before anything is signed. */
    method ClaimPending(now: Time, commit: Commit)
      requires phase.Recovered?
      modifies this
      ensures ledger == old(ledger) && sent == old(sent)
      ensures if commit == RolledBack then rows == old(rows) else OldestClaimed(old(rows), rows, now)
      ensures phase.Submit? ==> Oldest(phase.queue, old(rows), Pending, 20)
      ensures State() == Step(cfg, old(State()), Claim(now, commit))
      ensures if commit == Done then phase.Submit? else phase == Idle
    {
      ClaimStep(cfg, State(), now, commit);
      ClaimedRows(rows, now);
      TakeIsPrefix(rows, Pending, CLAIM_LIMIT);
      hide IdsWith, Step, Take, SetStatus, Oldest, OldestClaimed;
      var saved := rows;
      var ids := Take(IdsWith(rows, Pending), CLAIM_LIMIT);
      MarkSubmitting(ids, now);
      if commit.RolledBack? {
        rows := saved;
      }
      phase := if commit.Done? then Submit(ids) else Idle;
    }

    /** Mark the row refunded and credit the gross amount back, in one commit. */
    method RefundFailed(id: Id, now: Time, commit: Commit)
      requires id < |rows|
      modifies this
      ensures sent == old(sent)
      ensures commit == RolledBack || HasRefund(old(ledger), id) ==>
                rows == old(rows) && ledger == old(ledger) && phase == Idle
      ensures commit != RolledBack && !HasRefund(old(ledger), id) ==>
                && rows == old(rows)[id := old(rows)[id].(status := Refunded, updatedAt := now)]
                && ledger == old(ledger) + [Entry(rows[id].user, rows[id].amount, Refund(id))]
                && Balance(ledger, rows[id].user) == Balance(old(ledger), rows[id].user) + rows[id].amount
                && phase == if commit == Done then old(phase) else Idle
      ensures State() == RefundRow(old(State()), id, now, commit)
    {
      if commit.RolledBack? || HasRefund(ledger, id) {
        phase := Idle;
        return;
      }
      BalanceAppend(ledger, Entry(rows[id].user, rows[id].amount, Refund(id)), rows[id].user);
      ledger := ledger + [Entry(rows[id].user, rows[id].amount, Refund(id))];
      rows := rows[id := rows[id].(status := Refunded, updatedAt := now)];
      if !commit.Done? {
        phase := Idle;
      }
    }

    method MarkConfirmed(id: Id, now: Time, commit: Commit)
      requires id < |rows|
      modifies `rows, `phase
      ensures commit == RolledBack ==> rows == old(rows) && phase == Idle
      ensures commit != RolledBack ==>
                && rows == old(rows)[id := old(rows)[id].(status := Confirmed, updatedAt := now)]
                && phase == if commit == Done then old(phase) else Idle
      ensures State() == ConfirmRow(old(State()), id, now, commit)
    {
      if commit.RolledBack? {
        phase := Idle;
        return;
      }
      rows := rows[id := rows[id].(status := Confirmed, updatedAt := now)];
      if !commit.Done? {
        phase := Idle;
      }
    }

    /** Step A: sign, a local act; when it fails nothing is on the chain and the user is refunded. */
    method SignStep(s: SubmitScript) returns (ghost ev: Event)
      requires Sound(cfg, State()) && phase.Submit? && phase.queue != []
      modifies this
      ensures sent == old(sent)
      ensures
        var id, r := old(phase).queue[0], old(rows)[old(phase).queue[0]];
        var units := r.net * cfg.scale / 100000000;
        if s.signs && units > 0 then
          && rows == old(rows) && ledger == old(ledger)
          && phase == Signed(old(phase).queue,
                             Tx(s.nonce, r.to, units, if r.gasPrice > 0 then r.gasPrice else s.gasPrice))
        else if s.failCommit == RolledBack then rows == old(rows) && ledger == old(ledger) && phase == Idle
        else
          && rows == old(rows)[id := r.(status := Refunded, updatedAt := s.now)]
          && Balance(ledger, r.user) == Balance(old(ledger), r.user) + r.amount
          && phase == if s.failCommit == Done then Submit(old(phase).queue[1..]) else Idle
      ensures State() == Step(cfg, old(State()), ev) && ev == SignEvent(cfg, old(State()), s)
      ensures phase.Idle? || phase.Signed? || (phase.Submit? && |phase.queue| < |old(phase).queue|)
      ensures phase.Signed? ==> phase.queue == old(phase).queue
    {
      var q := phase.queue;
      var units := rows[q[0]].net * cfg.scale / USD;
      if s.signs && units > 0 {
        ev := Sign(SignedWith(s.nonce, s.gasPrice), s.now);
        var gasPrice := if rows[q[0]].gasPrice > 0 then rows[q[0]].gasPrice else s.gasPrice;
        phase := Signed(q, Tx(s.nonce, rows[q[0]].to, units, gasPrice));
      } else {
        ev := Sign(SignFailed(s.failCommit), s.now);
        KeyIsFree(cfg, State(), q[0]);
        phase := Submit(q[1..]);
        RefundFailed(q[0], s.now, s.failCommit);
      }
    }

    /** Step B: store the hash and `submitted` before the network is touched. */
    method PersistStep(now: Time, commit: Commit)
      requires Sound(cfg, State()) && phase.Signed?
      modifies this
      ensures ledger == old(ledger) && sent == old(sent)
      ensures
        var q, tx := old(phase).queue, old(phase).tx;
        if commit == RolledBack then rows == old(rows) && phase == Idle
        else
          && rows == old(rows)[q[0] := old(rows)[q[0]].(status := Submitted, hash := Some(tx), gasPrice := tx.gasPrice,
                                                        updatedAt := now)]
          && phase == if commit == Done then Persisted(q, tx) else Idle
      ensures State() == Step(cfg, old(State()), Persist(now, commit))
      ensures phase.Idle? || (phase.Persisted? && phase.queue == old(phase).queue)
    {
      var q, tx := phase.queue, phase.tx;
      if commit.RolledBack? {
        phase := Idle;
        return;
      }
      var w := rows[q[0]].(hash := Some(tx), status := Submitted, updatedAt := now);
      rows := rows[q[0] := w.(gasPrice := tx.gasPrice)];
      phase := if commit.Done? then Persisted(q, tx) else Idle;
    }

    /** Step C: broadcast; an error changes nothing. */
    method BroadcastStep(reached: bool)
      requires Sound(cfg, State()) && phase.Persisted?
      modifies this
      ensures rows == old(rows) && ledger == old(ledger)
      ensures sent == old(sent) + if reached then [Send(old(phase).queue[0], old(phase).tx)] else []
      ensures (reached ==> old(phase).tx in payer) && phase == Submit(old(phase).queue[1..])
      ensures State() == Step(cfg, old(State()), Broadcast(reached))
      ensures phase.Submit? && |phase.queue| < |old(phase).queue|
    {
      var q, tx := phase.queue, phase.tx;
      if reached {
        sent := sent + [Send(q[0], tx)];
        if tx !in payer {
          payer := payer[tx := q[0]];
        }
      }
      phase := Submit(q[1..]);
    }

    /** Confirmation polling for one submitted row. */
    method CheckReceipt(answered: bool, now: Time, commit: Commit)
      requires Sound(cfg, State()) && phase.Confirm? && phase.queue != []
      modifies this
      ensures sent == old(sent)
      ensures
        var id, w, tx := old(phase).queue[0], old(rows)[old(phase).queue[0]], old(rows)[old(phase).queue[0]].hash.value;
        var final := answered && tx.nonce in mined && mined[tx.nonce].tx == tx;
        if !final then rows == old(rows) && ledger == old(ledger) && phase == Confirm(old(phase).queue[1..])
        else if commit == RolledBack then rows == old(rows) && ledger == old(ledger) && phase == Idle
        else
          && phase == (if commit == Done then Confirm(old(phase).queue[1..]) else Idle)
          && if mined[tx.nonce].success then
               && rows == old(rows)[id := w.(status := Confirmed, updatedAt := now)] && ledger == old(ledger)
             else
               && rows == old(rows)[id := w.(status := Refunded, updatedAt := now)]
               && Balance(ledger, w.user) == Balance(old(ledger), w.user) + w.amount
      ensures State() == Step(cfg, old(State()), Check(answered, now, commit))
      ensures phase.Idle? || (phase.Confirm? && |phase.queue| < |old(phase).queue|)
    {
      TailKeepsSafe(cfg, State());
      KeyIsFree(cfg, State(), phase.queue[0]);
      CheckStep(cfg, State(), answered, now, commit);
      hide Step, Sound, HasRefund, Balance, RefundRow, ConfirmRow;
      var q := phase.queue;
      phase := Confirm(q[1..]);
      var w := rows[q[0]];
      if w.hash.None? || !answered {
        return;
      }
      match ReceiptOf(mined, w.hash.value)
      case None =>
      case Some(true) => MarkConfirmed(q[0], now, commit);
      case Some(false) => RefundFailed(q[0], now, commit);
    }

    /** Sign, persist, broadcast one row, with an await before each. */
    method SubmitOne(s: SubmitScript) returns (ghost evs: seq<Event>)
      requires Sound(cfg, State()) && phase.Submit? && phase.queue != [] && SubmitOk(s)
      modifies this
      ensures evs == SubmitEvents(cfg, old(State()), s)
      ensures State() == Run(cfg, old(State()), evs) && Sound(cfg, State())
      ensures phase.Idle? || (phase.Submit? && |phase.queue| < |old(phase).queue|)
    {
      hide Step, Sound;
      ghost var start := State();
      var alive;
      ghost var more;
      alive, evs := Await(s.beforeSign);
      RunKeepsSound(cfg, start, evs);
      if !alive { return; }
      ghost var ev := SignStep(s);
      evs := Extend(cfg, start, evs, ev);
      RunKeepsSound(cfg, start, evs);
      if !phase.Signed? { return; }
      alive, more := Await(s.beforePersist);
      evs := ExtendAll(cfg, start, evs, more);
      RunKeepsSound(cfg, start, evs);
      if !alive { return; }
      PersistStep(s.now, s.persist);
      evs := Extend(cfg, start, evs, Persist(s.now, s.persist));
      RunKeepsSound(cfg, start, evs);
      if phase.Idle? { return; }
      alive, more := Await(s.beforeSend);
      evs := ExtendAll(cfg, start, evs, more);
      RunKeepsSound(cfg, start, evs);
      if !alive { return; }
      BroadcastStep(s.reached);
      evs := Extend(cfg, start, evs, Broadcast(s.reached));
      RunKeepsSound(cfg, start, evs);
    }

    /** Every claimed row in turn, until the process dies. */
    method SubmitAll(submits: nat -> SubmitScript) returns (ghost evs: seq<Event>)
      requires Sound(cfg, State()) && phase.Submit? && SubmitsOk(submits)
      modifies this
      ensures evs == SubmitAllEvents(cfg, old(State()), submits, |old(phase).queue|)
      ensures State() == Run(cfg, old(State()), evs) && Sound(cfg, State())
      ensures phase == Idle || phase == Submit([])
    {
      hide Step, Sound, SubmitEvents;
      ghost var start := State();
      evs := [];
      var n := |phase.queue|;
      for i := 0 to n
        invariant evs == SubmitAllEvents(cfg, start, submits, i)
        invariant State() == Run(cfg, start, evs) && Sound(cfg, State())
        invariant phase.Idle? || (phase.Submit? && |phase.queue| <= n - i)
      {
        if phase.Submit? && phase.queue != [] {
          ghost var more := SubmitOne(submits(i));
          evs := ExtendAll(cfg, start, evs, more);
        }
      }
    }

    /** One submitted row, after an await. */
    method ConfirmOne(s: CheckScript) returns (ghost evs: seq<Event>)
      requires Sound(cfg, State()) && phase.Confirm? && phase.queue != [] && AllOutside(s.before.evs)
      modifies this
      ensures evs == CheckEvents(s)
      ensures State() == Run(cfg, old(State()), evs) && Sound(cfg, State())
      ensures phase.Idle? || (phase.Confirm? && |phase.queue| < |old(phase).queue|)
    {
      hide Step, Sound;
      ghost var start := State();
      var alive;
      alive, evs := Await(s.before);
      RunKeepsSound(cfg, start, evs);
      if alive {
        CheckReceipt(s.answered, s.now, s.commit);
        evs := Extend(cfg, start, evs, Check(s.answered, s.now, s.commit));
        RunKeepsSound(cfg, start, evs);
      }
    }

    /** Nothing is left to check: the tick is over. */
    method FinishTick(now: Time)
      requires phase == Confirm([])
      modifies `phase
      ensures State() == Step(cfg, old(State()), Check(true, now, Done)) && phase == Idle
    {
      phase := Idle;
    }

    /** (3) The submitted rows are checked in turn, until the process dies. */
    method ConfirmAll(checks: nat -> CheckScript, now: Time) returns (ghost evs: seq<Event>)
      requires Sound(cfg, State()) && phase.Confirm? && ChecksOk(checks)
      modifies this
      ensures evs == ConfirmEvents(cfg, old(State()), checks, now)
      ensures State() == Run(cfg, old(State()), evs) && Sound(cfg, State())
      ensures phase == Idle
    {
      hide Step, Sound, CheckEvents;
      ghost var start := State();
      evs := [];
      var n := |phase.queue|;
      for i := 0 to n
        invariant evs == ConfirmAllEvents(cfg, start, checks, i)
        invariant State() == Run(cfg, start, evs) && Sound(cfg, State())
        invariant phase.Idle? || (phase.Confirm? && |phase.queue| <= n - i)
      {
        if phase.Confirm? && phase.queue != [] {
          ghost var more := ConfirmOne(checks(i));
          evs := ExtendAll(cfg, start, evs, more);
        }
      }
      if phase.Confirm? {
        FinishTick(now);
        evs := Extend(cfg, start, evs, Check(true, now, Done));
        RunKeepsSound(cfg, start, evs);
      }
    }

    method SelectRows()
      requires phase == Submit([])
      modifies `phase
      ensures State() == Step(cfg, old(State()), SelectSubmitted) && phase.Confirm?
      ensures Oldest(phase.queue, rows, Submitted, 50)
    {
      OldestFirst(rows, Submitted, CONFIRM_LIMIT);
      phase := Confirm(Take(IdsWith(rows, Submitted), CONFIRM_LIMIT));
    }

    /** One scheduler tick: recover, claim, submit, confirm, wherever it dies. */
    method ProcessWithdrawalsOnce(s: TickScript) returns (ghost evs: seq<Event>)
      requires Sound(cfg, State()) && phase.Idle? && TickOk(s)
      modifies this
      ensures evs == TickEvents(cfg, old(State()), s)
      ensures State() == Run(cfg, old(State()), evs)
      ensures Sound(cfg, State()) && phase.Idle?
    {
      hide Step, Sound, SubmitAllEvents, ConfirmEvents;
      ghost var start := State();
      RecoverStuck(s.now, s.recover);
      evs := Extend(cfg, start, [], Recover(s.now, s.recover));
      assert evs == [Recover(s.now, s.recover)];
      RunKeepsSound(cfg, start, evs);
      if phase.Idle? { return; }
      var alive;
      ghost var more;
      alive, more := Await(s.beforeClaim);
      evs := ExtendAll(cfg, start, evs, more);
      RunKeepsSound(cfg, start, evs);
      if !alive { return; }
      ClaimPending(s.now, s.claim);
      evs := Extend(cfg, start, evs, Claim(s.now, s.claim));
      RunKeepsSound(cfg, start, evs);
      if phase.Idle? { return; }
      more := SubmitAll(s.submits);
      evs := ExtendAll(cfg, start, evs, more);
      if phase.Idle? { return; }
      alive, more := Await(s.beforeConfirm);
      evs := ExtendAll(cfg, start, evs, more);
      RunKeepsSound(cfg, start, evs);
      if !alive { return; }
      SelectRows();
      evs := Extend(cfg, start, evs, SelectSubmitted);
      RunKeepsSound(cfg, start, evs);
      more := ConfirmAll(s.checks, s.now);
      evs := ExtendAll(cfg, start, evs, more);
    }
  }
}
