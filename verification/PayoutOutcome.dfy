/** What a tick gets done when nothing goes wrong in it: every claimed withdrawal is on its way or refunded, and every
    checked one whose receipt is there is finished.

    Safety alone would be met by a worker that leaves rows where they are. These theorems follow each row through the
    worker's passes, with others creating, posting and mining during every await.
*/
module PayoutOutcome {
  import opened Common
  import opened Withdrawals
  import opened PayoutSafety
  import opened PayoutLedger
  import opened PayoutWorker

  // ----- What stays -----

  /** Receipts and sends are never taken back. */
  ghost predicate HistoryKept(s: System, t: System)
  {
    && (forall n | n in s.mined :: n in t.mined && t.mined[n] == s.mined[n])
    && (forall x | x in s.sent :: x in t.sent)
  }

  /** All rows but this one are as they were; rows may have been added. */
  ghost predicate OthersKept(s: System, t: System, id: Id)
  {
    |s.rows| <= |t.rows| && forall i | 0 <= i < |s.rows| && i != id :: t.rows[i] == s.rows[i]
  }

  ghost predicate RowsKept(s: System, t: System)
  {
    |s.rows| <= |t.rows| && forall i | 0 <= i < |s.rows| :: t.rows[i] == s.rows[i]
  }

  /** What others do while the worker waits. */
  ghost predicate Unmoved(s: System, t: System) { t.phase == s.phase && RowsKept(s, t) && HistoryKept(s, t) }

  lemma OutsideStep(cfg: Settings, s: System, ev: Event)
    requires IsOutside(ev)
    ensures Unmoved(s, Step(cfg, s, ev))
  {
    hide MayCreate;
  }

  lemma {:induction false} OutsideRun(cfg: Settings, s: System, evs: seq<Event>)
    requires AllOutside(evs)
    ensures Unmoved(s, Run(cfg, s, evs))
    decreases |evs|
  {
    if evs != [] {
      OutsideStep(cfg, s, evs[0]);
      hide Step;
      OutsideRun(cfg, Step(cfg, s, evs[0]), evs[1..]);
    }
  }

  /** An await in which the process does not die. */
  lemma AwaitRun(cfg: Settings, s: System, slot: Slot)
    requires AllOutside(slot.evs) && !slot.dies && Sound(cfg, s)
    ensures var t := Run(cfg, s, AwaitEvents(slot)); Unmoved(s, t) && Sound(cfg, t)
  {
    assert AwaitEvents(slot) == slot.evs;
    OutsideRun(cfg, s, slot.evs);
    RunKeepsSound(cfg, s, slot.evs);
  }

  lemma OneMore(cfg: Settings, s: System, evs: seq<Event>, ev: Event)
    requires Sound(cfg, s)
    ensures Run(cfg, s, evs + [ev]) == Step(cfg, Run(cfg, s, evs), ev) && Sound(cfg, Run(cfg, s, evs + [ev]))
  {
    hide Step, Sound;
    RunAppends(cfg, s, evs, [ev]);
    assert [ev][1..] == [];
    RunKeepsSound(cfg, s, evs + [ev]);
  }

  // ----- One check -----

  /** A receipt that was there when the pass began finishes the row: confirmed if the transfer succeeded, refunded if it
      reverted. Without an answer the row stays as it is. */
  ghost predicate Checked(s: System, t: System, id: Id, c: CheckScript)
  {
    && id < |s.rows| && id < |t.rows| && s.rows[id].hash.Some?
    && var r, tx := s.rows[id], s.rows[id].hash.value;
       && (!c.answered ==> t.rows[id] == r)
       && (c.answered && tx.nonce in s.mined && s.mined[tx.nonce] == Receipt(tx, true) ==>
             t.rows[id] == r.(status := Confirmed, updatedAt := c.now))
       && (c.answered && tx.nonce in s.mined && s.mined[tx.nonce] == Receipt(tx, false) ==>
             t.rows[id] == r.(status := Refunded, updatedAt := c.now))
  }

  lemma CheckedStep(cfg: Settings, s: System, c: CheckScript)
    requires Sound(cfg, s) && s.phase.Confirm? && s.phase.queue != [] && c.commit.Done?
    ensures
      var t := Step(cfg, s, Check(c.answered, c.now, Done));
      && Checked(s, t, s.phase.queue[0], c) && OthersKept(s, t, s.phase.queue[0]) && HistoryKept(s, t)
      && t.phase == Confirm(s.phase.queue[1..])
  {
    TailKeepsSafe(cfg, s);
    KeyIsFree(cfg, s, s.phase.queue[0]);
    CheckStep(cfg, s, c.answered, c.now, Done);
    hide Step, Sound, Safe, HasRefund;
  }

  predicate Smooth(c: CheckScript) { AllOutside(c.before.evs) && !c.before.dies && c.commit.Done? }

  lemma CheckedOnce(cfg: Settings, s: System, c: CheckScript)
    requires Sound(cfg, s) && s.phase.Confirm? && s.phase.queue != [] && Smooth(c)
    ensures
      var t := Run(cfg, s, CheckEvents(c));
      && Checked(s, t, s.phase.queue[0], c) && OthersKept(s, t, s.phase.queue[0]) && HistoryKept(s, t)
      && t.phase == Confirm(s.phase.queue[1..]) && Sound(cfg, t)
  {
    AwaitRun(cfg, s, c.before);
    OneMore(cfg, s, AwaitEvents(c.before), Check(c.answered, c.now, c.commit));
    var u := Run(cfg, s, AwaitEvents(c.before));
    assert s.phase.queue[0] < |s.rows| by {
      TailKeepsSafe(cfg, s);
    }
    CheckedStep(cfg, u, c);
    hide Run, Step, Sound;
  }

  lemma QueueApart(cfg: Settings, s: System)
    requires Sound(cfg, s) && (s.phase.Submit? || s.phase.Confirm?)
    ensures DistinctIds(s.phase.queue) && forall i | 0 <= i < |s.phase.queue| :: s.phase.queue[i] < |s.rows|
  {
  }

  /** The first `n` of the queue have been checked, and nobody has touched the rest. */
  ghost predicate AllChecked(s: System, t: System, q: seq<Id>, checks: nat -> CheckScript, n: nat)
    requires n <= |q|
  {
    && |s.rows| <= |t.rows| && HistoryKept(s, t)
    && (forall i | 0 <= i < |q| :: q[i] < |s.rows|)
    && (forall i | 0 <= i < n :: Checked(s, t, q[i], checks(i)))
    && (forall i | n <= i < |q| :: t.rows[q[i]] == s.rows[q[i]])
  }

  lemma OneMoreChecked(s: System, t: System, u: System, q: seq<Id>, checks: nat -> CheckScript, n: nat)
    requires n < |q| && DistinctIds(q) && AllChecked(s, t, q, checks, n)
    requires Checked(t, u, q[n], checks(n)) && OthersKept(t, u, q[n]) && HistoryKept(t, u)
    ensures AllChecked(s, u, q, checks, n + 1)
  {
    forall i | 0 <= i <= n
      ensures Checked(s, u, q[i], checks(i))
    {
      assert i < n ==> Checked(s, t, q[i], checks(i)) && q[i] != q[n];
    }
  }

  lemma NothingChecked(cfg: Settings, s: System, q: seq<Id>, checks: nat -> CheckScript)
    requires forall i | 0 <= i < |q| :: q[i] < |s.rows|
    ensures Run(cfg, s, []) == s && AllChecked(s, s, q, checks, 0)
  {
    hide Checked;
  }

  /** A confirmation pass over submitted rows, from any sound state: every row it comes to with an answer and with the
      receipt there leaves `submitted`, by the receipt's outcome. */
  lemma {:induction false} PassFinishes(cfg: Settings, s: System, checks: nat -> CheckScript, n: nat)
    requires Sound(cfg, s) && s.phase.Confirm? && n <= |s.phase.queue|
    requires forall i: nat | i < n :: Smooth(checks(i))
    ensures
      var t, q := Run(cfg, s, ConfirmAllEvents(cfg, s, checks, n)), s.phase.queue;
      t.phase == Confirm(q[n..]) && Sound(cfg, t) && AllChecked(s, t, q, checks, n)
  {
    hide Run, Step, Sound, CheckEvents, Checked, OthersKept, HistoryKept, AllChecked, DistinctIds, Smooth;
    QueueApart(cfg, s);
    var q := s.phase.queue;
    if n == 0 {
      NothingChecked(cfg, s, q, checks);
    } else {
      PassFinishes(cfg, s, checks, n - 1);
      var before := ConfirmAllEvents(cfg, s, checks, n - 1);
      var t := Run(cfg, s, before);
      CheckedOnce(cfg, t, checks(n - 1));
      RunAppends(cfg, s, before, CheckEvents(checks(n - 1)));
      OneMoreChecked(s, t, Run(cfg, t, CheckEvents(checks(n - 1))), q, checks, n - 1);
    }
  }

  // ----- One submission -----

  predicate Easy(c: SubmitScript)
  {
    && SubmitOk(c) && !c.beforeSign.dies && !c.beforePersist.dies && !c.beforeSend.dies
    && c.failCommit.Done? && c.persist.Done?
  }

  /** The row is submitted with the transaction for its address and its net amount in whole units, which is sent if the
      node can be reached; or refunded if signing fails or the amount is dust. */
  ghost predicate OnItsWay(cfg: Settings, s: System, t: System, id: Id, c: SubmitScript)
  {
    && id < |s.rows| && id < |t.rows|
    && var r := s.rows[id];
       var units, gas := r.net * cfg.scale / 100000000, if r.gasPrice > 0 then r.gasPrice else c.gasPrice;
       var tx := Tx(c.nonce, r.to, units, gas);
       if c.signs && units > 0 then
         && t.rows[id] == r.(status := Submitted, hash := Some(tx), gasPrice := gas, updatedAt := c.now)
         && (c.reached ==> Send(id, tx) in t.sent)
       else t.rows[id] == r.(status := Refunded, updatedAt := c.now)
  }

  lemma HeadOfQueue(cfg: Settings, s: System)
    requires Sound(cfg, s) && s.phase.Submit? && s.phase.queue != []
    ensures s.phase.queue[0] < |s.rows| && !s.rows[s.phase.queue[0]].status.Refunded?
  {
  }

  function TxFor(cfg: Settings, r: Withdrawal, c: SubmitScript): Tx
  {
    Tx(c.nonce, r.to, r.net * cfg.scale / 100000000, if r.gasPrice > 0 then r.gasPrice else c.gasPrice)
  }

  lemma SignedStep(cfg: Settings, s: System, c: SubmitScript)
    requires Sound(cfg, s) && s.phase.Submit? && s.phase.queue != [] && c.failCommit.Done?
    ensures
      var t, q := Step(cfg, s, SignEvent(cfg, s, c)), s.phase.queue;
      && q[0] < |s.rows|
      && var r := s.rows[q[0]];
         if c.signs && r.net * cfg.scale / 100000000 > 0 then t == s.(phase := Signed(q, TxFor(cfg, r, c)))
         else
           && t.phase == Submit(q[1..]) && HistoryKept(s, t)
           && t.rows == s.rows[q[0] := r.(status := Refunded, updatedAt := c.now)]
  {
    HeadOfQueue(cfg, s);
    KeyIsFree(cfg, s, s.phase.queue[0]);
    hide Sound, HasRefund;
  }

  lemma PersistedStep(cfg: Settings, s: System, now: Time)
    requires s.phase.Signed? && s.phase.queue != [] && s.phase.queue[0] < |s.rows|
    ensures
      var q, tx := s.phase.queue, s.phase.tx;
      Step(cfg, s, Persist(now, Done))
      == s.(rows := s.rows[q[0] := s.rows[q[0]].(status := Submitted, hash := Some(tx), gasPrice := tx.gasPrice,
                                                 updatedAt := now)],
            phase := Persisted(q, tx))
  {
  }

  lemma BroadcastStepDone(cfg: Settings, s: System, reached: bool)
    requires s.phase.Persisted? && s.phase.queue != []
    ensures
      var t := Step(cfg, s, Broadcast(reached));
      && t.rows == s.rows && HistoryKept(s, t) && t.phase == Submit(s.phase.queue[1..])
      && (reached ==> Send(s.phase.queue[0], s.phase.tx) in t.sent)
  {
    assert reached ==>
             Step(cfg, s, Broadcast(reached)).sent[|s.sent|] == Send(s.phase.queue[0], s.phase.tx);
  }

  /** The await and the step after it. */
  lemma AwaitThen(cfg: Settings, s: System, evs: seq<Event>, slot: Slot, ev: Event)
    requires Sound(cfg, s) && AllOutside(slot.evs) && !slot.dies
    ensures
      var t, u := Run(cfg, s, evs), Run(cfg, s, evs + AwaitEvents(slot));
      && Unmoved(t, u) && Sound(cfg, u)
      && Run(cfg, s, evs + AwaitEvents(slot) + [ev]) == Step(cfg, u, ev)
      && Sound(cfg, Step(cfg, u, ev))
  {
    hide Sound, Unmoved, Step, Run;
    RunKeepsSound(cfg, s, evs);
    AwaitRun(cfg, Run(cfg, s, evs), slot);
    RunAppends(cfg, s, evs, AwaitEvents(slot));
    OneMore(cfg, s, evs + AwaitEvents(slot), ev);
  }

  lemma NothingHappened(cfg: Settings, s: System)
    ensures Run(cfg, s, []) == s
  {
  }

  /** The states a submission goes through: after each await and after each step. */
  lemma SubmitStates(cfg: Settings, s: System, c: SubmitScript)
    returns (u: System, v: System, w: System, x: System, y: System)
    requires Sound(cfg, s) && Easy(c)
    ensures Unmoved(s, u) && Sound(cfg, u) && v == Step(cfg, u, SignEvent(cfg, u, c))
    ensures
      var t := Run(cfg, s, SubmitEvents(cfg, s, c));
      && Sound(cfg, t)
      && if !v.phase.Signed? then t == v
         else
           && Unmoved(v, w) && x == Step(cfg, w, Persist(c.now, Done))
           && if x.phase.Idle? then t == x else Unmoved(x, y) && t == Step(cfg, y, Broadcast(c.reached))
  {
    hide Run, Step, Sound, SignEvent, Unmoved;
    var a := AwaitEvents(c.beforeSign);
    NothingHappened(cfg, s);
    assert [] + a == a;
    u := Run(cfg, s, a);
    AwaitThen(cfg, s, [], c.beforeSign, SignEvent(cfg, u, c));
    var b := a + [SignEvent(cfg, u, c)];
    v := Run(cfg, s, b);
    w, x, y := v, v, v;
    if v.phase.Signed? {
      AwaitThen(cfg, s, b, c.beforePersist, Persist(c.now, c.persist));
      w := Run(cfg, s, b + AwaitEvents(c.beforePersist));
      var d := b + AwaitEvents(c.beforePersist) + [Persist(c.now, c.persist)];
      x := Run(cfg, s, d);
      AwaitThen(cfg, s, d, c.beforeSend, Broadcast(c.reached));
      y := Run(cfg, s, d + AwaitEvents(c.beforeSend));
    }
  }

  /** A signed head that is stored and sent, with others acting in between. */
  lemma SignedGoes(cfg: Settings, s: System, w: System, y: System, c: SubmitScript)
    requires s.phase.Signed? && s.phase.queue != [] && s.phase.queue[0] < |s.rows| && Unmoved(s, w)
    requires Unmoved(Step(cfg, w, Persist(c.now, Done)), y)
    ensures
      var t, q, tx := Step(cfg, y, Broadcast(c.reached)), s.phase.queue, s.phase.tx;
      && !Step(cfg, w, Persist(c.now, Done)).phase.Idle?
      && q[0] < |t.rows| && OthersKept(s, t, q[0]) && HistoryKept(s, t) && t.phase == Submit(q[1..])
      && t.rows[q[0]]
         == s.rows[q[0]].(status := Submitted, hash := Some(tx), gasPrice := tx.gasPrice, updatedAt := c.now)
      && (c.reached ==> Send(q[0], tx) in t.sent)
  {
    PersistedStep(cfg, w, c.now);
    BroadcastStepDone(cfg, y, c.reached);
    hide Step;
  }

  /** What was done after an await was done. */
  lemma AfterAwait(cfg: Settings, s: System, u: System, t: System, id: Id, c: SubmitScript)
    requires Unmoved(s, u) && id < |s.rows| && OnItsWay(cfg, u, t, id, c) && OthersKept(u, t, id) && HistoryKept(u, t)
    ensures OnItsWay(cfg, s, t, id, c) && OthersKept(s, t, id) && HistoryKept(s, t)
  {
  }

  lemma SentIsOnItsWay(cfg: Settings, u: System, t: System, id: Id, c: SubmitScript)
    requires id < |u.rows| && id < |t.rows| && c.signs && u.rows[id].net * cfg.scale / 100000000 > 0
    requires
      var tx := TxFor(cfg, u.rows[id], c);
      && t.rows[id] == u.rows[id].(status := Submitted, hash := Some(tx), gasPrice := tx.gasPrice, updatedAt := c.now)
      && (c.reached ==> Send(id, tx) in t.sent)
    ensures OnItsWay(cfg, u, t, id, c)
  {
  }

  lemma SameHistory(u: System, v: System, t: System)
    requires v.mined == u.mined && v.sent == u.sent && HistoryKept(v, t)
    ensures HistoryKept(u, t)
  {
  }

  lemma SubmittedOnce(cfg: Settings, s: System, c: SubmitScript)
    requires Sound(cfg, s) && s.phase.Submit? && s.phase.queue != [] && Easy(c)
    ensures
      var t := Run(cfg, s, SubmitEvents(cfg, s, c));
      && OnItsWay(cfg, s, t, s.phase.queue[0], c) && OthersKept(s, t, s.phase.queue[0]) && HistoryKept(s, t)
      && t.phase == Submit(s.phase.queue[1..]) && Sound(cfg, t)
  {
    HeadOfQueue(cfg, s);
    hide Run, Step, Sound, SignEvent, SubmitEvents, HistoryKept;
    var u, v, w, x, y := SubmitStates(cfg, s, c);
    var t, id := Run(cfg, s, SubmitEvents(cfg, s, c)), s.phase.queue[0];
    SignedStep(cfg, u, c);
    if v.phase.Signed? {
      PersistedStep(cfg, w, c.now);
      SignedGoes(cfg, v, w, y, c);
      SameHistory(u, v, t);
      SentIsOnItsWay(cfg, u, t, id, c);
    }
    hide Unmoved, OnItsWay, OthersKept;
    AfterAwait(cfg, s, u, t, id, c);
  }

  /** The first `n` of the queue are on their way, and nobody has touched the rest. */
  ghost predicate AllOnTheirWay(cfg: Settings, s: System, t: System, q: seq<Id>, submits: nat -> SubmitScript, n: nat)
    requires n <= |q|
  {
    && |s.rows| <= |t.rows| && HistoryKept(s, t)
    && (forall i | 0 <= i < |q| :: q[i] < |s.rows|)
    && (forall i | 0 <= i < n :: OnItsWay(cfg, s, t, q[i], submits(i)))
    && (forall i | n <= i < |q| :: t.rows[q[i]] == s.rows[q[i]])
    && (forall id | 0 <= id < |s.rows| && id !in q :: t.rows[id] == s.rows[id])
  }

  lemma OneMoreOnItsWay(cfg: Settings, s: System, t: System, u: System, q: seq<Id>, submits: nat -> SubmitScript,
      n: nat)
    requires n < |q| && DistinctIds(q) && AllOnTheirWay(cfg, s, t, q, submits, n)
    requires OnItsWay(cfg, t, u, q[n], submits(n)) && OthersKept(t, u, q[n]) && HistoryKept(t, u)
    ensures AllOnTheirWay(cfg, s, u, q, submits, n + 1)
  {
    forall i | 0 <= i <= n
      ensures OnItsWay(cfg, s, u, q[i], submits(i))
    {
      assert i < n ==> OnItsWay(cfg, s, t, q[i], submits(i)) && q[i] != q[n];
    }
    assert q[n] in q;
  }

  lemma NoneOnItsWay(cfg: Settings, s: System, q: seq<Id>, submits: nat -> SubmitScript)
    requires forall i | 0 <= i < |q| :: q[i] < |s.rows|
    ensures Run(cfg, s, []) == s && AllOnTheirWay(cfg, s, s, q, submits, 0)
  {
    hide OnItsWay;
  }

  /** A submission pass over claimed rows, from any sound state: every row it comes to is submitted, stored and sent, or
      refunded; every other row is left alone. */
  lemma {:induction false} PassSubmits(cfg: Settings, s: System, submits: nat -> SubmitScript, n: nat)
    requires Sound(cfg, s) && s.phase.Submit? && n <= |s.phase.queue|
    requires forall i: nat | i < n :: Easy(submits(i))
    ensures
      var t, q := Run(cfg, s, SubmitAllEvents(cfg, s, submits, n)), s.phase.queue;
      t.phase == Submit(q[n..]) && Sound(cfg, t) && AllOnTheirWay(cfg, s, t, q, submits, n)
  {
    hide Run, Step, Sound, SubmitEvents, OnItsWay, OthersKept, HistoryKept, AllOnTheirWay, DistinctIds, Easy;
    QueueApart(cfg, s);
    var q := s.phase.queue;
    if n == 0 {
      NoneOnItsWay(cfg, s, q, submits);
    } else {
      PassSubmits(cfg, s, submits, n - 1);
      var before := SubmitAllEvents(cfg, s, submits, n - 1);
      var t := Run(cfg, s, before);
      SubmittedOnce(cfg, t, submits(n - 1));
      RunAppends(cfg, s, before, SubmitEvents(cfg, t, submits(n - 1)));
      OneMoreOnItsWay(cfg, s, t, Run(cfg, t, SubmitEvents(cfg, t, submits(n - 1))), q, submits, n - 1);
    }
  }

  // ----- From the start, and a whole tick -----

  lemma StartIsSound(cfg: Settings)
    ensures Sound(cfg, INITIAL)
  {
    InitialIsSafe(cfg);
    InitialBooks(cfg, 0);
  }

  /** In every reachable state, a confirmation pass that nothing interrupts leaves no checked row in `submitted` whose
      receipt was there and whose check was answered: a success confirms it, a revert refunds it. */
  lemma FinalReceiptsAreTaken(cfg: Settings, evs: seq<Event>, checks: nat -> CheckScript, i: nat, tx: Tx, ok: bool)
    requires var s := Run(cfg, INITIAL, evs); s.phase.Confirm? && i < |s.phase.queue| && checks(i).answered
    requires forall j: nat :: Smooth(checks(j))
    requires
      var s := Run(cfg, INITIAL, evs);
      && s.phase.queue[i] < |s.rows| && s.rows[s.phase.queue[i]].hash == Some(tx)
      && tx.nonce in s.mined && s.mined[tx.nonce] == Receipt(tx, ok)
    ensures
      var s := Run(cfg, INITIAL, evs);
      var t := Run(cfg, s, ConfirmAllEvents(cfg, s, checks, |s.phase.queue|));
      && s.phase.queue[i] < |t.rows|
      && t.rows[s.phase.queue[i]]
         == s.rows[s.phase.queue[i]].(status := if ok then Confirmed else Refunded, updatedAt := checks(i).now)
  {
    StartIsSound(cfg);
    RunKeepsSound(cfg, INITIAL, evs);
    var s := Run(cfg, INITIAL, evs);
    hide Run, Sound, Smooth, ConfirmAllEvents, HistoryKept;
    PassFinishes(cfg, s, checks, |s.phase.queue|);
    assert Checked(s, Run(cfg, s, ConfirmAllEvents(cfg, s, checks, |s.phase.queue|)), s.phase.queue[i], checks(i));
  }

  predicate PastClaiming(st: Status) { st in {Submitted, Confirmed, Refunded} }

  ghost predicate OnCourse(r: Withdrawal, q: Withdrawal) { PastClaiming(q.status) && q.hash == r.hash }

  lemma ClaimKeepsCourse(cfg: Settings, s: System, now: Time, commit: Commit, id: Id)
    requires id < |s.rows| && PastClaiming(s.rows[id].status)
    ensures var t := Step(cfg, s, Claim(now, commit)); id < |t.rows| && OnCourse(s.rows[id], t.rows[id])
  {
    if s.phase.Recovered? {
      ClaimStep(cfg, s, now, commit);
      TakeIsPrefix(s.rows, Pending, CLAIM_LIMIT);
      hide Step, IdsWith, Take;
    }
  }

  lemma SignKeepsCourse(cfg: Settings, s: System, signing: Signing, now: Time, id: Id)
    requires Sound(cfg, s) && s.phase.Submit? && id < |s.rows| && PastClaiming(s.rows[id].status)
    ensures var t := SignHead(cfg, s, signing, now); id < |t.rows| && OnCourse(s.rows[id], t.rows[id])
  {
    if s.phase.queue != [] {
      HeadOfQueue(cfg, s);
    }
    hide Sound, HasRefund;
  }

  lemma PersistKeepsCourse(cfg: Settings, s: System, now: Time, commit: Commit, id: Id)
    requires Sound(cfg, s) && s.phase.Signed? && id < |s.rows| && PastClaiming(s.rows[id].status)
    ensures var t := PersistHead(s, now, commit); id < |t.rows| && OnCourse(s.rows[id], t.rows[id])
  {
    assert s.rows[s.phase.queue[0]].status.Submitting?;
    hide Sound;
  }

  lemma CheckKeepsCourse(s: System, answered: bool, now: Time, commit: Commit, id: Id)
    requires s.phase.Confirm? && id < |s.rows| && PastClaiming(s.rows[id].status)
    ensures var t := CheckHead(s, answered, now, commit); id < |t.rows| && OnCourse(s.rows[id], t.rows[id])
  {
  }

  lemma OthersKeepCourse(cfg: Settings, s: System, ev: Event, id: Id)
    requires id < |s.rows| && PastClaiming(s.rows[id].status) && !ev.Claim?
    requires !(ev.Sign? && s.phase.Submit?) && !(ev.Persist? && s.phase.Signed?) && !(ev.Check? && s.phase.Confirm?)
    ensures var t := Step(cfg, s, ev); id < |t.rows| && OnCourse(s.rows[id], t.rows[id])
  {
    hide SignHead, PersistHead, CheckHead, MayCreate, IdsWith, Take;
  }

  lemma StepKeepsCourse(cfg: Settings, s: System, ev: Event, id: Id)
    requires Sound(cfg, s) && id < |s.rows| && PastClaiming(s.rows[id].status)
    ensures var t := Step(cfg, s, ev); id < |t.rows| && OnCourse(s.rows[id], t.rows[id])
  {
    if ev.Claim? {
      ClaimKeepsCourse(cfg, s, ev.now, ev.commit, id);
    } else if ev.Sign? && s.phase.Submit? {
      SignKeepsCourse(cfg, s, ev.signing, ev.now, id);
    } else if ev.Persist? && s.phase.Signed? {
      PersistKeepsCourse(cfg, s, ev.now, ev.commit, id);
    } else if ev.Check? && s.phase.Confirm? {
      CheckKeepsCourse(s, ev.answered, ev.now, ev.commit, id);
    } else {
      OthersKeepCourse(cfg, s, ev, id);
    }
    hide Sound, SignHead, PersistHead, CheckHead, MayCreate, BroadcastHead;
  }

  lemma SentGrows(cfg: Settings, s: System, ev: Event)
    ensures forall x | x in s.sent :: x in Step(cfg, s, ev).sent
  {
    hide MayCreate, IdsWith, Take;
  }

  /** Whatever happens later, a row that was submitted or refunded never comes back to be claimed, and keeps its
      transaction. */
  lemma {:induction false} RunKeepsCourse(cfg: Settings, s: System, evs: seq<Event>, id: Id)
    requires Sound(cfg, s) && id < |s.rows| && PastClaiming(s.rows[id].status)
    ensures
      var t := Run(cfg, s, evs);
      && id < |t.rows| && PastClaiming(t.rows[id].status) && t.rows[id].hash == s.rows[id].hash
      && forall x | x in s.sent :: x in t.sent
    decreases |evs|
  {
    hide Step, Sound;
    if evs != [] {
      StepKeepsCourse(cfg, s, evs[0], id);
      SentGrows(cfg, s, evs[0]);
      OneMore(cfg, s, [], evs[0]);
      assert [] + [evs[0]] == [evs[0]] && Run(cfg, s, []) == s;
      RunKeepsCourse(cfg, Step(cfg, s, evs[0]), evs[1..], id);
    }
  }

  /** Waits to be claimed at the start of a tick, if need be after recovery. */
  predicate Waits(cfg: Settings, r: Withdrawal, now: Time)
  {
    r.status == Pending || (r.status == Submitting && r.updatedAt < now - cfg.recoverAfter)
  }

  function Waiting(cfg: Settings, rows: seq<Withdrawal>, now: Time): nat
  {
    if rows == [] then 0
    else Waiting(cfg, rows[..|rows| - 1], now) + if Waits(cfg, rows[|rows| - 1], now) then 1 else 0
  }

  lemma {:induction false} WaitingIsPending(cfg: Settings, rows: seq<Withdrawal>, later: seq<Withdrawal>, now: Time,
      i: nat)
    requires i <= |rows| <= |later|
    requires forall j | 0 <= j < |rows| :: later[j].status.Pending? <==> Waits(cfg, rows[j], now)
    ensures CountWith(later[..i], Pending) == Waiting(cfg, rows[..i], now)
  {
    if i > 0 {
      WaitingIsPending(cfg, rows, later, now, i - 1);
      assert later[..i][..i - 1] == later[..i - 1] && rows[..i][..i - 1] == rows[..i - 1];
    }
  }

  /** Every commit of the tick takes effect and the process lives through it. */
  ghost predicate EasyTick(s: TickScript)
  {
    && s.recover.Done? && s.claim.Done? && AllOutside(s.beforeClaim.evs) && !s.beforeClaim.dies
    && (forall i: nat :: Easy(s.submits(i)))
  }

  /** Claiming picks the row, as far ahead in the queue as there are waiting rows before it. */
  lemma ClaimPicks(cfg: Settings, s: System, v: System, now: Time, id: Id)
    requires v.phase.Recovered? && |s.rows| <= |v.rows| && id < |s.rows|
    requires forall j | 0 <= j < |s.rows| :: v.rows[j] == RecoverRows(cfg, s.rows, now)[j]
    requires Waits(cfg, s.rows[id], now) && Waiting(cfg, s.rows[..id], now) < 20
    ensures
      var u, k := Step(cfg, v, Claim(now, Done)), Waiting(cfg, s.rows[..id], now);
      && u.phase.Submit? && k < |u.phase.queue| && u.phase.queue[k] == id && |u.rows| == |v.rows|
      && u.rows[id] == s.rows[id].(status := Submitting, updatedAt := now)
  {
    ClaimStep(cfg, v, now, Done);
    OldestFirst(v.rows, Pending, CLAIM_LIMIT);
    WaitingIsPending(cfg, s.rows, v.rows, now, id);
    hide Step, CountWith, Waiting, IdsWith, Take;
    assert id in Step(cfg, v, Claim(now, Done)).phase.queue;
  }

  lemma RecoverDone(cfg: Settings, s: System, now: Time)
    requires s.phase.Idle?
    ensures Run(cfg, s, [Recover(now, Done)]) == s.(rows := RecoverRows(cfg, s.rows, now), phase := Recovered)
  {
    assert [Recover(now, Done)][1..] == [];
    assert Run(cfg, s, [Recover(now, Done)]) == Run(cfg, Step(cfg, s, Recover(now, Done)), []);
  }

  lemma ClaimLeadsOn(cfg: Settings, v: System, now: Time)
    requires v.phase.Recovered?
    ensures var u := Step(cfg, v, Claim(now, Done)); u.phase.Submit? && |u.rows| == |v.rows|
  {
    ClaimStep(cfg, v, now, Done);
  }

  /** The state in which a tick begins to submit. */
  lemma ClaimedState(cfg: Settings, s: System, script: TickScript) returns (u: System, evs: seq<Event>)
    requires Sound(cfg, s) && s.phase.Idle? && EasyTick(script)
    ensures evs == [Recover(script.now, Done)] + AwaitEvents(script.beforeClaim) + [Claim(script.now, Done)]
    ensures u == Run(cfg, s, evs) && Sound(cfg, u) && u.phase.Submit? && |s.rows| <= |u.rows|
    ensures
      forall id | 0 <= id < |s.rows| && Waits(cfg, s.rows[id], script.now)
                  && Waiting(cfg, s.rows[..id], script.now) < 20 ::
        && Waiting(cfg, s.rows[..id], script.now) < |u.phase.queue|
        && u.phase.queue[Waiting(cfg, s.rows[..id], script.now)] == id
        && u.rows[id] == s.rows[id].(status := Submitting, updatedAt := script.now)
  {
    hide Run, Step, Sound, Waiting, Waits, HistoryKept;
    var recover, claim := Recover(script.now, Done), Claim(script.now, Done);
    RecoverDone(cfg, s, script.now);
    AwaitThen(cfg, s, [recover], script.beforeClaim, claim);
    var v := Run(cfg, s, [recover] + AwaitEvents(script.beforeClaim));
    ClaimLeadsOn(cfg, v, script.now);
    evs := [recover] + AwaitEvents(script.beforeClaim) + [claim];
    u := Run(cfg, s, evs);
    forall id | 0 <= id < |s.rows| && Waits(cfg, s.rows[id], script.now)
                && Waiting(cfg, s.rows[..id], script.now) < 20
      ensures
        && Waiting(cfg, s.rows[..id], script.now) < |u.phase.queue|
        && u.phase.queue[Waiting(cfg, s.rows[..id], script.now)] == id
        && u.rows[id] == s.rows[id].(status := Submitting, updatedAt := script.now)
    {
      ClaimPicks(cfg, s, v, script.now, id);
    }
  }

  /** The tick goes on after its submissions, but it begins with them. */
  lemma TickBegins(cfg: Settings, s: System, script: TickScript, c: seq<Event>) returns (rest: seq<Event>)
    requires c == [Recover(script.now, Done)] + AwaitEvents(script.beforeClaim) + [Claim(script.now, Done)]
    requires script.recover.Done? && script.claim.Done? && !script.beforeClaim.dies
    requires !Run(cfg, s, [Recover(script.now, Done)]).phase.Idle? && !Run(cfg, s, c).phase.Idle?
    ensures
      var u := Run(cfg, s, c);
      TickEvents(cfg, s, script) == c + SubmitAllEvents(cfg, u, script.submits, QueueLength(u)) + rest
  {
    hide Run, SubmitAllEvents, ConfirmEvents, QueueLength;
    var u := Run(cfg, s, c);
    var d := c + SubmitAllEvents(cfg, u, script.submits, QueueLength(u));
    var e := d + AwaitEvents(script.beforeConfirm);
    var f := e + [SelectSubmitted];
    if Run(cfg, s, d).phase.Idle? {
      rest := [];
    } else if script.beforeConfirm.dies {
      rest := AwaitEvents(script.beforeConfirm);
    } else {
      rest := AwaitEvents(script.beforeConfirm) + [SelectSubmitted]
              + ConfirmEvents(cfg, Run(cfg, s, f), script.checks, script.now);
    }
  }

  lemma RefundStays(cfg: Settings, s: System, evs: seq<Event>, id: Id)
    requires Sound(cfg, s) && id < |s.rows| && s.rows[id].status.Refunded?
    ensures var t := Run(cfg, s, evs); id < |t.rows| && t.rows[id] == s.rows[id]
  {
    RunKeepsRefunded(cfg, s, evs, id);
  }

  lemma AllGone(cfg: Settings, s: System, t: System, q: seq<Id>, submits: nat -> SubmitScript, i: nat)
    requires i < |q| && AllOnTheirWay(cfg, s, t, q, submits, |q|)
    ensures OnItsWay(cfg, s, t, q[i], submits(i))
  {
  }

  /** A tick whose commits take effect and whose process lives sends off each of the twenty oldest withdrawals that
      wait: signed for its address and its net amount, stored, and sent if the node can be reached; or refunded if
      signing fails or the amount is dust. None of them is left waiting. */
  lemma TickSubmits(cfg: Settings, s: System, script: TickScript, id: Id)
    requires Sound(cfg, s) && s.phase.Idle? && EasyTick(script) && id < |s.rows|
    requires Waits(cfg, s.rows[id], script.now) && Waiting(cfg, s.rows[..id], script.now) < 20
    ensures
      var t, r := Run(cfg, s, TickEvents(cfg, s, script)), s.rows[id];
      var c := script.submits(Waiting(cfg, s.rows[..id], script.now));
      var units, gas := r.net * cfg.scale / 100000000, if r.gasPrice > 0 then r.gasPrice else c.gasPrice;
      && id < |t.rows|
      && if c.signs && units > 0 then
           && t.rows[id].hash == Some(Tx(c.nonce, r.to, units, gas))
           && t.rows[id].status in {Submitted, Confirmed, Refunded}
           && (c.reached ==> Send(id, Tx(c.nonce, r.to, units, gas)) in t.sent)
         else t.rows[id].status == Refunded
  {
    hide Run, Step, Sound, SubmitAllEvents, TickEvents, AllOnTheirWay, HistoryKept, Easy, Waiting, Waits;
    var u, evs := ClaimedState(cfg, s, script);
    RecoverDone(cfg, s, script.now);
    var rest := TickBegins(cfg, s, script, evs);
    var q := u.phase.queue;
    var submits := SubmitAllEvents(cfg, u, script.submits, |q|);
    PassSubmits(cfg, u, script.submits, |q|);
    var v := Run(cfg, u, submits);
    AllGone(cfg, u, v, q, script.submits, Waiting(cfg, s.rows[..id], script.now));
    RunAppends(cfg, s, evs, submits);
    RunAppends(cfg, s, evs + submits, rest);
    RunKeepsCourse(cfg, v, rest, id);
    if v.rows[id].status.Refunded? {
      RefundStays(cfg, v, rest, id);
    }
  }

  // ----- The confirmations of a tick -----

  function Unfinished(rows: seq<Withdrawal>): nat
  {
    if rows == [] then 0 else Unfinished(rows[..|rows| - 1]) + if NonTerminal(rows[|rows| - 1].status) then 1 else 0
  }

  /** Rows keep their order and a finished one stays finished. */
  ghost predicate Later(s: System, t: System)
  {
    && |s.rows| <= |t.rows| && (forall i | 0 <= i < |s.rows| :: Evolves(s.rows[i], t.rows[i]))
    && (forall n | n in s.mined :: n in t.mined && t.mined[n] == s.mined[n])
  }

  lemma MinedGrows(cfg: Settings, s: System, ev: Event)
    ensures forall n | n in s.mined :: n in Step(cfg, s, ev).mined && Step(cfg, s, ev).mined[n] == s.mined[n]
  {
    hide MayCreate, IdsWith, Take;
  }

  lemma StepIsLater(cfg: Settings, s: System, ev: Event)
    requires Sound(cfg, s)
    ensures Later(s, Step(cfg, s, ev))
  {
    StepEvolves(cfg, s, ev);
    MinedGrows(cfg, s, ev);
    hide Step, Sound, MayCreate;
  }

  lemma LaterAgain(s: System, t: System, u: System)
    requires Later(s, t) && Later(t, u)
    ensures Later(s, u)
  {
    forall i | 0 <= i < |s.rows|
      ensures Evolves(s.rows[i], u.rows[i])
    {
      assert Evolves(s.rows[i], t.rows[i]) && Evolves(t.rows[i], u.rows[i]);
    }
  }

  lemma LaterAtOnce(s: System)
    ensures Later(s, s)
  {
  }

  lemma {:induction false} RunIsLater(cfg: Settings, s: System, evs: seq<Event>)
    requires Sound(cfg, s)
    ensures Later(s, Run(cfg, s, evs)) && Sound(cfg, Run(cfg, s, evs))
    decreases |evs|
  {
    hide Step, Sound, Later;
    RunKeepsSound(cfg, s, evs);
    if evs == [] {
      LaterAtOnce(s);
    } else {
      StepIsLater(cfg, s, evs[0]);
      OneMore(cfg, s, [], evs[0]);
      assert [] + [evs[0]] == [evs[0]] && Run(cfg, s, []) == s;
      RunIsLater(cfg, Step(cfg, s, evs[0]), evs[1..]);
      LaterAgain(s, Step(cfg, s, evs[0]), Run(cfg, Step(cfg, s, evs[0]), evs[1..]));
    }
  }

  lemma {:induction false} FewerSubmitted(s: System, t: System, i: nat)
    requires Later(s, t) && i <= |s.rows|
    ensures CountWith(t.rows[..i], Submitted) <= Unfinished(s.rows[..i])
  {
    if i > 0 {
      FewerSubmitted(s, t, i - 1);
      assert t.rows[..i][..i - 1] == t.rows[..i - 1] && s.rows[..i][..i - 1] == s.rows[..i - 1];
      assert Evolves(s.rows[i - 1], t.rows[i - 1]);
    }
  }

  ghost predicate FullTick(s: TickScript)
  {
    && EasyTick(s) && AllOutside(s.beforeConfirm.evs) && !s.beforeConfirm.dies
    && forall i: nat :: Smooth(s.checks(i)) && s.checks(i).answered
  }

  /** A whole tick, part by part, and the state in which it begins to check. */
  lemma TickInFull(cfg: Settings, s: System, script: TickScript) returns (v: System, f: seq<Event>)
    requires Sound(cfg, s) && s.phase.Idle? && FullTick(script)
    ensures v == Run(cfg, s, f) && Sound(cfg, v)
    ensures v.phase == Confirm(Take(IdsWith(v.rows, Submitted), CONFIRM_LIMIT))
    ensures
      TickEvents(cfg, s, script)
      == f + ConfirmAllEvents(cfg, v, script.checks, |v.phase.queue|) + [Check(true, script.now, Done)]
  {
    hide Run, Step, Sound, SubmitAllEvents, ConfirmAllEvents, AllOnTheirWay, AllChecked, Easy, Smooth, IdsWith, Take;
    var u, c := ClaimedState(cfg, s, script);
    RecoverDone(cfg, s, script.now);
    var submits := SubmitAllEvents(cfg, u, script.submits, |u.phase.queue|);
    PassSubmits(cfg, u, script.submits, |u.phase.queue|);
    RunAppends(cfg, s, c, submits);
    var d := c + submits;
    AwaitThen(cfg, s, d, script.beforeConfirm, SelectSubmitted);
    f := d + AwaitEvents(script.beforeConfirm) + [SelectSubmitted];
    v := Run(cfg, s, f);
    SelectStep(cfg, Run(cfg, s, d + AwaitEvents(script.beforeConfirm)));
    PassFinishes(cfg, v, script.checks, |v.phase.queue|);
  }

  /** A row whose transaction has its receipt, past claiming and no longer submitted, ended as the receipt says. */
  lemma EndsByReceipt(cfg: Settings, s: System, id: Id, tx: Tx, ok: bool)
    requires Sound(cfg, s) && id < |s.rows| && s.rows[id].hash == Some(tx)
    requires tx.nonce in s.mined && s.mined[tx.nonce] == Receipt(tx, ok)
    requires s.rows[id].status in {Confirmed, Refunded}
    ensures s.rows[id].status == if ok then Confirmed else Refunded
  {
    assert RowOk(cfg, s.mined, s.rows[id]);
  }

  /** The pass takes a row that is among the first fifty in `submitted`. */
  lemma SelectedIsFinished(cfg: Settings, v: System, checks: nat -> CheckScript, id: Id, tx: Tx, ok: bool)
    requires Sound(cfg, v) && v.phase == Confirm(Take(IdsWith(v.rows, Submitted), CONFIRM_LIMIT))
    requires forall i: nat :: Smooth(checks(i)) && checks(i).answered
    requires id < |v.rows| && v.rows[id].status.Submitted? && v.rows[id].hash == Some(tx)
    requires CountWith(v.rows[..id], Submitted) < 50
    requires tx.nonce in v.mined && v.mined[tx.nonce] == Receipt(tx, ok)
    ensures
      var t := Run(cfg, v, ConfirmAllEvents(cfg, v, checks, |v.phase.queue|));
      id < |t.rows| && t.rows[id].status in {Confirmed, Refunded}
  {
    OldestFirst(v.rows, Submitted, CONFIRM_LIMIT);
    hide Run, Step, Sound, ConfirmAllEvents, HistoryKept, Smooth, CountWith, IdsWith, Take;
    PassFinishes(cfg, v, checks, |v.phase.queue|);
    assert id in v.phase.queue;
    var i :| 0 <= i < |v.phase.queue| && v.phase.queue[i] == id;
    assert Checked(v, Run(cfg, v, ConfirmAllEvents(cfg, v, checks, |v.phase.queue|)), v.phase.queue[i], checks(i));
  }

  /** A tick that nothing interrupts and whose checks are answered finishes every submitted withdrawal whose receipt is
      there, with fewer than fifty unfinished ones before it: confirmed if the transfer succeeded, refunded if it
      reverted. */
  lemma TickFinishes(cfg: Settings, s: System, script: TickScript, id: Id, tx: Tx, ok: bool)
    requires Sound(cfg, s) && s.phase.Idle? && FullTick(script) && id < |s.rows|
    requires s.rows[id].status == Submitted && s.rows[id].hash == Some(tx) && Unfinished(s.rows[..id]) < 50
    requires tx.nonce in s.mined && s.mined[tx.nonce] == Receipt(tx, ok)
    ensures
      var t := Run(cfg, s, TickEvents(cfg, s, script));
      id < |t.rows| && t.rows[id].status == (if ok then Confirmed else Refunded) && t.rows[id].hash == Some(tx)
  {
    hide Run, Step, Sound, ConfirmAllEvents, TickEvents, Smooth, CountWith, IdsWith, Take, Unfinished, EasyTick;
    var v, f := TickInFull(cfg, s, script);
    var checks := ConfirmAllEvents(cfg, v, script.checks, |v.phase.queue|);
    var w := Run(cfg, v, checks);
    var t := Run(cfg, s, TickEvents(cfg, s, script));
    RunAppends(cfg, s, f, checks);
    RunAppends(cfg, s, f + checks, [Check(true, script.now, Done)]);
    RunIsLater(cfg, s, f);
    RunKeepsCourse(cfg, s, f, id);
    FewerSubmitted(s, v, id);
    RunIsLater(cfg, v, checks);
    RunKeepsCourse(cfg, v, checks, id);
    if v.rows[id].status.Submitted? {
      SelectedIsFinished(cfg, v, script.checks, id, tx, ok);
    }
    assert Evolves(v.rows[id], w.rows[id]);
    RunIsLater(cfg, w, [Check(true, script.now, Done)]);
    RunKeepsCourse(cfg, w, [Check(true, script.now, Done)], id);
    assert Evolves(w.rows[id], t.rows[id]);
    EndsByReceipt(cfg, t, id, tx, ok);
  }
}
