/** When each confirmed withdrawal has a transfer of its own.

    The node counts nonces. If a stored transaction never reaches it, the next row is signed with the same nonce,
    and with the same address, amount and gas price the two transactions are one: both rows store one hash, and
    its receipt confirms both. No column forbids it.
*/
module PayoutSharing {
  import opened Common
  import opened Withdrawals
  import opened PayoutSafety
  import opened PayoutLedger

  /** No two rows store the same hash. */
  ghost predicate OwnHashes(rows: seq<Withdrawal>)
  {
    forall i, j | 0 <= i < j < |rows| && rows[i].hash.Some? :: rows[i].hash != rows[j].hash
  }

  predicate Stored(rows: seq<Withdrawal>, tx: Tx) { exists i | 0 <= i < |rows| :: rows[i].hash == Some(tx) }

  /** This step stores a hash that some row stores already: a lookup before the commit would show it. */
  predicate StoresTwice(s: System, ev: Event)
  {
    ev.Persist? && !ev.commit.RolledBack? && s.phase.Signed? && Stored(s.rows, s.phase.tx)
  }

  ghost predicate NeverStoresTwice(cfg: Settings, s: System, evs: seq<Event>)
    decreases |evs|
  {
    evs == [] || (!StoresTwice(s, evs[0]) && NeverStoresTwice(cfg, Step(cfg, s, evs[0]), evs[1..]))
  }

  /** A hash is stored by one kind of step, for a row that had none, and then stays. */
  lemma StepHashes(cfg: Settings, s: System, ev: Event)
    requires Safe(cfg, s)
    ensures
      var t := Step(cfg, s, ev);
      && |s.rows| <= |t.rows|
      && (forall i | |s.rows| <= i < |t.rows| :: t.rows[i].hash.None?)
      && if ev.Persist? && !ev.commit.RolledBack? && s.phase.Signed? then
           var head := s.phase.queue[0];
           && |t.rows| == |s.rows| && head < |s.rows| && s.rows[head].hash.None?
           && t.rows[head].hash == Some(s.phase.tx)
           && forall i | 0 <= i < |s.rows| && i != head :: t.rows[i].hash == s.rows[i].hash
         else forall i | 0 <= i < |s.rows| :: t.rows[i].hash == s.rows[i].hash
  {
    if ev.Persist? && s.phase.Signed? {
      assert RowOk(cfg, s.mined, s.rows[s.phase.queue[0]]);
    }
  }

  /** One step makes two rows share a hash if and only if it stores one that is already stored. */
  lemma SharingStartsIff(cfg: Settings, s: System, ev: Event)
    requires Safe(cfg, s) && OwnHashes(s.rows)
    ensures OwnHashes(Step(cfg, s, ev).rows) <==> !StoresTwice(s, ev)
  {
    StepHashes(cfg, s, ev);
    hide Step, Safe;
    if StoresTwice(s, ev) {
      var head := s.phase.queue[0];
      var i :| 0 <= i < |s.rows| && s.rows[i].hash == Some(s.phase.tx);
      assert i != head;
    }
  }

  lemma SharingStays(cfg: Settings, s: System, ev: Event)
    requires Safe(cfg, s) && !OwnHashes(s.rows)
    ensures !OwnHashes(Step(cfg, s, ev).rows)
  {
    StepHashes(cfg, s, ev);
    hide Step, Safe;
    var i, j :| 0 <= i < j < |s.rows| && s.rows[i].hash.Some? && s.rows[i].hash == s.rows[j].hash;
    assert Step(cfg, s, ev).rows[i].hash == Step(cfg, s, ev).rows[j].hash;
  }

  lemma {:induction false} SharingStaysInRuns(cfg: Settings, s: System, evs: seq<Event>)
    requires Safe(cfg, s) && !OwnHashes(s.rows)
    ensures !OwnHashes(Run(cfg, s, evs).rows)
    decreases |evs|
  {
    hide Step, Safe, OwnHashes;
    if evs != [] {
      StepKeepsSafe(cfg, s, evs[0]);
      SharingStays(cfg, s, evs[0]);
      SharingStaysInRuns(cfg, Step(cfg, s, evs[0]), evs[1..]);
    }
  }

  lemma {:induction false} OwnHashesIff(cfg: Settings, s: System, evs: seq<Event>)
    requires Safe(cfg, s) && OwnHashes(s.rows)
    ensures OwnHashes(Run(cfg, s, evs).rows) <==> NeverStoresTwice(cfg, s, evs)
    decreases |evs|
  {
    hide Step, Safe, OwnHashes, StoresTwice;
    if evs != [] {
      StepKeepsSafe(cfg, s, evs[0]);
      SharingStartsIff(cfg, s, evs[0]);
      if StoresTwice(s, evs[0]) {
        SharingStaysInRuns(cfg, Step(cfg, s, evs[0]), evs[1..]);
      } else {
        OwnHashesIff(cfg, Step(cfg, s, evs[0]), evs[1..]);
      }
    }
  }

  /** After any run the rows' transfers are pairwise different if and only if the run never stored a hash twice. */
  lemma OwnTransfersIff(cfg: Settings, evs: seq<Event>)
    ensures OwnHashes(Run(cfg, INITIAL, evs).rows) <==> NeverStoresTwice(cfg, INITIAL, evs)
  {
    InitialIsSafe(cfg);
    OwnHashesIff(cfg, INITIAL, evs);
  }

  // ----- The cause: a nonce handed out again -----

  /** A stored transaction already carries this nonce. */
  predicate Carries(rows: seq<Withdrawal>, nonce: nat)
  {
    exists i | 0 <= i < |rows| :: rows[i].hash.Some? && rows[i].hash.value.nonce == nonce
  }

  /** The node counts a nonce as free although a stored transaction carries it: that transaction never arrived. */
  predicate ReusesNonce(s: System, ev: Event)
  {
    ev.Sign? && ev.signing.SignedWith? && s.phase.Submit? && Carries(s.rows, ev.signing.nonce)
  }

  ghost predicate NeverReusesNonce(cfg: Settings, s: System, evs: seq<Event>)
    decreases |evs|
  {
    evs == [] || (!ReusesNonce(s, evs[0]) && NeverReusesNonce(cfg, Step(cfg, s, evs[0]), evs[1..]))
  }

  predicate SignedFresh(s: System) { s.phase.Signed? ==> !Carries(s.rows, s.phase.tx.nonce) }

  lemma SignedPhases(cfg: Settings, s: System, ev: Event)
    requires Safe(cfg, s) && Step(cfg, s, ev).phase.Signed?
    ensures
      var t := Step(cfg, s, ev);
      if s.phase.Signed? then t.phase == s.phase && (ev.Persist? ==> t == s)
      else
        && s.phase.Submit? && ev.Sign? && ev.signing.SignedWith?
        && t.rows == s.rows && t.phase.tx.nonce == ev.signing.nonce && t.phase.tx.units > 0
  {
  }

  lemma StepKeepsSignedFresh(cfg: Settings, s: System, ev: Event)
    requires Safe(cfg, s) && SignedFresh(s) && !ReusesNonce(s, ev)
    ensures SignedFresh(Step(cfg, s, ev)) && !StoresTwice(s, ev)
  {
    StepHashes(cfg, s, ev);
    if Step(cfg, s, ev).phase.Signed? {
      SignedPhases(cfg, s, ev);
    }
    hide Step, Safe;
  }

  lemma {:induction false} FreshNoncesStoreOnce(cfg: Settings, s: System, evs: seq<Event>)
    requires Safe(cfg, s) && SignedFresh(s) && NeverReusesNonce(cfg, s, evs)
    ensures NeverStoresTwice(cfg, s, evs)
    decreases |evs|
  {
    hide Step, Safe, SignedFresh, StoresTwice, ReusesNonce;
    if evs != [] {
      StepKeepsSafe(cfg, s, evs[0]);
      StepKeepsSignedFresh(cfg, s, evs[0]);
      FreshNoncesStoreOnce(cfg, Step(cfg, s, evs[0]), evs[1..]);
    }
  }

  /** As long as the node never hands out a nonce that a stored transaction carries, every row has a transaction of its
      own. The guard on the node is the cause: in the run of `PayoutRuns` it fails once, and two rows share one. */
  lemma FreshNoncesOwnTransfers(cfg: Settings, evs: seq<Event>)
    requires NeverReusesNonce(cfg, INITIAL, evs)
    ensures NeverStoresTwice(cfg, INITIAL, evs) && OwnHashes(Run(cfg, INITIAL, evs).rows)
  {
    InitialIsSafe(cfg);
    FreshNoncesStoreOnce(cfg, INITIAL, evs);
    OwnTransfersIff(cfg, evs);
  }

  // ----- Confirmed means paid in full -----

  function ConfirmedUnits(cfg: Settings, rows: seq<Withdrawal>): (r: seq<int>)
    ensures |r| == |rows|
    ensures forall i | 0 <= i < |r| :: r[i] == if rows[i].status.Confirmed? then Units(cfg, rows[i].net) else 0
  {
    seq(|rows|, i requires 0 <= i < |rows| => if rows[i].status.Confirmed? then Units(cfg, rows[i].net) else 0)
  }

  lemma ConfirmedRowMoved(cfg: Settings, s: System, id: Id)
    requires Safe(cfg, s) && OwnHashes(s.rows) && id < |s.rows| && s.rows[id].status.Confirmed?
    ensures Moved(s.rows[id], id, s.payer, s.mined) == Units(cfg, s.rows[id].net)
  {
    assert RowOk(cfg, s.mined, s.rows[id]);
    var tx := s.rows[id].hash.value;
    assert s.mined[tx.nonce].tx == tx && tx in s.payer;
    assert s.rows[s.payer[tx]].hash == Some(tx);
  }

  /** If no hash was stored twice, what was transferred covers every confirmed withdrawal in full. */
  lemma ConfirmedIsPaidInFull(cfg: Settings, evs: seq<Event>)
    requires NeverStoresTwice(cfg, INITIAL, evs)
    ensures var s := Run(cfg, INITIAL, evs); SumOf(ConfirmedUnits(cfg, s.rows)) <= s.transferred
  {
    InitialBooks(cfg, 0);
    RunKeepsBooks(cfg, INITIAL, evs, 0);
    OwnTransfersIff(cfg, evs);
    var s := Run(cfg, INITIAL, evs);
    hide Run, NeverStoresTwice;
    forall i | 0 <= i < |s.rows|
      ensures ConfirmedUnits(cfg, s.rows)[i] <= MovedByRow(s)[i]
    {
      if s.rows[i].status.Confirmed? {
        ConfirmedRowMoved(cfg, s, i);
      }
    }
    SumAtMost(ConfirmedUnits(cfg, s.rows), MovedByRow(s));
  }
}
