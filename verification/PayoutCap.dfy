/** Where the daily cap ends. In windows of a day less the skew it always holds; in a longer one a run can pass it
    if and only if the settings let any withdrawal be paid at all.
*/
module PayoutCap {
  import opened Common
  import opened Withdrawals
  import opened PayoutSafety
  import opened PayoutLedger
  import opened PayoutSharing
  import opened PayoutRuns

  /** An amount that a request may name and a transfer can carry. */
  predicate Payable(cfg: Settings, a: nat)
  {
    0 < a <= cfg.perDay && cfg.minAmount <= a <= cfg.maxAmount && Units(cfg, a) > 0
  }

  // ----- One more withdrawal, paid at time zero -----

  function RowOf(a: nat, st: Status, hash: Option<Tx>): Withdrawal
  {
    Withdrawal(ALICE, a, a, THERE, st, hash, 1, 0, 0, 0)
  }

  function TxOf(cfg: Settings, a: nat, n: nat): Tx { Tx(n, THERE, Units(cfg, a), 1) }

  function RequestOf(a: nat, now: Time, stamp: Time): Request { Request(ALICE, false, a, THERE, 0, 1, 0, now, stamp) }

  /** `n` withdrawals of `a`, all created and confirmed at time zero, the worker idle and the next nonce free. */
  ghost predicate Paid(cfg: Settings, a: nat, s: System, n: nat)
  {
    && |s.rows| == n && s.phase.Idle?
    && (forall i | 0 <= i < n :: s.rows[i] == RowOf(a, Confirmed, Some(TxOf(cfg, a, i))))
    && (forall tx | tx in s.payer :: tx.nonce < n)
    && (forall m | m in s.mined :: m < n)
  }

  lemma {:induction false} PaidSpent(cfg: Settings, a: nat, rows: seq<Withdrawal>, from: Time, to: Time)
    requires from <= 0 <= to
    requires forall i | 0 <= i < |rows| :: rows[i] == RowOf(a, Confirmed, Some(TxOf(cfg, a, i)))
    ensures Spent(rows, ALICE, from) == |rows| * a && WindowTotal(rows, ALICE, from, to) == |rows| * a
  {
    if rows != [] {
      PaidSpent(cfg, a, rows[..|rows| - 1], from, to);
    }
  }

  function With(s: System, r: Withdrawal, phase: Phase): System { s.(rows := s.rows + [r], phase := phase) }

  function Debited(s: System, a: nat): System
  {
    s.(ledger := s.ledger + [Entry(ALICE, -(a as int), Payout(|s.rows|))])
  }

  ghost predicate AllConfirmed(rows: seq<Withdrawal>) { forall i | 0 <= i < |rows| :: rows[i].status.Confirmed? }

  lemma {:induction false} NoneWith(rows: seq<Withdrawal>, st: Status)
    requires AllConfirmed(rows) && !st.Confirmed?
    ensures IdsWith(rows, st) == []
  {
    if rows != [] {
      NoneWith(rows[..|rows| - 1], st);
    }
  }

  lemma OnlyLast(rows: seq<Withdrawal>, r: Withdrawal)
    requires AllConfirmed(rows) && !r.status.Confirmed?
    ensures
      && IdsWith(rows + [r], r.status) == [|rows|]
      && Take([|rows|], CLAIM_LIMIT) == [|rows|] && Take([|rows|], CONFIRM_LIMIT) == [|rows|]
  {
    NoneWith(rows, r.status);
    assert (rows + [r])[..|rows|] == rows;
  }

  lemma ClaimLast(rows: seq<Withdrawal>, a: nat)
    ensures
      SetStatus(rows + [RowOf(a, Pending, None)], [|rows|], Submitting, 0) == rows + [RowOf(a, Submitting, None)]
  {
  }

  lemma MayCreateOne(cfg: Settings, a: nat, s: System, n: nat)
    requires Payable(cfg, a) && Paid(cfg, a, s, n) && (n + 1) * a <= cfg.perDay && a <= Balance(s.ledger, ALICE)
    ensures MayCreate(cfg, s, RequestOf(a, 0, 0))
  {
    PaidSpent(cfg, a, s.rows, -DAY, 0);
    hide Spent, Balance, Units;
    assert (n + 1) * a == n * a + a;
  }

  lemma CreatesOne(cfg: Settings, a: nat, s: System, n: nat)
    requires Payable(cfg, a) && Paid(cfg, a, s, n) && (n + 1) * a <= cfg.perDay && a <= Balance(s.ledger, ALICE)
    ensures Step(cfg, s, Create(RequestOf(a, 0, 0))) == With(Debited(s, a), RowOf(a, Pending, None), Idle)
  {
    MayCreateOne(cfg, a, s, n);
    hide MayCreate, Spent, Balance, Units;
  }

  lemma RecoversOne(cfg: Settings, b: System, r: Withdrawal)
    requires AllConfirmed(b.rows) && r.status.Pending?
    ensures Step(cfg, With(b, r, Idle), Recover(0, Done)) == With(b, r, Recovered)
  {
    assert RecoverRows(cfg, b.rows + [r], 0) == b.rows + [r];
  }

  lemma ClaimsOne(cfg: Settings, b: System, a: nat)
    requires AllConfirmed(b.rows)
    ensures
      Step(cfg, With(b, RowOf(a, Pending, None), Recovered), Claim(0, Done))
      == With(b, RowOf(a, Submitting, None), Submit([|b.rows|]))
  {
    OnlyLast(b.rows, RowOf(a, Pending, None));
    ClaimStep(cfg, With(b, RowOf(a, Pending, None), Recovered), 0, Done);
    ClaimLast(b.rows, a);
    hide IdsWith, Take, Step, SetStatus, RowOf;
  }

  lemma SignsOne(cfg: Settings, b: System, a: nat)
    requires Units(cfg, a) > 0
    ensures
      var n := |b.rows|;
      Step(cfg, With(b, RowOf(a, Submitting, None), Submit([n])), Sign(SignedWith(n, 1), 0))
      == With(b, RowOf(a, Submitting, None), Signed([n], TxOf(cfg, a, n)))
  {
    hide Units;
  }

  lemma StoresOne(cfg: Settings, b: System, a: nat)
    ensures
      var n, tx := |b.rows|, TxOf(cfg, a, |b.rows|);
      Step(cfg, With(b, RowOf(a, Submitting, None), Signed([n], tx)), Persist(0, Done))
      == With(b, RowOf(a, Submitted, Some(tx)), Persisted([n], tx))
  {
    hide Units;
  }

  /** What the network knows once the transaction has arrived, and once it is mined. */
  function Arrived(b: System, tx: Tx): System
    requires tx !in b.payer
  {
    b.(sent := b.sent + [Send(|b.rows|, tx)], payer := b.payer[tx := |b.rows|])
  }

  function Mined(b: System, tx: Tx): System
  {
    b.(mined := b.mined[tx.nonce := Receipt(tx, true)], transferred := b.transferred + tx.units)
  }

  lemma SendsOne(cfg: Settings, b: System, a: nat)
    requires TxOf(cfg, a, |b.rows|) !in b.payer
    ensures
      var n, tx := |b.rows|, TxOf(cfg, a, |b.rows|);
      Step(cfg, With(b, RowOf(a, Submitted, Some(tx)), Persisted([n], tx)), Broadcast(true))
      == With(Arrived(b, tx), RowOf(a, Submitted, Some(tx)), Submit([]))
  {
    hide Units;
    assert [|b.rows|][1..] == [];
  }

  lemma MinesOne(cfg: Settings, b: System, r: Withdrawal, tx: Tx)
    requires tx in b.payer && tx.nonce !in b.mined
    ensures Step(cfg, With(b, r, Submit([])), Mine(tx, true)) == With(Mined(b, tx), r, Submit([]))
  {
  }

  lemma SelectsOne(cfg: Settings, b: System, r: Withdrawal)
    requires AllConfirmed(b.rows) && r.status.Submitted?
    ensures Step(cfg, With(b, r, Submit([])), SelectSubmitted) == With(b, r, Confirm([|b.rows|]))
  {
    OnlyLast(b.rows, r);
    SelectStep(cfg, With(b, r, Submit([])));
    hide Step, IdsWith, Take;
  }

  lemma ChecksOne(cfg: Settings, b: System, a: nat, tx: Tx)
    requires ReceiptOf(b.mined, tx) == Some(true)
    ensures
      var submitted, confirmed := RowOf(a, Submitted, Some(tx)), RowOf(a, Confirmed, Some(tx));
      && Step(cfg, With(b, submitted, Confirm([|b.rows|])), Check(true, 0, Done)) == With(b, confirmed, Confirm([]))
      && Step(cfg, With(b, confirmed, Confirm([])), Check(true, 0, Done)) == With(b, confirmed, Idle)
  {
    hide ReceiptOf;
    assert [|b.rows|][1..] == [];
  }

  function Delivery(cfg: Settings, a: nat, n: nat): seq<Event>
  {
    [Broadcast(true)] + ([Mine(TxOf(cfg, a, n), true)] + ([SelectSubmitted] + ([Check(true, 0, Done)]
    + ([Check(true, 0, Done)] + []))))
  }

  /** Create, claim, sign, store, send, mine and confirm one withdrawal of `a` with nonce `n`. */
  function PayOne(cfg: Settings, a: nat, n: nat): seq<Event>
  {
    [Create(RequestOf(a, 0, 0))] + ([Recover(0, Done)] + ([Claim(0, Done)] + ([Sign(SignedWith(n, 1), 0)]
    + ([Persist(0, Done)] + Delivery(cfg, a, n)))))
  }

  lemma Delivers(cfg: Settings, b: System, a: nat)
    requires AllConfirmed(b.rows) && |b.rows| !in b.mined && TxOf(cfg, a, |b.rows|) !in b.payer
    ensures
      var n, tx := |b.rows|, TxOf(cfg, a, |b.rows|);
      Run(cfg, With(b, RowOf(a, Submitted, Some(tx)), Persisted([n], tx)), Delivery(cfg, a, n))
      == With(Mined(Arrived(b, tx), tx), RowOf(a, Confirmed, Some(tx)), Idle)
  {
    var n, tx := |b.rows|, TxOf(cfg, a, |b.rows|);
    var submitted, confirmed := RowOf(a, Submitted, Some(tx)), RowOf(a, Confirmed, Some(tx));
    var c := Arrived(b, tx);
    var d := Mined(c, tx);
    assert ReceiptOf(d.mined, tx) == Some(true);
    SendsOne(cfg, b, a);
    MinesOne(cfg, c, submitted, tx);
    SelectsOne(cfg, d, submitted);
    ChecksOne(cfg, d, a, tx);
    hide Step, With, Arrived, Mined, TxOf, RowOf;
    var end, check := With(d, confirmed, Idle), Check(true, 0, Done);
    Stop(cfg, end);
    Then(cfg, With(d, confirmed, Confirm([])), check, end, [], end);
    Then(cfg, With(d, submitted, Confirm([n])), check, With(d, confirmed, Confirm([])), [check] + [], end);
    var last := [check] + ([check] + []);
    Then(cfg, With(d, submitted, Submit([])), SelectSubmitted, With(d, submitted, Confirm([n])), last, end);
    Then(cfg, With(c, submitted, Submit([])), Mine(tx, true), With(d, submitted, Submit([])),
         [SelectSubmitted] + last, end);
    Then(cfg, With(b, submitted, Persisted([n], tx)), Broadcast(true), With(c, submitted, Submit([])),
         [Mine(tx, true)] + ([SelectSubmitted] + last), end);
  }

  lemma OneMorePaid(cfg: Settings, a: nat, s: System, n: nat)
    requires Paid(cfg, a, s, n)
    ensures
      var b, tx := Debited(s, a), TxOf(cfg, a, n);
      && AllConfirmed(b.rows) && n !in b.mined && tx !in b.payer
      && Paid(cfg, a, With(Mined(Arrived(b, tx), tx), RowOf(a, Confirmed, Some(tx)), Idle), n + 1)
  {
    hide Units;
  }

  lemma PaysOne(cfg: Settings, a: nat, s: System, n: nat)
    requires Payable(cfg, a) && Paid(cfg, a, s, n) && (n + 1) * a <= cfg.perDay && a <= Balance(s.ledger, ALICE)
    ensures
      var t := Run(cfg, s, PayOne(cfg, a, n));
      && Paid(cfg, a, t, n + 1)
      && t.ledger == s.ledger + [Entry(ALICE, -(a as int), Payout(n))]
  {
    var b, tx := Debited(s, a), TxOf(cfg, a, n);
    var pending, claimed := RowOf(a, Pending, None), RowOf(a, Submitting, None);
    OneMorePaid(cfg, a, s, n);
    var end := With(Mined(Arrived(b, tx), tx), RowOf(a, Confirmed, Some(tx)), Idle);
    CreatesOne(cfg, a, s, n);
    RecoversOne(cfg, b, pending);
    ClaimsOne(cfg, b, a);
    SignsOne(cfg, b, a);
    StoresOne(cfg, b, a);
    Delivers(cfg, b, a);
    assert end.ledger == b.ledger;
    hide Step, With, Arrived, Mined, RowOf, TxOf, Delivery, Paid;
    var rest := [Persist(0, Done)] + Delivery(cfg, a, n);
    Then(cfg, With(b, claimed, Signed([n], tx)), Persist(0, Done),
         With(b, RowOf(a, Submitted, Some(tx)), Persisted([n], tx)), Delivery(cfg, a, n), end);
    Then(cfg, With(b, claimed, Submit([n])), Sign(SignedWith(n, 1), 0), With(b, claimed, Signed([n], tx)), rest, end);
    var sign := [Sign(SignedWith(n, 1), 0)] + rest;
    Then(cfg, With(b, pending, Recovered), Claim(0, Done), With(b, claimed, Submit([n])), sign, end);
    Then(cfg, With(b, pending, Idle), Recover(0, Done), With(b, pending, Recovered), [Claim(0, Done)] + sign, end);
    Then(cfg, s, Create(RequestOf(a, 0, 0)), With(b, pending, Idle),
         [Recover(0, Done)] + ([Claim(0, Done)] + sign), end);
  }

  // ----- As many as the cap allows, and one more -----

  /** A credit for `n` + 1 withdrawals of `a`, and `n` of them paid, all at time zero. */
  function PayMany(cfg: Settings, a: nat, credit: nat, n: nat): seq<Event>
  {
    if n == 0 then [Post(ALICE, credit)] else PayMany(cfg, a, credit, n - 1) + PayOne(cfg, a, n - 1)
  }

  lemma StartsPaid(cfg: Settings, a: nat, credit: nat)
    ensures
      var s := Run(cfg, INITIAL, [Post(ALICE, credit)]);
      Paid(cfg, a, s, 0) && Balance(s.ledger, ALICE) == credit
  {
    var s := Step(cfg, INITIAL, Post(ALICE, credit));
    Stop(cfg, s);
    Then(cfg, INITIAL, Post(ALICE, credit), s, [], s);
    assert [Post(ALICE, credit)] + [] == [Post(ALICE, credit)];
    assert s.ledger == [Entry(ALICE, credit, Other)] && s.ledger[..0] == [];
  }

  lemma {:induction false} PaysMany(cfg: Settings, a: nat, credit: nat, n: nat)
    requires Payable(cfg, a) && n * a <= cfg.perDay && (n + 1) * a <= credit
    ensures
      var s := Run(cfg, INITIAL, PayMany(cfg, a, credit, n));
      Paid(cfg, a, s, n) && Balance(s.ledger, ALICE) == credit - n * a
  {
    if n == 0 {
      StartsPaid(cfg, a, credit);
    } else {
      assert (n - 1) * a + a == n * a && n * a + a == (n + 1) * a;
      PaysMany(cfg, a, credit, n - 1);
      var s := Run(cfg, INITIAL, PayMany(cfg, a, credit, n - 1));
      PaysOne(cfg, a, s, n - 1);
      hide Step, Run, Paid, PayOne, Payable;
      RunAppends(cfg, INITIAL, PayMany(cfg, a, credit, n - 1), PayOne(cfg, a, n - 1));
      var e := Entry(ALICE, -(a as int), Payout(n - 1));
      assert (s.ledger + [e])[..|s.ledger|] == s.ledger;
    }
  }

  /** The run that passes the cap: full days of withdrawals at time zero, and one more `length` later. */
  function Excess(cfg: Settings, a: nat, skew: nat, length: nat): seq<Event>
    requires a > 0
  {
    var n := cfg.perDay / a;
    PayMany(cfg, a, (n + 1) * a, n) + [Create(RequestOf(a, length + skew, length))]
  }

  lemma MostFit(cap: nat, a: nat)
    requires a > 0
    ensures (cap / a) * a <= cap < (cap / a + 1) * a && (cap / a + 1) * a == (cap / a) * a + a
  {
  }

  lemma SecondRow(cfg: Settings, s: System, q: Request, skew: nat)
    requires SkewWithin(s.rows, skew) && q.now <= q.stamp + skew
    ensures SkewWithin(Step(cfg, s, Create(q)).rows, skew)
  {
  }

  lemma CapFailsFromStart(cfg: Settings, a: nat, skew: nat, length: nat)
    requires Payable(cfg, a) && length > DAY - skew
    ensures
      var rows := Run(cfg, INITIAL, Excess(cfg, a, skew, length)).rows;
      SkewWithin(rows, skew) && WindowTotal(rows, ALICE, 0, length) > cfg.perDay
  {
    var n := cfg.perDay / a;
    var credit := (n + 1) * a;
    MostFit(cfg.perDay, a);
    PaysMany(cfg, a, credit, n);
    var s, q := Run(cfg, INITIAL, PayMany(cfg, a, credit, n)), RequestOf(a, length + skew, length);
    assert credit - n * a == a;
    CapFailsBeyondWindow(cfg, s, q, 0, length);
    PaidSpent(cfg, a, s.rows, 0, length);
    SecondRow(cfg, s, q, skew);
    hide Step, PayMany, Paid;
    RunAppends(cfg, INITIAL, PayMany(cfg, a, credit, n), [Create(q)]);
    Stop(cfg, Step(cfg, s, Create(q)));
    Then(cfg, s, Create(q), Step(cfg, s, Create(q)), [], Step(cfg, s, Create(q)));
    assert [Create(q)] + [] == [Create(q)];
  }

  // ----- Without a payable amount -----

  ghost predicate RowsSized(cfg: Settings, rows: seq<Withdrawal>)
  {
    forall i | 0 <= i < |rows| :: 0 < rows[i].amount && cfg.minAmount <= rows[i].amount <= cfg.maxAmount
  }

  lemma StepKeepsSized(cfg: Settings, s: System, ev: Event)
    requires Safe(cfg, s) && RowsSized(cfg, s.rows)
    ensures RowsSized(cfg, Step(cfg, s, ev).rows)
  {
    StepEvolves(cfg, s, ev);
    var t := Step(cfg, s, ev);
    hide Step, Safe;
    if ev.Create? && MayCreate(cfg, s, ev.request) {
    } else {
      assert forall i | 0 <= i < |s.rows| :: Evolves(s.rows[i], t.rows[i]);
    }
  }

  /** Whatever is stored or about to be stored moves at least one unit. */
  ghost predicate MovesUnits(s: System)
  {
    && (forall i | 0 <= i < |s.rows| && s.rows[i].hash.Some? :: s.rows[i].hash.value.units > 0)
    && (s.phase.Signed? ==> s.phase.tx.units > 0)
  }

  lemma StepKeepsMovesUnits(cfg: Settings, s: System, ev: Event)
    requires Safe(cfg, s) && MovesUnits(s)
    ensures MovesUnits(Step(cfg, s, ev))
  {
    StepHashes(cfg, s, ev);
    if Step(cfg, s, ev).phase.Signed? {
      SignedPhases(cfg, s, ev);
    }
    hide Step, Safe;
  }

  lemma {:induction false} RunKeepsSizes(cfg: Settings, s: System, evs: seq<Event>)
    requires Safe(cfg, s) && RowsSized(cfg, s.rows) && MovesUnits(s)
    ensures RowsSized(cfg, Run(cfg, s, evs).rows) && MovesUnits(Run(cfg, s, evs))
    decreases |evs|
  {
    hide Step, Safe, RowsSized, MovesUnits;
    if evs != [] {
      StepKeepsSafe(cfg, s, evs[0]);
      StepKeepsSized(cfg, s, evs[0]);
      StepKeepsMovesUnits(cfg, s, evs[0]);
      RunKeepsSizes(cfg, Step(cfg, s, evs[0]), evs[1..]);
    }
  }

  lemma UnitsGrow(cfg: Settings, x: nat, y: nat)
    requires x <= y
    ensures Units(cfg, x) <= Units(cfg, y)
  {
    assert x * cfg.scale <= y * cfg.scale;
  }

  /** A user's rows in a window, when at most one of them has not been refunded. */
  lemma {:induction false} OneRowInWindow(cfg: Settings, rows: seq<Withdrawal>, u: UserId, from: Time, to: Time)
    requires forall i, j | 0 <= i < j < |rows| && rows[i].user == u == rows[j].user :: !(Kept(rows[i]) && Kept(rows[j]))
    requires forall i | 0 <= i < |rows| && Kept(rows[i]) :: rows[i].amount <= cfg.perDay
    ensures WindowTotal(rows, u, from, to) <= cfg.perDay
    ensures (forall i | 0 <= i < |rows| && rows[i].user == u :: !Kept(rows[i])) ==> WindowTotal(rows, u, from, to) == 0
  {
    if rows != [] {
      OneRowInWindow(cfg, rows[..|rows| - 1], u, from, to);
    }
  }

  lemma KeptIsUnfinished(cfg: Settings, mined: map<nat, Receipt>, r: Withdrawal)
    requires RowOk(cfg, mined, r) && Kept(r) && !Payable(cfg, r.amount)
    requires 0 < r.amount <= cfg.perDay && cfg.minAmount <= r.amount <= cfg.maxAmount
    requires r.hash.Some? ==> r.hash.value.units > 0
    ensures NonTerminal(r.status)
  {
    UnitsGrow(cfg, r.net, r.amount);
    hide Units;
  }

  lemma KeptAreUnfinished(cfg: Settings, s: System)
    requires RowsOk(cfg, s) && RowsSized(cfg, s.rows) && MovesUnits(s) && CapChecked(cfg, s.rows)
    requires forall a: nat :: !Payable(cfg, a)
    ensures forall i | 0 <= i < |s.rows| && Kept(s.rows[i]) ::
              NonTerminal(s.rows[i].status) && s.rows[i].amount <= cfg.perDay
  {
    forall i | 0 <= i < |s.rows| && Kept(s.rows[i])
      ensures NonTerminal(s.rows[i].status) && s.rows[i].amount <= cfg.perDay
    {
      var r := s.rows[i];
      hide RowOk, Payable, Spent;
      assert Spent(s.rows[..i], r.user, r.checkedAt - DAY) + r.amount <= cfg.perDay;
      KeptIsUnfinished(cfg, s.mined, r);
    }
  }

  /** If no amount is payable, nothing is ever confirmed, so a user never has more than one withdrawal to count. */
  lemma CapHoldsWithoutPayable(cfg: Settings, evs: seq<Event>, u: UserId, from: Time, to: Time)
    requires forall a: nat :: !Payable(cfg, a)
    ensures WindowTotal(Run(cfg, INITIAL, evs).rows, u, from, to) <= cfg.perDay
  {
    InitialBooks(cfg, u);
    RunKeepsBooks(cfg, INITIAL, evs, u);
    RunKeepsSizes(cfg, INITIAL, evs);
    var s := Run(cfg, INITIAL, evs);
    assert RowsOk(cfg, s) && OneInFlight(s.rows) && CapChecked(cfg, s.rows);
    hide Run, Step, Safe, BooksOk, RowOk, RowsOk, CapChecked, Payable, Spent, RowsSized, MovesUnits;
    KeptAreUnfinished(cfg, s);
    OneRowInWindow(cfg, s.rows, u, from, to);
  }

  /** After this run the user's withdrawals in the window pass the cap, with no stamp older than its check by more
      than the skew. */
  ghost predicate PassesCap(cfg: Settings, evs: seq<Event>, u: UserId, from: Time, length: nat, skew: nat)
  {
    var rows := Run(cfg, INITIAL, evs).rows;
    SkewWithin(rows, skew) && WindowTotal(rows, u, from, from + length) > cfg.perDay
  }

  /** For any window longer than a day less the skew: some run passes the cap in it if and only if some amount is
      payable. */
  lemma CapFailsIff(cfg: Settings, skew: nat, length: nat)
    requires length > DAY - skew
    ensures
      (exists a: nat :: Payable(cfg, a))
      <==> exists evs: seq<Event>, u: UserId, from: Time :: PassesCap(cfg, evs, u, from, length, skew)
  {
    if a: nat :| Payable(cfg, a) {
      CapFailsFromStart(cfg, a, skew, length);
      var evs := Excess(cfg, a, skew, length);
      assert PassesCap(cfg, evs, ALICE, 0, length, skew);
    } else {
      forall evs: seq<Event>, u: UserId, from: Time
        ensures !PassesCap(cfg, evs, u, from, length, skew)
      {
        CapHoldsWithoutPayable(cfg, evs, u, from, from + length);
      }
    }
  }
}
