/** A run from the start in which two withdrawals share one transfer. */
module PayoutRuns {
  import opened Common
  import opened Withdrawals
  import opened PayoutLedger
  import opened PayoutSharing

  lemma Then(cfg: Settings, s: System, ev: Event, t: System, evs: seq<Event>, end: System)
    requires Step(cfg, s, ev) == t && Run(cfg, t, evs) == end
    ensures Run(cfg, s, [ev] + evs) == end
  {
    hide Step;
    assert ([ev] + evs)[1..] == evs;
  }

  lemma Stop(cfg: Settings, s: System)
    ensures Run(cfg, s, []) == s
  {
  }

  const ALICE: UserId := 1
  const THERE: Address := 9

  lemma OnlyRow(r: Withdrawal)
    ensures IdsWith([r], r.status) == [0] && Take([0], CLAIM_LIMIT) == [0] && Take([0], CONFIRM_LIMIT) == [0]
  {
    assert [r][..0] == [];
  }

  // ----- Two withdrawals, one transfer -----

  /** A token with as many units as there are units of money in a dollar. */
  const CFG: Settings := Settings(1, 100, 100, USD, 60)

  const BOB: UserId := 2
  const ONE: Tx := Tx(0, THERE, 9, 1)

  function TenRow(u: UserId, st: Status, hash: Option<Tx>): Withdrawal
  {
    Withdrawal(u, 10, 9, THERE, st, hash, 1, 0, 0, 0)
  }

  const CREDITS: seq<Entry> := [Entry(ALICE, 10, Other), Entry(BOB, 10, Other)]
  const DEBITS: seq<Entry> := CREDITS + [Entry(ALICE, -10, Payout(0))] + [Entry(BOB, -10, Payout(1))]

  /** Both withdraw ten to one address; nothing has reached the network. */
  function Both(alice: Withdrawal, bob: Withdrawal, phase: Phase): System
  {
    System([alice, bob], DEBITS, [], map[], map[], 0, phase)
  }

  /** Bob's transaction is on the network. */
  function OneSent(alice: Withdrawal, bob: Withdrawal, mined: bool, phase: Phase): System
  {
    System([alice, bob], DEBITS, [Send(1, ONE)], map[ONE := 1], if mined then map[0 := Receipt(ONE, true)] else map[],
           if mined then 9 else 0, phase)
  }

  function TenRequest(u: UserId): Request { Request(u, false, 10, THERE, 1, 1, 0, 0, 0) }

  lemma BothCredited()
    ensures Step(CFG, Step(CFG, INITIAL, Post(ALICE, 10)), Post(BOB, 10)) == INITIAL.(ledger := CREDITS)
    ensures Balance(CREDITS, ALICE) == 10
    ensures Balance(CREDITS + [Entry(ALICE, -10, Payout(0))], BOB) == 10
  {
    assert CREDITS[..1][..0] == [];
    var l := CREDITS + [Entry(ALICE, -10, Payout(0))];
    assert l[..2] == CREDITS && Balance(CREDITS[..1], ALICE) == 10 && Balance(CREDITS[..1], BOB) == 0;
  }

  lemma BothCreated()
    ensures
      Step(CFG, Step(CFG, INITIAL.(ledger := CREDITS), Create(TenRequest(ALICE))), Create(TenRequest(BOB)))
      == Both(TenRow(ALICE, Pending, None), TenRow(BOB, Pending, None), Idle)
  {
    BothCredited();
    var s := Step(CFG, INITIAL.(ledger := CREDITS), Create(TenRequest(ALICE)));
    assert MayCreate(CFG, INITIAL.(ledger := CREDITS), TenRequest(ALICE));
    assert s.rows == [TenRow(ALICE, Pending, None)] && s.ledger == CREDITS + [Entry(ALICE, -10, Payout(0))];
    assert s.rows[..0] == [];
    assert MayCreate(CFG, s, TenRequest(BOB));
  }

  lemma BothRecovered()
    ensures
      Step(CFG, Both(TenRow(ALICE, Pending, None), TenRow(BOB, Pending, None), Idle), Recover(0, Done))
      == Both(TenRow(ALICE, Pending, None), TenRow(BOB, Pending, None), Recovered)
  {
    var rows := [TenRow(ALICE, Pending, None), TenRow(BOB, Pending, None)];
    assert RecoverRows(CFG, rows, 0) == rows;
  }

  lemma BothRows(a: Withdrawal, b: Withdrawal)
    requires a.status == b.status
    ensures
      && IdsWith([a, b], a.status) == [0, 1]
      && Take([0, 1], CLAIM_LIMIT) == [0, 1] && Take([0, 1], CONFIRM_LIMIT) == [0, 1]
  {
    OnlyRow(a);
    assert [a, b][..1] == [a];
    assert IdsWith([a, b], a.status) == IdsWith([a], a.status) + [1];
  }

  lemma BothClaimed()
    ensures
      Step(CFG, Both(TenRow(ALICE, Pending, None), TenRow(BOB, Pending, None), Recovered), Claim(0, Done))
      == Both(TenRow(ALICE, Submitting, None), TenRow(BOB, Submitting, None), Submit([0, 1]))
  {
    BothRows(TenRow(ALICE, Pending, None), TenRow(BOB, Pending, None));
    hide IdsWith, Take;
    assert SetStatus([TenRow(ALICE, Pending, None), TenRow(BOB, Pending, None)], [0, 1], Submitting, 0)
        == [TenRow(ALICE, Submitting, None), TenRow(BOB, Submitting, None)];
  }

  /** Alice's transaction is stored and never reaches the node. */
  lemma AliceLost()
    ensures
      var bob := TenRow(BOB, Submitting, None);
      && Step(CFG, Both(TenRow(ALICE, Submitting, None), bob, Submit([0, 1])), Sign(SignedWith(0, 1), 0))
         == Both(TenRow(ALICE, Submitting, None), bob, Signed([0, 1], ONE))
      && Step(CFG, Both(TenRow(ALICE, Submitting, None), bob, Signed([0, 1], ONE)), Persist(0, Done))
         == Both(TenRow(ALICE, Submitted, Some(ONE)), bob, Persisted([0, 1], ONE))
      && Step(CFG, Both(TenRow(ALICE, Submitted, Some(ONE)), bob, Persisted([0, 1], ONE)), Broadcast(false))
         == Both(TenRow(ALICE, Submitted, Some(ONE)), bob, Submit([1]))
  {
    assert [0, 1][1..] == [1];
  }

  /** Bob's is signed with the same nonce and is the same transaction. */
  lemma BobSent()
    ensures
      var alice := TenRow(ALICE, Submitted, Some(ONE));
      && Step(CFG, Both(alice, TenRow(BOB, Submitting, None), Submit([1])), Sign(SignedWith(0, 1), 0))
         == Both(alice, TenRow(BOB, Submitting, None), Signed([1], ONE))
      && Step(CFG, Both(alice, TenRow(BOB, Submitting, None), Signed([1], ONE)), Persist(0, Done))
         == Both(alice, TenRow(BOB, Submitted, Some(ONE)), Persisted([1], ONE))
      && Step(CFG, Both(alice, TenRow(BOB, Submitted, Some(ONE)), Persisted([1], ONE)), Broadcast(true))
         == OneSent(alice, TenRow(BOB, Submitted, Some(ONE)), false, Submit([]))
  {
    assert [1][1..] == [];
  }

  lemma BothSelected()
    ensures
      var alice, bob := TenRow(ALICE, Submitted, Some(ONE)), TenRow(BOB, Submitted, Some(ONE));
      && Step(CFG, OneSent(alice, bob, false, Submit([])), Mine(ONE, true)) == OneSent(alice, bob, true, Submit([]))
      && Step(CFG, OneSent(alice, bob, true, Submit([])), SelectSubmitted) == OneSent(alice, bob, true, Confirm([0, 1]))
  {
    BothRows(TenRow(ALICE, Submitted, Some(ONE)), TenRow(BOB, Submitted, Some(ONE)));
    hide IdsWith, Take;
  }

  lemma BothConfirmed()
    ensures
      var bob := TenRow(BOB, Submitted, Some(ONE));
      && Step(CFG, OneSent(TenRow(ALICE, Submitted, Some(ONE)), bob, true, Confirm([0, 1])), Check(true, 0, Done))
         == OneSent(TenRow(ALICE, Confirmed, Some(ONE)), bob, true, Confirm([1]))
      && Step(CFG, OneSent(TenRow(ALICE, Confirmed, Some(ONE)), bob, true, Confirm([1])), Check(true, 0, Done))
         == OneSent(TenRow(ALICE, Confirmed, Some(ONE)), TenRow(BOB, Confirmed, Some(ONE)), true, Confirm([]))
  {
    hide IdsWith;
    assert [0, 1][1..] == [1] && [1][1..] == [];
  }

  function Tail(): seq<Event>
  {
    [Sign(SignedWith(0, 1), 0)] + ([Persist(0, Done)] + ([Broadcast(true)] + ([Mine(ONE, true)] + ([SelectSubmitted]
    + ([Check(true, 0, Done)] + ([Check(true, 0, Done)] + []))))))
  }

  function SharedRun(): seq<Event>
  {
    [Post(ALICE, 10)] + ([Post(BOB, 10)] + ([Create(TenRequest(ALICE))] + ([Create(TenRequest(BOB))]
    + ([Recover(0, Done)] + ([Claim(0, Done)] + ([Sign(SignedWith(0, 1), 0)] + ([Persist(0, Done)] + ([Broadcast(false)]
    + Tail()))))))))
  }

  const SHARED_END: System :=
    OneSent(TenRow(ALICE, Confirmed, Some(ONE)), TenRow(BOB, Confirmed, Some(ONE)), true, Confirm([]))

  lemma TailRuns()
    ensures
      Run(CFG, Both(TenRow(ALICE, Submitted, Some(ONE)), TenRow(BOB, Submitting, None), Submit([1])), Tail())
      == SHARED_END
  {
    BobSent();
    BothSelected();
    BothConfirmed();
    hide Step, Both, OneSent, TenRow;
    var alice, bob := TenRow(ALICE, Submitted, Some(ONE)), TenRow(BOB, Submitted, Some(ONE));
    var end, check := SHARED_END, Check(true, 0, Done);
    Stop(CFG, end);
    Then(CFG, OneSent(TenRow(ALICE, Confirmed, Some(ONE)), bob, true, Confirm([1])), check, end, [], end);
    Then(CFG, OneSent(alice, bob, true, Confirm([0, 1])), check,
         OneSent(TenRow(ALICE, Confirmed, Some(ONE)), bob, true, Confirm([1])), [check] + [], end);
    var a := [check] + ([check] + []);
    Then(CFG, OneSent(alice, bob, true, Submit([])), SelectSubmitted,
         OneSent(alice, bob, true, Confirm([0, 1])), a, end);
    Then(CFG, OneSent(alice, bob, false, Submit([])), Mine(ONE, true), OneSent(alice, bob, true, Submit([])),
         [SelectSubmitted] + a, end);
    var b := [Mine(ONE, true)] + ([SelectSubmitted] + a);
    Then(CFG, Both(alice, bob, Persisted([1], ONE)), Broadcast(true), OneSent(alice, bob, false, Submit([])), b, end);
    Then(CFG, Both(alice, TenRow(BOB, Submitting, None), Signed([1], ONE)), Persist(0, Done),
         Both(alice, bob, Persisted([1], ONE)), [Broadcast(true)] + b, end);
    Then(CFG, Both(alice, TenRow(BOB, Submitting, None), Submit([1])), Sign(SignedWith(0, 1), 0),
         Both(alice, TenRow(BOB, Submitting, None), Signed([1], ONE)),
         [Persist(0, Done)] + ([Broadcast(true)] + b), end);
  }

  /** Two confirmed withdrawals of nine each, one transfer of nine. */
  lemma OneTransferConfirmsTwo()
    ensures Run(CFG, INITIAL, SharedRun()) == SHARED_END
    ensures !OwnHashes(SHARED_END.rows) && SHARED_END.transferred == 9
    ensures forall i | 0 <= i < 2 :: SHARED_END.rows[i].status.Confirmed? && Units(CFG, SHARED_END.rows[i].net) == 9
  {
    BothCredited();
    BothCreated();
    BothRecovered();
    BothClaimed();
    AliceLost();
    TailRuns();
    assert SHARED_END.rows[0].hash == SHARED_END.rows[1].hash;
    hide Step, Both, OneSent, TenRow, Tail;
    var pending, claimed := TenRow(BOB, Pending, None), TenRow(BOB, Submitting, None);
    var lost := TenRow(ALICE, Submitted, Some(ONE));
    Then(CFG, Both(lost, claimed, Persisted([0, 1], ONE)), Broadcast(false),
         Both(lost, claimed, Submit([1])), Tail(), SHARED_END);
    var a := [Broadcast(false)] + Tail();
    Then(CFG, Both(TenRow(ALICE, Submitting, None), claimed, Signed([0, 1], ONE)), Persist(0, Done),
         Both(lost, claimed, Persisted([0, 1], ONE)), a, SHARED_END);
    Then(CFG, Both(TenRow(ALICE, Submitting, None), claimed, Submit([0, 1])), Sign(SignedWith(0, 1), 0),
         Both(TenRow(ALICE, Submitting, None), claimed, Signed([0, 1], ONE)), [Persist(0, Done)] + a, SHARED_END);
    var b := [Sign(SignedWith(0, 1), 0)] + ([Persist(0, Done)] + a);
    Then(CFG, Both(TenRow(ALICE, Pending, None), pending, Recovered), Claim(0, Done),
         Both(TenRow(ALICE, Submitting, None), claimed, Submit([0, 1])), b, SHARED_END);
    Then(CFG, Both(TenRow(ALICE, Pending, None), pending, Idle), Recover(0, Done),
         Both(TenRow(ALICE, Pending, None), pending, Recovered), [Claim(0, Done)] + b, SHARED_END);
    var c := [Recover(0, Done)] + ([Claim(0, Done)] + b);
    var credited := INITIAL.(ledger := CREDITS);
    var half := Step(CFG, credited, Create(TenRequest(ALICE)));
    Then(CFG, half, Create(TenRequest(BOB)), Both(TenRow(ALICE, Pending, None), pending, Idle), c, SHARED_END);
    Then(CFG, credited, Create(TenRequest(ALICE)), half, [Create(TenRequest(BOB))] + c, SHARED_END);
    var d := [Create(TenRequest(ALICE))] + ([Create(TenRequest(BOB))] + c);
    Then(CFG, Step(CFG, INITIAL, Post(ALICE, 10)), Post(BOB, 10), credited, d, SHARED_END);
    Then(CFG, INITIAL, Post(ALICE, 10), Step(CFG, INITIAL, Post(ALICE, 10)), [Post(BOB, 10)] + d, SHARED_END);
  }
}
