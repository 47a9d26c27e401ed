/** The backward scan for the newest token transfers of a wallet.

    Blocks are read in chunks from the head down, each chunk once for outgoing and once for incoming
    transfers, until enough events are in hand. Chunks shrink when the node complains about the rate
    and grow back slowly; a complaint is retried once on the chunk's upper half.
*/
module TransferScan {
  import opened Common

  type Address = nat

  datatype Transfer = Transfer(hash: nat, logIndex: nat, block: nat, from: Address, to: Address, amount: nat)

  /** One `eth_getLogs` call: a direction and a range of blocks. */
  datatype Call = Call(outgoing: bool, lo: int, hi: int)

  datatype Answer = Logs | RateLimited | Failed

  datatype Attempt = Attempt(call: Call, answer: Answer)

  /** One chunk, with the attempts made for each direction. */
  datatype Round = Round(lo: int, hi: int, outgoing: seq<Attempt>, incoming: seq<Attempt>)

  const CHUNK: int := 2000
  const MIN_CHUNK: int := 250

  predicate Newer(a: Transfer, b: Transfer)
  {
    a.block > b.block || (a.block == b.block && a.logIndex > b.logIndex)
  }

  /** The chain's transfers in order; a hash and a log index name one transfer. */
  ghost predicate IsChain(chain: seq<Transfer>)
  {
    forall i, j | 0 <= i < j < |chain| ::
      Newer(chain[j], chain[i]) && (chain[i].hash != chain[j].hash || chain[i].logIndex != chain[j].logIndex)
  }

  predicate Covers(c: Call, addr: Address, t: Transfer)
  {
    c.lo <= t.block <= c.hi && addr == if c.outgoing then t.from else t.to
  }

  predicate Seen(calls: seq<Call>, addr: Address, t: Transfer)
  {
    exists i | 0 <= i < |calls| :: Covers(calls[i], addr, t)
  }

  /** Both directions over a range of blocks. */
  function Range(lo: int, hi: int): seq<Call> { [Call(true, lo, hi), Call(false, lo, hi)] }

  /** The reference: walk the chain from its end and take the first `n` transfers the calls cover. */
  function Newest(chain: seq<Transfer>, addr: Address, calls: seq<Call>, n: nat): seq<Transfer>
  {
    if chain == [] || n == 0 then []
    else
      var last := |chain| - 1;
      if Seen(calls, addr, chain[last]) then [chain[last]] + Newest(chain[..last], addr, calls, n - 1)
      else Newest(chain[..last], addr, calls, n)
  }

  ghost predicate Descending(page: seq<Transfer>)
  {
    forall i, j | 0 <= i < j < |page| :: Newer(page[i], page[j])
  }

  /** A page of the newest `n` covered transfers: sorted, covered, and nothing left out is newer. */
  ghost predicate IsNewest(page: seq<Transfer>, chain: seq<Transfer>, addr: Address, calls: seq<Call>, n: nat)
  {
    && Descending(page) && |page| <= n
    && (forall t :: t in page ==> t in chain && Seen(calls, addr, t))
    && (forall t | t in chain && Seen(calls, addr, t) && t !in page ::
          |page| == n && forall i | 0 <= i < |page| :: Newer(page[i], t))
  }

  lemma {:induction false} NewestIsNewest(chain: seq<Transfer>, addr: Address, calls: seq<Call>, n: nat)
    requires IsChain(chain)
    ensures IsNewest(Newest(chain, addr, calls, n), chain, addr, calls, n)
  {
    if chain == [] || n == 0 {
    } else {
      var last := |chain| - 1;
      var init, top := chain[..last], chain[last];
      assert forall t | t in init :: Newer(top, t);
      NewestIsNewest(init, addr, calls, if Seen(calls, addr, top) then n - 1 else n);
    }
  }

  lemma TotalOrder(chain: seq<Transfer>, a: Transfer, b: Transfer)
    requires IsChain(chain) && a in chain && b in chain
    ensures a == b || Newer(a, b) || Newer(b, a)
  {
  }

  lemma NewerFitsBefore(p: seq<Transfer>, q: seq<Transfer>, chain: seq<Transfer>, addr: Address, calls: seq<Call>,
      n: nat, i: nat)
    requires IsNewest(p, chain, addr, calls, n) && IsNewest(q, chain, addr, calls, n)
    requires i < |p| && i < |q| && p[..i] == q[..i]
    ensures !Newer(p[i], q[i])
  {
    assert p[i] in p;
    assert forall j | 0 <= j < i :: q[j] == p[..i][j] && Newer(p[j], p[i]);
  }

  lemma PagesAgreeAt(p: seq<Transfer>, q: seq<Transfer>, chain: seq<Transfer>, addr: Address, calls: seq<Call>, n: nat,
      i: nat)
    requires IsChain(chain) && IsNewest(p, chain, addr, calls, n) && IsNewest(q, chain, addr, calls, n)
    requires i < |p| && i < |q| && p[..i] == q[..i]
    ensures p[i] == q[i]
  {
    assert p[i] in p && q[i] in q;
    TotalOrder(chain, p[i], q[i]);
    if Newer(p[i], q[i]) {
      NewerFitsBefore(p, q, chain, addr, calls, n, i);
    } else if Newer(q[i], p[i]) {
      NewerFitsBefore(q, p, chain, addr, calls, n, i);
    }
  }

  lemma {:induction false} PrefixesAgree(p: seq<Transfer>, q: seq<Transfer>, chain: seq<Transfer>, addr: Address,
      calls: seq<Call>, n: nat, i: nat)
    requires IsChain(chain) && IsNewest(p, chain, addr, calls, n) && IsNewest(q, chain, addr, calls, n)
    requires i <= |p| && i <= |q|
    ensures p[..i] == q[..i]
  {
    if i > 0 {
      PrefixesAgree(p, q, chain, addr, calls, n, i - 1);
      PagesAgreeAt(p, q, chain, addr, calls, n, i - 1);
      assert p[..i] == p[..i - 1] + [p[i - 1]] && q[..i] == q[..i - 1] + [q[i - 1]];
    }
  }

  lemma NoLonger(p: seq<Transfer>, q: seq<Transfer>, chain: seq<Transfer>, addr: Address, calls: seq<Call>, n: nat)
    requires IsChain(chain) && IsNewest(p, chain, addr, calls, n) && IsNewest(q, chain, addr, calls, n)
    ensures |q| <= |p|
  {
    if |p| < |q| {
      PrefixesAgree(p, q, chain, addr, calls, n, |p|);
      var t := q[|p|];
      assert t in q;
      forall j | 0 <= j < |p|
        ensures p[j] == q[j] && Newer(p[j], t)
      {
        assert p[j] == q[..|p|][j];
      }
    }
  }

  /** The properties of a newest page leave exactly one page: the reference. */
  lemma NewestIsUnique(p: seq<Transfer>, chain: seq<Transfer>, addr: Address, calls: seq<Call>, n: nat)
    requires IsChain(chain) && IsNewest(p, chain, addr, calls, n)
    ensures p == Newest(chain, addr, calls, n)
  {
    NewestIsNewest(chain, addr, calls, n);
    var q := Newest(chain, addr, calls, n);
    NoLonger(p, q, chain, addr, calls, n);
    NoLonger(q, p, chain, addr, calls, n);
    PrefixesAgree(p, q, chain, addr, calls, n, |p|);
    assert p[..|p|] == p && q[..|q|] == q;
  }

  lemma {:induction false} NothingSeen(chain: seq<Transfer>, addr: Address, calls: seq<Call>, n: nat)
    requires forall i | 0 <= i < |chain| :: !Seen(calls, addr, chain[i])
    ensures Newest(chain, addr, calls, n) == []
  {
    if chain != [] {
      NothingSeen(chain[..|chain| - 1], addr, calls, n);
    }
  }

  predicate Touches(t: Transfer, addr: Address) { t.from == addr || t.to == addr }

  lemma InRange(addr: Address, lo: int, hi: int)
    ensures forall t: Transfer :: Seen(Range(lo, hi), addr, t) <==> lo <= t.block <= hi && Touches(t, addr)
  {
    forall t: Transfer | lo <= t.block <= hi && Touches(t, addr)
      ensures Seen(Range(lo, hi), addr, t)
    {
      assert Covers(Range(lo, hi)[0], addr, t) || Covers(Range(lo, hi)[1], addr, t);
    }
  }

  /** The page over recent blocks begins the page over all blocks: what it leaves out lies lower. */
  lemma {:induction false} RecentPageIsPrefix(chain: seq<Transfer>, addr: Address, lo: nat, head: nat, n: nat)
    requires IsChain(chain)
    ensures Newest(chain, addr, Range(lo, head), n) <= Newest(chain, addr, Range(0, head), n)
  {
    if chain != [] && n != 0 {
      var last := |chain| - 1;
      InRange(addr, lo, head);
      InRange(addr, 0, head);
      if chain[last].block >= lo {
        RecentPageIsPrefix(chain[..last], addr, lo, head, if Seen(Range(0, head), addr, chain[last]) then n - 1 else n);
      } else {
        assert forall i | 0 <= i < |chain| :: chain[i].block < lo;
        NothingSeen(chain, addr, Range(lo, head), n);
      }
    }
  }

  /** A full page over recent blocks is the page over all blocks. */
  lemma FullPageIsGlobal(chain: seq<Transfer>, addr: Address, lo: nat, head: nat, n: nat)
    requires IsChain(chain) && |Newest(chain, addr, Range(lo, head), n)| == n
    ensures Newest(chain, addr, Range(lo, head), n) == Newest(chain, addr, Range(0, head), n)
  {
    RecentPageIsPrefix(chain, addr, lo, head, n);
    NewestIsNewest(chain, addr, Range(0, head), n);
  }

  // ----- The node -----

  function GetLogs(chain: seq<Transfer>, addr: Address, c: Call): (logs: seq<Transfer>)
    ensures forall t :: t in logs <==> t in chain && Covers(c, addr, t)
    ensures IsChain(chain) ==> forall i, j | 0 <= i < j < |logs| :: Newer(logs[j], logs[i])
  {
    if chain == [] then []
    else
      var last := |chain| - 1;
      var older := GetLogs(chain[..last], addr, c);
      if Covers(c, addr, chain[last]) then
        assert IsChain(chain) ==> forall t | t in chain[..last] :: Newer(chain[last], t);
        assert forall i | 0 <= i < |older| :: older[i] in older;
        older + [chain[last]]
      else older
  }

  predicate NoDuplicates(s: seq<Transfer>) { forall i, j | 0 <= i < j < |s| :: s[i] != s[j] }

  // ----- Counting distinct events -----

  function Elements(s: seq<Transfer>): set<Transfer> { set t | t in s }

  lemma {:induction false} DistinctCount(s: seq<Transfer>)
    requires NoDuplicates(s)
    ensures |Elements(s)| == |s|
  {
    if s == [] {
    } else {
      var last := |s| - 1;
      DistinctCount(s[..last]);
      assert s == s[..last] + [s[last]];
      assert Elements(s) == Elements(s[..last]) + {s[last]};
    }
  }

  lemma {:induction false} Smaller(a: set<Transfer>, b: set<Transfer>)
    requires a <= b
    ensures |a| <= |b|
  {
    if a == {} {
    } else {
      var x :| x in a;
      Smaller(a - {x}, b - {x});
    }
  }

  lemma AtLeastAsMany(s: seq<Transfer>, t: seq<Transfer>)
    requires NoDuplicates(s) && NoDuplicates(t) && forall x | x in s :: x in t
    ensures |s| <= |t|
  {
    DistinctCount(s);
    DistinctCount(t);
    Smaller(Elements(s), Elements(t));
  }

  // ----- The scan -----

  function Halve(lo: int, hi: int): int { (lo + hi) / 2 }

  function Nth(answers: seq<Answer>, i: nat): Answer { if i < |answers| then answers[i] else Logs }

  function Drop(answers: seq<Answer>, n: nat): seq<Answer> { if n <= |answers| then answers[n..] else [] }

  /** The calls that were answered. */
  function Answered(attempts: seq<Attempt>): seq<Call>
  {
    if attempts == [] then []
    else
      var last, before := attempts[|attempts| - 1], Answered(attempts[..|attempts| - 1]);
      if last.answer.Logs? then before + [last.call] else before
  }

  /** How many events the answered calls returned, duplicates included. */
  function Fetched(chain: seq<Transfer>, addr: Address, attempts: seq<Attempt>): nat
  {
    if attempts == [] then 0
    else
      var last := attempts[|attempts| - 1];
      Fetched(chain, addr, attempts[..|attempts| - 1])
      + if last.answer.Logs? then |GetLogs(chain, addr, last.call)| else 0
  }

  lemma {:induction false} AttemptsAppend(chain: seq<Transfer>, addr: Address, a: seq<Attempt>, b: seq<Attempt>)
    ensures Answered(a + b) == Answered(a) + Answered(b)
    ensures Fetched(chain, addr, a + b) == Fetched(chain, addr, a) + Fetched(chain, addr, b)
  {
    if b == [] {
      assert a + b == a;
    } else {
      assert (a + b)[..|a + b| - 1] == a + b[..|b| - 1];
      AttemptsAppend(chain, addr, a, b[..|b| - 1]);
    }
  }

  /** One direction of a chunk is tried as a whole, and after a complaint once more on its upper half. */
  predicate Tried(attempts: seq<Attempt>, outgoing: bool, lo: int, hi: int)
  {
    && 1 <= |attempts| <= 2 && attempts[0].call == Call(outgoing, lo, hi)
    && (|attempts| == 2 <==> attempts[0].answer == RateLimited)
    && (|attempts| == 2 ==> attempts[1].call == Call(outgoing, (lo + hi) / 2 + 1, hi))
  }

  /** The attempts met with these answers, in order. */
  predicate Met(attempts: seq<Attempt>, answers: seq<Answer>)
  {
    forall k | 0 <= k < |attempts| :: attempts[k].answer == Nth(answers, k)
  }

  lemma AnsweredByOne(call: Call, answer: Answer, addr: Address, chain: seq<Transfer>)
    ensures Answered([Attempt(call, answer)]) == if answer.Logs? then [call] else []
    ensures Fetched(chain, addr, [Attempt(call, answer)]) == if answer.Logs? then |GetLogs(chain, addr, call)| else 0
  {
    assert [Attempt(call, answer)][..0] == [];
  }

  lemma NothingAnswered(chain: seq<Transfer>, addr: Address)
    ensures Answered([]) == [] && Fetched(chain, addr, []) == 0 && forall t :: !Seen([], addr, t)
  {
  }

  lemma SeenByOne(call: Call, addr: Address)
    ensures forall t :: Seen([call], addr, t) <==> Covers(call, addr, t)
  {
    assert [call][0] == call;
  }

  lemma LogsApart(chain: seq<Transfer>, addr: Address, call: Call)
    requires IsChain(chain)
    ensures NoDuplicates(GetLogs(chain, addr, call))
  {
  }

  /** One direction of one chunk: at most two attempts, the second on the upper half. */
  method Fetch(chain: seq<Transfer>, addr: Address, outgoing: bool, lo: int, hi: int, answers: seq<Answer>)
    returns (logs: seq<Transfer>, rateLimited: bool, rest: seq<Answer>, ghost tried: seq<Attempt>)
    requires IsChain(chain) && 0 <= lo <= hi
    ensures Tried(tried, outgoing, lo, hi) && Met(tried, answers) && rest == Drop(answers, |tried|)
    ensures rateLimited == (tried[0].answer == RateLimited)
    ensures forall t :: t in logs <==> t in chain && Seen(Answered(tried), addr, t)
    ensures |logs| == Fetched(chain, addr, tried) && NoDuplicates(logs)
  {
    logs, rateLimited, rest, tried := [], false, answers, [];
    var attempts, from := 0, lo;
    NothingAnswered(chain, addr);
    hide Answered, Fetched, GetLogs, Seen;
    while attempts < 2
      invariant 0 <= attempts <= 2 && logs == [] && |tried| == attempts
      invariant rest == Drop(answers, attempts)
      invariant rateLimited == (attempts > 0)
      invariant from == (if attempts == 0 then lo else if attempts == 1 then Halve(lo, hi) + 1 else from)
      invariant Met(tried, answers) && (attempts > 0 ==> Tried(tried, outgoing, lo, hi) || attempts == 1)
      invariant attempts > 0 ==> tried[0] == Attempt(Call(outgoing, lo, hi), RateLimited)
      invariant attempts == 2 ==> tried[1] == Attempt(Call(outgoing, Halve(lo, hi) + 1, hi), RateLimited)
      invariant Answered(tried) == [] && Fetched(chain, addr, tried) == 0
    {
      var answer := if rest == [] then Logs else rest[0];
      assert answer == Nth(answers, attempts);
      rest := if rest == [] then [] else rest[1..];
      ghost var now := [Attempt(Call(outgoing, from, hi), answer)];
      AttemptsAppend(chain, addr, tried, now);
      AnsweredByOne(now[0].call, answer, addr, chain);
      tried := tried + now;
      match answer
      case Logs =>
        logs := GetLogs(chain, addr, Call(outgoing, from, hi));
        assert Answered(tried) == [Call(outgoing, from, hi)];
        SeenByOne(Call(outgoing, from, hi), addr);
        LogsApart(chain, addr, Call(outgoing, from, hi));
        break;
      case RateLimited =>
        rateLimited := true;
        from := Halve(from, hi) + 1;
        attempts := attempts + 1;
      case Failed =>
        break;
    }
  }

  predicate NoErrors(answers: seq<Answer>) { forall i | 0 <= i < |answers| :: answers[i].Logs? }

  predicate SameKey(a: Transfer, b: Transfer) { a.hash == b.hash && a.logIndex == b.logIndex }

  lemma KeysNameTransfers(chain: seq<Transfer>, a: Transfer, b: Transfer)
    requires IsChain(chain) && a in chain && b in chain && SameKey(a, b)
    ensures a == b
  {
  }

  /** Keep the first event of each (hash, log index). */
  method Dedupe(chain: seq<Transfer>, events: seq<Transfer>) returns (unique: seq<Transfer>)
    requires IsChain(chain) && forall t | t in events :: t in chain
    ensures NoDuplicates(unique) && forall t :: t in unique <==> t in events
  {
    var seen: set<(nat, nat)> := {};
    unique := [];
    var i := 0;
    while i < |events|
      invariant 0 <= i <= |events| && NoDuplicates(unique)
      invariant forall t :: t in unique <==> t in events[..i]
      invariant forall t | t in unique :: (t.hash, t.logIndex) in seen
      invariant forall k | k in seen :: exists t :: t in unique && k == (t.hash, t.logIndex)
    {
      var e := events[i];
      var k := (e.hash, e.logIndex);
      assert events[..i + 1] == events[..i] + [e];
      if k in seen {
        ghost var t :| t in unique && k == (t.hash, t.logIndex);
        KeysNameTransfers(chain, t, e);
      } else {
        assert e !in unique;
        seen := seen + {k};
        unique := unique + [e];
      }
      i := i + 1;
    }
    assert events[..i] == events;
  }

  function Insert(page: seq<Transfer>, t: Transfer): seq<Transfer>
  {
    if page == [] || Newer(t, page[0]) then [t] + page else [page[0]] + Insert(page[1..], t)
  }

  lemma {:induction false} InsertKeepsDescending(page: seq<Transfer>, t: Transfer)
    requires Descending(page) && forall x | x in page :: Newer(x, t) || Newer(t, x)
    ensures Descending(Insert(page, t)) && |Insert(page, t)| == |page| + 1
    ensures forall x :: x in Insert(page, t) <==> x in page || x == t
  {
    if page == [] || Newer(t, page[0]) {
    } else {
      assert page[0] in page && page == [page[0]] + page[1..];
      assert forall x | x in page[1..] :: x in page;
      InsertKeepsDescending(page[1..], t);
      var rest := Insert(page[1..], t);
      forall i | 0 <= i < |rest|
        ensures Newer(page[0], rest[i])
      {
        assert rest[i] in rest;
      }
      assert Insert(page, t) == [page[0]] + rest;
    }
  }

  /** Sort by block and log index, newest first. */
  method SortNewestFirst(chain: seq<Transfer>, unique: seq<Transfer>) returns (page: seq<Transfer>)
    requires IsChain(chain) && NoDuplicates(unique) && forall t | t in unique :: t in chain
    ensures Descending(page) && |page| == |unique| && forall t :: t in page <==> t in unique
  {
    page := [];
    var i := 0;
    while i < |unique|
      invariant 0 <= i <= |unique| && |page| == i && Descending(page)
      invariant forall t :: t in page <==> t in unique[..i]
    {
      forall x | x in page
        ensures Newer(x, unique[i]) || Newer(unique[i], x)
      {
        assert x in unique[..i] && x != unique[i];
        TotalOrder(chain, x, unique[i]);
      }
      InsertKeepsDescending(page, unique[i]);
      assert unique[..i + 1] == unique[..i] + [unique[i]];
      page := Insert(page, unique[i]);
      i := i + 1;
    }
    assert unique[..i] == unique;
  }

  lemma CutIsNewest(page: seq<Transfer>, chain: seq<Transfer>, addr: Address, calls: seq<Call>, n: nat)
    requires Descending(page) && forall t :: t in page <==> t in chain && Seen(calls, addr, t)
    ensures IsNewest(if |page| <= n then page else page[..n], chain, addr, calls, n)
  {
    if |page| > n {
      forall t | t in chain && Seen(calls, addr, t) && t !in page[..n]
        ensures forall i | 0 <= i < n :: Newer(page[i], t)
      {
        var j :| 0 <= j < |page| && page[j] == t;
        assert forall k | 0 <= k < n :: page[..n][k] == page[k];
      }
    }
  }

  lemma SeenBoth(a: seq<Call>, b: seq<Call>, addr: Address)
    ensures forall t :: Seen(a + b, addr, t) <==> Seen(a, addr, t) || Seen(b, addr, t)
  {
    forall t
      ensures Seen(a + b, addr, t) <==> Seen(a, addr, t) || Seen(b, addr, t)
    {
      assert forall i | 0 <= i < |a| :: (a + b)[i] == a[i];
      assert forall i | 0 <= i < |b| :: (a + b)[|a| + i] == b[i];
    }
  }

  lemma SameSeenSamePage(chain: seq<Transfer>, addr: Address, a: seq<Call>, b: seq<Call>, n: nat)
    requires forall t | t in chain :: Seen(a, addr, t) == Seen(b, addr, t)
    ensures Newest(chain, addr, a, n) == Newest(chain, addr, b, n)
  {
    if chain != [] && n != 0 {
      var init := chain[..|chain| - 1];
      SameSeenSamePage(init, addr, a, b, n);
      SameSeenSamePage(init, addr, a, b, n - 1);
    }
  }

  /** What the scan has read so far: each direction without repetition, and all above `cursor`. */
  ghost predicate Gathered(events: seq<Transfer>, outs: seq<Transfer>, ins: seq<Transfer>, cursor: int)
  {
    && |events| == |outs| + |ins| && NoDuplicates(outs) && NoDuplicates(ins)
    && (forall t | t in outs :: t in events && t.block > cursor)
    && (forall t | t in ins :: t in events && t.block > cursor)
  }

  lemma GatherMore(old': seq<Transfer>, more: seq<Transfer>, lo: int, hi: int)
    requires NoDuplicates(old') && NoDuplicates(more) && lo <= hi
    requires (forall t | t in old' :: t.block > hi) && (forall t | t in more :: lo <= t.block <= hi)
    ensures NoDuplicates(old' + more) && forall t | t in old' + more :: t.block >= lo
  {
    assert forall i | 0 <= i < |old'| :: old'[i] in old';
    assert forall i | 0 <= i < |more| :: more[i] in more;
  }

  function Max(a: int, b: int): int { if a >= b then a else b }

  predicate RoundOk(r: Round)
  {
    0 <= r.lo <= r.hi && Tried(r.outgoing, true, r.lo, r.hi) && Tried(r.incoming, false, r.lo, r.hi)
  }

  /** The node complained about the rate in this round. */
  predicate Complained(r: Round)
    requires RoundOk(r)
  {
    r.outgoing[0].answer == RateLimited || r.incoming[0].answer == RateLimited
  }

  /** Both directions of a chunk without errors: exactly its transfers that touch the wallet. */
  lemma WholeRound(r: Round, addr: Address)
    requires RoundOk(r) && r.outgoing[0].answer.Logs? && r.incoming[0].answer.Logs?
    ensures forall t: Transfer ::
              Seen(Answered(r.outgoing + r.incoming), addr, t) <==> r.lo <= t.block <= r.hi && Touches(t, addr)
  {
    AttemptsAppend([], addr, r.outgoing, r.incoming);
    assert r.outgoing == [r.outgoing[0]] && r.incoming == [r.incoming[0]];
    AnsweredByOne(r.outgoing[0].call, Logs, addr, []);
    AnsweredByOne(r.incoming[0].call, Logs, addr, []);
    assert Answered(r.outgoing + r.incoming) == Range(r.lo, r.hi);
    InRange(addr, r.lo, r.hi);
  }

  lemma MetInTurn(a: seq<Attempt>, b: seq<Attempt>, answers: seq<Answer>)
    requires Met(a, answers) && Met(b, Drop(answers, |a|))
    ensures Met(a + b, answers) && Drop(Drop(answers, |a|), |b|) == Drop(answers, |a + b|)
  {
  }

  /** Every call covers only its own range. */
  lemma SeenInRange(attempts: seq<Attempt>, outgoing: bool, lo: int, hi: int, addr: Address)
    requires Tried(attempts, outgoing, lo, hi) && lo <= hi
    ensures forall t: Transfer | Seen(Answered(attempts), addr, t) :: lo <= t.block <= hi
  {
    AttemptsAppend([], addr, attempts[..1], attempts[1..]);
    assert attempts == attempts[..1] + attempts[1..];
    AnsweredByOne(attempts[0].call, attempts[0].answer, addr, []);
    assert attempts[..1] == [Attempt(attempts[0].call, attempts[0].answer)];
    if |attempts| == 2 {
      AnsweredByOne(attempts[1].call, attempts[1].answer, addr, []);
      assert attempts[1..] == [Attempt(attempts[1].call, attempts[1].answer)];
    }
  }

  /** The events are what the rounds' attempts brought, and `rest` is what the node will answer next. */
  ghost predicate Brought(events: seq<Transfer>, rest: seq<Answer>, chain: seq<Transfer>, addr: Address,
      attempts: seq<Attempt>, answers: seq<Answer>)
  {
    && Met(attempts, answers) && rest == Drop(answers, |attempts|)
    && |events| == Fetched(chain, addr, attempts)
    && (forall t :: t in events <==> t in chain && Seen(Answered(attempts), addr, t))
  }

  /** Without errors the walk has seen exactly what touches the wallet above `cursor`. */
  ghost predicate SeenAbove(attempts: seq<Attempt>, addr: Address, cursor: int, head: int)
  {
    forall t :: Seen(Answered(attempts), addr, t) <==> cursor < t.block <= head && Touches(t, addr)
  }

  /** One round: both directions of one chunk. */
  method ReadChunk(chain: seq<Transfer>, addr: Address, lo: int, hi: int, answers: seq<Answer>)
    returns (outs: seq<Transfer>, ins: seq<Transfer>, rateLimited: bool, rest: seq<Answer>, ghost round: Round)
    requires IsChain(chain) && 0 <= lo <= hi
    ensures RoundOk(round) && round.lo == lo && round.hi == hi && rateLimited == Complained(round)
    ensures Brought(outs + ins, rest, chain, addr, round.outgoing + round.incoming, answers)
    ensures NoDuplicates(outs) && NoDuplicates(ins)
    ensures forall t | t in outs || t in ins :: lo <= t.block <= hi
    ensures NoErrors(answers) ==>
              !rateLimited && NoErrors(rest) && SeenAbove(round.outgoing + round.incoming, addr, lo - 1, hi)
  {
    var firstLimited, secondLimited;
    ghost var outTried, inTried;
    outs, firstLimited, rest, outTried := Fetch(chain, addr, true, lo, hi, answers);
    ins, secondLimited, rest, inTried := Fetch(chain, addr, false, lo, hi, rest);
    round, rateLimited := Round(lo, hi, outTried, inTried), firstLimited || secondLimited;
    MetInTurn(outTried, inTried, answers);
    AttemptsAppend(chain, addr, outTried, inTried);
    SeenBoth(Answered(outTried), Answered(inTried), addr);
    SeenInRange(outTried, true, lo, hi, addr);
    SeenInRange(inTried, false, lo, hi, addr);
    if NoErrors(answers) {
      assert outTried[0].answer == Nth(answers, 0) && inTried[0].answer == Nth(Drop(answers, |outTried|), 0);
      WholeRound(round, addr);
    }
  }

  lemma SeenTouches(calls: seq<Call>, addr: Address)
    ensures forall t: Transfer | Seen(calls, addr, t) :: Touches(t, addr)
  {
  }

  // ----- The walk -----

  function AllAttempts(rounds: seq<Round>): seq<Attempt>
  {
    if rounds == [] then []
    else
      var last := rounds[|rounds| - 1];
      AllAttempts(rounds[..|rounds| - 1]) + (last.outgoing + last.incoming)
  }

  /** The size of the chunk after this one: halved down to 250 blocks on a complaint, doubled up to 2000 otherwise. */
  function NextSize(r: Round): int
    requires RoundOk(r)
  {
    var size := r.hi - r.lo + 1;
    if Complained(r) then Max(250, size / 2) else if size * 2 < 2000 then size * 2 else 2000
  }

  /** The lowest block any round has come to. */
  function Bottom(rounds: seq<Round>, head: int): int { if rounds == [] then head + 1 else rounds[|rounds| - 1].lo }

  /** The chunk right below, in the size the last one's answers call for, cut off at block zero. */
  predicate Follows(r: Round, before: Round)
    requires RoundOk(before)
  {
    r.hi == before.lo - 1 && r.lo == Max(0, r.hi + 1 - NextSize(before))
  }

  /** Chunk after chunk from the head down without a gap, in the sizes the node's answers call for. */
  ghost predicate Walk(rounds: seq<Round>, head: int)
  {
    && (forall i | 0 <= i < |rounds| :: RoundOk(rounds[i]))
    && (rounds != [] ==> rounds[0].hi == head && rounds[0].lo == Max(0, head - 1999))
    && (forall i | 0 < i < |rounds| :: Follows(rounds[i], rounds[i - 1]))
  }

  /** Chain start, block budget, or twice as many events as the page can hold. */
  predicate Over(chain: seq<Transfer>, addr: Address, rounds: seq<Round>, head: int, lookback: int, n: nat)
  {
    || Bottom(rounds, head) <= 1 || head + 1 - Bottom(rounds, head) >= Max(2000, lookback)
    || Fetched(chain, addr, AllAttempts(rounds)) >= 2 * n
  }

  lemma {:induction false} WalkCovers(rounds: seq<Round>, head: int, block: int)
    requires Walk(rounds, head) && Bottom(rounds, head) <= block <= head
    ensures exists i :: 0 <= i < |rounds| && rounds[i].lo <= block <= rounds[i].hi
  {
    if rounds != [] {
      var last := |rounds| - 1;
      if block > rounds[last].hi {
        var init := rounds[..last];
        WalkCovers(init, head, block);
        var i :| 0 <= i < |init| && init[i].lo <= block <= init[i].hi;
        assert rounds[i] == init[i];
      } else {
        assert rounds[last].lo <= block <= rounds[last].hi;
      }
    }
  }

  lemma {:induction false} AttemptIn(rounds: seq<Round>, i: nat, a: Attempt)
    requires i < |rounds| && a in rounds[i].outgoing + rounds[i].incoming
    ensures a in AllAttempts(rounds)
  {
    var last := |rounds| - 1;
    if i < last {
      assert rounds[..last][i] == rounds[i];
      AttemptIn(rounds[..last], i, a);
    }
  }

  lemma {:induction false} AnsweredIn(attempts: seq<Attempt>, a: Attempt)
    requires a in attempts && a.answer.Logs?
    ensures a.call in Answered(attempts)
  {
    var last := |attempts| - 1;
    if a != attempts[last] {
      assert attempts == attempts[..last] + [attempts[last]];
      AnsweredIn(attempts[..last], a);
    }
  }

  /** What the walk has passed was read, or a call for it was dropped. */
  lemma PassedIsSeenOrDropped(rounds: seq<Round>, head: int, addr: Address, t: Transfer)
    requires Walk(rounds, head) && Touches(t, addr) && Bottom(rounds, head) <= t.block <= head
    ensures
      || Seen(Answered(AllAttempts(rounds)), addr, t)
      || exists a | a in AllAttempts(rounds) :: !a.answer.Logs? && Covers(a.call, addr, t)
  {
    WalkCovers(rounds, head, t.block);
    var i :| 0 <= i < |rounds| && rounds[i].lo <= t.block <= rounds[i].hi;
    var a := if t.from == addr then rounds[i].outgoing[0] else rounds[i].incoming[0];
    assert a in rounds[i].outgoing + rounds[i].incoming && Covers(a.call, addr, t);
    AttemptIn(rounds, i, a);
    if a.answer.Logs? {
      AnsweredIn(AllAttempts(rounds), a);
      var calls := Answered(AllAttempts(rounds));
      var j :| 0 <= j < |calls| && calls[j] == a.call;
      assert Covers(calls[j], addr, t);
    }
  }

  lemma AllAnswered(attempts: seq<Attempt>, answers: seq<Answer>)
    requires Met(attempts, answers) && NoErrors(answers)
    ensures forall a | a in attempts :: a.answer.Logs?
  {
  }

  lemma RoundAdded(rounds: seq<Round>, r: Round, head: int)
    requires Walk(rounds, head) && RoundOk(r)
    requires if rounds == [] then r.hi == head && r.lo == Max(0, head - 1999)
             else RoundOk(rounds[|rounds| - 1]) && Follows(r, rounds[|rounds| - 1])
    ensures Walk(rounds + [r], head) && Bottom(rounds + [r], head) == r.lo
    ensures AllAttempts(rounds + [r]) == AllAttempts(rounds) + (r.outgoing + r.incoming)
  {
    hide RoundOk, Follows;
    assert (rounds + [r])[..|rounds|] == rounds;
  }

  lemma BroughtMore(events: seq<Transfer>, more: seq<Transfer>, rest: seq<Answer>, left: seq<Answer>,
      chain: seq<Transfer>, addr: Address, a: seq<Attempt>, b: seq<Attempt>, answers: seq<Answer>)
    requires Brought(events, rest, chain, addr, a, answers) && Brought(more, left, chain, addr, b, rest)
    ensures Brought(events + more, left, chain, addr, a + b, answers)
  {
    MetInTurn(a, b, answers);
    AttemptsAppend(chain, addr, a, b);
    SeenBoth(Answered(a), Answered(b), addr);
    hide Met, Answered, Fetched, Seen;
  }

  lemma SeenFurther(a: seq<Attempt>, b: seq<Attempt>, addr: Address, cursor: int, lo: int, head: int)
    requires SeenAbove(a, addr, cursor, head) && SeenAbove(b, addr, lo - 1, cursor) && lo <= cursor <= head
    ensures SeenAbove(a + b, addr, lo - 1, head)
  {
    AttemptsAppend([], addr, a, b);
    SeenBoth(Answered(a), Answered(b), addr);
    hide Answered, Fetched, Seen;
  }

  lemma NotOverYet(chain: seq<Transfer>, addr: Address, rounds: seq<Round>, r: Round, head: int, lookback: int, n: nat)
    requires forall i | 0 <= i < |rounds| :: !Over(chain, addr, rounds[..i], head, lookback, n)
    requires !Over(chain, addr, rounds, head, lookback, n)
    ensures forall i | 0 <= i < |rounds + [r]| :: !Over(chain, addr, (rounds + [r])[..i], head, lookback, n)
  {
    hide Over;
    assert forall i | 0 <= i < |rounds| :: (rounds + [r])[..i] == rounds[..i];
    assert (rounds + [r])[..|rounds|] == rounds;
  }

  lemma GatheredMore(events: seq<Transfer>, outs: seq<Transfer>, ins: seq<Transfer>, newOuts: seq<Transfer>,
      newIns: seq<Transfer>, lo: int, hi: int)
    requires Gathered(events, outs, ins, hi) && NoDuplicates(newOuts) && NoDuplicates(newIns) && lo <= hi
    requires forall t | t in newOuts || t in newIns :: lo <= t.block <= hi
    ensures Gathered(events + (newOuts + newIns), outs + newOuts, ins + newIns, lo - 1)
  {
    GatherMore(outs, newOuts, lo, hi);
    GatherMore(ins, newIns, lo, hi);
  }

  lemma ScanStarts(chain: seq<Transfer>, addr: Address, head: nat, answers: seq<Answer>)
    ensures Walk([], head) && Bottom([], head) == head + 1 && AllAttempts([]) == []
    ensures Brought([], answers, chain, addr, [], answers) && Gathered([], [], [], head)
    ensures SeenAbove([], addr, head, head)
  {
  }

  lemma OverIff(chain: seq<Transfer>, addr: Address, rounds: seq<Round>, head: int, lookback: int, n: nat, found: nat)
    requires found == Fetched(chain, addr, AllAttempts(rounds))
    ensures
      Over(chain, addr, rounds, head, lookback, n)
      <==> Bottom(rounds, head) <= 1 || head + 1 - Bottom(rounds, head) >= Max(CHUNK, lookback) || found >= n * 2
  {
    hide Fetched;
  }

  lemma BroughtCount(events: seq<Transfer>, rest: seq<Answer>, chain: seq<Transfer>, addr: Address,
      attempts: seq<Attempt>, answers: seq<Answer>)
    requires Brought(events, rest, chain, addr, attempts, answers)
    ensures |events| == Fetched(chain, addr, attempts)
  {
  }

  lemma EventsTouch(events: seq<Transfer>, rest: seq<Answer>, chain: seq<Transfer>, addr: Address,
      attempts: seq<Attempt>, answers: seq<Answer>)
    requires Brought(events, rest, chain, addr, attempts, answers)
    ensures forall t | t in events :: t in chain && Touches(t, addr)
  {
    SeenTouches(Answered(attempts), addr);
  }

  /** Without errors the events hold whatever touches the wallet down to where the walk ended. */
  lemma NothingMissed(events: seq<Transfer>, rest: seq<Answer>, chain: seq<Transfer>, addr: Address,
      attempts: seq<Attempt>, answers: seq<Answer>, cursor: int, head: int)
    requires Brought(events, rest, chain, addr, attempts, answers) && SeenAbove(attempts, addr, cursor, head)
    ensures forall t | t in chain && Touches(t, addr) && cursor < t.block <= head :: t in events
  {
  }

  /** What the rounds leave in hand: events, split by direction without repetition. */
  method ScanBack(chain: seq<Transfer>, addr: Address, head: nat, lookback: int, n: nat, answers: seq<Answer>)
    returns (events: seq<Transfer>, ghost rounds: seq<Round>, ghost outs: seq<Transfer>, ghost ins: seq<Transfer>)
    requires IsChain(chain)
    ensures forall t | t in events :: t in chain && Touches(t, addr)
    ensures NoErrors(answers) && |events| < 2 * n ==>
              forall t | t in chain && Touches(t, addr) && Max(1, head + 1 - Max(2000, lookback)) <= t.block <= head ::
                t in events
    ensures Walk(rounds, head) && 0 <= Bottom(rounds, head)
    ensures exists rest :: Brought(events, rest, chain, addr, AllAttempts(rounds), answers)
    ensures Over(chain, addr, rounds, head, lookback, n)
    ensures forall i | 0 <= i < |rounds| :: !Over(chain, addr, rounds[..i], head, lookback, n)
    ensures Gathered(events, outs, ins, Bottom(rounds, head) - 1)
    ensures NoErrors(answers) ==> SeenAbove(AllAttempts(rounds), addr, Bottom(rounds, head) - 1, head)
  {
    var budget := Max(CHUNK, lookback);
    var scanned, cursor, chunkSize, rest := 0, head as int, CHUNK, answers;
    events, outs, ins, rounds := [], [], [], [];
    ScanStarts(chain, addr, head, answers);
    hide Walk, Brought, AllAttempts, Gathered, SeenAbove, Seen, Answered, Fetched, Met, GetLogs, Tried, Over, Drop;
    while cursor > 0 && scanned < budget && |events| < n * 2
      invariant -1 <= cursor <= head && scanned == head - cursor && MIN_CHUNK <= chunkSize <= CHUNK
      invariant Walk(rounds, head) && Bottom(rounds, head) == cursor + 1
      invariant rounds != [] ==> RoundOk(rounds[|rounds| - 1])
      invariant cursor > 0 ==> chunkSize == if rounds == [] then CHUNK else NextSize(rounds[|rounds| - 1])
      invariant Brought(events, rest, chain, addr, AllAttempts(rounds), answers)
      invariant forall i | 0 <= i < |rounds| :: !Over(chain, addr, rounds[..i], head, lookback, n)
      invariant NoErrors(answers) ==> NoErrors(rest) && SeenAbove(AllAttempts(rounds), addr, cursor, head)
      invariant Gathered(events, outs, ins, cursor)
      decreases cursor
    {
      var chunkTo := cursor;
      var chunkFrom := Max(0, cursor - chunkSize + 1);
      var newOuts, newIns, rateLimited;
      ghost var round, before := Round(0, 0, [], []), rest;
      BroughtCount(events, rest, chain, addr, AllAttempts(rounds), answers);
      OverIff(chain, addr, rounds, head, lookback, n, |events|);
      newOuts, newIns, rateLimited, rest, round := ReadChunk(chain, addr, chunkFrom, chunkTo, rest);
      NotOverYet(chain, addr, rounds, round, head, lookback, n);
      ghost var attempts, tried := AllAttempts(rounds), round.outgoing + round.incoming;
      BroughtMore(events, newOuts + newIns, before, rest, chain, addr, attempts, tried, answers);
      if NoErrors(answers) {
        SeenFurther(attempts, tried, addr, cursor, chunkFrom, head);
      }
      GatheredMore(events, outs, ins, newOuts, newIns, chunkFrom, chunkTo);
      RoundAdded(rounds, round, head);
      events := events + (newOuts + newIns);
      outs, ins, rounds := outs + newOuts, ins + newIns, rounds + [round];
      scanned := scanned + chunkTo - chunkFrom + 1;
      cursor := chunkFrom - 1;
      if rateLimited {
        chunkSize := Max(MIN_CHUNK, chunkSize / 2);
      } else if chunkSize < CHUNK {
        chunkSize := if chunkSize * 2 <= CHUNK then chunkSize * 2 else CHUNK;
      }
    }
    BroughtCount(events, rest, chain, addr, AllAttempts(rounds), answers);
    OverIff(chain, addr, rounds, head, lookback, n, |events|);
    EventsTouch(events, rest, chain, addr, AllAttempts(rounds), answers);
    if NoErrors(answers) {
      NothingMissed(events, rest, chain, addr, AllAttempts(rounds), answers, cursor, head);
    }
  }

  /** The page the admin sees: the newest `limit` transfers of what the answered calls cover. The walk ends only at the
      start of the chain, at the end of the block budget or with twice `limit` events in hand, whatever the node
      answers, so a transfer within the budget that a page with room does not show lies where a call was dropped.
      Without RPC errors the page begins the page of the whole chain and is it when full. */
  method ListRecentTransfers(chain: seq<Transfer>, addr: Address, head: nat, lookback: int, limit: int,
      answers: seq<Answer>)
    returns (page: seq<Transfer>, ghost rounds: seq<Round>)
    requires IsChain(chain)
    ensures |page| <= Max(1, limit) && Descending(page)
    ensures forall t | t in page :: t in chain && Touches(t, addr)
    ensures page == Newest(chain, addr, Answered(AllAttempts(rounds)), Max(1, limit))
    ensures Walk(rounds, head) && Met(AllAttempts(rounds), answers)
    ensures Over(chain, addr, rounds, head, lookback, Max(1, limit))
    ensures forall i | 0 <= i < |rounds| :: !Over(chain, addr, rounds[..i], head, lookback, Max(1, limit))
    ensures forall t | t in chain && Touches(t, addr) && Max(1, head + 1 - Max(2000, lookback)) <= t.block <= head ::
              || t in page || |page| == Max(1, limit)
              || exists a | a in AllAttempts(rounds) :: !a.answer.Logs? && Covers(a.call, addr, t)
    ensures NoErrors(answers) ==> page == Newest(chain, addr, Range(Bottom(rounds, head), head), Max(1, limit))
    ensures NoErrors(answers) ==> page <= Newest(chain, addr, Range(0, head), Max(1, limit))
    ensures NoErrors(answers) && |page| == Max(1, limit) ==> page == Newest(chain, addr, Range(0, head), Max(1, limit))
    ensures NoErrors(answers) && |page| < Max(1, limit) ==>
              forall t | t in chain && Touches(t, addr) && Max(1, head + 1 - Max(2000, lookback)) <= t.block <= head ::
                t in page
  {
    var n := Max(1, limit);
    var events;
    ghost var outs, ins;
    events, rounds, outs, ins := ScanBack(chain, addr, head, lookback, n, answers);
    ghost var calls := Answered(AllAttempts(rounds));
    hide Walk, Met, Answered, AllAttempts, Fetched;
    var unique := Dedupe(chain, events);
    page := SortNewestFirst(chain, unique);
    CutIsNewest(page, chain, addr, calls, n);
    AtLeastAsMany(outs, unique);
    AtLeastAsMany(ins, unique);
    page := if |page| <= n then page else page[..n];
    NewestIsUnique(page, chain, addr, calls, n);
    SeenTouches(calls, addr);
    forall t | t in chain && Touches(t, addr) && Max(1, head + 1 - Max(2000, lookback)) <= t.block <= head
      ensures t in page || |page| == n
              || exists a | a in AllAttempts(rounds) :: !a.answer.Logs? && Covers(a.call, addr, t)
    {
      if |page| < n {
        PassedIsSeenOrDropped(rounds, head, addr, t);
      }
    }
    if NoErrors(answers) {
      AllAnswered(AllAttempts(rounds), answers);
      var lo := Bottom(rounds, head);
      InRange(addr, lo, head);
      SameSeenSamePage(chain, addr, calls, Range(lo, head), n);
      RecentPageIsPrefix(chain, addr, lo, head, n);
      if |page| == n {
        FullPageIsGlobal(chain, addr, lo, head, n);
      }
    }
  }
}
