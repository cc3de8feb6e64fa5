/** A concrete run in which claims outlive reposts: more attempts than three, and a dead letter. */
module StaleClaims {
  import opened Prelude
  import opened Rows
  import opened Books
  import opened DailyOutboundLimit
  import opened IdempotencyFingerprint
  import opened WatBusinessDay
  import opened Ledger
  import opened Settlement
  import opened Shapes
  import opened Machine
  import opened Conservation
  import opened Protocol
  import opened Reversals
  import opened Requests
  import opened Invariants
  import opened MoneyTheorems
  import opened RequestTheorems
  import opened Attempts
  import opened Scenarios

  const AMOUNT: int := 1_000_000

  // ---------- Three payments, so that three reversals are covered ----------

  /** Her two wallets with room for payments of the amount, `used` being spent at most. */
  ghost predicate Rich(db: Db, used: int) {
    && |db.books.wallets| == 5
    && forall i: nat :: 3 <= i < 5 ==>
         && db.books.wallets[i].customerId == ADA && db.books.wallets[i].balance >= DEPOSIT - 2 * used
         && 0 <= CounterOf(db.counters, i, Today(0)) <= used
  }

  ghost predicate SystemHolds(b: Books, k: int) {
    && b.wallets[SETTLEMENT].balance >= k * AMOUNT && b.wallets[INCOME].balance >= k * FEE && b.wallets[VAT].balance >= k * LEVIED_VAT
  }

  lemma {:induction false} RichCanPay(db: Db, c: Command, wallet: nat, used: int)
    requires Rich(db, used) && 0 <= used <= 3 * AMOUNT && IsPayment(c, wallet, AMOUNT) && 3 <= wallet < 5 && (ADA, c.key) !in db.idem
    ensures Payable(db, c)
  {
  }

  lemma {:induction false} PayingUses(db: Db, db': Db, c: Command, used: int, k: int)
    requires Rich(db, used) && SystemHolds(db.books, k) && c.OutboundCommand? && 3 <= c.source < 5 && c.amount == AMOUNT
    requires PaidBooks(db.books, db'.books, c) && PaidCounters(db, db', c)
    ensures Rich(db', used + AMOUNT) && SystemHolds(db'.books, k + 1)
  {
    forall i: nat | 3 <= i < 5
      ensures db'.books.wallets[i].customerId == ADA && db'.books.wallets[i].balance >= DEPOSIT - 2 * (used + AMOUNT)
      ensures 0 <= CounterOf(db'.counters, i, Today(0)) <= used + AMOUNT
    {
      assert SameIdentity(db.books.wallets[i], db'.books.wallets[i]);
    }
  }

  /** After `k` payments under the keys in `keys`, the first of them transfer 0. */
  ghost predicate PaidTimes(w: World, k: int, keys: set<string>) {
    && Reachable(w) && TotalFits(w.db.books) && Rich(w.db, k * AMOUNT) && SystemHolds(w.db.books, k) && RepostFree(w.log)
    && (forall key: string :: (ADA, key) in w.db.idem ==> key in keys)
    && (k > 0 ==> |w.db.transfers| > 0 && IsHers(w.db.transfers[0], AMOUNT) && PhaseAt(w.db, 0) == Some(Waiting))
  }

  lemma {:induction false} PayOnce(w: World, c: Command, wallet: nat, k: int, keys: set<string>) returns (v: World)
    requires PaidTimes(w, k, keys) && 0 <= k <= 2 && (k == 0 ==> w.db.transfers == [])
    requires IsPayment(c, wallet, AMOUNT) && 3 <= wallet < 5 && c.key !in keys
    ensures PaidTimes(v, k + 1, keys + {c.key})
  {
    ReachableHasInv(w);
    RichCanPay(w.db, c, wallet, k * AMOUNT);
    PaymentEffect(w, c);
    v := AfterPay(w, c);
    PayingUses(w.db, v.db, c, k * AMOUNT, k);
    ReachableFirstRow(w, v, c, k);
    PaymentIsReachable(w, c);
  }

  lemma {:induction false} ReachableFirstRow(w: World, v: World, c: Command, k: int)
    requires c.OutboundCommand? && c.amount == AMOUNT && Paid(w, v, c) && 0 <= k && (k == 0 ==> w.db.transfers == [])
    requires k > 0 ==> |w.db.transfers| > 0 && IsHers(w.db.transfers[0], AMOUNT)
    ensures |v.db.transfers| > 0 && IsHers(v.db.transfers[0], AMOUNT) && PhaseAt(v.db, 0) == Some(Waiting)
  {
    FirstRowStays(w.db, v.db, c, k);
  }

  lemma {:induction false} PaymentIsReachable(w: World, c: Command)
    requires Reachable(w) && CanPay(w, c)
    ensures Reachable(AfterPay(w, c))
  {
    PaymentIsValid(w.db, c);
    StepLeads(w, Ask(c, Terminal()));
    LeadsOn(Start(), w, AfterPay(w, c));
  }

  lemma {:induction false} FirstRowStays(db: Db, db': Db, c: Command, k: int)
    requires c.OutboundCommand? && c.amount == AMOUNT && PaidRows(db, db', c) && 0 <= k && (k == 0 ==> db.transfers == [])
    requires JobsMatch(db') && PairsOk(db')
    requires k > 0 ==> |db.transfers| > 0 && IsHers(db.transfers[0], AMOUNT)
    ensures |db'.transfers| > 0 && IsHers(db'.transfers[0], AMOUNT) && PhaseAt(db', 0) == Some(Waiting)
  {
    if k > 0 { assert db'.transfers[0] == db'.transfers[..|db.transfers|][0]; }
    assert PairOk(db'.transfers[0], db'.jobs[0]);
  }

  lemma {:induction false} OpenedIsPaidZero(w: World)
    requires Reachable(w) && Opened(w)
    ensures PaidTimes(w, 0, {}) && w.db.transfers == []
  {
  }

  lemma {:induction false} PayThrice(w: World, a: Command, b: Command, c: Command) returns (v: World)
    requires PaidTimes(w, 0, {}) && w.db.transfers == []
    requires IsPayment(a, 3, AMOUNT) && IsPayment(b, 4, AMOUNT) && IsPayment(c, 3, AMOUNT)
    requires a.key != b.key && a.key != c.key && b.key != c.key
    ensures OneOfThree(v)
  {
    v := PayOnce(w, a, 3, 0, {});
    v := PayOnce(v, b, 4, 1, {} + {a.key});
    v := PayOnce(v, c, 3, 2, {} + {a.key} + {b.key});
  }

  /** Three payments wait; the first is transfer 0. */
  ghost predicate OneOfThree(w: World) { exists keys: set<string> :: PaidTimes(w, 3, keys) }

  lemma {:induction false} PaidThrice() returns (w: World)
    ensures OneOfThree(w)
  {
    var es := Prologue();
    var a, b, c := Pay(3, AMOUNT, '1'), Pay(4, AMOUNT, '2'), Pay(3, AMOUNT, '3');
    PayIsPayment(3, AMOUNT, '1');
    PayIsPayment(4, AMOUNT, '2');
    PayIsPayment(3, AMOUNT, '3');
    assert a.key[0] != b.key[0] && a.key[0] != c.key[0] && b.key[0] != c.key[0];
    w := PaidFrom(es, a, b, c);
  }

  lemma {:induction false} PaidFrom(es: seq<Event>, a: Command, b: Command, c: Command) returns (v: World)
    requires AllAdmissible(es) && Opened(Run(Start(), es))
    requires IsPayment(a, 3, AMOUNT) && IsPayment(b, 4, AMOUNT) && IsPayment(c, 3, AMOUNT)
    requires a.key != b.key && a.key != c.key && b.key != c.key
    ensures OneOfThree(v)
  {
    OpenedIsPaidZero(Run(Start(), es));
    v := PayThrice(Run(Start(), es), a, b, c);
  }

  // ---------- One epoch: submitted with a stale claim, failed, reposted ----------

  function Doubtful(): RailAnswer { RailAnswer(RailUnknown, Some("R")) }

  /** Transfer 0 in a phase, with its attempts, the reversals still covered and the reposts so far. */
  ghost predicate At(w: World, p: Phase, attempts: nat, k: int, reposts: int) {
    && Reachable(w) && |w.db.transfers| > 0 && 0 in w.db.jobs && PhaseAt(w.db, 0) == Some(p)
    && w.db.jobs[0].attempts == attempts && (p.Waiting? || w.db.jobs[0].nextAttemptAt <= BACKOFF)
    && w.db.transfers[0].terms.kind.Outbound? && w.db.transfers[0].terms.amount == AMOUNT
    && w.db.transfers[0].terms.fee == FEE && w.db.transfers[0].terms.vat == LEVIED_VAT
    && TotalFits(w.db.books) && SystemHolds(w.db.books, k) && Reposts(w.log, 0) == reposts
    && (w.db.transfers[0].status.Unknown? ==> w.db.transfers[0].externalReference.Some?)
  }

  /** The same, with a claim listed with n attempts in some worker's memory. */
  ghost predicate Claimed(w: World, p: Phase, attempts: nat, k: int, reposts: int, n: nat) {
    At(w, p, attempts, k, reposts) && (0, n) in w.claims
  }

  lemma {:induction false} StepIsReachable(w: World, e: Event)
    requires Reachable(w) && Admissible(e)
    ensures Reachable(Step(w, e)) && SettlementOk(w)
    ensures Reposts(Step(w, e).log, 0) == Reposts(w.log, 0) + (if IsRepostOf(w, e, 0) then 1 else 0)
  {
    ReachableHasInv(w);
    StepLeads(w, e);
    LeadsOn(Start(), w, Step(w, e));
    RepostsCount(w, e, 0);
  }

  lemma {:induction false} OpenIsClaimable(db: Db, p: Phase, attempts: nat)
    requires |db.transfers| > 0 && 0 in db.jobs && PhaseAt(db, 0) == Some(p) && (p.Waiting? || p.InDoubt? || p.FailedOpen?)
    requires db.jobs[0].attempts == attempts && (p.Waiting? || db.jobs[0].nextAttemptAt <= BACKOFF)
    ensures (0, attempts) in Claimable(db, BACKOFF)
  {
  }

  lemma {:induction false} Listed(w: World, p: Phase, attempts: nat, k: int, reposts: int) returns (v: World)
    requires At(w, p, attempts, k, reposts) && (p.Waiting? || p.InDoubt? || p.FailedOpen?)
    ensures Claimed(v, p, attempts, k, reposts, attempts)
  {
    OpenIsClaimable(w.db, p, attempts);
    StepIsReachable(w, ListClaims(BACKOFF));
    v := Step(w, ListClaims(BACKOFF));
  }

  lemma {:induction false} DoubtRows(w: World, n: nat)
    requires SettlementOk(w) && |w.db.transfers| > 0 && 0 in w.db.jobs && PhaseAt(w.db, 0) == Some(Waiting) && (0, n) in w.claims
    ensures var v := AfterRunJob(w, 0, n, Doubtful(), 0, false);
      && v.db.books == w.db.books && v.claims == w.claims && 0 in v.db.jobs && PhaseAt(v.db, 0) == Some(InDoubt)
      && v.db.jobs[0].attempts == n + 1 && v.db.jobs[0].nextAttemptAt == BACKOFF
      && |v.db.transfers| == |w.db.transfers| && v.db.transfers[0].terms == w.db.transfers[0].terms
      && v.db.transfers[0].externalReference == Some("R")
  {
    assert PairOk(w.db.transfers[0], w.db.jobs[0]);
  }

  lemma {:induction false} Doubted(w: World, k: int, reposts: int, n: nat) returns (v: World)
    requires Claimed(w, Waiting, 0, k, reposts, n)
    ensures At(v, InDoubt, n + 1, k, reposts)
  {
    v := AfterRunJob(w, 0, n, Doubtful(), 0, false);
    StepIsReachable(w, RunJob(0, n, Doubtful(), 0, false));
    DoubtRows(w, n);
  }

  lemma {:induction false} NoopRows(w: World, p: Phase, n: nat)
    requires SettlementOk(w) && |w.db.transfers| > 0 && 0 in w.db.jobs && PhaseAt(w.db, 0) == Some(p) && (0, n) in w.claims
    requires p.InDoubt? || p.FailedOpen?
    ensures var v := AfterRunJob(w, 0, n, Doubtful(), 0, false);
      && v.db.books == w.db.books && v.db.transfers == w.db.transfers && v.claims == w.claims && 0 in v.db.jobs
      && PhaseAt(v.db, 0) == Some(if p.InDoubt? then InDoubtClosed else FailedClosed)
      && v.db.jobs[0].attempts == n + 1 && v.db.jobs[0].nextAttemptAt == 0
  {
    assert w.db.transfers[0 := w.db.transfers[0]] == w.db.transfers;
  }

  lemma {:induction false} Closed(w: World, p: Phase, attempts: nat, k: int, reposts: int, n: nat) returns (v: World)
    requires Claimed(w, p, attempts, k, reposts, n) && (p.InDoubt? || p.FailedOpen?)
    ensures At(v, if p.InDoubt? then InDoubtClosed else FailedClosed, n + 1, k, reposts)
  {
    v := AfterRunJob(w, 0, n, Doubtful(), 0, false);
    StepIsReachable(w, RunJob(0, n, Doubtful(), 0, false));
    NoopRows(w, p, n);
  }

  lemma {:induction false} ReversalCosts(b: Books, t: Terms, now: int, k: int)
    requires JournalBacked(b) && NonNegative(b) && TotalFits(b) && TermsOk(t, |b.wallets|) && t.kind.Outbound?
    requires t.amount == AMOUNT && t.fee == FEE && t.vat == LEVIED_VAT && SystemHolds(b, k) && k >= 1
    ensures Reverse(b, 0, t, now).Ok?
    ensures TotalFits(Reverse(b, 0, t, now).value) && SystemHolds(Reverse(b, 0, t, now).value, k - 1)
  {
    ReversalPostsIff(b, 0, t, now);
    ReversalMovesMoney(b, 0, t, now, SETTLEMENT);
    ReversalMovesMoney(b, 0, t, now, INCOME);
    ReversalMovesMoney(b, 0, t, now, VAT);
    var legs := ReversalLegs(t.source.value, t);
    LegTotalFour(legs[0], legs[1], legs[2], legs[3]);
    PostTotal(b, Some(0), now, legs);
  }

  lemma {:induction false} FailRows(w: World)
    requires SettlementOk(w) && |w.db.transfers| > 0 && 0 in w.db.jobs && PhaseAt(w.db, 0) == Some(InDoubtClosed)
    requires w.db.jobs[0].attempts < MAX_ATTEMPTS && w.db.transfers[0].externalReference.Some?
    requires Reverse(w.db.books, 0, w.db.transfers[0].terms, 0).Ok?
    ensures var v := AfterWorkerAsks(w, 0, RailFailed, 0, false);
      && Reverse(w.db.books, 0, w.db.transfers[0].terms, 0) == Ok(v.db.books) && v.claims == w.claims && 0 in v.db.jobs
      && PhaseAt(v.db, 0) == Some(FailedOpen) && v.db.jobs[0].attempts == w.db.jobs[0].attempts
      && v.db.jobs[0].nextAttemptAt == BACKOFF
      && |v.db.transfers| == |w.db.transfers| && v.db.transfers[0].terms == w.db.transfers[0].terms && v.db.transfers[0].status.Failed?
  {
  }

  lemma {:induction false} CanReverse(w: World, p: Phase, attempts: nat, k: int, reposts: int)
    requires At(w, p, attempts, k, reposts) && k >= 1
    ensures var r := Reverse(w.db.books, 0, w.db.transfers[0].terms, 0);
      r.Ok? && TotalFits(r.value) && SystemHolds(r.value, k - 1)
  {
    ReachableHasInv(w);
    assert TermsOk(w.db.transfers[0].terms, |w.db.books.wallets|);
    ReversalCosts(w.db.books, w.db.transfers[0].terms, 0, k);
  }

  lemma {:induction false} FailedByQuery(w: World, attempts: nat, k: int, reposts: int) returns (v: World)
    requires At(w, InDoubtClosed, attempts, k, reposts) && attempts < MAX_ATTEMPTS && k >= 1
    ensures At(v, FailedOpen, attempts, k - 1, reposts)
  {
    v := AfterWorkerAsks(w, 0, RailFailed, 0, false);
    StepIsReachable(w, WorkerAsks(0, RailFailed, 0, false));
    CanReverse(w, InDoubtClosed, attempts, k, reposts);
    FailRows(w);
  }

  lemma {:induction false} RepostRows(w: World)
    requires SettlementOk(w) && |w.db.transfers| > 0 && 0 in w.db.jobs && PhaseAt(w.db, 0) == Some(FailedOpen)
    requires w.db.transfers[0].terms.kind.Outbound?
    ensures Repost(w.db, 0, 0).Ok?
    ensures var v := AfterRepost(w, 0, 0);
      && v.db.books == w.db.books && v.claims == w.claims && 0 in v.db.jobs && PhaseAt(v.db, 0) == Some(Waiting)
      && v.db.jobs[0].attempts == 0 && v.db.jobs[0].nextAttemptAt == 0
      && |v.db.transfers| == |w.db.transfers| && v.db.transfers[0].terms == w.db.transfers[0].terms && v.db.transfers[0].status.Submitted?
  {
  }

  lemma {:induction false} RepostedWithClaim(w: World, attempts: nat, k: int, reposts: int, n: nat) returns (v: World)
    requires Claimed(w, FailedOpen, attempts, k, reposts, n)
    ensures Claimed(v, Waiting, 0, k, reposts + 1, n)
  {
    v := AfterRepost(w, 0, 0);
    StepIsReachable(w, RepostTransfer(0, 0));
    RepostRows(w);
  }

  /** A claim listed with n attempts takes the job to n + 2 attempts, listed again, before it fails. */
  lemma {:induction false} FailedWithClaim(w: World, k: int, reposts: int, n: nat) returns (v: World)
    requires Claimed(w, Waiting, 0, k, reposts, n) && n + 2 < MAX_ATTEMPTS && k >= 1
    ensures Claimed(v, FailedOpen, n + 2, k - 1, reposts, n + 2)
  {
    v := Doubted(w, k, reposts, n);
    v := Listed(v, InDoubt, n + 1, k, reposts);
    v := Closed(v, InDoubt, n + 1, k, reposts, n + 1);
    v := FailedByQuery(v, n + 2, k, reposts);
    v := Listed(v, FailedOpen, n + 2, k - 1, reposts);
  }

  lemma {:induction false} FirstIsWaiting(w: World)
    requires OneOfThree(w)
    ensures At(w, Waiting, 0, 3, 0)
  {
    var keys: set<string> :| PaidTimes(w, 3, keys);
    ReachableHasInv(w);
    NoReposts(w.log, 0);
    assert PairOk(w.db.transfers[0], w.db.jobs[0]);
  }

  lemma {:induction false} FirstListed() returns (v: World)
    ensures Claimed(v, Waiting, 0, 3, 0, 0)
  {
    var w := PaidThrice();
    FirstIsWaiting(w);
    v := Listed(w, Waiting, 0, 3, 0);
  }

  /** An epoch with a stale claim: two attempts more in the list, one reversal covered less, one repost more. */
  lemma {:induction false} EpochWithClaim(w: World, k: int, reposts: int, n: nat) returns (v: World)
    requires Claimed(w, Waiting, 0, k, reposts, n) && n + 2 < MAX_ATTEMPTS && k >= 1
    ensures Claimed(v, Waiting, 0, k - 1, reposts + 1, n + 2)
  {
    var u := FailedWithClaim(w, k, reposts, n);
    v := RepostedWithClaim(u, n + 2, k - 1, reposts, n + 2);
  }

  lemma {:induction false} FirstEpoch() returns (v: World)
    ensures Claimed(v, Waiting, 0, 2, 1, 2)
  {
    var w := FirstListed();
    v := EpochWithClaim(w, 3, 0, 0);
  }

  // ---------- Main results ----------

  /** One repost and a stale claim: five attempts, which is the bound 2r + 3. */
  lemma {:induction false} FiveAttemptsAfterOneRepost() returns (v: World)
    ensures Reachable(v) && 0 in v.db.jobs && Reposts(v.log, 0) == 1 && v.db.jobs[0].attempts == 5
  {
    v := FirstEpoch();
    v := FailedWithClaim(v, 2, 1, 2);
    v := Closed(v, FailedOpen, 4, 1, 1, 4);
  }

  lemma {:induction false} DeadRows(w: World)
    requires SettlementOk(w) && |w.db.transfers| > 0 && 0 in w.db.jobs && PhaseAt(w.db, 0) == Some(Waiting) && (0, 4) in w.claims
    requires Reverse(w.db.books, 0, w.db.transfers[0].terms, 0).Ok?
    ensures PhaseAt(AfterRunJob(w, 0, 4, RailAnswer(RailFailed, None), 0, false).db, 0) == Some(FailedDead)
  {
    assert PairOk(w.db.transfers[0], w.db.jobs[0]);
  }

  /** Two reposts and a stale claim: a committed dead letter. */
  lemma {:induction false} DeadLetterIsReachable() returns (v: World)
    ensures Reachable(v) && PhaseAt(v.db, 0) == Some(FailedDead) && Reposts(v.log, 0) == 2
  {
    var w := FirstEpoch();
    w := EpochWithClaim(w, 2, 1, 2);
    v := AfterRunJob(w, 0, 4, RailAnswer(RailFailed, None), 0, false);
    StepIsReachable(w, RunJob(0, 4, RailAnswer(RailFailed, None), 0, false));
    CanReverse(w, Waiting, 0, 1, 2);
    DeadRows(w);
  }

  /** Each of the seven (job, transfer) pairs is committed by some run from the seeded database. */
  lemma {:induction false} EveryPairIsReachable(p: Phase) returns (v: World)
    ensures Reachable(v) && PhaseAt(v.db, 0) == Some(p)
  {
    if p.FailedDead? {
      v := DeadLetterIsReachable();
    } else {
      v := PhasesAreReachable(p);
    }
  }
}
