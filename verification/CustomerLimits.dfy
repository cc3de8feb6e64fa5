/** What the per-wallet daily counters mean for a customer. */
module CustomerLimits {
  import opened Prelude
  import opened Rows
  import opened Books
  import opened DailyOutboundLimit
  import opened IdempotencyFingerprint
  import opened WatBusinessDay
  import opened Ledger
  import opened Shapes
  import opened Machine
  import opened Protocol
  import opened Requests
  import opened Holdings
  import opened Invariants
  import opened Persistence
  import Reconciliation

  // ---------- Whoever sends, owns the wallet ----------

  ghost predicate OwnerAt(db: Db, id: nat)
    requires id < |db.transfers|
  {
    var t := db.transfers[id].terms;
    t.kind.Outbound? ==> t.source.Some? && t.source.value < |db.books.wallets| && db.books.wallets[t.source.value].customerId == t.customerId
  }

  ghost predicate OwnersOk(db: Db) {
    forall id: nat :: id < |db.transfers| ==> OwnerAt(db, id)
  }

  lemma {:induction false} SettlementAddsNothing(w: World, e: Event)
    requires SettlementOk(w) && (e.RunJob? || e.WorkerAsks? || e.CustomerAsks? || e.RepostTransfer?)
    ensures |Step(w, e).db.transfers| == |w.db.transfers|
  {
    match e
    case RunJob(id, attempts, reply, now, crash) => var c := RunJobStep(w, id, attempts, reply, now, crash);
    case WorkerAsks(id, answer, now, crash) => WorkerAsksStep(w, id, answer, now, crash);
    case CustomerAsks(id, customer, answer, now, crash) => CustomerAsksStep(w, id, customer, answer, now, crash);
    case RepostTransfer(id, now) => RepostStep(w, id, now);
  }

  lemma {:induction false} OnlyRequestsAddTransfers(w: World, e: Event)
    requires SettlementOk(w) && !e.Ask?
    ensures |Step(w, e).db.transfers| == |w.db.transfers|
  {
    if e.RunJob? || e.WorkerAsks? || e.CustomerAsks? || e.RepostTransfer? {
      SettlementAddsNothing(w, e);
    } else if e.ReconcileDay? && Reconciliation.FindReport(w.db.reports, e.day).None? && Reconciliation.RunDay(w.db, e.day, e.now).Ok? {
      RunDayEffect(w.db, e.day, e.now);
    }
  }

  lemma {:induction false} OldOwnersStay(w: World, w': World)
    requires OwnersOk(w.db) && Extends(w, w')
    ensures forall id: nat :: id < |w.db.transfers| ==> OwnerAt(w'.db, id)
  {
    forall id: nat | id < |w.db.transfers| ensures OwnerAt(w'.db, id) {
      assert OwnerAt(w.db, id) && RowPersists(w.db, w.db.transfers[id], w'.db.transfers[id]);
      var t := w.db.transfers[id].terms;
      if t.kind.Outbound? {
        assert SameIdentity(w.db.books.wallets[t.source.value], w'.db.books.wallets[t.source.value]);
      }
    }
  }

  lemma {:induction false} RecordedOwner(db: Db, db': Db, t: Terms)
    requires Records(db, db', t)
    ensures |db'.transfers| == |db.transfers| + 1 && OwnerAt(db', |db.transfers|)
  {
    PostEffect(db.books, Some(|db.transfers|), t.createdAt, LegsFor(t));
  }

  lemma {:induction false} NewOwnerIsRight(w: World, c: Command, x: Context)
    requires WalletsOk(w.db.books.wallets) && Admissible(Ask(c, x))
    ensures var w' := AfterAsk(w, c, x);
      forall id: nat :: |w.db.transfers| <= id < |w'.db.transfers| ==> OwnerAt(w'.db, id)
  {
    var t := RequestShape(w.db, c, x);
    if AfterAsk(w, c, x).db != w.db { RecordedOwner(w.db, AfterAsk(w, c, x).db, t); }
  }

  lemma {:induction false} StepKeepsOwners(w: World, e: Event)
    requires Inv(w) && OwnersOk(w.db) && Admissible(e)
    ensures OwnersOk(Step(w, e).db)
  {
    StepExtends(w, e);
    OldOwnersStay(w, Step(w, e));
    if e.Ask? {
      NewOwnerIsRight(w, e.command, e.context);
    } else {
      OnlyRequestsAddTransfers(w, e);
    }
  }

  lemma {:induction false} RunKeepsOwners(es: seq<Event>)
    requires AllAdmissible(es)
    ensures OwnersOk(Run(Start(), es).db)
    decreases |es|
  {
    if |es| > 0 {
      var front := es[..|es| - 1];
      RunKeepsOwners(front);
      ReachableInv(front);
      StepKeepsOwners(Run(Start(), front), es[|es| - 1]);
    }
  }

  /** In every reachable state, the customer of an outbound transfer owns its source wallet. */
  lemma {:induction false} SendersOwnTheirWallets(w: World)
    requires Reachable(w)
    ensures OwnersOk(w.db)
  {
    var es: seq<Event> :| AllAdmissible(es) && w == Run(Start(), es);
    RunKeepsOwners(es);
  }

  // ---------- A customer's day ----------

  function SentBy(customer: string, day: int): TransferRow -> int {
    (t: TransferRow) =>
      if t.terms.kind.Outbound? && t.terms.customerId == customer && Today(t.terms.createdAt) == day then t.terms.amount else 0
  }

  /** The counters of the customer's wallets among the first n. */
  function OwnedCounters(db: Db, customer: string, day: int, n: nat): int
    requires n <= |db.books.wallets|
    decreases n
  {
    if n == 0 then 0
    else OwnedCounters(db, customer, day, n - 1)
         + (if db.books.wallets[n - 1].customerId == customer then CounterOf(db.counters, n - 1, day) else 0)
  }

  function OwnedWallets(db: Db, customer: string, n: nat): nat
    requires n <= |db.books.wallets|
    decreases n
  {
    if n == 0 then 0 else OwnedWallets(db, customer, n - 1) + (if db.books.wallets[n - 1].customerId == customer then 1 else 0)
  }

  function SentFromFirst(wallets: Wallets, customer: string, day: int, n: nat): TransferRow -> int
    requires n <= |wallets|
  {
    (t: TransferRow) =>
      if t.terms.kind.Outbound? && t.terms.source.Some? && t.terms.source.value < n && n <= |wallets|
         && wallets[t.terms.source.value].customerId == customer && Today(t.terms.createdAt) == day
      then t.terms.amount else 0
  }

  function FromOne(wallets: Wallets, customer: string, day: int, i: nat): TransferRow -> int
    requires i < |wallets|
  {
    if wallets[i].customerId == customer then ReservedBy(i, day) else (t: TransferRow) => 0
  }

  lemma {:induction false} FirstCounters(w: World, customer: string, day: int, n: nat)
    requires CountersOk(w) && n <= |w.db.books.wallets|
    ensures Sum(w.db.transfers, SentFromFirst(w.db.books.wallets, customer, day, n)) == OwnedCounters(w.db, customer, day, n)
    decreases n
  {
    var s, wallets := w.db.transfers, w.db.books.wallets;
    if n == 0 {
      SumSame(s, SentFromFirst(wallets, customer, day, 0), t => 0);
      SumOfZeros(s);
    } else {
      FirstCounters(w, customer, day, n - 1);
      SumAdd(s, SentFromFirst(wallets, customer, day, n - 1), FromOne(wallets, customer, day, n - 1),
             SentFromFirst(wallets, customer, day, n));
      assert CounterOk(w, n - 1, day);
      if wallets[n - 1].customerId != customer {
        SumSame(s, FromOne(wallets, customer, day, n - 1), t => 0);
        SumOfZeros(s);
      }
    }
  }

  lemma {:induction false} OwnedCountersBounded(w: World, customer: string, day: int, n: nat)
    requires CountersOk(w) && n <= |w.db.books.wallets|
    ensures OwnedCounters(w.db, customer, day, n) <= OwnedWallets(w.db, customer, n) * VERIFIED_LIMIT
    decreases n
  {
    if n > 0 {
      OwnedCountersBounded(w, customer, day, n - 1);
      assert CounterOk(w, n - 1, day);
    }
  }

  lemma {:induction false} SentIsOwned(w: World, customer: string, day: int)
    requires CountersOk(w) && OwnersOk(w.db)
    ensures Sum(w.db.transfers, SentBy(customer, day)) == OwnedCounters(w.db, customer, day, |w.db.books.wallets|)
  {
    var n := |w.db.books.wallets|;
    FirstCounters(w, customer, day, n);
    forall i | 0 <= i < |w.db.transfers|
      ensures SentBy(customer, day)(w.db.transfers[i]) == SentFromFirst(w.db.books.wallets, customer, day, n)(w.db.transfers[i])
    {
      assert OwnerAt(w.db, i);
    }
    SumSame(w.db.transfers, SentBy(customer, day), SentFromFirst(w.db.books.wallets, customer, day, n));
  }

  /** What a customer sends in a day is the sum of the counters of the wallets she owns: the limit holds once for each wallet. */
  lemma {:induction false} CustomerTotalIsSumOfCounters(w: World, customer: string, day: int)
    requires Reachable(w)
    ensures var db := w.db; var n := |db.books.wallets|;
      && Sum(db.transfers, SentBy(customer, day)) == OwnedCounters(db, customer, day, n)
      && Sum(db.transfers, SentBy(customer, day)) <= OwnedWallets(db, customer, n) * VERIFIED_LIMIT
  {
    ReachableHasInv(w);
    SendersOwnTheirWallets(w);
    SentIsOwned(w, customer, day);
    OwnedCountersBounded(w, customer, day, |w.db.books.wallets|);
  }

  // ---------- One request ----------

  lemma {:induction false} RecordedSum(db: Db, db': Db, t: Terms)
    requires Records(db, db', t) && t.kind.Outbound?
    ensures Sum(db'.transfers, SentBy(t.customerId, Today(t.createdAt)))
         == Sum(db.transfers, SentBy(t.customerId, Today(t.createdAt))) + t.amount
  {
    SumAppend(db.transfers, db'.transfers[|db.transfers|], SentBy(t.customerId, Today(t.createdAt)));
  }

  lemma {:induction false} RequestAddsToDay(w: World, c: Command, x: Context)
    requires WalletsOk(w.db.books.wallets) && Admissible(Ask(c, x)) && c.OutboundCommand?
    requires |AfterAsk(w, c, x).db.transfers| > |w.db.transfers|
    ensures Sum(AfterAsk(w, c, x).db.transfers, SentBy(c.customerId, Today(x.now)))
         == Sum(w.db.transfers, SentBy(c.customerId, Today(x.now))) + c.amount
  {
    var t := RequestShape(w.db, c, x);
    RecordedSum(w.db, AfterAsk(w, c, x).db, t);
  }

  /** A committed request leaves the customer's day within a limit exactly when her counters and the amount together are. */
  lemma {:induction false} RequestKeepsLimitIff(w: World, c: Command, x: Context, limit: int)
    requires Reachable(w) && Admissible(Ask(c, x)) && c.OutboundCommand? && |AfterAsk(w, c, x).db.transfers| > |w.db.transfers|
    ensures Sum(AfterAsk(w, c, x).db.transfers, SentBy(c.customerId, Today(x.now))) <= limit
       <==> OwnedCounters(w.db, c.customerId, Today(x.now), |w.db.books.wallets|) + c.amount <= limit
  {
    ReachableHasInv(w);
    CustomerTotalIsSumOfCounters(w, c.customerId, Today(x.now));
    RequestAddsToDay(w, c, x);
  }

  // ---------- When the limit does hold for the customer ----------

  /** The latest reservation of the day on some wallet of hers was made while she was Verified. */
  ghost predicate LastVerified(w: World, customer: string, day: int) {
    exists i: nat :: i < |w.db.books.wallets| && w.db.books.wallets[i].customerId == customer
                     && LastReservation(w.log, i, day) == Some(true)
  }

  lemma {:induction false} OwnedUnverifiedBounded(w: World, customer: string, day: int, n: nat)
    requires CountersOk(w) && n <= |w.db.books.wallets| && !LastVerified(w, customer, day)
    ensures OwnedCounters(w.db, customer, day, n) <= OwnedWallets(w.db, customer, n) * UNVERIFIED_LIMIT
    decreases n
  {
    if n > 0 {
      OwnedUnverifiedBounded(w, customer, day, n - 1);
      assert CounterOk(w, n - 1, day);
    }
  }

  /** Without a reservation on a Verified verdict, the unverified limit holds once for each wallet. */
  lemma {:induction false} UnverifiedTotalIsBounded(w: World, customer: string, day: int)
    requires Reachable(w) && !LastVerified(w, customer, day)
    ensures Sum(w.db.transfers, SentBy(customer, day)) <= OwnedWallets(w.db, customer, |w.db.books.wallets|) * UNVERIFIED_LIMIT
  {
    ReachableHasInv(w);
    SendersOwnTheirWallets(w);
    SentIsOwned(w, customer, day);
    OwnedUnverifiedBounded(w, customer, day, |w.db.books.wallets|);
  }

  /** A customer with one wallet at most stays within the limit, and above the unverified limit the latest verdict was Verified. */
  lemma {:induction false} OneWalletOneLimit(w: World, customer: string, day: int)
    requires Reachable(w) && OwnedWallets(w.db, customer, |w.db.books.wallets|) <= 1
    ensures var total := Sum(w.db.transfers, SentBy(customer, day));
      total <= VERIFIED_LIMIT && (total > UNVERIFIED_LIMIT ==> LastVerified(w, customer, day))
  {
    CustomerTotalIsSumOfCounters(w, customer, day);
    AtMostOne(OwnedWallets(w.db, customer, |w.db.books.wallets|), VERIFIED_LIMIT);
    if !LastVerified(w, customer, day) {
      UnverifiedTotalIsBounded(w, customer, day);
      AtMostOne(OwnedWallets(w.db, customer, |w.db.books.wallets|), UNVERIFIED_LIMIT);
    }
  }

  lemma {:induction false} AtMostOne(n: nat, limit: nat)
    requires n <= 1
    ensures n * limit <= limit
  {
  }
}
