/** What no later step of any run takes back. */
module Persistence {
  import opened Prelude
  import opened Rows
  import opened Books
  import opened IdempotencyFingerprint
  import opened WatBusinessDay
  import opened Ledger
  import opened Settlement
  import opened Reconciliation
  import opened Shapes
  import opened Machine
  import opened Conservation
  import opened Protocol
  import opened Holdings
  import opened Invariants

  ghost predicate HasReport(db: Db, day: int) { FindReport(db.reports, day).Some? }

  /** An Unknown transfer without an external reference: no query can reach it. */
  predicate Stranded(t: TransferRow) { t.status.Unknown? && t.externalReference.None? }

  ghost predicate RowPersists(db: Db, t: TransferRow, t': TransferRow) {
    && t'.terms == t.terms
    && (t.status.Settled? ==> t'.status.Settled?)
    && (t.reconciledAt.Some? || HasReport(db, Today(t.terms.createdAt)) ==> t'.reconciledAt == t.reconciledAt)
    && (Stranded(t) ==> Stranded(t'))
  }

  /** Wallets keep their identity, and an account number keeps naming the same wallet. */
  ghost predicate AccountsPersist(wallets: seq<WalletRow>, wallets': seq<WalletRow>) {
    && |wallets| <= |wallets'|
    && (forall i: nat :: i < |wallets| ==> SameIdentity(wallets[i], wallets'[i]))
    && (forall number: string :: FindAccount(wallets, number).Some? ==> FindAccount(wallets', number) == FindAccount(wallets, number))
  }

  ghost predicate Extends(w: World, w': World) {
    && AccountsPersist(w.db.books.wallets, w'.db.books.wallets)
    && |w.db.transfers| <= |w'.db.transfers|
    && (forall i: nat :: i < |w.db.transfers| ==> RowPersists(w.db, w.db.transfers[i], w'.db.transfers[i]))
    && (forall i: nat :: |w.db.transfers| <= i < |w'.db.transfers| && HasReport(w.db, Today(w'.db.transfers[i].terms.createdAt)) ==>
          w'.db.transfers[i].reconciledAt.None?)
    && (forall k :: k in w.db.idem ==> k in w'.db.idem && w'.db.idem[k] == w.db.idem[k])
    && w.db.reports <= w'.db.reports
    && w.log <= w'.log
  }

  lemma {:induction false} ReportStays(reports: seq<ReportRow>, reports': seq<ReportRow>, day: int)
    requires reports <= reports' && FindReport(reports, day).Some?
    ensures FindReport(reports', day).Some?
  {
    var i := FindReport(reports, day).value;
    assert reports'[i].day == day;
  }

  lemma {:induction false} ExtendsTransitive(a: World, b: World, c: World)
    requires Extends(a, b) && Extends(b, c)
    ensures Extends(a, c)
  {
    forall day: int | HasReport(a.db, day) ensures HasReport(b.db, day) {
      ReportStays(a.db.reports, b.db.reports, day);
    }
    forall i: nat | i < |a.db.transfers| ensures RowPersists(a.db, a.db.transfers[i], c.db.transfers[i]) {
      assert RowPersists(a.db, a.db.transfers[i], b.db.transfers[i]);
      assert RowPersists(b.db, b.db.transfers[i], c.db.transfers[i]);
    }
    forall i: nat | |a.db.transfers| <= i < |c.db.transfers| && HasReport(a.db, Today(c.db.transfers[i].terms.createdAt))
      ensures c.db.transfers[i].reconciledAt.None?
    {
      if i < |b.db.transfers| {
        assert RowPersists(b.db, b.db.transfers[i], c.db.transfers[i]);
      }
    }
  }

  lemma {:induction false} SameIdentitiesSameAccounts(wallets: seq<WalletRow>, wallets': seq<WalletRow>, number: string)
    requires |wallets| == |wallets'| && forall i: nat :: i < |wallets| ==> SameIdentity(wallets[i], wallets'[i])
    ensures FindAccount(wallets', number) == FindAccount(wallets, number)
    decreases |wallets|
  {
    if |wallets| > 0 {
      var n := |wallets| - 1;
      if wallets[n].accountNumber != number { SameIdentitiesSameAccounts(wallets[..n], wallets'[..n], number); }
    }
  }

  lemma {:induction false} SameIdentitiesPersist(wallets: seq<WalletRow>, wallets': seq<WalletRow>)
    requires |wallets| == |wallets'| && forall i: nat :: i < |wallets| ==> SameIdentity(wallets[i], wallets'[i])
    ensures AccountsPersist(wallets, wallets')
  {
    forall number: string ensures FindAccount(wallets', number) == FindAccount(wallets, number) {
      SameIdentitiesSameAccounts(wallets, wallets', number);
    }
  }

  lemma {:induction false} NewAccountPersists(db: Db, customer: string, number: string)
    requires CreateWallet(db, customer, number).Ok?
    ensures AccountsPersist(db.books.wallets, CreateWallet(db, customer, number).value.books.wallets)
  {
    var wallets' := CreateWallet(db, customer, number).value.books.wallets;
    assert wallets'[..|db.books.wallets|] == db.books.wallets;
  }

  lemma {:induction false} SameTransfersExtend(w: World, w': World)
    requires AccountsPersist(w.db.books.wallets, w'.db.books.wallets)
    requires w'.db.transfers == w.db.transfers && w'.db.idem == w.db.idem && w'.db.reports == w.db.reports
    requires w.log <= w'.log
    ensures Extends(w, w')
  {
  }

  lemma {:induction false} RecordExtends(w: World, w': World, t: Terms)
    requires Records(w.db, w'.db, t) && w.log <= w'.log
    ensures Extends(w, w')
  {
    PostEffect(w.db.books, Some(|w.db.transfers|), t.createdAt, LegsFor(t));
    SameIdentitiesPersist(w.db.books.wallets, w'.db.books.wallets);
  }

  lemma {:induction false} MoveExtends(w: World, w': World, id: nat, c: Cause, now: int)
    requires SettlementOk(w) && TermsOkAll(w.db) && MoveStep(w, w', id, c, now)
    ensures Extends(w, w')
  {
    if Reverses(c) {
      PostEffect(w.db.books, Some(id), now, ReversalLegs(w.db.transfers[id].terms.source.value, w.db.transfers[id].terms));
    }
    SameIdentitiesPersist(w.db.books.wallets, w'.db.books.wallets);
    var t, t' := w.db.transfers[id], w'.db.transfers[id];
    assert PairOk(t, w.db.jobs[id]);
    assert RowPersists(w.db, t, t');
    forall i: nat | i < |w.db.transfers| ensures RowPersists(w.db, w.db.transfers[i], w'.db.transfers[i]) {
      if i != id { assert w'.db.transfers[i] == w.db.transfers[i]; }
    }
  }

  lemma {:induction false} RunDayExtends(w: World, day: int, now: int)
    requires FindReport(w.db.reports, day).None? && RunDay(w.db, day, now).Ok?
    ensures Extends(w, w.(db := RunDay(w.db, day, now).value))
  {
    RunDayEffect(w.db, day, now);
    SameIdentitiesPersist(w.db.books.wallets, w.db.books.wallets);
    var db' := RunDay(w.db, day, now).value;
    forall i: nat | i < |w.db.transfers| ensures RowPersists(w.db, w.db.transfers[i], db'.transfers[i]) {
      var t := w.db.transfers[i];
      if NewlyMarked(t, day) {
        EligibleOnItsDay(t, if IsEligible(t, Outbound, day) then Outbound else Inbound, day);
      }
    }
  }

  lemma {:induction false} SettlementStepExtends(w: World, w': World, id: nat, c: Cause, now: int)
    requires SettlementOk(w) && TermsOkAll(w.db)
    requires w' == w || LostStep(w, w', id) || MoveStep(w, w', id, c, now)
    ensures Extends(w, w')
  {
    if w' == w || LostStep(w, w', id) {
      SameIdentitiesPersist(w.db.books.wallets, w'.db.books.wallets);
      SameTransfersExtend(w, w');
    } else {
      MoveExtends(w, w', id, c, now);
    }
  }

  lemma {:induction false} AskExtends(w: World, c: Command, x: Context)
    requires Inv(w) && Admissible(Ask(c, x))
    ensures Extends(w, AfterAsk(w, c, x))
  {
    var t := RequestShape(w.db, c, x);
    var w' := AfterAsk(w, c, x);
    if w'.db == w.db {
      SameIdentitiesPersist(w.db.books.wallets, w'.db.books.wallets);
      SameTransfersExtend(w, w');
    } else {
      RecordExtends(w, w', t);
    }
  }

  lemma {:induction false} DepositExtends(w: World, wallet: nat, amount: int, now: int)
    ensures Extends(w, w.(db := Commit(w.db, CreditDeposit(w.db, wallet, amount, now))))
  {
    var r := CreditDeposit(w.db, wallet, amount, now);
    if r.Ok? { PostExtends(w, w.(db := r.value), DepositLegs(wallet, amount, Deposit), now); } else { SameWalletsExtend(w, w); }
  }

  lemma {:induction false} AdminDepositExtends(w: World, number: string, amount: int, now: int)
    ensures Extends(w, w.(db := Commit(w.db, CreditByAdmin(w.db, number, amount, now))))
  {
    var r := CreditByAdmin(w.db, number, amount, now);
    if r.Ok? {
      PostExtends(w, w.(db := r.value), DepositLegs(FindAccount(w.db.books.wallets, number).value, amount, AdminCredit), now);
    } else {
      SameWalletsExtend(w, w);
    }
  }

  lemma {:induction false} FundExtends(w: World, amount: int, now: int)
    ensures Extends(w, w.(db := Commit(w.db, FundSettlement(w.db, amount, now))))
  {
    var r := FundSettlement(w.db, amount, now);
    if r.Ok? { PostExtends(w, w.(db := r.value), FundingLegs(amount), now); } else { SameWalletsExtend(w, w); }
  }

  lemma {:induction false} OpenWalletExtends(w: World, customer: string, number: string)
    ensures Extends(w, w.(db := Commit(w.db, CreateWallet(w.db, customer, number))))
  {
    var r := CreateWallet(w.db, customer, number);
    if r.Ok? {
      NewAccountPersists(w.db, customer, number);
      SameTransfersExtend(w, w.(db := r.value));
    } else {
      SameWalletsExtend(w, w);
    }
  }

  lemma {:induction false} ReconcileExtends(w: World, day: int, now: int)
    ensures Extends(w, w.(db := Commit(w.db, Reconcile(w.db, day, now))))
  {
    if FindReport(w.db.reports, day).None? && RunDay(w.db, day, now).Ok? {
      RunDayExtends(w, day, now);
    } else {
      SameWalletsExtend(w, w);
    }
  }

  lemma {:induction false} RunJobExtends(w: World, id: nat, attempts: nat, answer: RailAnswer, now: int, crash: bool)
    requires SettlementOk(w) && TermsOkAll(w.db)
    ensures Extends(w, AfterRunJob(w, id, attempts, answer, now, crash))
  {
    var c := RunJobStep(w, id, attempts, answer, now, crash);
    SettlementStepExtends(w, AfterRunJob(w, id, attempts, answer, now, crash), id, c, now);
  }

  lemma {:induction false} WorkerAsksExtends(w: World, id: nat, answer: RailStatus, now: int, crash: bool)
    requires SettlementOk(w) && TermsOkAll(w.db)
    ensures Extends(w, AfterWorkerAsks(w, id, answer, now, crash))
  {
    WorkerAsksStep(w, id, answer, now, crash);
    SettlementStepExtends(w, AfterWorkerAsks(w, id, answer, now, crash), id, Answered(answer), now);
  }

  lemma {:induction false} CustomerAsksExtends(w: World, id: nat, customer: string, answer: RailStatus, now: int, crash: bool)
    requires SettlementOk(w) && TermsOkAll(w.db)
    ensures Extends(w, AfterCustomerAsks(w, id, customer, answer, now, crash))
  {
    CustomerAsksStep(w, id, customer, answer, now, crash);
    SettlementStepExtends(w, AfterCustomerAsks(w, id, customer, answer, now, crash), id, Answered(answer), now);
  }

  lemma {:induction false} RepostExtends(w: World, id: nat, now: int)
    requires SettlementOk(w) && TermsOkAll(w.db)
    ensures Extends(w, AfterRepost(w, id, now))
  {
    RepostStep(w, id, now);
    SettlementStepExtends(w, AfterRepost(w, id, now), id, Reposting, now);
  }

  lemma {:induction false} UserStepsExtend(w: World, customer: string, user: nat, doc: nat, verdict: KycStatus, now: int)
    ensures Extends(w, w.(db := Commit(w.db, CreateUser(w.db, customer))))
    ensures Extends(w, w.(db := SubmitKyc(w.db, user)))
    ensures Extends(w, w.(db := ReviewKyc(w.db, user, doc, verdict)))
    ensures Extends(w, w.(claims := w.claims + Claimable(w.db, now)))
  {
    SameWalletsExtend(w, w.(db := Commit(w.db, CreateUser(w.db, customer))));
    SameWalletsExtend(w, w.(db := SubmitKyc(w.db, user)));
    SameWalletsExtend(w, w.(db := ReviewKyc(w.db, user, doc, verdict)));
    SameWalletsExtend(w, w.(claims := w.claims + Claimable(w.db, now)));
  }

  lemma {:induction false} QueryExtends(w: World, e: Event)
    requires SettlementOk(w) && TermsOkAll(w.db) && (e.WorkerAsks? || e.CustomerAsks?)
    ensures Extends(w, Step(w, e))
  {
    match e
    case WorkerAsks(id, answer, now, crash) => WorkerAsksExtends(w, id, answer, now, crash);
    case CustomerAsks(id, customer, answer, now, crash) => CustomerAsksExtends(w, id, customer, answer, now, crash);
  }

  lemma {:induction false} SettlementExtends(w: World, e: Event)
    requires SettlementOk(w) && TermsOkAll(w.db) && IsSettlement(e)
    ensures Extends(w, Step(w, e))
  {
    match e
    case RunJob(id, attempts, reply, now, crash) => RunJobExtends(w, id, attempts, reply, now, crash);
    case RepostTransfer(id, now) => RepostExtends(w, id, now);
    case _ => QueryExtends(w, e);
  }

  lemma {:induction false} MoneyInExtends(w: World, e: Event)
    requires Inv(w) && MovesMoneyIn(e)
    ensures Extends(w, Step(w, e))
  {
    match e
    case DepositMoney(wallet, amount, now) => DepositExtends(w, wallet, amount, now);
    case AdminDeposit(number, amount, now) => AdminDepositExtends(w, number, amount, now);
    case Fund(amount, now) => FundExtends(w, amount, now);
    case OpenWallet(customer, number) => OpenWalletExtends(w, customer, number);
  }

  lemma {:induction false} OthersExtend(w: World, e: Event)
    requires Inv(w) && !e.Ask? && !IsSettlement(e) && !MovesMoneyIn(e)
    ensures Extends(w, Step(w, e))
  {
    match e
    case ReconcileDay(day, now) => ReconcileExtends(w, day, now);
    case Register(customer) => UserStepsExtend(w, customer, 0, 0, Verified, 0);
    case Submit(user) => UserStepsExtend(w, "", user, 0, Verified, 0);
    case Review(user, doc, approve) => UserStepsExtend(w, "", user, doc, if approve then Verified else Rejected, 0);
    case ListClaims(now) => UserStepsExtend(w, "", 0, 0, Verified, now);
  }

  lemma {:induction false} StepExtends(w: World, e: Event)
    requires Inv(w) && Admissible(e)
    ensures Extends(w, Step(w, e))
  {
    if e.Ask? {
      AskExtends(w, e.command, e.context);
      assert Step(w, e) == AfterAsk(w, e.command, e.context);
    } else if IsSettlement(e) {
      SettlementExtends(w, e);
    } else if MovesMoneyIn(e) {
      MoneyInExtends(w, e);
    } else {
      OthersExtend(w, e);
    }
  }

  lemma {:induction false} PostExtends(w: World, w': World, legs: seq<Leg>, now: int)
    requires Post(w.db.books, None, now, legs) == Ok(w'.db.books)
    requires w'.db.transfers == w.db.transfers && w'.db.idem == w.db.idem && w'.db.reports == w.db.reports
    requires w.log == w'.log
    ensures Extends(w, w')
  {
    PostEffect(w.db.books, None, now, legs);
    SameIdentitiesPersist(w.db.books.wallets, w'.db.books.wallets);
    SameTransfersExtend(w, w');
  }

  lemma {:induction false} SameWalletsExtend(w: World, w': World)
    requires w'.db.books == w.db.books
    requires w'.db.transfers == w.db.transfers && w'.db.idem == w.db.idem && w'.db.reports == w.db.reports
    requires w.log == w'.log
    ensures Extends(w, w')
  {
    SameIdentitiesPersist(w.db.books.wallets, w'.db.books.wallets);
    SameTransfersExtend(w, w');
  }

  lemma {:induction false} RunExtends(w: World, es: seq<Event>)
    requires Inv(w) && AllAdmissible(es)
    ensures Extends(w, Run(w, es))
    decreases |es|
  {
    if |es| == 0 {
      SameWalletsExtend(w, w);
    } else {
      var front := es[..|es| - 1];
      RunExtends(w, front);
      RunKeepsInv(w, front);
      StepExtends(Run(w, front), es[|es| - 1]);
      ExtendsTransitive(w, Run(w, front), Run(w, es));
    }
  }

  /** Whatever run leads from one world to another, the later one extends the earlier and keeps the invariant. */
  lemma {:induction false} LaterExtends(w: World, v: World)
    requires Inv(w) && Leads(w, v)
    ensures Extends(w, v) && Inv(v)
  {
    var es: seq<Event> :| AllAdmissible(es) && v == Run(w, es);
    RunExtends(w, es);
    RunKeepsInv(w, es);
  }
}
