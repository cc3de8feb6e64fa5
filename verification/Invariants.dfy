/** The joint invariant of the ledger machine and its preservation by every step of every run. */
module Invariants {
  import opened Prelude
  import opened Rows
  import opened Books
  import opened IdempotencyFingerprint
  import opened WatBusinessDay
  import opened Ledger
  import opened Settlement
  import opened Reconciliation
  import opened Shapes
  import opened Machine
  import opened Conservation
  import opened Protocol
  import opened Reversals
  import opened Charges
  import opened Requests
  import opened Holdings

  ghost predicate Inv(w: World) {
    && JournalOk(w.db) && TermsOkAll(w.db) && SettlementOk(w)
    && NetOk(w.db) && CountsOk(w) && SendsOk(w)
    && LevyOk(w, Levy.Fee) && LevyOk(w, Levy.Vat)
    && IdemOk(w.db) && CountersOk(w) && KycOk(w.db) && ReconciliationOk(w.db)
  }

  // ---------- By shape ----------

  lemma {:induction false} RecordKeepsInv(w: World, w': World, t: Terms)
    requires Inv(w) && Records(w.db, w'.db, t) && ReservationLogged(w, w', t) && w'.claims == w.claims
    ensures Inv(w')
  {
    RecordKeepsTables(w, w', t);
    RecordKeepsHistory(w, w', t);
  }

  lemma {:induction false} RecordKeepsTables(w: World, w': World, t: Terms)
    requires JournalOk(w.db) && TermsOkAll(w.db) && SettlementOk(w) && NetOk(w.db)
    requires IdemOk(w.db) && KycOk(w.db) && ReconciliationOk(w.db)
    requires Records(w.db, w'.db, t) && w'.claims == w.claims
    ensures JournalOk(w'.db) && TermsOkAll(w'.db) && SettlementOk(w') && NetOk(w'.db)
    ensures IdemOk(w'.db) && KycOk(w'.db) && ReconciliationOk(w'.db)
  {
    RecordsKeepsJournal(w.db, w'.db, t);
    RecordsKeepsSettlement(w, w', t);
    RecordsKeepsNet(w.db, w'.db, t);
    RecordKeepsLists(w.db, w'.db, t);
  }

  lemma {:induction false} RecordKeepsLists(db: Db, db': Db, t: Terms)
    requires TermsOkAll(db) && IdemOk(db) && KycOk(db) && ReconciliationOk(db) && Records(db, db', t)
    ensures TermsOkAll(db') && IdemOk(db') && KycOk(db') && ReconciliationOk(db')
  {
    RecordKeepsRows(db, db', t);
    RecordsKeepsIdem(db, db', t);
    OtherStepsKeepReconciliation(db, db');
  }

  lemma {:induction false} RecordKeepsHistory(w: World, w': World, t: Terms)
    requires JournalOk(w.db) && CountsOk(w) && SendsOk(w) && LevyOk(w, Levy.Fee) && LevyOk(w, Levy.Vat) && CountersOk(w)
    requires Records(w.db, w'.db, t) && ReservationLogged(w, w', t)
    ensures CountsOk(w') && SendsOk(w') && LevyOk(w', Levy.Fee) && LevyOk(w', Levy.Vat) && CountersOk(w')
  {
    assert LogGrowsByReservation(w, w');
    RecordsKeepsCounts(w, w', t);
    TransfersKeepSends(w, w');
    RecordsKeepsLevy(w, w', t, Levy.Fee);
    RecordsKeepsLevy(w, w', t, Levy.Vat);
    RecordsKeepsCounters(w, w', t);
  }

  lemma {:induction false} RecordKeepsRows(db: Db, db': Db, t: Terms)
    requires TermsOkAll(db) && KycOk(db) && Records(db, db', t)
    ensures TermsOkAll(db') && KycOk(db') && db'.reports == db.reports && db'.ext == db.ext
    ensures |db'.transfers| == |db.transfers| + 1 && db'.transfers[|db.transfers|].reconciledAt.None?
    ensures forall i: nat :: i < |db.transfers| ==> db'.transfers[i] == db.transfers[i]
  {
    PostEffect(db.books, Some(|db.transfers|), t.createdAt, LegsFor(t));
    forall u: nat | u < |db'.users| && db'.users[u].kyc == Verified ensures HasVerifiedDocument(db', u) {
      assert HasVerifiedDocument(db, u);
    }
  }

  lemma {:induction false} MoveKeepsInv(w: World, w': World, id: nat, c: Cause, now: int)
    requires Inv(w) && MoveStep(w, w', id, c, now) && PairMoves(w.db, w'.db, id, c, now)
    ensures Inv(w')
  {
    MoveKeepsRows(w, w', id, c, now);
    MovesKeepsJournal(w.db, w'.db, id, Reverses(c), now);
    MoveKeepsSettlement(w, w', id, c, now);
    MovesKeepsNet(w.db, w'.db, id, Reverses(c), now);
    MoveKeepsCounts(w, w', id, c, now);
    MoveKeepsSends(w, w', id, c, now);
    MoveKeepsLevy(w, w', id, c, now, Levy.Fee);
    MoveKeepsLevy(w, w', id, c, now, Levy.Vat);
    SameTermsKeepCounters(w, w');
    OtherStepsKeepReconciliation(w.db, w'.db);
  }

  lemma {:induction false} MoveKeepsRows(w: World, w': World, id: nat, c: Cause, now: int)
    requires TermsOkAll(w.db) && KycOk(w.db) && IdemOk(w.db) && MarksOk(w.db)
    requires MoveStep(w, w', id, c, now)
    ensures TermsOkAll(w'.db) && KycOk(w'.db) && IdemOk(w'.db)
    ensures forall i: nat :: i < |w.db.transfers| ==>
      && w'.db.transfers[i].terms == w.db.transfers[i].terms && w'.db.transfers[i].reconciledAt == w.db.transfers[i].reconciledAt
      && (w.db.transfers[i].status.Settled? ==> w'.db.transfers[i].status.Settled?)
    ensures w'.log == w.log || exists h: Happening :: !h.ReservedLimit? && w'.log == w.log + [h]
  {
    if Reverses(c) {
      PostEffect(w.db.books, Some(id), now, ReversalLegs(w.db.transfers[id].terms.source.value, w.db.transfers[id].terms));
    }
    if !c.Reposting? { FailedNeverSettles(w, w', id, c, now); }
    forall u: nat | u < |w'.db.users| && w'.db.users[u].kyc == Verified ensures HasVerifiedDocument(w'.db, u) {
      assert HasVerifiedDocument(w.db, u);
    }
  }

  lemma {:induction false} LostKeepsInv(w: World, w': World, id: nat)
    requires Inv(w) && LostStep(w, w', id)
    ensures Inv(w')
  {
    LostKeepsCounts(w, w', id);
    LostKeepsSends(w, w', id);
    forall i: nat ensures Reposts(w'.log, i) == Reposts(w.log, i) { LogAppend(w.log, w'.log[|w.log|], i); }
    SameRowsKeepLevy(w, w', Levy.Fee);
    SameRowsKeepLevy(w, w', Levy.Vat);
    SameTermsKeepCounters(w, w');
  }

  lemma {:induction false} PostKeepsInv(w: World, w': World, legs: seq<Leg>, now: int)
    requires Inv(w) && Posts(w.db, w'.db, legs, now) && w'.log == w.log && w'.claims == w.claims
    ensures Inv(w')
  {
    PostEffect(w.db.books, None, now, legs);
    PostsKeepsJournal(w.db, w'.db, legs, now);
    PostsKeepsCounts(w.db, w'.db, legs, now);
    PostsMovesNoLevy(w.db, w'.db, legs, now, Levy.Fee);
    PostsMovesNoLevy(w.db, w'.db, legs, now, Levy.Vat);
    QuietKeepsHistory(w, w');
    SameTablesKeepRest(w, w');
  }

  lemma {:induction false} SameTransfersKeepCounts(w: World, w': World)
    requires CountsOk(w) && w'.log == w.log && |w'.db.transfers| == |w.db.transfers|
    requires forall i: nat :: i < |w.db.transfers| ==>
      w'.db.transfers[i].terms == w.db.transfers[i].terms && w'.db.transfers[i].status == w.db.transfers[i].status
    requires forall i: nat :: Reversed(w'.db.books, i) == Reversed(w.db.books, i)
    ensures CountsOk(w')
  {
    forall i: nat
      ensures i < |w.db.transfers| && w.db.transfers[i].terms.kind.Outbound? ==> ReversalsMatch(w', i)
      ensures i >= |w.db.transfers| ==> NothingYet(w', i)
    {
      if i < |w.db.transfers| && w.db.transfers[i].terms.kind.Outbound? {
        assert ReversalsMatch(w, i);
      } else if i >= |w.db.transfers| {
        assert NothingYet(w, i);
      }
    }
  }

  /** The parts of the invariant that read transfers, jobs, users and reports but not the books. */
  lemma {:induction false} SameTablesKeepRest(w: World, w': World)
    requires TermsOkAll(w.db) && SettlementOk(w) && IdemOk(w.db) && KycOk(w.db) && ReconciliationOk(w.db)
    requires w'.claims == w.claims
    requires |w'.db.books.wallets| >= |w.db.books.wallets|
    requires w'.db.transfers == w.db.transfers && w'.db.jobs == w.db.jobs && w'.db.idem == w.db.idem
    requires w'.db.users == w.db.users && w'.db.docs == w.db.docs && w'.db.reports == w.db.reports
    requires w'.db.ext.income == w.db.ext.income && w'.db.ext.vat == w.db.ext.vat
    ensures TermsOkAll(w'.db) && SettlementOk(w') && IdemOk(w'.db) && KycOk(w'.db) && ReconciliationOk(w'.db)
  {
    assert JobsMatch(w'.db);
    forall i: nat | i in w'.db.jobs ensures PairOk(w'.db.transfers[i], w'.db.jobs[i]) {
      assert PairOk(w.db.transfers[i], w.db.jobs[i]);
    }
    forall u: nat | u < |w'.db.users| && w'.db.users[u].kyc == Verified ensures HasVerifiedDocument(w'.db, u) {
      assert HasVerifiedDocument(w.db, u);
    }
    OtherStepsKeepReconciliation(w.db, w'.db);
  }

  /** A step that keeps every transfer's terms and status, the history and the levy balances. */
  ghost predicate Quiet(w: World, w': World) {
    && w'.log == w.log && w'.db.counters == w.db.counters && |w'.db.transfers| == |w.db.transfers|
    && (forall i: nat :: i < |w.db.transfers| ==>
          w'.db.transfers[i].terms == w.db.transfers[i].terms && w'.db.transfers[i].status == w.db.transfers[i].status)
    && (forall i: nat :: Reversed(w'.db.books, i) == Reversed(w.db.books, i))
    && w'.db.books.wallets[INCOME].balance == w.db.books.wallets[INCOME].balance
    && w'.db.books.wallets[VAT].balance == w.db.books.wallets[VAT].balance
  }

  lemma {:induction false} QuietKeepsHistory(w: World, w': World)
    requires CountsOk(w) && SendsOk(w) && LevyOk(w, Levy.Fee) && LevyOk(w, Levy.Vat) && CountersOk(w) && Quiet(w, w')
    ensures CountsOk(w') && SendsOk(w') && LevyOk(w', Levy.Fee) && LevyOk(w', Levy.Vat) && CountersOk(w')
  {
    SameTransfersKeepCounts(w, w');
    TransfersKeepSends(w, w');
    SameRowsKeepLevy(w, w', Levy.Fee);
    SameRowsKeepLevy(w, w', Levy.Vat);
    SameTermsKeepCounters(w, w');
  }

  lemma {:induction false} SameEntriesKeepNet(db: Db, db': Db)
    requires NetOk(db) && db'.books.entries == db.books.entries && |db'.transfers| == |db.transfers|
    requires forall i: nat :: i < |db.transfers| ==> db'.transfers[i].terms == db.transfers[i].terms
    ensures NetOk(db')
  {
    forall id: nat, wallet: nat | id < |db'.transfers| && db'.transfers[id].terms.kind.Outbound? ensures NetAt(db', id, wallet) {
      assert NetAt(db, id, wallet);
    }
  }

  // ---------- By event ----------

  lemma {:induction false} AskKeepsInv(w: World, c: Command, x: Context)
    requires Inv(w) && Admissible(Ask(c, x))
    ensures Inv(AfterAsk(w, c, x))
  {
    var t := RequestShape(w.db, c, x);
    var w' := AfterAsk(w, c, x);
    if w'.db != w.db {
      RecordKeepsInv(w, w', t);
    } else {
      assert w' == w;
    }
  }

  lemma {:induction false} DepositKeepsInv(w: World, wallet: nat, amount: int, now: int)
    requires Inv(w)
    ensures Inv(w.(db := Commit(w.db, CreditDeposit(w.db, wallet, amount, now))))
  {
    var r := CreditDeposit(w.db, wallet, amount, now);
    if r.Ok? { PostKeepsInv(w, w.(db := r.value), DepositLegs(wallet, amount, Deposit), now); }
  }

  lemma {:induction false} AdminDepositKeepsInv(w: World, number: string, amount: int, now: int)
    requires Inv(w)
    ensures Inv(w.(db := Commit(w.db, CreditByAdmin(w.db, number, amount, now))))
  {
    var r := CreditByAdmin(w.db, number, amount, now);
    if r.Ok? {
      PostKeepsInv(w, w.(db := r.value), DepositLegs(FindAccount(w.db.books.wallets, number).value, amount, AdminCredit), now);
    }
  }

  lemma {:induction false} FundKeepsInv(w: World, amount: int, now: int)
    requires Inv(w)
    ensures Inv(w.(db := Commit(w.db, FundSettlement(w.db, amount, now))))
  {
    var r := FundSettlement(w.db, amount, now);
    if r.Ok? { PostKeepsInv(w, w.(db := r.value), FundingLegs(amount), now); }
  }

  lemma {:induction false} RegisterKeepsInv(w: World, customer: string)
    requires Inv(w)
    ensures Inv(w.(db := Commit(w.db, CreateUser(w.db, customer))))
  {
    var r := CreateUser(w.db, customer);
    if r.Ok? {
      RegisterKeepsKyc(w.db, customer);
      KycKeepsInv(w, w.(db := r.value));
    }
  }

  lemma {:induction false} SubmitKeepsInv(w: World, user: nat)
    requires Inv(w)
    ensures Inv(w.(db := SubmitKyc(w.db, user)))
  {
    SubmitKeepsKyc(w.db, user);
    KycKeepsInv(w, w.(db := SubmitKyc(w.db, user)));
  }

  lemma {:induction false} ReviewKeepsInv(w: World, user: nat, doc: nat, verdict: KycStatus)
    requires Inv(w)
    ensures Inv(w.(db := ReviewKyc(w.db, user, doc, verdict)))
  {
    ReviewKeepsKyc(w.db, user, doc, verdict);
    KycKeepsInv(w, w.(db := ReviewKyc(w.db, user, doc, verdict)));
  }

  lemma {:induction false} OpenWalletKeepsInv(w: World, customer: string, number: string)
    requires Inv(w) && customer != "SYSTEM"
    ensures Inv(w.(db := Commit(w.db, CreateWallet(w.db, customer, number))))
  {
    if CreateWallet(w.db, customer, number).Ok? { NewWalletKeepsInv(w, customer, number); }
  }

  lemma {:induction false} NewWalletKeepsInv(w: World, customer: string, number: string)
    requires Inv(w) && customer != "SYSTEM" && CreateWallet(w.db, customer, number).Ok?
    ensures Inv(w.(db := CreateWallet(w.db, customer, number).value))
  {
    var w' := w.(db := CreateWallet(w.db, customer, number).value);
    NewWalletKeepsJournal(w.db, customer, number);
    SameEntriesKeepNet(w.db, w'.db);
    QuietKeepsHistory(w, w');
    SameTablesKeepRest(w, w');
  }

  /** Steps on users and documents only. */
  lemma {:induction false} KycKeepsInv(w: World, w': World)
    requires Inv(w) && KycOk(w'.db) && w'.log == w.log && w'.claims == w.claims
    requires w'.db == w.db.(users := w'.db.users, docs := w'.db.docs)
    ensures Inv(w')
  {
    SameEntriesKeepNet(w.db, w'.db);
    QuietKeepsHistory(w, w');
    KycKeepsRest(w, w');
  }

  lemma {:induction false} KycKeepsRest(w: World, w': World)
    requires SettlementOk(w) && ReconciliationOk(w.db) && w'.claims == w.claims
    requires w'.db == w.db.(users := w'.db.users, docs := w'.db.docs)
    ensures SettlementOk(w') && ReconciliationOk(w'.db)
  {
    assert JobsMatch(w'.db);
    forall i: nat | i in w'.db.jobs ensures PairOk(w'.db.transfers[i], w'.db.jobs[i]) {
      assert PairOk(w.db.transfers[i], w.db.jobs[i]);
    }
    OtherStepsKeepReconciliation(w.db, w'.db);
  }

  lemma {:induction false} ReconcileKeepsInv(w: World, day: int, now: int)
    requires Inv(w)
    ensures Inv(w.(db := Commit(w.db, Reconcile(w.db, day, now))))
  {
    if FindReport(w.db.reports, day).None? && RunDay(w.db, day, now).Ok? {
      var w' := w.(db := RunDay(w.db, day, now).value);
      RunDayEffect(w.db, day, now);
      RunDayKeepsReconciliation(w.db, w'.db, day, now);
      MarkingKeepsInv(w, w', day, now);
    }
  }

  lemma {:induction false} MarkingKeepsInv(w: World, w': World, day: int, now: int)
    requires Inv(w) && ReconciliationOk(w'.db) && RanRows(w.db, w'.db, day, now)
    requires w'.db == w.db.(transfers := w'.db.transfers, ext := w'.db.ext, reports := w'.db.reports)
    requires w'.log == w.log && w'.claims == w.claims
    ensures Inv(w')
  {
    MarkingKeepsRows(w.db, w'.db, day, now);
    SameEntriesKeepNet(w.db, w'.db);
    QuietKeepsHistory(w, w');
    MarkingKeepsSettlement(w, w');
  }

  lemma {:induction false} MarkingKeepsRows(db: Db, db': Db, day: int, now: int)
    requires TermsOkAll(db) && IdemOk(db) && KycOk(db) && RanRows(db, db', day, now)
    requires db' == db.(transfers := db'.transfers, ext := db'.ext, reports := db'.reports)
    ensures TermsOkAll(db') && IdemOk(db') && KycOk(db')
    ensures forall i: nat :: i < |db.transfers| ==>
      db'.transfers[i].terms == db.transfers[i].terms && db'.transfers[i].status == db.transfers[i].status
      && db'.transfers[i].externalReference == db.transfers[i].externalReference
  {
    forall u: nat | u < |db'.users| && db'.users[u].kyc == Verified ensures HasVerifiedDocument(db', u) {
      assert HasVerifiedDocument(db, u);
    }
  }

  lemma {:induction false} MarkingKeepsSettlement(w: World, w': World)
    requires SettlementOk(w) && w'.claims == w.claims && w'.db.jobs == w.db.jobs
    requires |w'.db.transfers| == |w.db.transfers|
    requires forall i: nat :: i < |w.db.transfers| ==>
      w'.db.transfers[i].terms == w.db.transfers[i].terms && w'.db.transfers[i].status == w.db.transfers[i].status
      && w'.db.transfers[i].externalReference == w.db.transfers[i].externalReference
    ensures SettlementOk(w')
  {
    assert JobsMatch(w'.db);
    forall i: nat | i in w'.db.jobs ensures PairOk(w'.db.transfers[i], w'.db.jobs[i]) {
      assert PairOk(w.db.transfers[i], w.db.jobs[i]);
    }
  }

  lemma {:induction false} SettlementStepKeepsInv(w: World, w': World, id: nat, c: Cause, now: int)
    requires Inv(w)
    requires w' == w || LostStep(w, w', id) || (MoveStep(w, w', id, c, now) && PairMoves(w.db, w'.db, id, c, now))
    ensures Inv(w')
  {
    if w' != w {
      if LostStep(w, w', id) {
        LostKeepsInv(w, w', id);
      } else {
        MoveKeepsInv(w, w', id, c, now);
      }
    }
  }

  lemma {:induction false} RunJobKeepsInv(w: World, id: nat, attempts: nat, answer: RailAnswer, now: int, crash: bool)
    requires Inv(w)
    ensures Inv(AfterRunJob(w, id, attempts, answer, now, crash))
  {
    var c := RunJobStep(w, id, attempts, answer, now, crash);
    SettlementStepKeepsInv(w, AfterRunJob(w, id, attempts, answer, now, crash), id, c, now);
  }

  lemma {:induction false} WorkerAsksKeepsInv(w: World, id: nat, answer: RailStatus, now: int, crash: bool)
    requires Inv(w)
    ensures Inv(AfterWorkerAsks(w, id, answer, now, crash))
  {
    WorkerAsksStep(w, id, answer, now, crash);
    SettlementStepKeepsInv(w, AfterWorkerAsks(w, id, answer, now, crash), id, Answered(answer), now);
  }

  lemma {:induction false} CustomerAsksKeepsInv(w: World, id: nat, customer: string, answer: RailStatus, now: int, crash: bool)
    requires Inv(w)
    ensures Inv(AfterCustomerAsks(w, id, customer, answer, now, crash))
  {
    CustomerAsksStep(w, id, customer, answer, now, crash);
    SettlementStepKeepsInv(w, AfterCustomerAsks(w, id, customer, answer, now, crash), id, Answered(answer), now);
  }

  lemma {:induction false} RepostKeepsInv(w: World, id: nat, now: int)
    requires Inv(w)
    ensures Inv(AfterRepost(w, id, now))
  {
    RepostStep(w, id, now);
    SettlementStepKeepsInv(w, AfterRepost(w, id, now), id, Reposting, now);
  }

  lemma {:induction false} ListingKeepsInv(w: World, now: int)
    requires Inv(w)
    ensures Inv(w.(claims := w.claims + Claimable(w.db, now)))
  {
    var w' := w.(claims := w.claims + Claimable(w.db, now));
    ListingKeepsSettlement(w, now);
    QuietKeepsHistory(w, w');
  }

  ghost predicate IsSettlement(e: Event) { e.RunJob? || e.WorkerAsks? || e.CustomerAsks? || e.RepostTransfer? }

  ghost predicate MovesMoneyIn(e: Event) { e.DepositMoney? || e.AdminDeposit? || e.Fund? || e.OpenWallet? }

  /** The world a settlement event leads to. */
  function AfterSettlement(w: World, e: Event): World
    requires IsSettlement(e)
  {
    match e
    case RunJob(id, attempts, reply, now, crash) => AfterRunJob(w, id, attempts, reply, now, crash)
    case WorkerAsks(id, answer, now, crash) => AfterWorkerAsks(w, id, answer, now, crash)
    case CustomerAsks(id, customer, answer, now, crash) => AfterCustomerAsks(w, id, customer, answer, now, crash)
    case RepostTransfer(id, now) => AfterRepost(w, id, now)
  }

  lemma {:induction false} SettlementStepIs(w: World, e: Event)
    requires IsSettlement(e)
    ensures Step(w, e) == AfterSettlement(w, e)
  {
  }

  lemma {:induction false} AfterSettlementKeepsInv(w: World, e: Event)
    requires Inv(w) && IsSettlement(e)
    ensures Inv(AfterSettlement(w, e))
  {
    match e
    case RunJob(id, attempts, reply, now, crash) => RunJobKeepsInv(w, id, attempts, reply, now, crash);
    case WorkerAsks(id, answer, now, crash) => WorkerAsksKeepsInv(w, id, answer, now, crash);
    case CustomerAsks(id, customer, answer, now, crash) => CustomerAsksKeepsInv(w, id, customer, answer, now, crash);
    case RepostTransfer(id, now) => RepostKeepsInv(w, id, now);
  }

  lemma {:induction false} SettlementKeepsInv(w: World, e: Event)
    requires Inv(w) && IsSettlement(e)
    ensures Inv(Step(w, e))
  {
    SettlementStepIs(w, e);
    AfterSettlementKeepsInv(w, e);
  }

  lemma {:induction false} MoneyInKeepsInv(w: World, e: Event)
    requires Inv(w) && Admissible(e) && MovesMoneyIn(e)
    ensures Inv(Step(w, e))
  {
    match e
    case DepositMoney(wallet, amount, now) => DepositKeepsInv(w, wallet, amount, now);
    case AdminDeposit(number, amount, now) => AdminDepositKeepsInv(w, number, amount, now);
    case Fund(amount, now) => FundKeepsInv(w, amount, now);
    case OpenWallet(customer, number) => OpenWalletKeepsInv(w, customer, number);
  }

  lemma {:induction false} OthersKeepInv(w: World, e: Event)
    requires Inv(w) && !e.Ask? && !IsSettlement(e) && !MovesMoneyIn(e)
    ensures Inv(Step(w, e))
  {
    match e
    case Register(customer) => RegisterKeepsInv(w, customer);
    case Submit(user) => SubmitKeepsInv(w, user);
    case Review(user, doc, approve) => ReviewKeepsInv(w, user, doc, if approve then Verified else Rejected);
    case ListClaims(now) => ListingKeepsInv(w, now);
    case ReconcileDay(day, now) => ReconcileKeepsInv(w, day, now);
  }

  lemma {:induction false} StepKeepsInv(w: World, e: Event)
    requires Inv(w) && Admissible(e)
    ensures Inv(Step(w, e))
  {
    if e.Ask? {
      AskKeepsInv(w, e.command, e.context);
      assert Step(w, e) == AfterAsk(w, e.command, e.context);
    } else if IsSettlement(e) {
      SettlementKeepsInv(w, e);
    } else if MovesMoneyIn(e) {
      MoneyInKeepsInv(w, e);
    } else {
      OthersKeepInv(w, e);
    }
  }

  lemma {:induction false} StartInv()
    ensures Inv(Start())
  {
    SeedJournal();
    var w := Start();
    forall wallet: nat, day: int ensures CounterOk(w, wallet, day) {
    }
    forall i: nat ensures NothingYet(w, i) {
    }
  }

  /** The invariant holds after every run of admissible events, of any length and in any order. */
  lemma {:induction false} RunKeepsInv(w: World, es: seq<Event>)
    requires Inv(w) && AllAdmissible(es)
    ensures Inv(Run(w, es))
    decreases |es|
  {
    if |es| > 0 {
      RunKeepsInv(w, es[..|es| - 1]);
      StepKeepsInv(Run(w, es[..|es| - 1]), es[|es| - 1]);
    }
  }

  lemma {:induction false} ReachableInv(es: seq<Event>)
    requires AllAdmissible(es)
    ensures Inv(Run(Start(), es))
  {
    StartInv();
    RunKeepsInv(Start(), es);
  }

  /** The invariant holds in every reachable world. */
  lemma {:induction false} ReachableHasInv(w: World)
    requires Reachable(w)
    ensures Inv(w)
  {
    var es: seq<Event> :| AllAdmissible(es) && w == Run(Start(), es);
    ReachableInv(es);
  }
}
