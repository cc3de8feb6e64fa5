/** Every step of the ledger machine moves wallet versions forward; only the opening of a wallet adds one. */
module Versions {
  import opened Prelude
  import opened Rows
  import opened Books
  import opened Ledger
  import opened Settlement
  import opened Reconciliation
  import opened IdempotencyFingerprint
  import opened Shapes
  import opened Machine
  import opened Protocol
  import opened Holdings
  import opened Invariants

  function WalletsOf(w: World): Wallets { w.db.books.wallets }

  ghost predicate VersionsGrow(before: Wallets, after: Wallets) {
    |before| <= |after| && forall i: nat :: i < |before| ==> after[i] == before[i] || before[i].version < after[i].version
  }

  lemma {:induction false} PostGrows(b: Books, tid: Option<nat>, now: int, legs: seq<Leg>)
    requires Post(b, tid, now, legs).Ok?
    ensures VersionsGrow(b.wallets, Post(b, tid, now, legs).value.wallets)
    ensures |Post(b, tid, now, legs).value.wallets| == |b.wallets|
  {
    PostVersions(b, tid, now, legs);
  }

  lemma {:induction false} RequestGrows(w: World, c: Command, x: Context)
    requires WalletsOk(w.db.books.wallets) && Admissible(Ask(c, x))
    ensures VersionsGrow(WalletsOf(w), WalletsOf(AfterAsk(w, c, x))) && |WalletsOf(AfterAsk(w, c, x))| == |WalletsOf(w)|
  {
    var t := RequestShape(w.db, c, x);
    if AfterAsk(w, c, x).db != w.db { PostGrows(w.db.books, Some(|w.db.transfers|), t.createdAt, LegsFor(t)); }
  }

  lemma {:induction false} MoveGrows(w: World, w': World, id: nat, c: Cause, now: int)
    requires w' == w || LostStep(w, w', id) || MoveStep(w, w', id, c, now)
    ensures VersionsGrow(WalletsOf(w), WalletsOf(w')) && |WalletsOf(w')| == |WalletsOf(w)|
  {
    if MoveStep(w, w', id, c, now) && Reverses(c) {
      var t := w.db.transfers[id].terms;
      PostGrows(w.db.books, Some(id), now, ReversalLegs(t.source.value, t));
    }
  }

  lemma {:induction false} SettlementGrows(w: World, e: Event)
    requires SettlementOk(w) && IsSettlement(e)
    ensures VersionsGrow(WalletsOf(w), WalletsOf(Step(w, e))) && |WalletsOf(Step(w, e))| == |WalletsOf(w)|
  {
    match e
    case RunJob(id, attempts, reply, now, crash) =>
      var c := RunJobStep(w, id, attempts, reply, now, crash);
      MoveGrows(w, AfterRunJob(w, id, attempts, reply, now, crash), id, c, now);
    case WorkerAsks(id, answer, now, crash) =>
      WorkerAsksStep(w, id, answer, now, crash);
      MoveGrows(w, AfterWorkerAsks(w, id, answer, now, crash), id, Answered(answer), now);
    case CustomerAsks(id, customer, answer, now, crash) =>
      CustomerAsksStep(w, id, customer, answer, now, crash);
      MoveGrows(w, AfterCustomerAsks(w, id, customer, answer, now, crash), id, Answered(answer), now);
    case RepostTransfer(id, now) =>
      RepostStep(w, id, now);
      MoveGrows(w, AfterRepost(w, id, now), id, Reposting, now);
  }

  lemma {:induction false} MoneyInGrows(db: Db, e: Event)
    requires e.DepositMoney? || e.AdminDeposit? || e.Fund?
    ensures VersionsGrow(db.books.wallets, WalletsOf(Step(World(db, [], {}), e)))
    ensures |WalletsOf(Step(World(db, [], {}), e))| == |db.books.wallets|
  {
    match e
    case DepositMoney(wallet, amount, now) =>
      if CreditDeposit(db, wallet, amount, now).Ok? { PostGrows(db.books, None, now, DepositLegs(wallet, amount, Deposit)); }
    case AdminDeposit(number, amount, now) =>
      if CreditByAdmin(db, number, amount, now).Ok? {
        PostGrows(db.books, None, now, DepositLegs(FindAccount(db.books.wallets, number).value, amount, AdminCredit));
      }
    case Fund(amount, now) =>
      if FundSettlement(db, amount, now).Ok? { PostGrows(db.books, None, now, FundingLegs(amount)); }
  }

  lemma {:induction false} ReportGrows(db: Db, day: int, now: int)
    ensures Commit(db, Reconcile(db, day, now)).books == db.books
  {
    if FindReport(db.reports, day).None? && RunDay(db, day, now).Ok? { RunDayEffect(db, day, now); }
  }

  lemma {:induction false} PeopleGrow(w: World, e: Event)
    requires e.OpenWallet? || e.Register? || e.Submit? || e.Review? || e.ListClaims?
    ensures VersionsGrow(WalletsOf(w), WalletsOf(Step(w, e)))
    ensures !e.OpenWallet? ==> |WalletsOf(Step(w, e))| == |WalletsOf(w)|
  {
  }

  lemma {:induction false} StepGrows(w: World, e: Event)
    requires WalletsOk(w.db.books.wallets) && SettlementOk(w) && Admissible(e)
    ensures VersionsGrow(WalletsOf(w), WalletsOf(Step(w, e)))
    ensures !e.OpenWallet? ==> |WalletsOf(Step(w, e))| == |WalletsOf(w)|
  {
    if e.Ask? {
      RequestGrows(w, e.command, e.context);
    } else if IsSettlement(e) {
      SettlementGrows(w, e);
    } else if e.ReconcileDay? {
      ReportGrows(w.db, e.day, e.now);
    } else if e.DepositMoney? || e.AdminDeposit? || e.Fund? {
      MoneyInGrows(w.db, e);
    } else {
      PeopleGrow(w, e);
    }
  }
}
