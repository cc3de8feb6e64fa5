/** What deposits, fundings, new wallets, registrations and KYC verdicts do, and when they do nothing. */
module OtherEffects {
  import opened Prelude
  import opened Rows
  import opened Books
  import opened DailyOutboundLimit
  import opened IdempotencyFingerprint
  import opened WatBusinessDay
  import opened Ledger
  import opened Shapes
  import opened Machine
  import opened Protocol
  import opened Requests
  import opened Invariants
  import opened Persistence
  import opened MoneyTheorems
  import opened RequestTheorems
  import opened Effects

  // ---------- Money in without a transfer ----------

  /** The books changed by exactly these entries, and nothing else did. */
  ghost predicate OnlyBooks(db: Db, r: Outcome<Db>, more: seq<Entry>) {
    r.Ok? && r.value == db.(books := r.value.books) && Booked(db.books, r.value.books, more)
  }

  lemma {:induction false} DepositPostings(b: Books, now: int, wallet: nat, amount: int, name: LegName)
    requires NonNegative(b) && 3 <= wallet < |b.wallets|
    ensures var r := Post(b, None, now, DepositLegs(wallet, amount, name));
      if amount < 0 then r == Err(ArgumentOutOfRange)
      else if amount == 0 then r == Err(AmountInvalid)
      else if b.wallets[wallet].balance + amount > INT64_MAX then r == Err(Overflow)
      else if b.wallets[SETTLEMENT].balance < amount then r == Err(InsufficientFunds)
      else r.Ok? && Booked(b, r.value, [Entry(None, wallet, Credit, amount, name, now), Entry(None, SETTLEMENT, Debit, amount, SettlementOut, now)])
  {
    var legs := DepositLegs(wallet, amount, name);
    assert legs == [legs[0]] + [legs[1]] && [legs[1]] == [legs[1]] + [];
    PostFirst(b, None, now, legs[0], [legs[1]]);
    var r := PostLeg(b, None, now, legs[0]);
    if r.Ok? { PostFirst(r.value, None, now, legs[1], []); }
    if Post(b, None, now, legs).Ok? { TwoBooked(b, None, now, legs[0], legs[1]); }
  }

  /** The answer to a deposit, guard by guard. */
  lemma {:induction false} DepositAnswer(w: World, wallet: nat, amount: int, now: int)
    requires WalletsOk(w.db.books.wallets) && NonNegative(w.db.books)
    ensures var r, wallets := CreditDeposit(w.db, wallet, amount, now), w.db.books.wallets;
      if wallet >= |wallets| then r == Err(WalletNotFound)
      else if wallet < 3 then r == Err(NotCustomerWallet)
      else if amount < 0 then r == Err(ArgumentOutOfRange)
      else if amount == 0 then r == Err(AmountInvalid)
      else if wallets[wallet].balance + amount > INT64_MAX then r == Err(Overflow)
      else if wallets[SETTLEMENT].balance < amount then r == Err(InsufficientFunds)
      else OnlyBooks(w.db, r, [Entry(None, wallet, Credit, amount, Deposit, now), Entry(None, SETTLEMENT, Debit, amount, SettlementOut, now)])
  {
    if 3 <= wallet < |w.db.books.wallets| { DepositPostings(w.db.books, now, wallet, amount, Deposit); }
  }

  /** The answer to an admin credit, guard by guard. */
  lemma {:induction false} AdminCreditAnswer(w: World, number: string, amount: int, now: int)
    requires WalletsOk(w.db.books.wallets) && NonNegative(w.db.books)
    ensures var r, wallets := CreditByAdmin(w.db, number, amount, now), w.db.books.wallets;
      var to := FindAccount(wallets, number);
      if IsBlank(number) || amount <= 0 then r == Err(AmountInvalid)
      else if to.None? || to.value < 3 then r == Err(WalletNotFound)
      else if wallets[to.value].balance + amount > INT64_MAX then r == Err(Overflow)
      else if wallets[SETTLEMENT].balance < amount then r == Err(InsufficientFunds)
      else OnlyBooks(w.db, r, [Entry(None, to.value, Credit, amount, AdminCredit, now), Entry(None, SETTLEMENT, Debit, amount, SettlementOut, now)])
  {
    var to := FindAccount(w.db.books.wallets, number);
    if to.Some? && 3 <= to.value { DepositPostings(w.db.books, now, to.value, amount, AdminCredit); }
  }

  lemma {:induction false} FundingPosting(b: Books, now: int, amount: int)
    requires NonNegative(b) && amount > 0
    ensures var r := Post(b, None, now, FundingLegs(amount));
      if b.wallets[SETTLEMENT].balance + amount > INT64_MAX then r == Err(Overflow)
      else r.Ok? && Booked(b, r.value, [Entry(None, SETTLEMENT, Credit, amount, SettlementFunding, now)])
  {
    var leg := FundingLegs(amount)[0];
    assert FundingLegs(amount) == [leg] + [];
    PostFirst(b, None, now, leg, []);
    if PostLeg(b, None, now, leg).Ok? { LegBooked(b, None, now, leg); }
  }

  lemma {:induction false} HoldingGains(ext: External, amount: int)
    requires amount > 0 && ext.settlement.balance >= INT64_MIN
    ensures ExternalCredit(ext.settlement, amount)
         == if ext.settlement.balance + amount > INT64_MAX then Err(Overflow)
            else Ok(ExternalRow(ext.settlement.balance + amount, ext.settlement.version + 1))
  {
  }

  /** The answer to a funding: wallet and holding gain the same amount, or neither does. */
  lemma {:induction false} FundingAnswer(w: World, amount: int, now: int)
    requires NonNegative(w.db.books) && w.db.ext.settlement.balance >= INT64_MIN
    ensures var r, holding := FundSettlement(w.db, amount, now), w.db.ext.settlement;
      if amount <= 0 then r == Err(AmountInvalid)
      else if w.db.books.wallets[SETTLEMENT].balance + amount > INT64_MAX || holding.balance + amount > INT64_MAX then r == Err(Overflow)
      else
        && r.Ok?
        && r.value == w.db.(books := r.value.books,
                            ext := w.db.ext.(settlement := ExternalRow(holding.balance + amount, holding.version + 1)))
        && Booked(w.db.books, r.value.books, [Entry(None, SETTLEMENT, Credit, amount, SettlementFunding, now)])
  {
    if amount > 0 {
      FundingPosting(w.db.books, now, amount);
      HoldingGains(w.db.ext, amount);
    }
  }

  /** As steps: what succeeds is committed, what does not changes nothing. */
  lemma {:induction false} MoneyInSteps(w: World, wallet: nat, number: string, amount: int, now: int)
    ensures Step(w, DepositMoney(wallet, amount, now))
         == (var r := CreditDeposit(w.db, wallet, amount, now); if r.Ok? then w.(db := r.value) else w)
    ensures Step(w, AdminDeposit(number, amount, now))
         == (var r := CreditByAdmin(w.db, number, amount, now); if r.Ok? then w.(db := r.value) else w)
    ensures Step(w, Fund(amount, now)) == (var r := FundSettlement(w.db, amount, now); if r.Ok? then w.(db := r.value) else w)
  {
  }

  // ---------- Wallets and users ----------

  /** A wallet opens empty, under a number no wallet has; a customer registers once, unverified. */
  lemma {:induction false} OpeningAndRegistering(w: World, customer: string, number: string)
    ensures var wallets := w.db.books.wallets;
      Step(w, OpenWallet(customer, number))
        == if exists i :: 0 <= i < |wallets| && wallets[i].accountNumber == number then w
           else w.(db := w.db.(books := w.db.books.(wallets := wallets + [WalletRow(customer, number, Customer, 0, 1)])))
    ensures Step(w, Register(customer))
         == if exists i :: 0 <= i < |w.db.users| && w.db.users[i].customerId == customer then w
            else w.(db := w.db.(users := w.db.users + [UserRow(customer, KycPending)]))
    ensures (exists i :: 0 <= i < |w.db.books.wallets| && w.db.books.wallets[i].accountNumber == number) ==>
              CreateWallet(w.db, customer, number) == Err(DuplicateKey)
    ensures (exists i :: 0 <= i < |w.db.users| && w.db.users[i].customerId == customer) ==>
              CreateUser(w.db, customer) == Err(DuplicateKey)
  {
  }

  // ---------- KYC ----------

  /** A submission makes its owner pending and adds one pending document; every other user and document stays. */
  lemma {:induction false} SubmissionResets(w: World, user: nat)
    ensures Step(w, Submit(user))
         == if user >= |w.db.users| then w
            else w.(db := w.db.(users := w.db.users[user := UserRow(w.db.users[user].customerId, KycPending)],
                                docs := w.db.docs + [DocRow(user, KycPending)]))
  {
  }

  /** A verdict falls on the owner's own document and on the owner; any other pair of them changes nothing. */
  lemma {:induction false} VerdictFalls(w: World, user: nat, doc: nat, approve: bool)
    ensures var verdict := if approve then Verified else Rejected;
      Step(w, Review(user, doc, approve))
        == if user >= |w.db.users| || doc >= |w.db.docs| || w.db.docs[doc].user != user then w
           else w.(db := w.db.(users := w.db.users[user := UserRow(w.db.users[user].customerId, verdict)],
                               docs := w.db.docs[doc := DocRow(user, verdict)]))
  {
  }

  /** No customer is registered twice. */
  ghost predicate UsersUnique(users: seq<UserRow>) {
    forall i, j :: 0 <= i < j < |users| ==> users[i].customerId != users[j].customerId
  }

  /** Users keep their place and name; a verdict other than by approval never becomes Verified. */
  ghost predicate UsersMove(before: seq<UserRow>, after: seq<UserRow>, user: nat, approved: bool) {
    && |before| <= |after|
    && (forall i :: 0 <= i < |before| ==> after[i].customerId == before[i].customerId)
    && (user < |before| && before[user].kyc != Verified && !approved ==> after[user].kyc != Verified)
  }

  predicate Approves(e: Event, user: nat) { e.Review? && e.user == user && e.approve }

  lemma {:induction false} SettlementKeepsUsers(w: World, e: Event)
    requires SettlementOk(w) && IsSettlement(e)
    ensures Step(w, e).db.users == w.db.users
  {
    match e
    case RunJob(id, attempts, reply, now, crash) => var c := RunJobStep(w, id, attempts, reply, now, crash);
    case WorkerAsks(id, answer, now, crash) => WorkerAsksStep(w, id, answer, now, crash);
    case CustomerAsks(id, customer, answer, now, crash) => CustomerAsksStep(w, id, customer, answer, now, crash);
    case RepostTransfer(id, now) => RepostStep(w, id, now);
  }

  lemma {:induction false} RequestKeepsUsers(w: World, c: Command, x: Context)
    requires WalletsOk(w.db.books.wallets) && Admissible(Ask(c, x))
    ensures AfterAsk(w, c, x).db.users == w.db.users
  {
    var t := RequestShape(w.db, c, x);
  }

  lemma {:induction false} RegisterMoves(w: World, customer: string, user: nat)
    requires UsersUnique(w.db.users)
    ensures var after := Step(w, Register(customer)).db.users; UsersUnique(after) && UsersMove(w.db.users, after, user, false)
  {
    OpeningAndRegistering(w, customer, "");
  }

  lemma {:induction false} SubmitMoves(w: World, submitter: nat, user: nat)
    requires UsersUnique(w.db.users)
    ensures var after := Step(w, Submit(submitter)).db.users; UsersUnique(after) && UsersMove(w.db.users, after, user, false)
  {
    SubmissionResets(w, submitter);
  }

  lemma {:induction false} ReviewMoves(w: World, reviewed: nat, doc: nat, approve: bool, user: nat)
    requires UsersUnique(w.db.users)
    ensures var after := Step(w, Review(reviewed, doc, approve)).db.users;
      UsersUnique(after) && UsersMove(w.db.users, after, user, reviewed == user && approve)
  {
    VerdictFalls(w, reviewed, doc, approve);
  }

  lemma {:induction false} PeopleStep(w: World, e: Event, user: nat)
    requires UsersUnique(w.db.users) && !e.Ask? && !IsSettlement(e)
    ensures UsersUnique(Step(w, e).db.users) && UsersMove(w.db.users, Step(w, e).db.users, user, Approves(e, user))
  {
    if e.Register? {
      RegisterMoves(w, e.customer, user);
    } else if e.Submit? {
      SubmitMoves(w, e.user, user);
    } else if e.Review? {
      ReviewMoves(w, e.user, e.doc, e.approve, user);
    } else {
      NobodyMoves(w, e);
    }
  }

  lemma {:induction false} NobodyMoves(w: World, e: Event)
    requires !e.Ask? && !IsSettlement(e) && !e.Register? && !e.Submit? && !e.Review?
    ensures Step(w, e).db.users == w.db.users
  {
  }

  lemma {:induction false} UsersStep(w: World, e: Event, user: nat)
    requires WalletsOk(w.db.books.wallets) && SettlementOk(w) && Admissible(e) && UsersUnique(w.db.users)
    ensures UsersUnique(Step(w, e).db.users) && UsersMove(w.db.users, Step(w, e).db.users, user, Approves(e, user))
  {
    if e.Ask? {
      RequestKeepsUsers(w, e.command, e.context);
    } else if IsSettlement(e) {
      SettlementKeepsUsers(w, e);
    } else {
      PeopleStep(w, e, user);
    }
  }

  ghost predicate NoApproval(es: seq<Event>, user: nat) { forall i :: 0 <= i < |es| ==> !Approves(es[i], user) }

  lemma {:induction false} UsersRun(w: World, es: seq<Event>, user: nat)
    requires Inv(w) && AllAdmissible(es) && UsersUnique(w.db.users)
    ensures UsersUnique(Run(w, es).db.users) && UsersMove(w.db.users, Run(w, es).db.users, user, !NoApproval(es, user))
    decreases |es|
  {
    if |es| > 0 {
      var front, e := es[..|es| - 1], es[|es| - 1];
      UsersRun(w, front, user);
      RunKeepsInv(w, front);
      UsersStep(Run(w, front), e, user);
    }
  }

  /** In every reachable state no customer is registered twice. */
  lemma {:induction false} CustomersRegisterOnce(w: World)
    requires Reachable(w)
    ensures UsersUnique(w.db.users)
  {
    var es: seq<Event> :| AllAdmissible(es) && w == Run(Start(), es);
    StartInv();
    UsersRun(Start(), es, 0);
  }

  lemma {:induction false} UnverifiedUser(users: seq<UserRow>, user: nat)
    requires UsersUnique(users) && user < |users| && users[user].kyc != Verified
    ensures !IsVerified(users, users[user].customerId)
  {
    var u := FindUser(users, users[user].customerId);
    assert u.Some?;
  }

  /** From a submission until the next approval, no reservation of hers takes a counter above five million. */
  lemma {:induction false} NoLargeReservationUntilApproval(w: World, user: nat, es: seq<Event>, e: Event, wallet: nat, day: int)
    requires Reachable(w) && user < |w.db.users| && AllAdmissible(es) && NoApproval(es, user) && Admissible(e)
    requires var v := Run(Step(w, Submit(user)), es);
      MakesReservation(v, e, wallet, day) && e.command.customerId == w.db.users[user].customerId
    ensures CounterOf(Step(Run(Step(w, Submit(user)), es), e).db.counters, wallet, day) <= 5_000_000
  {
    var w1 := Step(w, Submit(user));
    CustomersRegisterOnce(w);
    ReachableHasInv(w);
    SubmissionResets(w, user);
    StepKeepsInv(w, Submit(user));
    PeopleStep(w, Submit(user), user);
    AfterSubmission(w1, user, es, e, wallet, day);
  }

  lemma {:induction false} AfterSubmission(w: World, user: nat, es: seq<Event>, e: Event, wallet: nat, day: int)
    requires Inv(w) && UsersUnique(w.db.users) && user < |w.db.users| && w.db.users[user].kyc != Verified
    requires AllAdmissible(es) && NoApproval(es, user) && Admissible(e)
    requires MakesReservation(Run(w, es), e, wallet, day) && e.command.customerId == w.db.users[user].customerId
    ensures CounterOf(Step(Run(w, es), e).db.counters, wallet, day) <= 5_000_000
  {
    var v := Run(w, es);
    UsersRun(w, es, user);
    UnverifiedUser(v.db.users, user);
    RunKeepsInv(w, es);
    OnlyReservationsMoveCounters(v, e, wallet, day);
  }

  // ---------- The seed ----------

  /** A new deployment: three system wallets, all the money in the settlement wallet and its holding, and no rows else. */
  lemma {:induction false} SeedIsBare()
    ensures var db := Start().db;
      && |db.books.wallets| == 3 && TotalBalance(db.books) == db.books.wallets[SETTLEMENT].balance == 600_000_000_000
      && (forall i :: 0 <= i < 3 ==> db.books.wallets[i].customerId == "SYSTEM")
      && db.books.wallets[SETTLEMENT].accountNumber == "0000000001" && db.books.wallets[SETTLEMENT].kind == AccountType.Settlement
      && db.books.wallets[VAT].accountNumber == "0000000002" && db.books.wallets[VAT].kind == AccountType.Vat
      && db.books.wallets[INCOME].accountNumber == "0000000003" && db.books.wallets[INCOME].kind == AccountType.Income
      && db.ext.settlement.balance == 600_000_000_000 && db.ext.ledger.balance == db.ext.income.balance == db.ext.vat.balance == 0
      && db.books.entries == [] && db.transfers == [] && db.idem == map[] && db.counters == map[] && db.jobs == map[]
      && db.reports == [] && db.users == [] && db.docs == []
    ensures Start().log == [] && Start().claims == {}
  {
    assert Balances(SeedDb().books) == [600_000_000_000, 0] + [0];
    SumAppend([600_000_000_000, 0], 0, Id());
    SumTwo(600_000_000_000, 0, Id());
  }
}
