/** Concrete runs: the phases are reachable, and some tidy forms of the properties fail. */
module Scenarios {
  import opened Prelude
  import opened Rows
  import opened Books
  import opened DailyOutboundLimit
  import opened IdempotencyFingerprint
  import opened WatBusinessDay
  import opened Ledger
  import opened Settlement
  import opened Shapes
  import opened Machine
  import opened Conservation
  import opened Protocol
  import opened Reversals
  import opened Charges
  import opened Requests
  import opened Invariants
  import opened Persistence
  import opened MoneyTheorems
  import opened RequestTheorems
  import SettlementTheorems
  import opened CustomerLimits

  const ADA: string := "ADA"
  const FIRST: string := "5000000001"
  const SECOND: string := "5000000002"
  const DEPOSIT: int := 20_000_000
  const FEE: int := 50_000
  const LEVIED_VAT: int := 3_750

  /** A customer with two funded wallets, registered and not yet verified. */
  ghost predicate Opened(w: World) {
    && Inv(w) && TotalFits(w.db.books) && w.log == [] && w.claims == {}
    && w.db.transfers == [] && w.db.idem == map[] && w.db.counters == map[] && w.db.docs == []
    && w.db.users == [UserRow(ADA, KycPending)]
    && |w.db.books.wallets| == 5 && w.db.books.wallets[SETTLEMENT].balance >= DEPOSIT
    && (forall i :: 3 <= i < 5 ==> w.db.books.wallets[i].customerId == ADA && w.db.books.wallets[i].balance == DEPOSIT)
  }

  /** The events that set the scene: none is a request or touches a job. */
  predicate IsSetup(e: Event) { e.OpenWallet? || e.DepositMoney? || e.Register? }

  predicate AllSetup(es: seq<Event>) { forall i :: 0 <= i < |es| ==> IsSetup(es[i]) }

  lemma {:induction false} RunSnoc(w: World, es: seq<Event>, e: Event)
    ensures Run(w, es + [e]) == Step(Run(w, es), e)
  {
    assert (es + [e])[..|es|] == es;
  }

  lemma {:induction false} OpenFree(w: World, number: string)
    requires forall i :: 0 <= i < |w.db.books.wallets| ==> w.db.books.wallets[i].accountNumber != number
    ensures Step(w, OpenWallet(ADA, number))
         == w.(db := w.db.(books := w.db.books.(wallets := w.db.books.wallets + [WalletRow(ADA, number, Customer, 0, 1)])))
  {
  }

  lemma {:induction false} NumbersDiffer()
    ensures FIRST != SECOND && ADA != "SYSTEM"
    ensures forall i :: 0 <= i < 3 ==> SeedWallets()[i].accountNumber != FIRST && SeedWallets()[i].accountNumber != SECOND
  {
    assert FIRST[9] != SECOND[9] && |ADA| != |"SYSTEM"|;
    assert "0000000001"[0] != FIRST[0] && "0000000002"[0] != FIRST[0] && "0000000003"[0] != FIRST[0];
    assert "0000000001"[0] != SECOND[0] && "0000000002"[0] != SECOND[0] && "0000000003"[0] != SECOND[0];
  }

  /** Both wallets exist, unfunded. */
  function TwoWallets(): World {
    World(SeedDb().(books := Books(SeedWallets() + [WalletRow(ADA, FIRST, Customer, 0, 1)] + [WalletRow(ADA, SECOND, Customer, 0, 1)], [])), [], {})
  }

  lemma {:induction false} OpenBoth() returns (es: seq<Event>)
    ensures AllAdmissible(es) && AllSetup(es) && Run(Start(), es) == TwoWallets()
  {
    es := [] + [OpenWallet(ADA, FIRST)] + [OpenWallet(ADA, SECOND)];
    NumbersDiffer();
    RunSnoc(Start(), [], OpenWallet(ADA, FIRST));
    OpenFree(Start(), FIRST);
    RunSnoc(Start(), [] + [OpenWallet(ADA, FIRST)], OpenWallet(ADA, SECOND));
    OpenFree(Run(Start(), [] + [OpenWallet(ADA, FIRST)]), SECOND);
  }

  /** What a covered deposit does. */
  ghost predicate Deposited(w: World, w': World, wallet: nat, amount: int)
    requires wallet < |w.db.books.wallets|
  {
    && w' == w.(db := w.db.(books := w'.db.books)) && |w'.db.books.wallets| == |w.db.books.wallets|
    && (forall i: nat :: i < |w.db.books.wallets| ==>
          && SameIdentity(w.db.books.wallets[i], w'.db.books.wallets[i])
          && w'.db.books.wallets[i].balance == w.db.books.wallets[i].balance
               + (if i == wallet then amount else if i == SETTLEMENT then -amount else 0))
    && TotalBalance(w'.db.books) == TotalBalance(w.db.books)
  }

  lemma {:induction false} DepositStep(w: World, wallet: nat, amount: int)
    requires Inv(w) && TotalFits(w.db.books) && 3 <= wallet < |w.db.books.wallets|
    requires 0 < amount <= w.db.books.wallets[SETTLEMENT].balance
    ensures Deposited(w, Step(w, DepositMoney(wallet, amount, 0)), wallet, amount)
  {
    DepositSucceedsIff(w, wallet, amount, 0);
    DepositEffect(w.db.books, wallet, amount);
  }

  lemma {:induction false} DepositEffect(b: Books, wallet: nat, amount: int)
    requires 3 <= wallet < |b.wallets| && Post(b, None, 0, DepositLegs(wallet, amount, Deposit)).Ok?
    ensures var b' := Post(b, None, 0, DepositLegs(wallet, amount, Deposit)).value;
      && |b'.wallets| == |b.wallets| && TotalBalance(b') == TotalBalance(b)
      && (forall i: nat :: i < |b.wallets| ==>
            && SameIdentity(b.wallets[i], b'.wallets[i])
            && b'.wallets[i].balance == b.wallets[i].balance
                 + (if i == wallet then amount else if i == SETTLEMENT then -amount else 0))
  {
    var legs := DepositLegs(wallet, amount, Deposit);
    PostEffect(b, None, 0, legs);
    PostTotal(b, None, 0, legs);
    LegTotalTwo(legs[0], legs[1]);
    assert legs[1..][1..] == [];
    var one := Balances(b)[wallet := Balances(b)[wallet] + amount];
    assert Shift(Balances(b), legs) == Shift(one, legs[1..]) == one[SETTLEMENT := one[SETTLEMENT] - amount];
    var b' := Post(b, None, 0, legs).value;
    forall i: nat | i < |b.wallets| ensures b'.wallets[i].balance == Shift(Balances(b), legs)[i] {
      assert Balances(b')[i] == b'.wallets[i].balance;
    }
  }

  lemma {:induction false} SeedFits()
    ensures Inv(TwoWallets()) && TotalFits(TwoWallets().db.books)
  {
    var es := OpenBoth();
    ReachableInv(es);
    assert Reachable(TwoWallets());
    TotalFitsIffFundingsFit(TwoWallets());
    assert Funded(TwoWallets().db) == 0;
  }

  lemma {:induction false} DepositKeeps(w: World, wallet: nat, amount: int)
    requires Inv(w) && TotalFits(w.db.books) && 3 <= wallet < |w.db.books.wallets|
    requires 0 < amount <= w.db.books.wallets[SETTLEMENT].balance
    ensures var w' := Step(w, DepositMoney(wallet, amount, 0));
      Deposited(w, w', wallet, amount) && Inv(w') && TotalFits(w'.db.books)
  {
    DepositStep(w, wallet, amount);
    StepKeepsInv(w, DepositMoney(wallet, amount, 0));
  }

  lemma {:induction false} RegisterIsStep(w: World)
    requires w.db.users == []
    ensures Commit(w.db, CreateUser(w.db, ADA)) == w.db.(users := [UserRow(ADA, KycPending)])
    ensures Step(w, Register(ADA)) == w.(db := Commit(w.db, CreateUser(w.db, ADA)))
  {
  }

  lemma {:induction false} RegisterKeeps(w: World)
    requires Inv(w) && w.db.users == []
    ensures Inv(w.(db := Commit(w.db, CreateUser(w.db, ADA))))
  {
    RegisterKeepsInv(w, ADA);
  }

  lemma {:induction false} OpenedAtLast(w: World, w1: World, w2: World)
    requires w == TwoWallets() && Deposited(w, w1, 3, DEPOSIT)
    requires |w1.db.books.wallets| == 5 && Deposited(w1, w2, 4, DEPOSIT) && TotalFits(w2.db.books)
    requires Inv(w2.(db := w2.db.(users := [UserRow(ADA, KycPending)])))
    ensures Opened(w2.(db := w2.db.(users := [UserRow(ADA, KycPending)])))
  {
  }

  lemma {:induction false} OneMore(w: World, es: seq<Event>, e: Event) returns (all: seq<Event>)
    requires AllAdmissible(es) && Admissible(e) && AllSetup(es) && IsSetup(e)
    ensures AllAdmissible(all) && AllSetup(all) && Run(w, all) == Step(Run(w, es), e)
  {
    all := es + [e];
    RunSnoc(w, es, e);
  }

  lemma {:induction false} ThreeEvents(w: World, a: Event, b: Event, c: Event) returns (es: seq<Event>)
    requires Admissible(a) && Admissible(b) && Admissible(c) && IsSetup(a) && IsSetup(b) && IsSetup(c)
    ensures AllAdmissible(es) && AllSetup(es) && Run(w, es) == Step(Step(Step(w, a), b), c)
  {
    es := OneMore(w, [], a);
    es := OneMore(w, es, b);
    es := OneMore(w, es, c);
  }

  lemma {:induction false} FirstDeposit(w: World, w1: World)
    requires w == TwoWallets() && w1 == Step(w, DepositMoney(3, DEPOSIT, 0))
    ensures Deposited(w, w1, 3, DEPOSIT) && Inv(w1) && TotalFits(w1.db.books)
  {
    SeedFits();
    DepositKeeps(w, 3, DEPOSIT);
  }

  lemma {:induction false} FundingsHold(w: World, w1: World, w2: World)
    requires w == TwoWallets() && w1 == Step(w, DepositMoney(3, DEPOSIT, 0))
    requires w2 == Step(w1, DepositMoney(4, DEPOSIT, 0))
    ensures Opened(Step(w2, Register(ADA)))
  {
    FirstDeposit(w, w1);
    DepositKeeps(w1, 4, DEPOSIT);
    RegisterIsStep(w2);
    RegisterKeeps(w2);
    OpenedAtLast(w, w1, w2);
  }

  /** The deposits and the registration. */
  lemma {:induction false} FundAndRegister(w: World) returns (es: seq<Event>)
    requires w == TwoWallets()
    ensures AllAdmissible(es) && AllSetup(es) && Opened(Run(w, es))
  {
    var a, b := DepositMoney(3, DEPOSIT, 0), DepositMoney(4, DEPOSIT, 0);
    es := ThreeEvents(w, a, b, Register(ADA));
    FundingsHold(w, Step(w, a), Step(Step(w, a), b));
  }

  lemma {:induction false} Prologue() returns (es: seq<Event>)
    ensures AllAdmissible(es) && AllSetup(es) && Opened(Run(Start(), es))
  {
    var a := OpenBoth();
    var b := FundAndRegister(TwoWallets());
    es := a + b;
    RunConcat(Start(), a, b);
  }

  // ---------- A payment out ----------

  /** A well-formed payment of hers. */
  predicate IsPayment(c: Command, wallet: nat, amount: int) {
    && c.OutboundCommand? && c.customerId == ADA && c.source == wallet && c.amount == amount
    && !IsBlank(c.key) && !IsBlank(c.destinationAccount) && !IsBlank(c.destinationBank)
  }

  function Pay(wallet: nat, amount: int, key: char): Command {
    OutboundCommand(ADA, wallet, "0", "0", "", amount, [key])
  }

  lemma {:induction false} PayIsPayment(wallet: nat, amount: int, key: char)
    requires '0' <= key <= '9'
    ensures IsPayment(Pay(wallet, amount, key), wallet, amount)
  {
    assert !IsWhiteSpace([key][0]) && !IsWhiteSpace("0"[0]);
  }

  function Terminal(): Context { Context(FEE, LEVIED_VAT, "", 0) }

  /** The guards of a payment. */
  ghost predicate Payable(db: Db, c: Command) {
    && c.OutboundCommand? && IsPayment(c, c.source, c.amount) && 0 < c.amount <= VERIFIED_LIMIT && (ADA, c.key) !in db.idem
    && 3 <= c.source < |db.books.wallets| && db.books.wallets[c.source].customerId == ADA
    && IsAllowed(CounterOf(db.counters, c.source, Today(0)), c.amount, LimitFor(IsVerified(db.users, ADA)))
    && c.amount + FEE + LEVIED_VAT <= db.books.wallets[c.source].balance
  }

  /** What lets a payment commit. */
  ghost predicate CanPay(w: World, c: Command) { Inv(w) && TotalFits(w.db.books) && Payable(w.db, c) }

  lemma {:induction false} PaymentIsValid(db: Db, c: Command)
    requires c.OutboundCommand? && IsPayment(c, c.source, c.amount) && 0 < c.amount <= VERIFIED_LIMIT
    ensures ReachesReplay(db, c, Terminal()) && Admissible(Ask(c, Terminal()))
  {
    assert |ADA| != |"SYSTEM"|;
  }

  ghost function AfterPay(w: World, c: Command): World { AfterAsk(w, c, Terminal()) }

  predicate IsHers(t: TransferRow, amount: int) {
    && t.terms.customerId == ADA && t.terms.kind.Outbound? && t.terms.amount == amount && t.terms.createdAt == 0
    && t.terms.fee == FEE && t.terms.vat == LEVIED_VAT && t.status.Submitted?
  }

  ghost predicate PaidRows(db: Db, db': Db, c: Command)
    requires c.OutboundCommand?
  {
    var n := |db.transfers|;
    && |db'.transfers| == n + 1 && db'.transfers[..n] == db.transfers && IsHers(db'.transfers[n], c.amount)
    && PhaseAt(db', n) == Some(Waiting)
    && db'.users == db.users && (forall k :: k in db'.idem <==> k in db.idem || k == (ADA, c.key))
  }

  ghost predicate PaidBooks(b: Books, b': Books, c: Command)
    requires c.OutboundCommand?
  {
    && TotalFits(b') && |b'.wallets| == |b.wallets|
    && (forall i: nat :: i < |b.wallets| ==>
          && SameIdentity(b.wallets[i], b'.wallets[i])
          && b'.wallets[i].balance == b.wallets[i].balance + RequestEffect(b.wallets, c, Terminal(), i))
  }

  ghost predicate PaidCounters(db: Db, db': Db, c: Command)
    requires c.OutboundCommand?
  {
    forall i: nat ::
      CounterOf(db'.counters, i, Today(0)) == CounterOf(db.counters, i, Today(0)) + (if i == c.source then c.amount else 0)
  }

  /** A committed payment: one Submitted transfer more, its own money moved and its own counter raised. */
  ghost predicate Paid(w: World, w': World, c: Command)
    requires c.OutboundCommand?
  {
    && Inv(w') && PaidRows(w.db, w'.db, c) && PaidBooks(w.db.books, w'.db.books, c) && w'.claims == w.claims
    && PaidCounters(w.db, w'.db, c)
    && (RepostFree(w.log) ==> RepostFree(w'.log))
  }

  lemma {:induction false} RecordedRows(db: Db, db': Db, t: Terms, c: Command)
    requires Records(db, db', t) && t.kind.Outbound? && t.customerId == ADA && t.createdAt == 0 && t.fee == FEE
    requires t.vat == LEVIED_VAT
    requires c.OutboundCommand? && c.key == t.key && c.amount == t.amount
    ensures PaidRows(db, db', c)
  {
  }

  lemma {:induction false} RecordedTotal(db: Db, db': Db, t: Terms)
    requires Records(db, db', t)
    ensures TotalBalance(db'.books) == TotalBalance(db.books) && |db'.books.wallets| == |db.books.wallets|
  {
    PostEffect(db.books, Some(|db.transfers|), t.createdAt, LegsFor(t));
    PostTotal(db.books, Some(|db.transfers|), t.createdAt, LegsFor(t));
    TransferLegsBalance(t, |db.books.wallets|);
  }

  lemma {:induction false} PaymentCommits(w: World, c: Command)
    requires CanPay(w, c)
    ensures |AfterPay(w, c).db.transfers| > |w.db.transfers| && Inv(AfterPay(w, c))
  {
    PaymentIsValid(w.db, c);
    TotalLeavesRoom(w.db.books, c.source, c.amount, FEE, LEVIED_VAT);
    OutboundCommitsIff(w, c, Terminal());
    AskKeepsInv(w, c, Terminal());
  }

  lemma {:induction false} PaymentCounters(w: World, c: Command)
    requires CanPay(w, c)
    ensures PaidCounters(w.db, AfterPay(w, c).db, c)
  {
    PaymentIsValid(w.db, c);
    PaymentCommits(w, c);
    forall i: nat
      ensures CounterOf(AfterPay(w, c).db.counters, i, Today(0))
              == CounterOf(w.db.counters, i, Today(0)) + (if i == c.source then c.amount else 0)
    {
      RequestMovesCounter(w, c, Terminal(), i, Today(0));
    }
  }

  lemma {:induction false} PaymentRecords(w: World, c: Command)
    requires CanPay(w, c)
    ensures PaidRows(w.db, AfterPay(w, c).db, c)
    ensures |AfterPay(w, c).db.books.wallets| == |w.db.books.wallets| && TotalFits(AfterPay(w, c).db.books)
  {
    PaymentIsValid(w.db, c);
    PaymentCommits(w, c);
    var t := RequestShape(w.db, c, Terminal());
    var db' := AfterPay(w, c).db;
    CommittedTerms(w.db, c, Terminal(), t);
    RecordedRows(w.db, db', t, c);
    RecordedTotal(w.db, db', t);
  }

  lemma {:induction false} PaymentBooks(w: World, c: Command)
    requires CanPay(w, c)
    ensures PaidBooks(w.db.books, AfterPay(w, c).db.books, c)
  {
    PaymentIsValid(w.db, c);
    PaymentCommits(w, c);
    PaymentRecords(w, c);
    forall i: nat | i < |w.db.books.wallets|
      ensures SameIdentity(w.db.books.wallets[i], AfterPay(w, c).db.books.wallets[i])
      ensures AfterPay(w, c).db.books.wallets[i].balance
              == w.db.books.wallets[i].balance + RequestEffect(w.db.books.wallets, c, Terminal(), i)
    {
      CommittedRequestMovesMoney(w, c, Terminal(), i);
    }
  }

  lemma {:induction false} PaymentHistory(w: World, c: Command)
    requires CanPay(w, c)
    ensures AfterPay(w, c).claims == w.claims && (RepostFree(w.log) ==> RepostFree(AfterPay(w, c).log))
  {
  }

  lemma {:induction false} PaymentEffect(w: World, c: Command)
    requires CanPay(w, c)
    ensures Paid(w, AfterPay(w, c), c)
  {
    PaymentCommits(w, c);
    PaymentCounters(w, c);
    PaymentRecords(w, c);
    PaymentBooks(w, c);
    PaymentHistory(w, c);
  }

  lemma {:induction false} PaymentIsRun(es: seq<Event>, c: Command)
    requires AllAdmissible(es) && CanPay(Run(Start(), es), c)
    ensures AllAdmissible(es + [Ask(c, Terminal())]) && Run(Start(), es + [Ask(c, Terminal())]) == AfterPay(Run(Start(), es), c)
  {
    PaymentIsValid(Run(Start(), es).db, c);
    RunSnoc(Start(), es, Ask(c, Terminal()));
  }

  /** One waiting payment. */
  ghost predicate OneWaiting(w: World) {
    && Inv(w) && TotalFits(w.db.books) && |w.db.transfers| == 1 && PhaseAt(w.db, 0) == Some(Waiting)
    && w.db.transfers[0].terms.fee == FEE && RepostFree(w.log) && w.claims == {}
    && w.db.transfers[0].terms.amount <= w.db.books.wallets[SETTLEMENT].balance
  }

  lemma {:induction false} FirstPayment(w: World, c: Command)
    requires Opened(w) && IsPayment(c, 3, 1_000_000)
    ensures CanPay(w, c) && OneWaiting(AfterPay(w, c))
  {
    assert CanPay(w, c);
    PaymentEffect(w, c);
  }

  lemma {:induction false} OnePayment(c: Command) returns (v: World)
    requires IsPayment(c, 3, 1_000_000)
    ensures Reachable(v) && OneWaiting(v)
  {
    var prologue := Prologue();
    FirstPayment(Run(Start(), prologue), c);
    var es := OnePaymentMore(prologue, c);
    v := Run(Start(), es);
  }

  // ---------- Every committed pair is reachable ----------

  /** Every pair but the dead letter is committed by some run without a repost. */
  lemma {:induction false} PhasesAreReachable(p: Phase) returns (v: World)
    requires !p.FailedDead?
    ensures Reachable(v) && PhaseAt(v.db, 0) == Some(p)
  {
    PayIsPayment(3, 1_000_000, '1');
    var w := OnePayment(Pay(3, 1_000_000, '1'));
    ReversalIsCovered(w);
    SettlementTheorems.EveryPhaseIsReached(w, 0, p);
    v := Run(w, SettlementTheorems.PathTo(p, 0));
    LeadsOn(Start(), w, v);
  }

  // ---------- A transfer nobody can resolve ----------

  /** The rail answers Unknown and gives no reference. */
  function Silent(): RailAnswer { RailAnswer(RailUnknown, None) }

  lemma {:induction false} SilenceStrands(w: World)
    requires SettlementOk(w) && 0 < |w.db.transfers| && PhaseAt(w.db, 0) == Some(Waiting) && (0, 0) in w.claims
    ensures Stranded(AfterRunJob(w, 0, 0, Silent(), 0, false).db.transfers[0])
  {
    SettlementTheorems.DispatchFollowsAnswer(w, 0, 0, Silent(), 0);
  }

  lemma {:induction false} StrandedInTwo(w: World) returns (v: World)
    requires OneWaiting(w)
    ensures Leads(w, v) && |v.db.transfers| > 0 && Stranded(v.db.transfers[0])
  {
    var w1 := Step(w, ListClaims(0));
    SettlementTheorems.FirstTwoSteps(w, 0, Silent());
    ListingKeepsSettlement(w, 0);
    StepLeads(w, ListClaims(0));
    StepLeads(w1, RunJob(0, 0, Silent(), 0, false));
    v := AfterRunJob(w1, 0, 0, Silent(), 0, false);
    LeadsOn(w, w1, v);
    SilenceStrands(w1);
  }

  /** Some run from the seeded database leaves a transfer Unknown without a reference, and every continuation keeps it so. */
  lemma {:induction false} StrandedIsReachable() returns (v: World)
    ensures Reachable(v) && |v.db.transfers| > 0 && Stranded(v.db.transfers[0])
    ensures !SettlementTheorems.Resolves(v, 0)
  {
    PayIsPayment(3, 1_000_000, '1');
    var w := OnePayment(Pay(3, 1_000_000, '1'));
    v := StrandedInTwo(w);
    LeadsOn(Start(), w, v);
    SettlementTheorems.UnknownResolvesIffReferenced(v, 0);
  }

  // ---------- The limit is per wallet ----------

  /** A payment from another wallet leaves this one payable. */
  lemma {:induction false} OtherWalletStillPays(db: Db, db': Db, a: Command, b: Command)
    requires a.OutboundCommand? && PaidRows(db, db', a) && PaidBooks(db.books, db'.books, a) && PaidCounters(db, db', a)
    requires Payable(db, b) && a.source != b.source && a.key != b.key && a.source >= 3
    ensures Payable(db', b)
  {
    var i := b.source;
    assert CounterOf(db'.counters, i, Today(0)) == CounterOf(db.counters, i, Today(0));
    assert RequestEffect(db.books.wallets, a, Terminal(), i) == 0;
    assert SameIdentity(db.books.wallets[i], db'.books.wallets[i]);
  }

  lemma {:induction false} PayFromBoth(w: World, a: Command, b: Command)
    requires Opened(w) && IsPayment(a, 3, UNVERIFIED_LIMIT) && IsPayment(b, 4, UNVERIFIED_LIMIT) && a.key != b.key
    ensures CanPay(w, a) && Paid(w, AfterPay(w, a), a) && CanPay(AfterPay(w, a), b)
  {
    assert CanPay(w, a) && CanPay(w, b);
    PaymentEffect(w, a);
    OtherWalletStillPays(w.db, AfterPay(w, a).db, a, b);
  }

  lemma {:induction false} BothPaid(s: seq<TransferRow>, x: int, y: int)
    requires |s| == 2 && IsHers(s[0], x) && IsHers(s[1], y)
    ensures Sum(s, SentBy(ADA, Today(0))) == x + y
  {
    assert s == [s[0], s[1]];
    SumTwo(s[0], s[1], SentBy(ADA, Today(0)));
  }

  /** An unverified customer with two wallets sends twice the unverified limit in one day. */
  lemma {:induction false} TwoWalletsDoubleTheLimit() returns (v: World)
    ensures Reachable(v) && !IsVerified(v.db.users, ADA) && Sum(v.db.transfers, SentBy(ADA, Today(0))) == 2 * UNVERIFIED_LIMIT
  {
    var prologue := Prologue();
    var a, b := Pay(3, UNVERIFIED_LIMIT, '1'), Pay(4, UNVERIFIED_LIMIT, '2');
    PayIsPayment(3, UNVERIFIED_LIMIT, '1');
    PayIsPayment(4, UNVERIFIED_LIMIT, '2');
    assert a.key[0] != b.key[0];
    var es := TwoPayments(prologue, a, b);
    v := Run(Start(), es);
  }

  lemma {:induction false} TwoPayments(prologue: seq<Event>, a: Command, b: Command) returns (es: seq<Event>)
    requires AllAdmissible(prologue) && Opened(Run(Start(), prologue))
    requires IsPayment(a, 3, UNVERIFIED_LIMIT) && IsPayment(b, 4, UNVERIFIED_LIMIT) && a.key != b.key
    ensures AllAdmissible(es)
    ensures var db := Run(Start(), es).db;
      && !IsVerified(db.users, ADA) && Sum(db.transfers, SentBy(ADA, Today(0))) == 2 * UNVERIFIED_LIMIT
  {
    PayFromBoth(Run(Start(), prologue), a, b);
    var middle := OnePaymentMore(prologue, a);
    es := OnePaymentMore(middle, b);
    TwicePaid(Run(Start(), prologue), a, b);
  }

  lemma {:induction false} OnePaymentMore(es: seq<Event>, c: Command) returns (all: seq<Event>)
    requires AllAdmissible(es) && CanPay(Run(Start(), es), c)
    ensures AllAdmissible(all) && Run(Start(), all) == AfterPay(Run(Start(), es), c)
  {
    PaymentIsRun(es, c);
    all := es + [Ask(c, Terminal())];
  }

  lemma {:induction false} TwicePaid(w: World, a: Command, b: Command)
    requires Opened(w) && a.OutboundCommand? && b.OutboundCommand? && CanPay(w, a) && CanPay(AfterPay(w, a), b)
    ensures var db := AfterPay(AfterPay(w, a), b).db;
      !IsVerified(db.users, ADA) && Sum(db.transfers, SentBy(ADA, Today(0))) == a.amount + b.amount
  {
    PaymentRecords(w, a);
    PaymentRecords(AfterPay(w, a), b);
    var rows := AfterPay(AfterPay(w, a), b).db.transfers;
    assert rows[0] == rows[..1][0];
    BothPaid(rows, a.amount, b.amount);
  }

  // ---------- A repost can leave the rail's answer without effect ----------

  function Refusing(): RailAnswer { RailAnswer(RailFailed, None) }

  lemma {:induction false} RefusalIsLogged(w: World)
    requires SettlementOk(w) && |w.db.transfers| == 1 && PhaseAt(w.db, 0) == Some(Waiting) && RepostFree(w.log)
    requires var w2 := AfterRunJob(w, 0, 0, Refusing(), 0, false); PhaseAt(w2.db, 0) == Some(FailedOpen)
    ensures var w2 := AfterRunJob(w, 0, 0, Refusing(), 0, false);
      && |w2.db.transfers| == 1 && w2.db.transfers[0].terms == w.db.transfers[0].terms && w2.db.transfers[0].status.Failed?
      && Reposts(w2.log, 0) == 0
  {
    var w2 := AfterRunJob(w, 0, 0, Refusing(), 0, false);
    var c := RunJobStep(w, 0, 0, Refusing(), 0, false);
    NoReposts(w.log, 0);
    LogAppend(w.log, w2.log[|w.log|], 0);
  }

  lemma {:induction false} ReversalIsCovered(w: World)
    requires OneWaiting(w)
    ensures SettlementOk(w) && w.db.transfers[0].terms.kind.Outbound?
    ensures Reverse(w.db.books, 0, w.db.transfers[0].terms, 0).Ok?
  {
    OnlySettlementBlocksReversal(w, 0, 0);
  }

  lemma {:induction false} RefusalGoesThrough(w: World) returns (es: seq<Event>)
    requires SettlementOk(w) && PhaseAt(w.db, 0) == Some(Waiting)
    requires Reverse(w.db.books, 0, w.db.transfers[0].terms, 0).Ok?
    ensures AllAdmissible(es)
    ensures var w1 := w.(claims := w.claims + Claimable(w.db, 0));
      && SettlementOk(w1) && Run(w, es) == AfterRunJob(w1, 0, 0, Refusing(), 0, false)
      && PhaseAt(Run(w, es).db, 0) == Some(FailedOpen)
  {
    es := [ListClaims(0), RunJob(0, 0, Refusing(), 0, false)];
    ListingKeepsSettlement(w, 0);
    SettlementTheorems.FirstTwoSteps(w, 0, Refusing());
  }

  ghost predicate Refused(w: World) {
    && Inv(w) && |w.db.transfers| == 1 && w.db.transfers[0].terms.kind.Outbound? && w.db.transfers[0].status.Failed?
    && w.db.transfers[0].terms.fee == FEE && Reposts(w.log, 0) == 0
  }

  lemma {:induction false} RefusedOnce(w: World) returns (es: seq<Event>)
    requires OneWaiting(w)
    ensures AllAdmissible(es) && Refused(Run(w, es))
  {
    ReversalIsCovered(w);
    es := RefusalGoesThrough(w);
    RefusalIsLogged(w.(claims := w.claims + Claimable(w.db, 0)));
    RunKeepsInv(w, es);
  }

  /** Submitted again, with nothing taken from the customer a second time. */
  ghost predicate RepostedUnpaid(w: World) {
    && Inv(w) && |w.db.transfers| == 1 && w.db.transfers[0].terms.kind.Outbound? && w.db.transfers[0].status.Submitted?
    && w.db.transfers[0].terms.fee == FEE && Reposts(w.log, 0) == 1
  }

  lemma {:induction false} RepostKeepsRow(w: World)
    requires SettlementOk(w) && |w.db.transfers| == 1 && w.db.transfers[0].terms.kind.Outbound?
    requires w.db.transfers[0].status.Failed?
    ensures var w' := AfterRepost(w, 0, 0);
      && |w'.db.transfers| == 1 && w'.db.transfers[0].terms == w.db.transfers[0].terms && w'.db.transfers[0].status.Submitted?
      && Reposts(w'.log, 0) == Reposts(w.log, 0) + 1
  {
    LogAppend(w.log, Reposted(0), 0);
  }

  lemma {:induction false} RepostOfRefused(w: World)
    requires Refused(w)
    ensures RepostedUnpaid(AfterRepost(w, 0, 0))
  {
    RepostKeepsInv(w, 0, 0);
    RepostKeepsRow(w);
  }

  lemma {:induction false} ThenRepost(w: World, first: seq<Event>) returns (es: seq<Event>)
    requires AllAdmissible(first)
    ensures AllAdmissible(es) && Run(w, es) == AfterRepost(Run(w, first), 0, 0)
  {
    es := first + [RepostTransfer(0, 0)];
    RunSnoc(w, first, RepostTransfer(0, 0));
  }

  lemma {:induction false} RepostAfterRefusal(w: World) returns (v: World)
    requires OneWaiting(w)
    ensures Leads(w, v) && RepostedUnpaid(v)
  {
    var first := RefusedOnce(w);
    var es := ThenRepost(w, first);
    RepostOfRefused(Run(w, first));
    v := Run(w, es);
  }

  lemma {:induction false} IncomeIsSpent(w: World)
    requires LevyOk(w, Levy.Fee) && |w.db.transfers| == 1 && w.db.transfers[0].terms.kind.Outbound?
    requires !w.db.transfers[0].status.Failed? && Reposts(w.log, 0) == 1
    ensures w.db.books.wallets[INCOME].balance == 0
  {
    var p := (w.db.transfers[0], 1);
    assert WithReposts(w) == [] + [p];
    SumAppend([], p, Earned(Levy.Fee));
    UndoneOnce(1, w.db.transfers[0].terms.fee);
  }

  lemma {:induction false} EmptyIncomeBlocks(b: Books, id: nat, t: Terms, now: int)
    requires JournalBacked(b) && NonNegative(b) && TermsOk(t, |b.wallets|) && t.kind.Outbound?
    requires b.wallets[INCOME].balance == 0
    ensures Reverse(b, id, t, now).Err?
  {
    if Reverse(b, id, t, now).Ok? {
      var legs := ReversalLegs(t.source.value, t);
      FourLegBalance(b, Some(id), now, legs, INCOME);
      PostKeepsNonNegative(b, Some(id), now, legs);
    }
  }

  /** A second Failed answer cannot be acted upon: the income wallet no longer holds the fee. */
  lemma {:induction false} SecondRefusalIsLost(w: World, attempts: nat, now: int)
    requires RepostedUnpaid(w)
    ensures AfterRunJob(w, 0, attempts, Refusing(), now, false).db == w.db
  {
    IncomeIsSpent(w);
    assert TermsOk(w.db.transfers[0].terms, |w.db.books.wallets|);
    EmptyIncomeBlocks(w.db.books, 0, w.db.transfers[0].terms, now);
  }

  ghost predicate NeverReversed(w: World) {
    forall attempts: nat, now: int :: AfterRunJob(w, 0, attempts, Refusing(), now, false).db == w.db
  }

  lemma {:induction false} NoRefusalIsKept(w: World)
    requires RepostedUnpaid(w)
    ensures NeverReversed(w)
  {
    forall attempts: nat, now: int ensures AfterRunJob(w, 0, attempts, Refusing(), now, false).db == w.db {
      SecondRefusalIsLost(w, attempts, now);
    }
  }

  /** With a repost, the income wallet can block a reversal: some run keeps a transfer Submitted whatever Failed answer comes. */
  lemma {:induction false} RepostCanBlockReversal() returns (v: World)
    ensures Reachable(v) && RepostedUnpaid(v) && NeverReversed(v)
  {
    PayIsPayment(3, 1_000_000, '1');
    var w := OnePayment(Pay(3, 1_000_000, '1'));
    v := RepostAfterRefusal(w);
    LeadsOn(Start(), w, v);
    NoRefusalIsKept(v);
  }
}
