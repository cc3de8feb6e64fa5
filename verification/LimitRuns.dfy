/** When the daily limit promised per customer can be broken: exactly for a customer with two wallets. */
module LimitRuns {
  import opened Prelude
  import opened Rows
  import opened Books
  import opened DailyOutboundLimit
  import opened IdempotencyFingerprint
  import opened WatBusinessDay
  import opened Ledger
  import opened Shapes
  import opened Machine
  import opened Conservation
  import opened Protocol
  import opened Requests
  import opened Invariants
  import opened Persistence
  import opened MoneyTheorems
  import opened RequestTheorems
  import opened CustomerLimits
  import opened Versions
  import opened ReportConditions
  import Scenarios

  // ---------- Runs in which the customer opens no further wallet ----------

  predicate Opens(e: Event, customer: string) { e.OpenWallet? && e.customer == customer }

  ghost predicate OpensNone(es: seq<Event>, customer: string) { forall i :: 0 <= i < |es| ==> !Opens(es[i], customer) }

  /** Some run of admissible events that open no wallet for the customer leads from w to v. */
  ghost predicate LeadsWithin(w: World, v: World, customer: string) {
    exists es: seq<Event> :: AllAdmissible(es) && OpensNone(es, customer) && v == Run(w, es)
  }

  lemma {:induction false} StaysWithin(w: World, customer: string)
    ensures LeadsWithin(w, w, customer)
  {
    assert Run(w, []) == w;
  }

  lemma {:induction false} StepWithin(w: World, v: World, e: Event, customer: string)
    requires LeadsWithin(w, v, customer) && Admissible(e) && !Opens(e, customer)
    ensures LeadsWithin(w, Step(v, e), customer)
  {
    var es: seq<Event> :| AllAdmissible(es) && OpensNone(es, customer) && v == Run(w, es);
    Scenarios.RunSnoc(w, es, e);
    assert AllAdmissible(es + [e]) && OpensNone(es + [e], customer);
  }

  lemma {:induction false} WithinIsReachable(w: World, v: World, customer: string)
    requires Reachable(w) && LeadsWithin(w, v, customer)
    ensures Reachable(v)
  {
    var es: seq<Event> :| AllAdmissible(es) && OpensNone(es, customer) && v == Run(w, es);
    LeadsOn(Start(), w, v);
  }

  ghost predicate Allowed(e: Event, customer: string) { Admissible(e) && !Opens(e, customer) }

  lemma {:induction false} TwoWithin(w: World, a: Event, b: Event, customer: string)
    requires Allowed(a, customer) && Allowed(b, customer)
    ensures LeadsWithin(w, Step(Step(w, a), b), customer)
  {
    StaysWithin(w, customer);
    StepWithin(w, w, a, customer);
    StepWithin(w, Step(w, a), b, customer);
  }

  lemma {:induction false} ThreeWithin(w: World, a: Event, b: Event, c: Event, customer: string)
    requires Allowed(a, customer) && Allowed(b, customer) && Allowed(c, customer)
    ensures LeadsWithin(w, Step(Step(Step(w, a), b), c), customer)
  {
    TwoWithin(w, a, b, customer);
    StepWithin(w, Step(Step(w, a), b), c, customer);
  }

  /** Old wallets keep their owner, and new ones belong to others. */
  ghost predicate NoneAdded(before: Wallets, after: Wallets, customer: string) {
    && |before| <= |after|
    && (forall i: nat :: i < |before| ==> after[i].customerId == before[i].customerId)
    && (forall i: nat :: |before| <= i < |after| ==> after[i].customerId != customer)
  }

  lemma {:induction false} OwnersStay(before: Wallets, after: Wallets)
    requires AccountsPersist(before, after)
    ensures forall i: nat :: i < |before| ==> after[i].customerId == before[i].customerId
  {
    assert forall i: nat :: i < |before| ==> SameIdentity(before[i], after[i]);
  }

  lemma {:induction false} NewWalletIsTheirs(w: World, e: Event, customer: string)
    requires e.OpenWallet? && e.customer != customer
    ensures forall i: nat :: |WalletsOf(w)| <= i < |WalletsOf(Step(w, e))| ==> WalletsOf(Step(w, e))[i].customerId != customer
  {
  }

  lemma {:induction false} StepAddsNone(w: World, e: Event, customer: string)
    requires Inv(w) && Admissible(e) && !Opens(e, customer)
    ensures NoneAdded(WalletsOf(w), WalletsOf(Step(w, e)), customer)
  {
    StepExtends(w, e);
    StepGrows(w, e);
    OwnersStay(WalletsOf(w), WalletsOf(Step(w, e)));
    if e.OpenWallet? { NewWalletIsTheirs(w, e, customer); }
  }

  lemma {:induction false} RunAddsNone(w: World, es: seq<Event>, customer: string)
    requires Inv(w) && AllAdmissible(es) && OpensNone(es, customer)
    ensures NoneAdded(WalletsOf(w), WalletsOf(Run(w, es)), customer)
    decreases |es|
  {
    if |es| > 0 {
      var front := es[..|es| - 1];
      RunAddsNone(w, front, customer);
      RunKeepsInv(w, front);
      StepAddsNone(Run(w, front), es[|es| - 1], customer);
    }
  }

  lemma {:induction false} OwnedUpTo(a: Db, b: Db, customer: string, n: nat)
    requires NoneAdded(a.books.wallets, b.books.wallets, customer) && n <= |b.books.wallets|
    ensures OwnedWallets(b, customer, n) == OwnedWallets(a, customer, if n <= |a.books.wallets| then n else |a.books.wallets|)
    decreases n
  {
    if n > 0 { OwnedUpTo(a, b, customer, n - 1); }
  }

  /** How many wallets a customer owns. */
  function Owned(db: Db, customer: string): nat { OwnedWallets(db, customer, |db.books.wallets|) }

  lemma {:induction false} OwnedStays(w: World, v: World, customer: string)
    requires Inv(w) && LeadsWithin(w, v, customer)
    ensures Owned(v.db, customer) == Owned(w.db, customer) && Leads(w, v)
  {
    var es: seq<Event> :| AllAdmissible(es) && OpensNone(es, customer) && v == Run(w, es);
    RunAddsNone(w, es, customer);
    OwnedUpTo(w.db, v.db, customer, |v.db.books.wallets|);
  }

  lemma {:induction false} TwoOfThem(db: Db, customer: string, n: nat) returns (i: nat, j: nat)
    requires n <= |db.books.wallets| && OwnedWallets(db, customer, n) >= 2
    ensures i < j < n && db.books.wallets[i].customerId == customer && db.books.wallets[j].customerId == customer
    decreases n
  {
    if db.books.wallets[n - 1].customerId == customer {
      j := n - 1;
      i := OneOfThem(db, customer, n - 1);
    } else {
      i, j := TwoOfThem(db, customer, n - 1);
    }
  }

  lemma {:induction false} OneOfThem(db: Db, customer: string, n: nat) returns (i: nat)
    requires n <= |db.books.wallets| && OwnedWallets(db, customer, n) >= 1
    ensures i < n && db.books.wallets[i].customerId == customer
    decreases n
  {
    if db.books.wallets[n - 1].customerId == customer {
      i := n - 1;
    } else {
      i := OneOfThem(db, customer, n - 1);
    }
  }

  // ---------- She is verified ----------

  lemma {:induction false} FindUserStays(users: seq<UserRow>, users': seq<UserRow>, customer: string)
    requires |users| == |users'| && forall i :: 0 <= i < |users| ==> users'[i].customerId == users[i].customerId
    ensures FindUser(users', customer) == FindUser(users, customer)
    decreases |users|
  {
    if |users| > 0 { FindUserStays(users[..|users| - 1], users'[..|users| - 1], customer); }
  }

  lemma {:induction false} RegisteredAtLast(db: Db, customer: string)
    ensures FindUser(Commit(db, CreateUser(db, customer)).users, customer).Some?
  {
  }

  /** Submitting a document and having it approved verifies a registered customer. */
  lemma {:induction false} ApprovalVerifies(db: Db, customer: string, user: nat)
    requires FindUser(db.users, customer) == Some(user)
    ensures IsVerified(ReviewKyc(SubmitKyc(db, user), user, |db.docs|, Verified).users, customer)
  {
    FindUserStays(db.users, ReviewKyc(SubmitKyc(db, user), user, |db.docs|, Verified).users, customer);
  }

  ghost predicate SameMoney(db: Db, db': Db) {
    db' == db.(users := db'.users, docs := db'.docs)
  }

  lemma {:induction false} RegisterEffect(w: World, customer: string)
    requires Inv(w)
    ensures var v := Step(w, Register(customer)); Inv(v) && SameMoney(w.db, v.db) && FindUser(v.db.users, customer).Some?
  {
    RegisteredAtLast(w.db, customer);
    RegisterKeepsInv(w, customer);
    assert Step(w, Register(customer)) == w.(db := Commit(w.db, CreateUser(w.db, customer)));
  }

  lemma {:induction false} ApprovalEffect(w: World, customer: string, user: nat)
    requires Inv(w) && FindUser(w.db.users, customer) == Some(user)
    ensures var v := Step(Step(w, Submit(user)), Review(user, |w.db.docs|, true));
      Inv(v) && SameMoney(w.db, v.db) && IsVerified(v.db.users, customer)
  {
    var submitted := w.(db := SubmitKyc(w.db, user));
    assert Step(w, Submit(user)) == submitted;
    var v := submitted.(db := ReviewKyc(submitted.db, user, |w.db.docs|, Verified));
    assert Step(submitted, Review(user, |w.db.docs|, true)) == v;
    ApprovalVerifies(w.db, customer, user);
    SubmitKeepsInv(w, user);
    ReviewKeepsInv(submitted, user, |w.db.docs|, Verified);
  }

  lemma {:induction false} Approved(w: World, customer: string) returns (v: World)
    requires Reachable(w)
    ensures LeadsWithin(w, v, customer) && SameMoney(w.db, v.db) && IsVerified(v.db.users, customer)
  {
    ReachableHasInv(w);
    RegisterEffect(w, customer);
    var registered := Step(w, Register(customer));
    var user := FindUser(registered.db.users, customer).value;
    ApprovalEffect(registered, customer, user);
    v := ApprovedWorld(registered, user);
    ThreeWithin(w, Register(customer), Submit(user), Review(user, |registered.db.docs|, true), customer);
  }

  ghost function ApprovedWorld(w: World, user: nat): World {
    Step(Step(w, Submit(user)), Review(user, |w.db.docs|, true))
  }

  // ---------- She has the money ----------

  /** What two payments of the limit and of one kobo need, with charges of one kobo each. */
  const NEEDED: int := VERIFIED_LIMIT + 5

  /** Settlement wallet and holding have room for a funding. */
  ghost predicate HasRoom(db: Db) {
    TotalBalance(db.books) + NEEDED <= INT64_MAX && db.ext.settlement.balance + NEEDED <= INT64_MAX
  }

  /** Only the books (and the settlement holding) changed, and no wallet lost its owner or was added. */
  ghost predicate SameButBooks(db: Db, db': Db) {
    && db' == db.(books := db'.books, ext := db'.ext) && |db'.books.wallets| == |db.books.wallets|
    && forall i: nat :: i < |db.books.wallets| ==> SameIdentity(db.books.wallets[i], db'.books.wallets[i])
  }

  ghost predicate Balance(db: Db, wallet: nat, amount: int) {
    wallet < |db.books.wallets| && db.books.wallets[wallet].balance >= amount
  }

  lemma {:induction false} FundingBooks(b: Books, amount: int)
    requires Post(b, None, 0, FundingLegs(amount)).Ok? && NonNegative(b)
    ensures var b' := Post(b, None, 0, FundingLegs(amount)).value;
      && |b'.wallets| == |b.wallets| && TotalBalance(b') == TotalBalance(b) + amount
      && b'.wallets[SETTLEMENT].balance >= amount
      && forall i: nat :: i < |b.wallets| ==> SameIdentity(b.wallets[i], b'.wallets[i])
  {
    var legs := FundingLegs(amount);
    PostEffect(b, None, 0, legs);
    PostTotal(b, None, 0, legs);
    PostFirst(b, None, 0, legs[0], []);
    assert legs == [legs[0]] + [] && legs[1..] == [];
  }

  lemma {:induction false} Funding(w: World)
    requires Inv(w) && HasRoom(w.db) && w.db.ext.settlement.balance >= INT64_MIN
    ensures var v := AfterFunding(w);
      Inv(v) && TotalFits(v.db.books) && SameButBooks(w.db, v.db) && Balance(v.db, SETTLEMENT, NEEDED)
  {
    SettlementInTotal(w.db.books);
    FundingSucceedsIff(w, NEEDED, 0);
    FundKeepsInv(w, NEEDED, 0);
    FundingEffect(w.db);
  }

  ghost function AfterFunding(w: World): World { w.(db := Commit(w.db, FundSettlement(w.db, NEEDED, 0))) }

  lemma {:induction false} FundingEffect(db: Db)
    requires NonNegative(db.books) && HasRoom(db) && FundSettlement(db, NEEDED, 0).Ok?
    ensures var db' := FundSettlement(db, NEEDED, 0).value;
      TotalFits(db'.books) && SameButBooks(db, db') && Balance(db', SETTLEMENT, NEEDED)
  {
    FundingBooks(db.books, NEEDED);
  }

  lemma {:induction false} SettlementInTotal(b: Books)
    requires NonNegative(b)
    ensures b.wallets[SETTLEMENT].balance <= TotalBalance(b)
  {
    assert forall k :: 0 <= k < |Balances(b)| ==> Id()(Balances(b)[k]) == b.wallets[k].balance;
    SumAtLeast(Balances(b), Id(), SETTLEMENT);
  }

  lemma {:induction false} Paying(w: World, wallet: nat, amount: int)
    requires Inv(w) && TotalFits(w.db.books) && 3 <= wallet < |w.db.books.wallets| && amount > 0
    requires Balance(w.db, SETTLEMENT, amount)
    ensures var v := Deposited(w, wallet, amount);
      && Scenarios.Deposited(w, v, wallet, amount) && Inv(v) && TotalFits(v.db.books)
      && SameButBooks(w.db, v.db) && Balance(v.db, wallet, amount)
  {
    Scenarios.DepositKeeps(w, wallet, amount);
  }

  /** Her two wallets hold what the two payments need. */
  ghost predicate Provided(db: Db, i: nat, j: nat) {
    3 <= i && 3 <= j && i != j && TotalFits(db.books) && Balance(db, i, VERIFIED_LIMIT + 2) && Balance(db, j, 3)
  }

  ghost function Deposited(w: World, wallet: nat, amount: int): World { Step(w, DepositMoney(wallet, amount, 0)) }

  lemma {:induction false} BothProvided(a: Db, b: Db, c: Db, i: nat, j: nat)
    requires SameButBooks(a, b) && SameButBooks(b, c) && 3 <= i && 3 <= j && i != j
    requires Balance(b, i, VERIFIED_LIMIT + 2) && Balance(c, j, 3) && TotalFits(c.books)
    requires i < |b.books.wallets| && c.books.wallets[i].balance == b.books.wallets[i].balance
    ensures SameButBooks(a, c) && Provided(c, i, j)
  {
    SameButBooksOn(a, b, c);
  }

  lemma {:induction false} Deposits(w: World, i: nat, j: nat)
    requires Inv(w) && TotalFits(w.db.books) && 3 <= i < |w.db.books.wallets| && 3 <= j < |w.db.books.wallets| && i != j
    requires Balance(w.db, SETTLEMENT, NEEDED)
    ensures var v := Deposited(Deposited(w, i, VERIFIED_LIMIT + 2), j, 3); Inv(v) && SameButBooks(w.db, v.db) && Provided(v.db, i, j)
  {
    var half := Deposited(w, i, VERIFIED_LIMIT + 2);
    Paying(w, i, VERIFIED_LIMIT + 2);
    Paying(half, j, 3);
    BothProvided(w.db, half.db, Deposited(half, j, 3).db, i, j);
  }

  lemma {:induction false} Supplied(w: World, customer: string, i: nat, j: nat) returns (v: World)
    requires Reachable(w) && HasRoom(w.db) && 3 <= i < |w.db.books.wallets| && 3 <= j < |w.db.books.wallets| && i != j
    ensures LeadsWithin(w, v, customer) && SameButBooks(w.db, v.db) && Provided(v.db, i, j)
  {
    ReachableHasInv(w);
    HoldingsStayNonNegative(w);
    Funding(w);
    Deposits(AfterFunding(w), i, j);
    v := Deposited(Deposited(AfterFunding(w), i, VERIFIED_LIMIT + 2), j, 3);
    SameButBooksOn(w.db, AfterFunding(w).db, v.db);
    SuppliedWithin(w, customer, i, j);
  }

  lemma {:induction false} SuppliedWithin(w: World, customer: string, i: nat, j: nat)
    ensures LeadsWithin(w, Deposited(Deposited(AfterFunding(w), i, VERIFIED_LIMIT + 2), j, 3), customer)
  {
    assert Step(w, Fund(NEEDED, 0)) == AfterFunding(w);
    ThreeWithin(w, Fund(NEEDED, 0), DepositMoney(i, VERIFIED_LIMIT + 2, 0), DepositMoney(j, 3, 0), customer);
  }

  lemma {:induction false} SameButBooksOn(a: Db, b: Db, c: Db)
    requires SameButBooks(a, b) && SameButBooks(b, c)
    ensures SameButBooks(a, c)
  {
    forall k: nat | k < |a.books.wallets| ensures SameIdentity(a.books.wallets[k], c.books.wallets[k]) {
      assert SameIdentity(a.books.wallets[k], b.books.wallets[k]) && SameIdentity(b.books.wallets[k], c.books.wallets[k]);
    }
  }

  // ---------- A fresh day and fresh keys ----------

  /** A day later than that of every transfer. */
  function LaterDay(transfers: seq<TransferRow>): int
    decreases |transfers|
  {
    if |transfers| == 0 then 0
    else
      var rest, own := LaterDay(transfers[1..]), Today(transfers[0].terms.createdAt) + 1;
      if rest > own then rest else own
  }

  lemma {:induction false} NothingOnLaterDay(transfers: seq<TransferRow>)
    ensures forall i :: 0 <= i < |transfers| ==> Today(transfers[i].terms.createdAt) < LaterDay(transfers)
    decreases |transfers|
  {
    if |transfers| > 0 { NothingOnLaterDay(transfers[1..]); }
  }

  /** A length longer than that of every key. */
  function LongerKey(transfers: seq<TransferRow>): nat
    decreases |transfers|
  {
    if |transfers| == 0 then 1
    else
      var rest, own := LongerKey(transfers[1..]), |transfers[0].terms.key| + 1;
      if rest > own then rest else own
  }

  lemma {:induction false} KeysAreShorter(transfers: seq<TransferRow>)
    ensures LongerKey(transfers) >= 1
    ensures forall i :: 0 <= i < |transfers| ==> |transfers[i].terms.key| < LongerKey(transfers)
    decreases |transfers|
  {
    if |transfers| > 0 { KeysAreShorter(transfers[1..]); }
  }

  function Ones(n: nat): string { seq(n, k => '1') }

  lemma {:induction false} OnesDiffer(n: nat)
    requires n >= 1
    ensures !IsBlank(Ones(n)) && |Ones(n)| == n && Ones(n) != Ones(n + 1)
  {
    assert !IsWhiteSpace(Ones(n)[0]);
    assert |Ones(n)| != |Ones(n + 1)|;
  }

  /** No counter of that day has started and the two keys are new. */
  ghost predicate FreshFor(db: Db, customer: string, day: int, a: string, b: string) {
    && (forall i: nat :: CounterOf(db.counters, i, day) == 0) && a != b && !IsBlank(a) && !IsBlank(b)
    && (customer, a) !in db.idem && (customer, b) !in db.idem
  }

  function FirstKey(w: World): string { Ones(LongerKey(w.db.transfers)) }

  function SecondKey(w: World): string { Ones(LongerKey(w.db.transfers) + 1) }

  lemma {:induction false} FreshDay(w: World, customer: string)
    requires CountersOk(w) && IdemOk(w.db)
    ensures FreshFor(w.db, customer, LaterDay(w.db.transfers), FirstKey(w), SecondKey(w))
  {
    var day := LaterDay(w.db.transfers);
    NothingOnLaterDay(w.db.transfers);
    KeysAreShorter(w.db.transfers);
    OnesDiffer(LongerKey(w.db.transfers));
    OnesDiffer(LongerKey(w.db.transfers) + 1);
    forall i: nat ensures CounterOf(w.db.counters, i, day) == 0 {
      assert CounterOk(w, i, day);
      SumSame(w.db.transfers, ReservedBy(i, day), t => 0);
      SumOfZeros(w.db.transfers);
    }
  }

  // ---------- One payment ----------

  function Sending(customer: string, wallet: nat, amount: int, key: string): Command {
    OutboundCommand(customer, wallet, "0", "0", "", amount, key)
  }

  function At(day: int): Context { Context(1, 1, "", StartOfWatDayUtc(day)) }

  lemma {:induction false} SendingIsValid(db: Db, customer: string, wallet: nat, amount: int, key: string, day: int)
    requires customer != "SYSTEM" && 0 < amount <= VERIFIED_LIMIT && !IsBlank(key)
    ensures var c, x := Sending(customer, wallet, amount, key), At(day);
      ReachesReplay(db, c, x) && Admissible(Ask(c, x)) && Today(x.now) == day
  {
    WindowsPartitionTime(StartOfWatDayUtc(day), day);
    assert !IsWhiteSpace("0"[0]);
  }

  ghost function AfterSending(w: World, customer: string, wallet: nat, amount: int, key: string, day: int): World {
    AfterAsk(w, Sending(customer, wallet, amount, key), At(day))
  }

  /** The guards of a payment by a Verified customer. */
  ghost predicate CanSend(db: Db, customer: string, wallet: nat, amount: int, key: string, day: int) {
    && customer != "SYSTEM" && 0 < amount <= VERIFIED_LIMIT && !IsBlank(key) && 3 <= wallet < |db.books.wallets|
    && db.books.wallets[wallet].customerId == customer && IsVerified(db.users, customer) && (customer, key) !in db.idem
    && CounterOf(db.counters, wallet, day) + amount <= VERIFIED_LIMIT && CounterOf(db.counters, wallet, day) >= 0
    && TotalFits(db.books) && Balance(db, wallet, amount + 2)
  }

  lemma {:induction false} SendingCommits(w: World, customer: string, wallet: nat, amount: int, key: string, day: int)
    requires Inv(w) && CanSend(w.db, customer, wallet, amount, key, day)
    ensures var v := AfterSending(w, customer, wallet, amount, key, day);
      |v.db.transfers| > |w.db.transfers| && Inv(v)
  {
    SendingIsValid(w.db, customer, wallet, amount, key, day);
    TotalLeavesRoom(w.db.books, wallet, amount, 1, 1);
    OutboundCommitsIff(w, Sending(customer, wallet, amount, key), At(day));
    AskKeepsInv(w, Sending(customer, wallet, amount, key), At(day));
  }

  /** What a committed payment leaves for the next one. */
  ghost predicate Sent(db: Db, db': Db, customer: string, wallet: nat, amount: int, key: string, day: int) {
    && db'.users == db.users && TotalFits(db'.books) && |db'.books.wallets| == |db.books.wallets|
    && (forall k :: k in db'.idem ==> k in db.idem || k == (customer, key))
    && (forall i: nat :: i < |db.books.wallets| ==> SameIdentity(db.books.wallets[i], db'.books.wallets[i]))
    && (forall i: nat :: i < |db.books.wallets| && i >= 3 && i != wallet ==> db'.books.wallets[i].balance == db.books.wallets[i].balance)
    && (forall i: nat :: i != wallet ==> CounterOf(db'.counters, i, day) == CounterOf(db.counters, i, day))
    && Sum(db'.transfers, SentBy(customer, day)) == Sum(db.transfers, SentBy(customer, day)) + amount
  }

  lemma {:induction false} SendingRecords(w: World, customer: string, wallet: nat, amount: int, key: string, day: int)
    requires Inv(w) && CanSend(w.db, customer, wallet, amount, key, day)
    ensures var db' := AfterSending(w, customer, wallet, amount, key, day).db;
      && db'.users == w.db.users && TotalFits(db'.books) && |db'.books.wallets| == |w.db.books.wallets|
      && (forall k :: k in db'.idem ==> k in w.db.idem || k == (customer, key))
  {
    var c, x := Sending(customer, wallet, amount, key), At(day);
    SendingIsValid(w.db, customer, wallet, amount, key, day);
    SendingCommits(w, customer, wallet, amount, key, day);
    var t := RequestShape(w.db, c, x);
    Scenarios.RecordedTotal(w.db, AfterAsk(w, c, x).db, t);
    RecordedKeys(w.db, AfterAsk(w, c, x).db, t);
  }

  lemma {:induction false} RecordedKeys(db: Db, db': Db, t: Terms)
    requires Records(db, db', t)
    ensures db'.users == db.users && forall k :: k in db'.idem ==> k in db.idem || k == (t.customerId, t.key)
  {
  }

  lemma {:induction false} RequestBalances(w: World, c: Command, x: Context, i: nat)
    requires WalletsOk(w.db.books.wallets) && JournalBacked(w.db.books) && Admissible(Ask(c, x)) && c.OutboundCommand?
    requires AfterAsk(w, c, x).db != w.db && i < |w.db.books.wallets|
    ensures var after := AfterAsk(w, c, x).db.books.wallets;
      && i < |after| && SameIdentity(w.db.books.wallets[i], after[i])
      && (i >= 3 && i != c.source ==> after[i].balance == w.db.books.wallets[i].balance)
  {
    CommittedRequestMovesMoney(w, c, x, i);
  }

  lemma {:induction false} SendingBalances(w: World, customer: string, wallet: nat, amount: int, key: string, day: int, i: nat)
    requires Inv(w) && CanSend(w.db, customer, wallet, amount, key, day) && i < |w.db.books.wallets|
    ensures var after := AfterSending(w, customer, wallet, amount, key, day).db.books.wallets;
      && i < |after| && SameIdentity(w.db.books.wallets[i], after[i])
      && (i >= 3 && i != wallet ==> after[i].balance == w.db.books.wallets[i].balance)
  {
    SendingIsValid(w.db, customer, wallet, amount, key, day);
    SendingCommits(w, customer, wallet, amount, key, day);
    RequestBalances(w, Sending(customer, wallet, amount, key), At(day), i);
  }

  lemma {:induction false} SendingCounters(w: World, customer: string, wallet: nat, amount: int, key: string, day: int, i: nat)
    requires Inv(w) && CanSend(w.db, customer, wallet, amount, key, day) && i != wallet
    ensures CounterOf(AfterSending(w, customer, wallet, amount, key, day).db.counters, i, day) == CounterOf(w.db.counters, i, day)
  {
    SendingIsValid(w.db, customer, wallet, amount, key, day);
    RequestMovesCounter(w, Sending(customer, wallet, amount, key), At(day), i, day);
  }

  lemma {:induction false} SendingAdds(w: World, customer: string, wallet: nat, amount: int, key: string, day: int)
    requires Inv(w) && CanSend(w.db, customer, wallet, amount, key, day)
    ensures Sum(AfterSending(w, customer, wallet, amount, key, day).db.transfers, SentBy(customer, day))
         == Sum(w.db.transfers, SentBy(customer, day)) + amount
  {
    SendingIsValid(w.db, customer, wallet, amount, key, day);
    SendingCommits(w, customer, wallet, amount, key, day);
    RequestAddsToDay(w, Sending(customer, wallet, amount, key), At(day));
  }

  lemma {:induction false} SendingMoves(w: World, customer: string, wallet: nat, amount: int, key: string, day: int)
    requires Inv(w) && CanSend(w.db, customer, wallet, amount, key, day)
    ensures Sent(w.db, AfterSending(w, customer, wallet, amount, key, day).db, customer, wallet, amount, key, day)
  {
    SendingRecords(w, customer, wallet, amount, key, day);
    SendingAdds(w, customer, wallet, amount, key, day);
    forall i: nat | i < |w.db.books.wallets|
      ensures SameIdentity(w.db.books.wallets[i], AfterSending(w, customer, wallet, amount, key, day).db.books.wallets[i])
      ensures i >= 3 && i != wallet ==>
        AfterSending(w, customer, wallet, amount, key, day).db.books.wallets[i].balance == w.db.books.wallets[i].balance
    {
      SendingBalances(w, customer, wallet, amount, key, day, i);
    }
    forall i: nat | i != wallet
      ensures CounterOf(AfterSending(w, customer, wallet, amount, key, day).db.counters, i, day) == CounterOf(w.db.counters, i, day)
    {
      SendingCounters(w, customer, wallet, amount, key, day, i);
    }
  }

  // ---------- Two payments ----------

  /** Everything two payments on that day need. */
  ghost predicate Prepared(db: Db, customer: string, i: nat, j: nat, day: int, a: string, b: string) {
    && customer != "SYSTEM" && Provided(db, i, j) && FreshFor(db, customer, day, a, b) && IsVerified(db.users, customer)
    && db.books.wallets[i].customerId == customer && db.books.wallets[j].customerId == customer
  }

  lemma {:induction false} SecondCanSend(db: Db, db': Db, customer: string, i: nat, j: nat, day: int, a: string, b: string)
    requires Prepared(db, customer, i, j, day, a, b) && Sent(db, db', customer, i, VERIFIED_LIMIT, a, day)
    ensures CanSend(db', customer, j, 1, b, day)
  {
    assert SameIdentity(db.books.wallets[j], db'.books.wallets[j]);
  }

  lemma {:induction false} FirstCanSend(db: Db, customer: string, i: nat, j: nat, day: int, a: string, b: string)
    requires Prepared(db, customer, i, j, day, a, b)
    ensures CanSend(db, customer, i, VERIFIED_LIMIT, a, day)
  {
  }

  /** The world after both payments. */
  ghost function AfterBoth(w: World, customer: string, i: nat, j: nat, day: int, a: string, b: string): World {
    AfterSending(AfterSending(w, customer, i, VERIFIED_LIMIT, a, day), customer, j, 1, b, day)
  }

  lemma {:induction false} BothWithin(w: World, customer: string, i: nat, j: nat, day: int, a: string, b: string)
    requires customer != "SYSTEM" && !IsBlank(a) && !IsBlank(b)
    ensures LeadsWithin(w, AfterBoth(w, customer, i, j, day, a, b), customer)
  {
    SendingIsValid(w.db, customer, i, VERIFIED_LIMIT, a, day);
    SendingIsValid(w.db, customer, j, 1, b, day);
    TwoWithin(w, Ask(Sending(customer, i, VERIFIED_LIMIT, a), At(day)), Ask(Sending(customer, j, 1, b), At(day)), customer);
  }

  lemma {:induction false} FirstSent(w: World, customer: string, i: nat, j: nat, day: int, a: string, b: string)
    requires Inv(w) && Prepared(w.db, customer, i, j, day, a, b)
    ensures CanSend(AfterSending(w, customer, i, VERIFIED_LIMIT, a, day).db, customer, j, 1, b, day)
    ensures Sum(AfterSending(w, customer, i, VERIFIED_LIMIT, a, day).db.transfers, SentBy(customer, day))
         == Sum(w.db.transfers, SentBy(customer, day)) + VERIFIED_LIMIT
  {
    FirstCanSend(w.db, customer, i, j, day, a, b);
    SendingMoves(w, customer, i, VERIFIED_LIMIT, a, day);
    SecondCanSend(w.db, AfterSending(w, customer, i, VERIFIED_LIMIT, a, day).db, customer, i, j, day, a, b);
  }

  lemma {:induction false} FirstKeepsInv(w: World, customer: string, i: nat, j: nat, day: int, a: string, b: string)
    requires Inv(w) && Prepared(w.db, customer, i, j, day, a, b)
    ensures Inv(AfterSending(w, customer, i, VERIFIED_LIMIT, a, day))
  {
    FirstCanSend(w.db, customer, i, j, day, a, b);
    SendingCommits(w, customer, i, VERIFIED_LIMIT, a, day);
  }

  lemma {:induction false} SecondSent(u: World, customer: string, j: nat, day: int, b: string, before: int)
    requires Inv(u) && CanSend(u.db, customer, j, 1, b, day) && Sum(u.db.transfers, SentBy(customer, day)) == before + VERIFIED_LIMIT
    ensures Sum(AfterSending(u, customer, j, 1, b, day).db.transfers, SentBy(customer, day)) == before + VERIFIED_LIMIT + 1
  {
    SendingAdds(u, customer, j, 1, b, day);
  }

  lemma {:induction false} BothSent(w: World, customer: string, i: nat, j: nat, day: int, a: string, b: string)
    requires Inv(w) && Prepared(w.db, customer, i, j, day, a, b)
    ensures Sum(AfterBoth(w, customer, i, j, day, a, b).db.transfers, SentBy(customer, day))
         == Sum(w.db.transfers, SentBy(customer, day)) + VERIFIED_LIMIT + 1
  {
    FirstSent(w, customer, i, j, day, a, b);
    FirstKeepsInv(w, customer, i, j, day, a, b);
    SecondSent(AfterSending(w, customer, i, VERIFIED_LIMIT, a, day), customer, j, day, b, Sum(w.db.transfers, SentBy(customer, day)));
  }

  lemma {:induction false} WithinOn(u: World, v: World, w: World, customer: string)
    requires LeadsWithin(u, v, customer) && LeadsWithin(v, w, customer)
    ensures LeadsWithin(u, w, customer)
  {
    var a: seq<Event> :| AllAdmissible(a) && OpensNone(a, customer) && v == Run(u, a);
    var b: seq<Event> :| AllAdmissible(b) && OpensNone(b, customer) && w == Run(v, b);
    RunConcat(u, a, b);
    assert AllAdmissible(a + b) && OpensNone(a + b, customer);
  }

  lemma {:induction false} PreparedFrom(w: World, a: World, b: World, customer: string, i: nat, j: nat)
    requires CountersOk(w) && IdemOk(w.db) && customer != "SYSTEM" && SameMoney(w.db, a.db) && IsVerified(a.db.users, customer)
    requires SameButBooks(a.db, b.db) && Provided(b.db, i, j)
    requires w.db.books.wallets[i].customerId == customer && w.db.books.wallets[j].customerId == customer
    ensures Prepared(b.db, customer, i, j, LaterDay(w.db.transfers), FirstKey(w), SecondKey(w))
  {
    FreshDay(w, customer);
    assert SameIdentity(a.db.books.wallets[i], b.db.books.wallets[i]) && SameIdentity(a.db.books.wallets[j], b.db.books.wallets[j]);
  }

  lemma {:induction false} NothingSentYet(w: World, customer: string)
    ensures Sum(w.db.transfers, SentBy(customer, LaterDay(w.db.transfers))) == 0
  {
    NothingOnLaterDay(w.db.transfers);
    SumSame(w.db.transfers, SentBy(customer, LaterDay(w.db.transfers)), t => 0);
    SumOfZeros(w.db.transfers);
  }

  // ---------- Main result ----------

  /** More than the verified limit in a day, or more than the unverified one with no Verified verdict behind a latest reservation. */
  ghost predicate BreaksLimit(w: World, customer: string, day: int) {
    Sum(w.db.transfers, SentBy(customer, day)) > LimitFor(LastVerified(w, customer, day))
  }

  lemma {:induction false} OwnersAreCustomers(wallets: Wallets, customer: string, i: nat)
    requires WalletsOk(wallets) && customer != "SYSTEM" && i < |wallets| && wallets[i].customerId == customer
    ensures i >= 3
  {
  }

  lemma {:induction false} PreparedWorld(w: World, customer: string) returns (b: World, i: nat, j: nat)
    requires Reachable(w) && customer != "SYSTEM" && HasRoom(w.db) && Owned(w.db, customer) >= 2
    ensures LeadsWithin(w, b, customer) && Prepared(b.db, customer, i, j, LaterDay(w.db.transfers), FirstKey(w), SecondKey(w))
    ensures b.db.transfers == w.db.transfers
  {
    i, j := TwoOfThem(w.db, customer, |w.db.books.wallets|);
    ReachableHasInv(w);
    OwnersAreCustomers(w.db.books.wallets, customer, i);
    OwnersAreCustomers(w.db.books.wallets, customer, j);
    var a := Approved(w, customer);
    WithinIsReachable(w, a, customer);
    b := Supplied(a, customer, i, j);
    PreparedFrom(w, a, b, customer, i, j);
    WithinOn(w, a, b, customer);
  }

  lemma {:induction false} SentFrom(w: World, u: World, customer: string, i: nat, j: nat, day: int, a: string, b: string)
    returns (v: World)
    requires LeadsWithin(w, u, customer) && Reachable(u) && Prepared(u.db, customer, i, j, day, a, b)
    ensures LeadsWithin(w, v, customer)
    ensures Sum(v.db.transfers, SentBy(customer, day)) == Sum(u.db.transfers, SentBy(customer, day)) + VERIFIED_LIMIT + 1
  {
    ReachableHasInv(u);
    BothSent(u, customer, i, j, day, a, b);
    BothWithin(u, customer, i, j, day, a, b);
    v := AfterBoth(u, customer, i, j, day, a, b);
    WithinOn(w, u, v, customer);
  }

  lemma {:induction false} TwoWalletsBreakIt(w: World, customer: string) returns (v: World, day: int)
    requires Reachable(w) && customer != "SYSTEM" && HasRoom(w.db) && Owned(w.db, customer) >= 2
    ensures LeadsWithin(w, v, customer) && Sum(v.db.transfers, SentBy(customer, day)) > VERIFIED_LIMIT
  {
    var b, i, j := PreparedWorld(w, customer);
    day := LaterDay(w.db.transfers);
    NothingSentYet(w, customer);
    WithinIsReachable(w, b, customer);
    v := SentFrom(w, b, customer, i, j, day, FirstKey(w), SecondKey(w));
  }

  /** Some continuation in which she opens no further wallet breaks the limit promised per customer. */
  ghost predicate CanBreakLimit(w: World, customer: string) {
    exists v: World, day: int :: LeadsWithin(w, v, customer) && BreaksLimit(v, customer, day)
  }

  /** With room for a funding, the limit per customer can be broken exactly for a customer with two wallets. */
  lemma {:induction false} BreakableIffTwoWallets(w: World, customer: string)
    requires Reachable(w) && customer != "SYSTEM" && HasRoom(w.db)
    ensures CanBreakLimit(w, customer) <==> Owned(w.db, customer) >= 2
  {
    ReachableHasInv(w);
    if Owned(w.db, customer) >= 2 {
      var v, day := TwoWalletsBreakIt(w, customer);
      assert BreaksLimit(v, customer, day);
    } else if CanBreakLimit(w, customer) {
      var v: World, day: int :| LeadsWithin(w, v, customer) && BreaksLimit(v, customer, day);
      OwnedStays(w, v, customer);
      LeadsOn(Start(), w, v);
      OneWalletOneLimit(v, customer, day);
    }
  }
}
