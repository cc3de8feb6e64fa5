/** The committed database, and the ledger operations as functions from one committed state to the next. */
module Ledger {
  import opened Prelude
  import opened Rows
  import opened Books
  import opened DailyOutboundLimit
  import opened IdempotencyFingerprint
  import WatBusinessDay

  datatype IdemRow = IdemRow(hash: string, transferId: nat)

  datatype External = External(ledger: ExternalRow, settlement: ExternalRow, income: ExternalRow, vat: ExternalRow)

  datatype Db = Db(
    books: Books,
    transfers: seq<TransferRow>,
    idem: map<(string, string), IdemRow>,
    counters: Counters,
    jobs: map<nat, JobRow>,
    ext: External,
    reports: seq<ReportRow>,
    users: seq<UserRow>,
    docs: seq<DocRow>)

  /** What DbInitializer leaves behind. */
  function SeedDb(): Db {
    Db(Books(SeedWallets(), []), [], map[], map[], map[],
       External(ExternalRow(0, 1), ExternalRow(SEED_KOBO, 2), ExternalRow(0, 1), ExternalRow(0, 1)),
       [], [], [])
  }

  // ---------- Lookups ----------

  function FindAccount(wallets: seq<WalletRow>, number: string): (r: Option<nat>)
    ensures r.Some? ==> r.value < |wallets| && wallets[r.value].accountNumber == number
    ensures r.None? ==> forall i :: 0 <= i < |wallets| ==> wallets[i].accountNumber != number
    decreases |wallets|
  {
    if |wallets| == 0 then None
    else
      var n := |wallets| - 1;
      if wallets[n].accountNumber == number then Some(n) else FindAccount(wallets[..n], number)
  }

  function FindUser(users: seq<UserRow>, customer: string): (r: Option<nat>)
    ensures r.Some? ==> r.value < |users| && users[r.value].customerId == customer
    ensures r.None? ==> forall i :: 0 <= i < |users| ==> users[i].customerId != customer
    decreases |users|
  {
    if |users| == 0 then None
    else
      var n := |users| - 1;
      if users[n].customerId == customer then Some(n) else FindUser(users[..n], customer)
  }

  predicate IsVerified(users: seq<UserRow>, customer: string) {
    var u := FindUser(users, customer);
    u.Some? && users[u.value].kyc == Verified
  }

  /** char.IsWhiteSpace. */
  predicate IsWhiteSpace(c: char) {
    var k := c as int;
    || 9 <= k <= 13 || k == 32 || k == 0x85 || k == 0xA0 || k == 0x1680 || 0x2000 <= k <= 0x200A
    || k == 0x2028 || k == 0x2029 || k == 0x202F || k == 0x205F || k == 0x3000
  }

  predicate IsBlank(s: string) { forall i :: 0 <= i < |s| ==> IsWhiteSpace(s[i]) }

  // ---------- Replies ----------

  datatype TransferResult = TransferResult(
    id: nat, kind: TransferKind, status: TransferStatus, amount: int, fee: int, vat: int, total: int,
    reference: string, externalReference: Option<string>)

  function ToResult(id: nat, t: TransferRow): TransferResult {
    TransferResult(id, t.terms.kind, t.status, t.terms.amount, t.terms.fee, t.terms.vat, t.terms.total,
                   t.terms.reference, t.externalReference)
  }

  datatype Reply = Reply(db: Db, outcome: Outcome<TransferResult>)

  function Refuse(db: Db, e: Error): Reply { Reply(db, Err(e)) }

  /** TryReplayAsync. */
  function Replay(db: Db, customer: string, key: string, hash: string): Outcome<Option<TransferResult>> {
    if (customer, key) !in db.idem then Ok(None)
    else
      var found := db.idem[(customer, key)];
      if found.hash != hash then Err(PayloadMismatch)
      else if found.transferId >= |db.transfers| then Err(TransferNotFound)
      else Ok(Some(ToResult(found.transferId, db.transfers[found.transferId])))
  }

  // ---------- Recording a transfer ----------

  function InitialStatus(kind: TransferKind): TransferStatus {
    if kind.Outbound? then Submitted else Settled
  }

  /** Legs, transfer row, idempotency row and, for an outbound transfer, its settlement job, in one transaction. */
  function Record(db: Db, terms: Terms, legs: seq<Leg>): Outcome<Db> {
    var id := |db.transfers|;
    var books :- Post(db.books, Some(id), terms.createdAt, legs);
    Ok(db.(books := books,
           transfers := db.transfers + [TransferRow(terms, InitialStatus(terms.kind), None, terms.createdAt, None)],
           idem := db.idem[(terms.customerId, terms.key) := IdemRow(terms.hash, id)],
           jobs := if terms.kind.Outbound? then db.jobs[id := NewJob(terms.createdAt)] else db.jobs))
  }

  function Finish(db: Db, core: Outcome<Db>): Reply {
    if core.Ok? && |core.value.transfers| > |db.transfers|
    then Reply(core.value, Ok(ToResult(|db.transfers|, core.value.transfers[|db.transfers|])))
    else if core.Ok? then Refuse(db, TransferNotFound)
    else Refuse(db, core.error)
  }

  function ReplayOr(db: Db, customer: string, key: string, hash: string, core: Outcome<Db>): Reply {
    var replay := Replay(db, customer, key, hash);
    if replay.Err? then Refuse(db, replay.error)
    else if replay.value.Some? then Reply(db, Ok(replay.value.value))
    else Finish(db, core)
  }

  // ---------- Internal transfers ----------

  function InternalLegs(source: nat, destination: nat, amount: int): seq<Leg> {
    [Leg(source, Debit, amount, SourceLedger), Leg(destination, Credit, amount, DestinationLedger)]
  }

  function InternalRefusal(c: Command): Option<Error>
    requires c.InternalCommand?
  {
    if IsBlank(c.key) then Some(IdempotencyRequired)
    else if c.amount <= 0 then Some(AmountInvalid)
    else if c.amount > VERIFIED_LIMIT then Some(AmountTooLarge)
    else None
  }

  /** Everything after the replay check. */
  function InternalCore(db: Db, c: Command, hash: string, reference: string, now: int): Outcome<Db>
    requires c.InternalCommand?
  {
    var wallets := db.books.wallets;
    if c.source >= |wallets| then Err(SourceNotFound)
    else if wallets[c.source].customerId != c.customerId then Err(Forbidden)
    else if wallets[c.source].balance < c.amount then Err(InsufficientFunds)
    else
      var destination := FindAccount(wallets, c.destinationAccount);
      if destination.None? then Err(DestinationAccountNotFound)
      else if wallets[destination.value].kind != Customer then Err(DestinationNotCustomer)
      else if destination.value == c.source then Err(SameWallet)
      else
        var terms := Terms(c.customerId, Internal, Some(c.source), destination, c.destinationAccount, "", "",
                           c.amount, 0, 0, c.amount, c.key, hash, reference, now);
        Record(db, terms, InternalLegs(c.source, destination.value, c.amount))
  }

  // ---------- Outbound transfers ----------

  function OutboundLegs(source: nat, amount: int, fee: int, vat: int): seq<Leg> {
    [Leg(source, Debit, amount + fee + vat, SourceLedger), Leg(SETTLEMENT, Credit, amount, SettlementLeg),
     Leg(INCOME, Credit, fee, IncomeLeg), Leg(VAT, Credit, vat, VatLeg)]
  }

  function OutboundRefusal(c: Command, fee: int, vat: int): Option<Error>
    requires c.OutboundCommand?
  {
    if IsBlank(c.key) then Some(IdempotencyRequired)
    else if c.amount <= 0 then Some(AmountInvalid)
    else if IsBlank(c.destinationAccount) then Some(DestinationRequired)
    else if IsBlank(c.destinationBank) then Some(BankCodeRequired)
    else if CheckedAdd(c.amount, fee).Err? || CheckedAdd(c.amount + fee, vat).Err? then Some(Overflow)
    else None
  }

  function OutboundCore(db: Db, c: Command, fee: int, vat: int, verified: bool, hash: string, reference: string, now: int): Outcome<Db>
    requires c.OutboundCommand?
  {
    var merge := MergeCounter(db.counters, c.source, WatBusinessDay.Today(now), c.amount, LimitFor(verified));
    if merge.ArithmeticOverflow? then Err(Overflow)
    else if merge.Refused? then Err(DailyLimitExceeded)
    else AfterLimit(db, c, fee, vat, hash, reference, now, merge.counters)
  }

  /** The core once the limit has been reserved. */
  function AfterLimit(db: Db, c: Command, fee: int, vat: int, hash: string, reference: string, now: int, counters: Counters): Outcome<Db>
    requires c.OutboundCommand?
  {
    var wallets := db.books.wallets;
    if c.source >= |wallets| then Err(SourceNotFound)
    else if wallets[c.source].customerId != c.customerId then Err(Forbidden)
    else if wallets[c.source].balance < c.amount + fee + vat then Err(InsufficientFunds)
    else if fee < 0 || vat < 0 then Err(ArgumentOutOfRange)
    else
      var terms := Terms(c.customerId, Outbound, Some(c.source), None,
                         c.destinationAccount, c.destinationBank, c.destinationName,
                         c.amount, fee, vat, c.amount + fee + vat, c.key, hash, reference, now);
      Record(db.(counters := counters), terms, OutboundLegs(c.source, c.amount, fee, vat))
  }

  // ---------- Inbound transfers ----------

  function InboundLegs(destination: nat, amount: int): seq<Leg> {
    [Leg(SETTLEMENT, Debit, amount, InboundSettlement), Leg(destination, Credit, amount, InboundCustomer)]
  }

  function InboundRefusal(c: Command): Option<Error>
    requires c.InboundCommand?
  {
    if IsBlank(c.key) then Some(IdempotencyRequired)
    else if c.amount <= 0 then Some(AmountInvalid)
    else if IsBlank(c.destinationAccount) then Some(DestinationRequired)
    else None
  }

  function InboundCore(db: Db, c: Command, destination: nat, hash: string, reference: string, now: int): Outcome<Db>
    requires c.InboundCommand?
  {
    if destination >= |db.books.wallets| then Err(WalletNotFound)
    else
      var terms := Terms(db.books.wallets[destination].customerId, Inbound, None, Some(destination),
                         db.books.wallets[destination].accountNumber, c.originBank, c.originName,
                         c.amount, 0, 0, c.amount, c.key, hash, reference, now);
      Record(db, terms, InboundLegs(destination, c.amount))
  }

  // ---------- One request, whatever its kind ----------

  /** The parts of a request that do not come from the caller: the fee policy, a fresh reference and one clock reading. */
  datatype Context = Context(fee: int, vat: int, reference: string, now: int)

  /** TransferInternalAsync. */
  function TransferInternal(db: Db, c: Command, x: Context): Reply
    requires c.InternalCommand?
  {
    var refusal := InternalRefusal(c);
    var hash := Canonical(c);
    if refusal.Some? then Refuse(db, refusal.value)
    else ReplayOr(db, c.customerId, c.key, hash, InternalCore(db, c, hash, x.reference, x.now))
  }

  /** TransferOutboundAsync, one run of the core. */
  function TransferOutbound(db: Db, c: Command, x: Context): Reply
    requires c.OutboundCommand?
  {
    var refusal := OutboundRefusal(c, x.fee, x.vat);
    var hash := Canonical(c);
    if refusal.Some? then Refuse(db, refusal.value)
    else ReplayOr(db, c.customerId, c.key, hash,
                  OutboundCore(db, c, x.fee, x.vat, IsVerified(db.users, c.customerId), hash, x.reference, x.now))
  }

  /** TransferInboundAsync. */
  function TransferInbound(db: Db, c: Command, x: Context): Reply
    requires c.InboundCommand?
  {
    var refusal := InboundRefusal(c);
    var hash := Canonical(c);
    if refusal.Some? then Refuse(db, refusal.value)
    else
      var destination := FindAccount(db.books.wallets, c.destinationAccount);
      if destination.None? then Refuse(db, DestinationAccountNotFound)
      else if db.books.wallets[destination.value].kind != Customer then Refuse(db, DestinationNotCustomer)
      else ReplayOr(db, db.books.wallets[destination.value].customerId, c.key, hash,
                    InboundCore(db, c, destination.value, hash, x.reference, x.now))
  }

  function Request(db: Db, c: Command, x: Context): Reply {
    match c
    case InternalCommand(_, _, _, _, _) => TransferInternal(db, c, x)
    case OutboundCommand(_, _, _, _, _, _, _) => TransferOutbound(db, c, x)
    case InboundCommand(_, _, _, _, _, _) => TransferInbound(db, c, x)
  }

  // ---------- Money in without a transfer ----------

  function DepositLegs(wallet: nat, amount: int, name: LegName): seq<Leg> {
    [Leg(wallet, Credit, amount, name), Leg(SETTLEMENT, Debit, amount, SettlementOut)]
  }

  /** WalletService.CreditAsync. */
  function CreditDeposit(db: Db, wallet: nat, amount: int, now: int): Outcome<Db> {
    if wallet >= |db.books.wallets| then Err(WalletNotFound)
    else if db.books.wallets[wallet].kind != Customer then Err(NotCustomerWallet)
    else
      var books :- Post(db.books, None, now, DepositLegs(wallet, amount, Deposit));
      Ok(db.(books := books))
  }

  /** AdminDatabaseService.CreditCustomerAccountAsync. */
  function CreditByAdmin(db: Db, number: string, amount: int, now: int): Outcome<Db> {
    if IsBlank(number) || amount <= 0 then Err(AmountInvalid)
    else
      var wallet := FindAccount(db.books.wallets, number);
      if wallet.None? || db.books.wallets[wallet.value].kind != Customer then Err(WalletNotFound)
      else
        var books :- Post(db.books, None, now, DepositLegs(wallet.value, amount, AdminCredit));
        Ok(db.(books := books))
  }

  function FundingLegs(amount: int): seq<Leg> { [Leg(SETTLEMENT, Credit, amount, SettlementFunding)] }

  function ExternalCredit(a: ExternalRow, kobo: int): Outcome<ExternalRow> {
    var money :- CreateMoney(kobo);
    CreditExternal(a, money)
  }

  function ExternalDebit(a: ExternalRow, kobo: int): Outcome<ExternalRow> {
    var money :- CreateMoney(kobo);
    DebitExternal(a, money)
  }

  /** CreditSettlementAsync, in the wallet service and in the admin service alike. */
  function FundSettlement(db: Db, amount: int, now: int): Outcome<Db> {
    if amount <= 0 then Err(AmountInvalid)
    else
      var books :- Post(db.books, None, now, FundingLegs(amount));
      var settlement :- ExternalCredit(db.ext.settlement, amount);
      Ok(db.(books := books, ext := db.ext.(settlement := settlement)))
  }

  // ---------- Registration and KYC ----------

  function CreateWallet(db: Db, customer: string, number: string): Outcome<Db> {
    if FindAccount(db.books.wallets, number).Some? then Err(DuplicateKey)
    else Ok(db.(books := db.books.(wallets := db.books.wallets + [WalletRow(customer, number, Customer, 0, 1)])))
  }

  function CreateUser(db: Db, customer: string): Outcome<Db> {
    if FindUser(db.users, customer).Some? then Err(DuplicateKey)
    else Ok(db.(users := db.users + [UserRow(customer, KycPending)]))
  }

  function SubmitKyc(db: Db, user: nat): Db {
    if user >= |db.users| then db
    else db.(docs := db.docs + [DocRow(user, KycPending)], users := db.users[user := db.users[user].(kyc := KycPending)])
  }

  /** ApproveAsync and RejectAsync: the document and its owner get the same verdict. */
  function ReviewKyc(db: Db, user: nat, doc: nat, verdict: KycStatus): Db {
    if user >= |db.users| || doc >= |db.docs| || db.docs[doc].user != user then db
    else db.(docs := db.docs[doc := db.docs[doc].(status := verdict)],
             users := db.users[user := db.users[user].(kyc := verdict)])
  }
}
