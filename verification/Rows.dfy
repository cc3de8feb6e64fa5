/** The rows the service stores, and what each domain mutator does to a row. */
module Rows {
  import opened Prelude

  // ---------- Money and wallets ----------

  datatype Money = Money(kobo: int)

  function CreateMoney(kobo: int): (r: Outcome<Money>)
    ensures r.Ok? <==> kobo >= 0
    ensures r.Ok? ==> r.value.kobo == kobo
  {
    if kobo < 0 then Err(ArgumentOutOfRange) else Ok(Money(kobo))
  }

  datatype AccountType = Customer | Settlement | Vat | Income

  datatype WalletRow = WalletRow(customerId: string, accountNumber: string, kind: AccountType, balance: int, version: int)

  function CreditWallet(w: WalletRow, amount: Money): Outcome<WalletRow> {
    if amount.kobo <= 0 then Err(AmountInvalid)
    else
      var balance :- CheckedAdd(w.balance, amount.kobo);
      Ok(w.(balance := balance, version := w.version + 1))
  }

  function DebitWallet(w: WalletRow, amount: Money): Outcome<WalletRow> {
    if amount.kobo <= 0 then Err(AmountInvalid)
    else if w.balance < amount.kobo then Err(InsufficientFunds)
    else Ok(w.(balance := w.balance - amount.kobo, version := w.version + 1))
  }

  // ---------- External accounts ----------

  datatype ExternalRow = ExternalRow(balance: int, version: int)

  function CreditExternal(a: ExternalRow, amount: Money): Outcome<ExternalRow> {
    if amount.kobo <= 0 then Err(AmountInvalid)
    else
      var balance :- CheckedAdd(a.balance, amount.kobo);
      Ok(ExternalRow(balance, a.version + 1))
  }

  /** Unlike a wallet, an external account may be overdrawn. */
  function DebitExternal(a: ExternalRow, amount: Money): Outcome<ExternalRow> {
    if amount.kobo <= 0 then Err(AmountInvalid) else Ok(ExternalRow(a.balance - amount.kobo, a.version + 1))
  }

  // ---------- Ledger entries ----------

  datatype Direction = Debit | Credit

  datatype LegName =
    | SourceLedger | DestinationLedger
    | SettlementLeg | IncomeLeg | VatLeg
    | InboundSettlement | InboundCustomer
    | ReversalSource | ReversalSettlement | ReversalIncome | ReversalVat
    | Deposit | AdminCredit | SettlementOut | SettlementFunding

  datatype Entry = Entry(transferId: Option<nat>, wallet: nat, direction: Direction, kobo: int, leg: LegName, createdAt: int)

  function Signed(direction: Direction, kobo: int): int {
    if direction.Credit? then kobo else -kobo
  }

  // ---------- Transfers ----------

  datatype TransferKind = Internal | Outbound | Inbound
  datatype TransferStatus = Submitted | Settled | Failed | Unknown

  /** The fields of a transfer that its factory sets and nothing changes afterwards. */
  datatype Terms = Terms(
    customerId: string, kind: TransferKind, source: Option<nat>, destination: Option<nat>,
    destinationAccount: string, destinationBank: string, destinationName: string,
    amount: int, fee: int, vat: int, total: int,
    key: string, hash: string, reference: string, createdAt: int)

  datatype TransferRow = TransferRow(
    terms: Terms, status: TransferStatus, externalReference: Option<string>, updatedAt: int, reconciledAt: Option<int>)

  // ---------- Settlement jobs ----------

  datatype JobStatus = Pending | Processing | Succeeded | JobFailed | DeadLetter

  datatype JobRow = JobRow(
    status: JobStatus, attempts: nat, nextAttemptAt: int, leaseUntil: Option<int>, providerReference: Option<string>)

  const LEASE: int := 30 * 10_000_000
  const BACKOFF: int := 60 * 10_000_000
  const MAX_ATTEMPTS: int := 5
  /** DateTimeOffset.MaxValue in ticks. */
  const NEVER: int := 3_155_378_975_999_999_999

  function NewJob(now: int): JobRow {
    JobRow(Pending, 0, now, None, None)
  }

  function ClaimJob(j: JobRow, now: int): JobRow {
    j.(status := Processing, leaseUntil := Some(now + LEASE), attempts := j.attempts + 1, nextAttemptAt := now + LEASE)
  }

  function SucceedJob(j: JobRow, reference: Option<string>, now: int): JobRow {
    j.(status := Succeeded, providerReference := reference, leaseUntil := None, nextAttemptAt := now)
  }

  function FailJob(j: JobRow, now: int, deadLetter: bool): JobRow {
    j.(status := if deadLetter then DeadLetter else JobFailed,
       nextAttemptAt := if deadLetter then NEVER else now + BACKOFF, leaseUntil := None)
  }

  function RepostJob(j: JobRow, now: int): JobRow {
    j.(status := Pending, nextAttemptAt := now, attempts := 0, leaseUntil := None)
  }

  predicate IsClaimable(j: JobRow, now: int) {
    || j.status == Pending
    || (j.status == JobFailed && j.nextAttemptAt <= now)
    || (j.status == Processing && j.leaseUntil.Some? && j.leaseUntil.value < now)
  }

  // ---------- Reconciliation reports ----------

  datatype Holding = Holding(expected: int, actual: int) {
    function Discrepancy(): int { actual - expected }
  }

  datatype ReportRow = ReportRow(
    day: int, balanced: bool, totalAmount: int, totalFee: int, totalVat: int, count: nat,
    ledger: Holding, settlement: Holding, income: Holding, vat: Holding)

  // ---------- Users and KYC documents ----------

  datatype KycStatus = KycPending | Verified | Rejected
  datatype UserRow = UserRow(customerId: string, kyc: KycStatus)
  datatype DocRow = DocRow(user: nat, status: KycStatus)

  // ---------- The payment rail ----------

  datatype RailStatus = Sent | RailFailed | RailUnknown
  datatype RailAnswer = RailAnswer(status: RailStatus, reference: Option<string>)
  datatype Instruction = Instruction(
    transferId: nat, reference: string, account: string, bank: string, name: string, amount: int)

  function InstructionFor(id: nat, t: Terms): Instruction {
    Instruction(id, t.reference, t.destinationAccount, t.destinationBank, t.destinationName, t.amount)
  }
}
