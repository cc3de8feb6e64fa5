/** The mutable domain objects. Each is loaded from a row, changed in place, and its row is written back when a transaction commits. */
module Entities {
  import opened Prelude
  import opened Rows
  import opened Ledger
  import opened Reconciliation

  /** What an operation that may throw leaves behind: the new row, or the error and the old row. */
  ghost predicate Becomes<T>(before: T, after: T, spec: Outcome<T>, thrown: Option<Error>) {
    match spec
    case Ok(row) => thrown.None? && after == row
    case Err(e) => thrown == Some(e) && after == before
  }

  class Wallet {
    const customerId: string
    const accountNumber: string
    const kind: AccountType
    var balance: int
    var version: int

    constructor (row: WalletRow)
      ensures Row() == row
    {
      customerId, accountNumber, kind := row.customerId, row.accountNumber, row.kind;
      balance, version := row.balance, row.version;
    }

    function Row(): WalletRow
      reads this
    {
      WalletRow(customerId, accountNumber, kind, balance, version)
    }

    method Credit(amount: Money) returns (thrown: Option<Error>)
      modifies this
      ensures Becomes(old(Row()), Row(), CreditWallet(old(Row()), amount), thrown)
      ensures thrown.None? <==> amount.kobo > 0 && INT64_MIN <= old(balance) + amount.kobo <= INT64_MAX
      ensures thrown.None? ==> balance == old(balance) + amount.kobo && version == old(version) + 1
    {
      if amount.kobo <= 0 { return Some(AmountInvalid); }
      var sum := CheckedAdd(balance, amount.kobo);
      if sum.Err? { return Some(Overflow); }
      balance := sum.value;
      version := version + 1;
      thrown := None;
    }

    method Debit(amount: Money) returns (thrown: Option<Error>)
      modifies this
      ensures Becomes(old(Row()), Row(), DebitWallet(old(Row()), amount), thrown)
      ensures thrown.None? <==> 0 < amount.kobo <= old(balance)
      ensures thrown.None? ==> balance == old(balance) - amount.kobo >= 0 && version == old(version) + 1
    {
      if amount.kobo <= 0 { return Some(AmountInvalid); }
      if balance < amount.kobo { return Some(InsufficientFunds); }
      balance := balance - amount.kobo;
      version := version + 1;
      thrown := None;
    }
  }

  class ExternalAccount {
    var balance: int
    var version: int

    constructor (row: ExternalRow)
      ensures Row() == row
    {
      balance, version := row.balance, row.version;
    }

    function Row(): ExternalRow
      reads this
    {
      ExternalRow(balance, version)
    }

    method Credit(kobo: int) returns (thrown: Option<Error>)
      modifies this
      ensures Becomes(old(Row()), Row(), ExternalCredit(old(Row()), kobo), thrown)
      ensures thrown.None? <==> kobo > 0 && INT64_MIN <= old(balance) + kobo <= INT64_MAX
      ensures thrown.None? ==> balance == old(balance) + kobo && version == old(version) + 1
    {
      if kobo < 0 { return Some(ArgumentOutOfRange); }
      if kobo == 0 { return Some(AmountInvalid); }
      var sum := CheckedAdd(balance, kobo);
      if sum.Err? { return Some(Overflow); }
      balance := sum.value;
      version := version + 1;
      thrown := None;
    }

    method Debit(kobo: int) returns (thrown: Option<Error>)
      modifies this
      ensures Becomes(old(Row()), Row(), ExternalDebit(old(Row()), kobo), thrown)
      ensures thrown.None? <==> kobo > 0
      ensures thrown.None? ==> balance == old(balance) - kobo && version == old(version) + 1
    {
      if kobo < 0 { return Some(ArgumentOutOfRange); }
      if kobo == 0 { return Some(AmountInvalid); }
      balance := balance - kobo;
      version := version + 1;
      thrown := None;
    }

    /** Credits or debits the difference to the target. */
    method AlignTo(target: int) returns (thrown: Option<Error>)
      modifies this
      ensures Becomes(old(Row()), Row(), Align(old(Row()), target), thrown)
      ensures thrown.None? ==> balance == target && version == old(version) + (if old(balance) == target then 0 else 1)
      ensures target <= INT64_MAX && target >= INT64_MIN ==> thrown.None?
    {
      var diff := target - balance;
      thrown := None;
      if diff > 0 {
        thrown := Credit(diff);
      } else if diff < 0 {
        thrown := Debit(-diff);
      }
    }
  }

  class Transfer {
    const terms: Terms
    var status: TransferStatus
    var externalReference: Option<string>
    var updatedAt: int
    var reconciledAt: Option<int>

    constructor (row: TransferRow)
      ensures Row() == row
    {
      terms, status, externalReference, updatedAt, reconciledAt :=
        row.terms, row.status, row.externalReference, row.updatedAt, row.reconciledAt;
    }

    function Row(): TransferRow
      reads this
    {
      TransferRow(terms, status, externalReference, updatedAt, reconciledAt)
    }

    method MarkSettled(now: int)
      modifies this
      ensures Row() == old(Row()).(status := Settled, updatedAt := now)
    {
      status, updatedAt := Settled, now;
    }

    method MarkFailed(now: int)
      modifies this
      ensures Row() == old(Row()).(status := Failed, updatedAt := now)
    {
      status, updatedAt := Failed, now;
    }

    method MarkUnknown(now: int)
      modifies this
      ensures Row() == old(Row()).(status := Unknown, updatedAt := now)
    {
      status, updatedAt := Unknown, now;
    }

    method ResetForRepost(now: int)
      modifies this
      ensures Row() == old(Row()).(status := Submitted, externalReference := None, updatedAt := now)
    {
      status, externalReference, updatedAt := Submitted, None, now;
    }

    method SetExternalReference(reference: Option<string>, now: int)
      modifies this
      ensures Row() == old(Row()).(externalReference := reference, updatedAt := now)
    {
      externalReference, updatedAt := reference, now;
    }

    method MarkReconciled(now: int)
      modifies this
      ensures Row() == Reconciliation.MarkReconciled(old(Row()), now)
      ensures Row() == old(Row()).(reconciledAt := Some(now), updatedAt := now)
    {
      reconciledAt, updatedAt := Some(now), now;
    }
  }

  class SettlementJob {
    var status: JobStatus
    var attempts: nat
    var nextAttemptAt: int
    var leaseUntil: Option<int>
    var providerReference: Option<string>

    constructor (row: JobRow)
      ensures Row() == row
    {
      status, attempts, nextAttemptAt, leaseUntil, providerReference :=
        row.status, row.attempts, row.nextAttemptAt, row.leaseUntil, row.providerReference;
    }

    function Row(): JobRow
      reads this
    {
      JobRow(status, attempts, nextAttemptAt, leaseUntil, providerReference)
    }

    method Claim(now: int)
      modifies this
      ensures Row() == ClaimJob(old(Row()), now)
      ensures Row() == JobRow(Processing, old(attempts) + 1, now + 300_000_000, Some(now + 300_000_000), old(providerReference))
    {
      status := Processing;
      leaseUntil := Some(now + LEASE);
      attempts := attempts + 1;
      nextAttemptAt := now + LEASE;
    }

    method Succeed(reference: Option<string>, now: int)
      modifies this
      ensures Row() == SucceedJob(old(Row()), reference, now)
      ensures Row() == JobRow(Succeeded, old(attempts), now, None, reference)
    {
      status := Succeeded;
      providerReference := reference;
      leaseUntil := None;
      nextAttemptAt := now;
    }

    method Fail(now: int, deadLetter: bool)
      modifies this
      ensures Row() == FailJob(old(Row()), now, deadLetter)
      ensures Row() == if deadLetter then JobRow(DeadLetter, old(attempts), 3_155_378_975_999_999_999, None, old(providerReference))
                       else JobRow(JobFailed, old(attempts), now + 600_000_000, None, old(providerReference))
    {
      status := if deadLetter then DeadLetter else JobFailed;
      nextAttemptAt := if deadLetter then NEVER else now + BACKOFF;
      leaseUntil := None;
    }

    method Repost(now: int)
      modifies this
      ensures Row() == RepostJob(old(Row()), now)
      ensures Row() == JobRow(Pending, 0, now, None, old(providerReference))
    {
      status := Pending;
      nextAttemptAt := now;
      attempts := 0;
      leaseUntil := None;
    }
  }

  datatype AccountKey = LedgerHolding | SettlementHolding | IncomeHolding | VatHolding

  class ReconciliationReport {
    const day: int
    var balanced: bool
    var totalAmount: int
    var totalFee: int
    var totalVat: int
    var count: nat
    var ledger: Holding
    var settlement: Holding
    var income: Holding
    var vat: Holding

    constructor (day: int)
      ensures Row() == ReportRow(day, false, 0, 0, 0, 0, Holding(0, 0), Holding(0, 0), Holding(0, 0), Holding(0, 0))
    {
      this.day := day;
      balanced, totalAmount, totalFee, totalVat, count := false, 0, 0, 0, 0;
      ledger, settlement, income, vat := Holding(0, 0), Holding(0, 0), Holding(0, 0), Holding(0, 0);
    }

    function Row(): ReportRow
      reads this
    {
      ReportRow(day, balanced, totalAmount, totalFee, totalVat, count, ledger, settlement, income, vat)
    }

    method RecordOutboundTotals(amount: int, fee: int, vat: int, count: nat)
      modifies this
      ensures Row() == old(Row()).(totalAmount := amount, totalFee := fee, totalVat := vat, count := count)
    {
      totalAmount, totalFee, totalVat := amount, fee, vat;
      this.count := count;
    }

    method RecordAccount(key: AccountKey, expected: int, actual: int)
      modifies this
      ensures Row() == (match key
                        case LedgerHolding => old(Row()).(ledger := Holding(expected, actual))
                        case SettlementHolding => old(Row()).(settlement := Holding(expected, actual))
                        case IncomeHolding => old(Row()).(income := Holding(expected, actual))
                        case VatHolding => old(Row()).(vat := Holding(expected, actual)))
    {
      match key
      case LedgerHolding => ledger := Holding(expected, actual);
      case SettlementHolding => settlement := Holding(expected, actual);
      case IncomeHolding => income := Holding(expected, actual);
      case VatHolding => vat := Holding(expected, actual);
    }

    /** Balanced exactly when every discrepancy is zero. */
    method Complete()
      modifies this
      ensures Row() == old(Row()).(balanced := old(ledger.Discrepancy() == 0 && settlement.Discrepancy() == 0
                                               && income.Discrepancy() == 0 && vat.Discrepancy() == 0))
      ensures balanced <==> ledger.expected == ledger.actual && settlement.expected == settlement.actual
                            && income.expected == income.actual && vat.expected == vat.actual
    {
      balanced := ledger.Discrepancy() == 0 && settlement.Discrepancy() == 0
                  && income.Discrepancy() == 0 && vat.Discrepancy() == 0;
    }
  }

  class User {
    const customerId: string
    var kyc: KycStatus

    constructor (row: UserRow)
      ensures Row() == row
    {
      customerId, kyc := row.customerId, row.kyc;
    }

    function Row(): UserRow
      reads this
    {
      UserRow(customerId, kyc)
    }

    method SubmitKyc()
      modifies this
      ensures Row() == old(Row()).(kyc := KycPending)
    {
      kyc := KycPending;
    }

    method VerifyKyc()
      modifies this
      ensures Row() == old(Row()).(kyc := Verified)
    {
      kyc := Verified;
    }

    method RejectKyc()
      modifies this
      ensures Row() == old(Row()).(kyc := Rejected)
    {
      kyc := Rejected;
    }
  }

  class KycDocument {
    const user: nat
    var status: KycStatus

    constructor (row: DocRow)
      ensures Row() == row
    {
      user, status := row.user, row.status;
    }

    function Row(): DocRow
      reads this
    {
      DocRow(user, status)
    }

    method Approve()
      modifies this
      ensures Row() == old(Row()).(status := Verified)
    {
      status := Verified;
    }

    method Reject()
      modifies this
      ensures Row() == old(Row()).(status := Rejected)
    {
      status := Rejected;
    }
  }
}
