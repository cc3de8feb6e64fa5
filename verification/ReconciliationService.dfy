/** ReconciliationService: the end-of-day run, loop by loop. */
module ReconciliationServices {
  import opened Prelude
  import opened Rows
  import opened Books
  import opened Ledger
  import opened Reconciliation
  import opened Machine
  import opened Entities
  import opened Stores

  /** The objects a run works on: four holdings, the transfer rows and the totals so far. */
  class Reconciler {
    const ledger: ExternalAccount
    const settlement: ExternalAccount
    const income: ExternalAccount
    const vat: ExternalAccount
    var transfers: seq<TransferRow>
    var totalAmount: int
    var totalFee: int
    var totalVat: int

    ghost const Repr: set<object>

    ghost predicate Valid()
      reads this
    {
      && Repr == {this, ledger, settlement, income, vat}
      && ledger != settlement && ledger != income && ledger != vat && settlement != income && settlement != vat && income != vat
    }

    constructor (ext: External, transfers: seq<TransferRow>)
      ensures Valid() && fresh(Repr) && Now() == Tally(ext, transfers, 0, 0, 0)
    {
      var l := new ExternalAccount(ext.ledger);
      var s := new ExternalAccount(ext.settlement);
      var i := new ExternalAccount(ext.income);
      var v := new ExternalAccount(ext.vat);
      ledger, settlement, income, vat := l, s, i, v;
      this.transfers := transfers;
      totalAmount, totalFee, totalVat := 0, 0, 0;
      Repr := {this, l, s, i, v};
    }

    function Now(): Tally
      reads this, ledger, settlement, income, vat
    {
      Tally(External(ledger.Row(), settlement.Row(), income.Row(), vat.Row()), transfers, totalAmount, totalFee, totalVat)
    }

    method Mark(id: nat, now: int)
      requires Valid() && id < |transfers|
      modifies this`transfers
      ensures transfers == old(transfers)[id := Reconciliation.MarkReconciled(old(transfers)[id], now)]
    {
      var transfer := new Transfer(transfers[id]);
      transfer.MarkReconciled(now);
      transfers := transfers[id := transfer.Row()];
    }

    /** The body of the outbound loop. */
    method TakeOutbound(id: nat, now: int) returns (thrown: Option<Error>)
      requires Valid() && id < |transfers|
      modifies Repr
      ensures match ReconcileOutbound(old(Now()), id, now)
              case Ok(a) => thrown.None? && Now() == a
              case Err(e) => thrown == Some(e)
    {
      var t := transfers[id].terms;
      totalAmount := totalAmount + t.amount;
      totalFee := totalFee + t.fee;
      totalVat := totalVat + t.vat;
      thrown := settlement.Credit(t.amount);
      if thrown.Some? { return; }
      thrown := income.Credit(t.fee);
      if thrown.Some? { return; }
      thrown := vat.Credit(t.vat);
      if thrown.Some? { return; }
      thrown := ledger.Debit(t.total);
      if thrown.Some? { return; }
      Mark(id, now);
    }

    /** The body of the inbound loop. */
    method TakeInbound(id: nat, now: int) returns (thrown: Option<Error>)
      requires Valid() && id < |transfers|
      modifies Repr
      ensures match ReconcileInbound(old(Now()), id, now)
              case Ok(a) => thrown.None? && Now() == a
              case Err(e) => thrown == Some(e)
    {
      var t := transfers[id].terms;
      thrown := settlement.Debit(t.amount);
      if thrown.Some? { return; }
      thrown := ledger.Credit(t.amount);
      if thrown.Some? { return; }
      Mark(id, now);
    }

    /** One of the two loops. */
    method TakeAll(ids: seq<nat>, kind: TransferKind, now: int) returns (thrown: Option<Error>)
      requires Valid() && forall i :: 0 <= i < |ids| ==> ids[i] < |transfers|
      modifies Repr
      ensures match ReconcileEach(old(Now()), ids, kind, now)
              case Ok(a) => thrown.None? && Now() == a
              case Err(e) => thrown == Some(e)
    {
      thrown := None;
      ghost var start := Now();
      var k := 0;
      while k < |ids|
        invariant 0 <= k <= |ids| && |transfers| == |start.transfers| && thrown.None?
        invariant ReconcileEach(start, ids, kind, now) == ReconcileEach(Now(), ids[k..], kind, now)
        modifies Repr
      {
        assert ids[k..][0] == ids[k] && ids[k..][1..] == ids[k + 1..];
        if kind.Outbound? {
          thrown := TakeOutbound(ids[k], now);
        } else {
          thrown := TakeInbound(ids[k], now);
        }
        if thrown.Some? { return; }
        k := k + 1;
      }
      assert ids[k..] == [];
    }
  }

  class ReconciliationService {
    const store: Store

    constructor (store: Store)
      ensures this.store == store
    {
      this.store := store;
    }

    /** RunReconciliationAsync. */
    method Run(day: int, now: int) returns (thrown: Option<Error>)
      modifies store`db
      ensures Becomes(old(store.db), store.db, Reconcile(old(store.db), day, now), thrown)
      ensures store.World() == Step(old(store.World()), ReconcileDay(day, now))
    {
      var existing := FindReport(store.db.reports, day);
      if existing.Some? { return None; }
      thrown := RunFresh(day, now);
    }

    /** The run of a day without a report: both loops, the alignment and the report. */
    method RunFresh(day: int, now: int) returns (thrown: Option<Error>)
      modifies store`db
      ensures Becomes(old(store.db), store.db, RunDay(old(store.db), day, now), thrown)
    {
      var outbound := SettledForReconciliation(store.db.transfers, Outbound, day);
      var inbound := SettledForReconciliation(store.db.transfers, Inbound, day);
      SettledIdsInRange(store.db.transfers, Outbound, day);
      SettledIdsInRange(store.db.transfers, Inbound, day);
      var run := new Reconciler(store.db.ext, store.db.transfers);
      thrown := run.TakeAll(outbound, Outbound, now);
      if thrown.Some? { return; }
      thrown := run.TakeAll(inbound, Inbound, now);
      if thrown.Some? { return; }
      thrown := Finish(run, day, now, |outbound|);
    }

    /** Alignment, report and commit. */
    method Finish(run: Reconciler, day: int, now: int, count: nat) returns (thrown: Option<Error>)
      requires run.Valid() && store !in run.Repr
      modifies store`db, run.Repr
      ensures Becomes(old(store.db), store.db, AfterLoops(old(store.db), old(run.Now()), day, count), thrown)
    {
      var books := store.db.books;
      var customerSum := Sum(books.wallets, CustomerBalance());
      thrown := run.ledger.AlignTo(customerSum);
      if thrown.Some? { return; }
      thrown := run.settlement.AlignTo(books.wallets[SETTLEMENT].balance);
      if thrown.Some? { return; }
      var report := new ReconciliationReport(day);
      report.RecordOutboundTotals(run.totalAmount, run.totalFee, run.totalVat, count);
      report.RecordAccount(LedgerHolding, customerSum, run.ledger.balance);
      report.RecordAccount(SettlementHolding, books.wallets[SETTLEMENT].balance, run.settlement.balance);
      report.RecordAccount(IncomeHolding, books.wallets[INCOME].balance, run.income.balance);
      report.RecordAccount(VatHolding, books.wallets[VAT].balance, run.vat.balance);
      report.Complete();
      store.db := store.db.(transfers := run.transfers, ext := run.Now().ext, reports := store.db.reports + [report.Row()]);
    }
  }
}
