/** End-of-day reconciliation of the external holdings against the ledger. */
module Reconciliation {
  import opened Prelude
  import opened Rows
  import opened Books
  import opened Ledger
  import opened Query
  import opened WatBusinessDay

  predicate IsEligible(t: TransferRow, kind: TransferKind, day: int) {
    && t.terms.kind == kind && t.status.Settled? && t.reconciledAt.None?
    && StartOfWatDayUtc(day) <= t.terms.createdAt < StartOfWatDayUtc(day + 1)
  }

  function Eligible(transfers: seq<TransferRow>, kind: TransferKind, day: int): nat -> bool {
    (i: nat) => i < |transfers| && IsEligible(transfers[i], kind, day)
  }

  function OlderFirst(transfers: seq<TransferRow>): (nat, nat) -> bool {
    (i: nat, j: nat) => i < |transfers| && j < |transfers| && transfers[i].terms.createdAt <= transfers[j].terms.createdAt
  }

  /** GetSettledOutboundForReconciliationAsync and its inbound twin. */
  function SettledForReconciliation(transfers: seq<TransferRow>, kind: TransferKind, day: int): seq<nat> {
    OrderBy(Select(|transfers|, Eligible(transfers, kind, day)), OlderFirst(transfers))
  }

  datatype Tally = Tally(ext: External, transfers: seq<TransferRow>, amount: int, fee: int, vat: int)

  function MarkReconciled(t: TransferRow, now: int): TransferRow {
    t.(reconciledAt := Some(now), updatedAt := now)
  }

  function ReconcileOutbound(a: Tally, id: nat, now: int): Outcome<Tally>
    requires id < |a.transfers|
  {
    var t := a.transfers[id].terms;
    var settlement :- ExternalCredit(a.ext.settlement, t.amount);
    var income :- ExternalCredit(a.ext.income, t.fee);
    var vat :- ExternalCredit(a.ext.vat, t.vat);
    var ledger :- ExternalDebit(a.ext.ledger, t.total);
    Ok(Tally(External(ledger, settlement, income, vat), a.transfers[id := MarkReconciled(a.transfers[id], now)],
             a.amount + t.amount, a.fee + t.fee, a.vat + t.vat))
  }

  function ReconcileInbound(a: Tally, id: nat, now: int): Outcome<Tally>
    requires id < |a.transfers|
  {
    var t := a.transfers[id].terms;
    var settlement :- ExternalDebit(a.ext.settlement, t.amount);
    var ledger :- ExternalCredit(a.ext.ledger, t.amount);
    Ok(a.(ext := a.ext.(settlement := settlement, ledger := ledger),
          transfers := a.transfers[id := MarkReconciled(a.transfers[id], now)]))
  }

  function ReconcileEach(a: Tally, ids: seq<nat>, kind: TransferKind, now: int): (r: Outcome<Tally>)
    requires forall i :: 0 <= i < |ids| ==> ids[i] < |a.transfers|
    ensures r.Ok? ==> |r.value.transfers| == |a.transfers|
    decreases |ids|
  {
    if |ids| == 0 then Ok(a)
    else
      var a1 :- if kind.Outbound? then ReconcileOutbound(a, ids[0], now) else ReconcileInbound(a, ids[0], now);
      ReconcileEach(a1, ids[1..], kind, now)
  }

  function CustomerBalance(): WalletRow -> int {
    (w: WalletRow) => if w.kind.Customer? then w.balance else 0
  }

  /** Credits or debits the difference, so that the holding ends at the target. */
  function Align(a: ExternalRow, target: int): (r: Outcome<ExternalRow>)
    ensures r.Ok? ==> r.value.balance == target
  {
    if target > a.balance then ExternalCredit(a, target - a.balance)
    else if target < a.balance then ExternalDebit(a, a.balance - target)
    else Ok(a)
  }

  function FindReport(reports: seq<ReportRow>, day: int): (r: Option<nat>)
    ensures r.Some? ==> r.value < |reports| && reports[r.value].day == day
    ensures r.None? ==> forall i :: 0 <= i < |reports| ==> reports[i].day != day
    decreases |reports|
  {
    if |reports| == 0 then None
    else
      var n := |reports| - 1;
      if reports[n].day == day then Some(n) else FindReport(reports[..n], day)
  }

  function BuildReport(day: int, books: Books, ext: External, a: Tally, count: nat): ReportRow {
    var ledger := Holding(Sum(books.wallets, CustomerBalance()), ext.ledger.balance);
    var settlement := Holding(books.wallets[SETTLEMENT].balance, ext.settlement.balance);
    var income := Holding(books.wallets[INCOME].balance, ext.income.balance);
    var vat := Holding(books.wallets[VAT].balance, ext.vat.balance);
    var balanced := ledger.Discrepancy() == 0 && settlement.Discrepancy() == 0
                    && income.Discrepancy() == 0 && vat.Discrepancy() == 0;
    ReportRow(day, balanced, a.amount, a.fee, a.vat, count, ledger, settlement, income, vat)
  }

  lemma {:induction false} SettledIdsInRange(transfers: seq<TransferRow>, kind: TransferKind, day: int)
    ensures var ids := SettledForReconciliation(transfers, kind, day);
      && NoRepeats(ids)
      && (forall i :: 0 <= i < |ids| ==> ids[i] < |transfers| && IsEligible(transfers[ids[i]], kind, day))
      && (forall t: nat :: t < |transfers| && IsEligible(transfers[t], kind, day) ==> t in ids)
  {
    var p := Eligible(transfers, kind, day);
    SelectIsExact(|transfers|, p);
    OrderByKeepsMembers(Select(|transfers|, p), OlderFirst(transfers));
    var ids := SettledForReconciliation(transfers, kind, day);
    forall i | 0 <= i < |ids| ensures ids[i] < |transfers| && IsEligible(transfers[ids[i]], kind, day) {
      assert ids[i] in ids;
    }
  }

  /** The selection is ordered by creation time. */
  lemma {:induction false} SettledOldestFirst(transfers: seq<TransferRow>, kind: TransferKind, day: int)
    ensures var ids := SettledForReconciliation(transfers, kind, day);
      && (forall i :: 0 <= i < |ids| ==> ids[i] < |transfers|)
      && (forall i, j :: 0 <= i < j < |ids| ==> transfers[ids[i]].terms.createdAt <= transfers[ids[j]].terms.createdAt)
  {
    SettledIdsInRange(transfers, kind, day);
    SelectIsExact(|transfers|, Eligible(transfers, kind, day));
    OrderBySorts(Select(|transfers|, Eligible(transfers, kind, day)), OlderFirst(transfers));
    var ids := SettledForReconciliation(transfers, kind, day);
    assert forall i, j :: 0 <= i < j < |ids| ==> OlderFirst(transfers)(ids[i], ids[j]);
  }

  /** RunReconciliationAsync on a day that has no report yet. */
  function RunDay(db: Db, day: int, now: int): Outcome<Db> {
    var outs := SettledForReconciliation(db.transfers, Outbound, day);
    var ins := SettledForReconciliation(db.transfers, Inbound, day);
    SettledIdsInRange(db.transfers, Outbound, day);
    SettledIdsInRange(db.transfers, Inbound, day);
    var a :- ReconcileEach(Tally(db.ext, db.transfers, 0, 0, 0), outs, Outbound, now);
    var b :- ReconcileEach(a, ins, Inbound, now);
    AfterLoops(db, b, day, |outs|)
  }

  /** The alignment step and the report. */
  function AfterLoops(db: Db, b: Tally, day: int, count: nat): Outcome<Db> {
    var ledger :- Align(b.ext.ledger, Sum(db.books.wallets, CustomerBalance()));
    var settlement :- Align(b.ext.settlement, db.books.wallets[SETTLEMENT].balance);
    var ext := b.ext.(ledger := ledger, settlement := settlement);
    Ok(db.(transfers := b.transfers, ext := ext, reports := db.reports + [BuildReport(day, db.books, ext, b, count)]))
  }

  function Reconcile(db: Db, day: int, now: int): Outcome<Db> {
    if FindReport(db.reports, day).Some? then Ok(db) else RunDay(db, day, now)
  }
}
