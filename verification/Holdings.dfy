/** The external holdings, the reports and the reconciled transfers. */
module Holdings {
  import opened Prelude
  import opened Rows
  import opened Books
  import opened WatBusinessDay
  import opened Query
  import opened Ledger
  import opened Settlement
  import opened Reconciliation
  import opened Shapes
  import opened Machine
  import opened Protocol

  datatype Measure = AmountOf | FeeOf | VatOf | CountOf

  function Measured(m: Measure, t: Terms): int {
    match m case AmountOf => t.amount case FeeOf => t.fee case VatOf => t.vat case CountOf => 1
  }

  /** The measure of an outbound transfer once it is reconciled. */
  function Marked(m: Measure): TransferRow -> int {
    (t: TransferRow) => if t.terms.kind.Outbound? && t.reconciledAt.Some? then Measured(m, t.terms) else 0
  }

  /** The same, for the transfers created on one WAT day. */
  function MarkedOn(day: int, m: Measure): TransferRow -> int {
    (t: TransferRow) =>
      if t.terms.kind.Outbound? && t.reconciledAt.Some? && Today(t.terms.createdAt) == day then Measured(m, t.terms) else 0
  }

  function ReportTotal(m: Measure): ReportRow -> int {
    (r: ReportRow) => match m case AmountOf => r.totalAmount case FeeOf => r.totalFee case VatOf => r.totalVat case CountOf => r.count
  }

  function HoldingOf(m: Measure, ext: External): int
    requires m.FeeOf? || m.VatOf?
  {
    if m.FeeOf? then ext.income.balance else ext.vat.balance
  }

  // ---------- The invariants ----------

  /** Only settled transfers are reconciled, and only on a day that has its report. */
  ghost predicate MarksOk(db: Db) {
    forall id: nat :: id < |db.transfers| && db.transfers[id].reconciledAt.Some? ==>
      && db.transfers[id].status.Settled?
      && FindReport(db.reports, Today(db.transfers[id].terms.createdAt)).Some?
  }

  ghost predicate OneReportADay(reports: seq<ReportRow>) {
    forall i, j :: 0 <= i < j < |reports| ==> reports[i].day != reports[j].day
  }

  /** Each report's totals are those of exactly the reconciled outbound transfers of its day. */
  ghost predicate ReportsExact(db: Db) {
    forall i: nat, m: Measure :: i < |db.reports| ==>
      ReportTotal(m)(db.reports[i]) == Sum(db.transfers, MarkedOn(db.reports[i].day, m))
  }

  ghost predicate HoldingsOk(db: Db) {
    forall m: Measure :: m.FeeOf? || m.VatOf? ==>
      HoldingOf(m, db.ext) == Sum(db.transfers, Marked(m)) == Sum(db.reports, ReportTotal(m))
  }

  ghost predicate ReconciliationOk(db: Db) {
    MarksOk(db) && OneReportADay(db.reports) && ReportsExact(db) && HoldingsOk(db)
  }

  // ---------- Marking a list of transfers ----------

  function MarkAll(transfers: seq<TransferRow>, ids: seq<nat>, now: int): (r: seq<TransferRow>)
    requires forall i :: 0 <= i < |ids| ==> ids[i] < |transfers|
    ensures |r| == |transfers|
    decreases |ids|
  {
    if |ids| == 0 then transfers
    else MarkAll(transfers[ids[0] := MarkReconciled(transfers[ids[0]], now)], ids[1..], now)
  }

  function TotalOver(transfers: seq<TransferRow>, ids: seq<nat>, m: Measure): int
    requires forall i :: 0 <= i < |ids| ==> ids[i] < |transfers|
    decreases |ids|
  {
    if |ids| == 0 then 0 else Measured(m, transfers[ids[0]].terms) + TotalOver(transfers, ids[1..], m)
  }

  ghost predicate InRange(transfers: seq<TransferRow>, ids: seq<nat>) {
    forall i :: 0 <= i < |ids| ==> ids[i] < |transfers|
  }

  lemma {:induction false} MarkAllRows(transfers: seq<TransferRow>, ids: seq<nat>, now: int)
    requires InRange(transfers, ids) && NoRepeats(ids)
    ensures forall i: nat :: i < |transfers| ==>
      MarkAll(transfers, ids, now)[i] == (if i in ids then MarkReconciled(transfers[i], now) else transfers[i])
    decreases |ids|
  {
    if |ids| > 0 {
      var rest := ids[1..];
      assert forall k :: 0 <= k < |rest| ==> rest[k] == ids[k + 1];
      assert ids[0] !in rest;
      assert forall i: nat :: i in ids <==> i == ids[0] || i in rest;
      MarkAllRows(transfers[ids[0] := MarkReconciled(transfers[ids[0]], now)], rest, now);
    }
  }

  lemma {:induction false} TotalOverTerms(a: seq<TransferRow>, b: seq<TransferRow>, ids: seq<nat>, m: Measure)
    requires InRange(a, ids) && |a| == |b| && forall i: nat :: i < |a| ==> a[i].terms == b[i].terms
    ensures TotalOver(a, ids, m) == TotalOver(b, ids, m)
    decreases |ids|
  {
    if |ids| > 0 { TotalOverTerms(a, b, ids[1..], m); }
  }

  /** Marking a list adds exactly the measures of its members to any sum that counts marked rows of that list. */
  lemma {:induction false} MarkAllSum(transfers: seq<TransferRow>, ids: seq<nat>, now: int, f: TransferRow -> int, m: Measure)
    requires InRange(transfers, ids) && NoRepeats(ids)
    requires forall i :: 0 <= i < |ids| ==> f(transfers[ids[i]]) == 0
    requires forall i :: 0 <= i < |ids| ==> f(MarkReconciled(transfers[ids[i]], now)) == Measured(m, transfers[ids[i]].terms)
    ensures Sum(MarkAll(transfers, ids, now), f) == Sum(transfers, f) + TotalOver(transfers, ids, m)
    decreases |ids|
  {
    if |ids| > 0 {
      var row := MarkReconciled(transfers[ids[0]], now);
      var transfers1 := transfers[ids[0] := row];
      var rest := ids[1..];
      assert forall k :: 0 <= k < |rest| ==> rest[k] == ids[k + 1];
      SumUpdate(transfers, ids[0], row, f);
      assert forall k :: 0 <= k < |rest| ==> transfers1[rest[k]] == transfers[rest[k]];
      MarkAllSum(transfers1, rest, now, f, m);
      TotalOverTerms(transfers, transfers1, rest, m);
    }
  }

  /** Marking rows a sum does not look at leaves the sum alone. */
  lemma {:induction false} MarkAllElsewhere(transfers: seq<TransferRow>, ids: seq<nat>, now: int, f: TransferRow -> int)
    requires InRange(transfers, ids) && NoRepeats(ids)
    requires forall i :: 0 <= i < |ids| ==> f(MarkReconciled(transfers[ids[i]], now)) == f(transfers[ids[i]])
    ensures Sum(MarkAll(transfers, ids, now), f) == Sum(transfers, f)
  {
    MarkAllRows(transfers, ids, now);
    var after := MarkAll(transfers, ids, now);
    forall i | 0 <= i < |transfers| ensures f(transfers[i]) == f(after[i]) {
      if i in ids {
        var k :| 0 <= k < |ids| && ids[k] == i;
      }
    }
    SumMatch(transfers, after, f, f);
  }

  // ---------- The two reconciliation loops ----------

  lemma {:induction false} OutboundLoop(a: Tally, ids: seq<nat>, now: int)
    requires InRange(a.transfers, ids) && ReconcileEach(a, ids, Outbound, now).Ok?
    ensures var b := ReconcileEach(a, ids, Outbound, now).value;
      && b.transfers == MarkAll(a.transfers, ids, now)
      && b.ext.income.balance == a.ext.income.balance + TotalOver(a.transfers, ids, FeeOf)
      && b.ext.vat.balance == a.ext.vat.balance + TotalOver(a.transfers, ids, VatOf)
      && b.amount == a.amount + TotalOver(a.transfers, ids, AmountOf)
      && b.fee == a.fee + TotalOver(a.transfers, ids, FeeOf)
      && b.vat == a.vat + TotalOver(a.transfers, ids, VatOf)
    decreases |ids|
  {
    if |ids| > 0 {
      var a1 := ReconcileOutbound(a, ids[0], now).value;
      OutboundLoop(a1, ids[1..], now);
      forall m: Measure ensures TotalOver(a1.transfers, ids[1..], m) == TotalOver(a.transfers, ids[1..], m) {
        TotalOverTerms(a1.transfers, a.transfers, ids[1..], m);
      }
    }
  }

  lemma {:induction false} InboundLoop(a: Tally, ids: seq<nat>, now: int)
    requires InRange(a.transfers, ids) && ReconcileEach(a, ids, Inbound, now).Ok?
    ensures var b := ReconcileEach(a, ids, Inbound, now).value;
      && b.transfers == MarkAll(a.transfers, ids, now)
      && b.ext.income == a.ext.income && b.ext.vat == a.ext.vat
      && b.amount == a.amount && b.fee == a.fee && b.vat == a.vat
    decreases |ids|
  {
    if |ids| > 0 {
      InboundLoop(ReconcileInbound(a, ids[0], now).value, ids[1..], now);
    }
  }

  lemma {:induction false} CountIsLength(transfers: seq<TransferRow>, ids: seq<nat>)
    requires InRange(transfers, ids)
    ensures TotalOver(transfers, ids, CountOf) == |ids|
    decreases |ids|
  {
    if |ids| > 0 { CountIsLength(transfers, ids[1..]); }
  }

  /** Which rows a run on `day` marks. */
  ghost predicate NewlyMarked(t: TransferRow, day: int) {
    IsEligible(t, Outbound, day) || IsEligible(t, Inbound, day)
  }

  /** Everything a successful run on a fresh day does to transfers, holdings and reports. */
  ghost predicate RanDay(db: Db, db': Db, day: int, now: int) {
    && db' == db.(transfers := db'.transfers, ext := db'.ext, reports := db'.reports)
    && RanRows(db, db', day, now)
    && |db'.reports| == |db.reports| + 1 && db'.reports[..|db.reports|] == db.reports
    && Reported(db, db', db'.reports[|db.reports|], day)
    && forall m: Measure :: RanSums(db, db', db'.reports[|db.reports|], day, m)
  }

  ghost predicate RanRows(db: Db, db': Db, day: int, now: int) {
    && |db'.transfers| == |db.transfers|
    && forall i: nat :: i < |db.transfers| ==>
         db'.transfers[i] == (if NewlyMarked(db.transfers[i], day) then MarkReconciled(db.transfers[i], now) else db.transfers[i])
  }

  ghost predicate Reported(db: Db, db': Db, r: ReportRow, day: int) {
    && r.day == day
    && r.ledger == Holding(Sum(db.books.wallets, CustomerBalance()), db'.ext.ledger.balance) && r.ledger.Discrepancy() == 0
    && r.settlement == Holding(db.books.wallets[SETTLEMENT].balance, db'.ext.settlement.balance) && r.settlement.Discrepancy() == 0
    && r.income == Holding(db.books.wallets[INCOME].balance, db'.ext.income.balance)
    && r.vat == Holding(db.books.wallets[VAT].balance, db'.ext.vat.balance)
    && (r.balanced <==> r.income.Discrepancy() == 0 && r.vat.Discrepancy() == 0)
    && db'.ext.income.balance == db.ext.income.balance + r.totalFee
    && db'.ext.vat.balance == db.ext.vat.balance + r.totalVat
  }

  ghost predicate RanSums(db: Db, db': Db, r: ReportRow, day: int, m: Measure) {
    && Sum(db'.transfers, MarkedOn(day, m)) == Sum(db.transfers, MarkedOn(day, m)) + ReportTotal(m)(r)
    && Sum(db'.transfers, Marked(m)) == Sum(db.transfers, Marked(m)) + ReportTotal(m)(r)
    && forall d: int :: d != day ==> Sum(db'.transfers, MarkedOn(d, m)) == Sum(db.transfers, MarkedOn(d, m))
  }

  lemma {:induction false} EligibleOnItsDay(t: TransferRow, kind: TransferKind, day: int)
    requires IsEligible(t, kind, day)
    ensures Today(t.terms.createdAt) == day
  {
    WindowsPartitionTime(t.terms.createdAt, day);
  }

  /** Rows selected to be marked: unmarked, of one kind, created on one day. */
  ghost predicate Markable(transfers: seq<TransferRow>, ids: seq<nat>, kind: TransferKind, day: int) {
    && InRange(transfers, ids) && NoRepeats(ids)
    && forall i :: 0 <= i < |ids| ==>
         && transfers[ids[i]].terms.kind == kind && transfers[ids[i]].reconciledAt.None?
         && Today(transfers[ids[i]].terms.createdAt) == day
  }

  lemma {:induction false} SelectionIsMarkable(transfers: seq<TransferRow>, kind: TransferKind, day: int)
    ensures Markable(transfers, SettledForReconciliation(transfers, kind, day), kind, day)
  {
    var ids := SettledForReconciliation(transfers, kind, day);
    SettledIdsInRange(transfers, kind, day);
    forall i | 0 <= i < |ids| ensures Today(transfers[ids[i]].terms.createdAt) == day {
      EligibleOnItsDay(transfers[ids[i]], kind, day);
    }
  }

  lemma {:induction false} OutboundMarksCount(transfers: seq<TransferRow>, ids: seq<nat>, now: int, day: int, m: Measure)
    requires Markable(transfers, ids, Outbound, day)
    ensures Sum(MarkAll(transfers, ids, now), MarkedOn(day, m)) == Sum(transfers, MarkedOn(day, m)) + TotalOver(transfers, ids, m)
    ensures Sum(MarkAll(transfers, ids, now), Marked(m)) == Sum(transfers, Marked(m)) + TotalOver(transfers, ids, m)
  {
    MarkAllSum(transfers, ids, now, MarkedOn(day, m), m);
    MarkAllSum(transfers, ids, now, Marked(m), m);
  }

  lemma {:induction false} OtherDaysStay(transfers: seq<TransferRow>, ids: seq<nat>, kind: TransferKind, now: int, day: int, m: Measure, d: int)
    requires Markable(transfers, ids, kind, day) && d != day
    ensures Sum(MarkAll(transfers, ids, now), MarkedOn(d, m)) == Sum(transfers, MarkedOn(d, m))
  {
    MarkAllElsewhere(transfers, ids, now, MarkedOn(d, m));
  }

  lemma {:induction false} InboundMarksDoNotCount(transfers: seq<TransferRow>, ids: seq<nat>, now: int, day: int, m: Measure, d: int)
    requires Markable(transfers, ids, Inbound, day)
    ensures Sum(MarkAll(transfers, ids, now), MarkedOn(d, m)) == Sum(transfers, MarkedOn(d, m))
    ensures Sum(MarkAll(transfers, ids, now), Marked(m)) == Sum(transfers, Marked(m))
  {
    MarkAllElsewhere(transfers, ids, now, MarkedOn(d, m));
    MarkAllElsewhere(transfers, ids, now, Marked(m));
  }

  lemma {:induction false} InboundStaysMarkable(transfers: seq<TransferRow>, outs: seq<nat>, ins: seq<nat>, now: int, day: int)
    requires Markable(transfers, outs, Outbound, day) && Markable(transfers, ins, Inbound, day)
    ensures Markable(MarkAll(transfers, outs, now), ins, Inbound, day)
  {
    MarkAllRows(transfers, outs, now);
    forall i | 0 <= i < |ins| ensures ins[i] !in outs {
      assert forall k :: 0 <= k < |outs| ==> outs[k] != ins[i];
    }
  }

  lemma {:induction false} BothMarkingSums(transfers: seq<TransferRow>, outs: seq<nat>, ins: seq<nat>, now: int, day: int, m: Measure)
    requires Markable(transfers, outs, Outbound, day) && Markable(transfers, ins, Inbound, day)
    ensures var after := MarkAll(MarkAll(transfers, outs, now), ins, now);
      && Sum(after, MarkedOn(day, m)) == Sum(transfers, MarkedOn(day, m)) + TotalOver(transfers, outs, m)
      && Sum(after, Marked(m)) == Sum(transfers, Marked(m)) + TotalOver(transfers, outs, m)
      && (forall d: int :: d != day ==> Sum(after, MarkedOn(d, m)) == Sum(transfers, MarkedOn(d, m)))
  {
    var mid := MarkAll(transfers, outs, now);
    InboundStaysMarkable(transfers, outs, ins, now, day);
    OutboundMarksCount(transfers, outs, now, day, m);
    InboundMarksDoNotCount(mid, ins, now, day, m, day);
    forall d: int | d != day ensures Sum(MarkAll(mid, ins, now), MarkedOn(d, m)) == Sum(transfers, MarkedOn(d, m)) {
      OtherDaysStay(transfers, outs, Outbound, now, day, m, d);
      InboundMarksDoNotCount(mid, ins, now, day, m, d);
    }
  }

  /** The marking part of a run, on the two selections. */
  lemma {:induction false} MarkingSums(transfers: seq<TransferRow>, day: int, now: int, m: Measure)
    ensures var outs := SettledForReconciliation(transfers, Outbound, day);
            var ins := SettledForReconciliation(transfers, Inbound, day);
      && InRange(transfers, outs) && InRange(transfers, ins)
      && (var after := MarkAll(MarkAll(transfers, outs, now), ins, now);
          && Sum(after, MarkedOn(day, m)) == Sum(transfers, MarkedOn(day, m)) + TotalOver(transfers, outs, m)
          && Sum(after, Marked(m)) == Sum(transfers, Marked(m)) + TotalOver(transfers, outs, m)
          && (forall d: int :: d != day ==> Sum(after, MarkedOn(d, m)) == Sum(transfers, MarkedOn(d, m))))
  {
    SelectionIsMarkable(transfers, Outbound, day);
    SelectionIsMarkable(transfers, Inbound, day);
    BothMarkingSums(transfers, SettledForReconciliation(transfers, Outbound, day),
                    SettledForReconciliation(transfers, Inbound, day), now, day, m);
  }

  lemma {:induction false} MarkingRows(transfers: seq<TransferRow>, day: int, now: int)
    ensures var outs := SettledForReconciliation(transfers, Outbound, day);
            var ins := SettledForReconciliation(transfers, Inbound, day);
      && InRange(transfers, outs) && InRange(transfers, ins)
      && (var after := MarkAll(MarkAll(transfers, outs, now), ins, now);
          forall i: nat :: i < |transfers| ==>
            after[i] == (if NewlyMarked(transfers[i], day) then MarkReconciled(transfers[i], now) else transfers[i]))
  {
    var outs := SettledForReconciliation(transfers, Outbound, day);
    var ins := SettledForReconciliation(transfers, Inbound, day);
    SettledIdsInRange(transfers, Outbound, day);
    SettledIdsInRange(transfers, Inbound, day);
    MarkAllRows(transfers, outs, now);
    MarkAllRows(MarkAll(transfers, outs, now), ins, now);
    forall i: nat | i < |transfers|
      ensures (i in outs <==> IsEligible(transfers[i], Outbound, day)) && (i in ins <==> IsEligible(transfers[i], Inbound, day))
    {
    }
  }

  /** The state both loops leave behind, in terms of the selections. */
  lemma {:induction false} BothLoops(db: Db, day: int, now: int) returns (b: Tally)
    requires RunDay(db, day, now).Ok?
    ensures var outs := SettledForReconciliation(db.transfers, Outbound, day);
            var ins := SettledForReconciliation(db.transfers, Inbound, day);
      && InRange(db.transfers, outs) && InRange(db.transfers, ins)
      && b.transfers == MarkAll(MarkAll(db.transfers, outs, now), ins, now)
      && b.amount == TotalOver(db.transfers, outs, AmountOf)
      && b.fee == TotalOver(db.transfers, outs, FeeOf) && b.vat == TotalOver(db.transfers, outs, VatOf)
      && b.ext.income.balance == db.ext.income.balance + b.fee && b.ext.vat.balance == db.ext.vat.balance + b.vat
      && |outs| == TotalOver(db.transfers, outs, CountOf)
    ensures var outs := SettledForReconciliation(db.transfers, Outbound, day);
      exists ledger, settlement ::
        && Align(b.ext.ledger, Sum(db.books.wallets, CustomerBalance())) == Ok(ledger)
        && Align(b.ext.settlement, db.books.wallets[SETTLEMENT].balance) == Ok(settlement)
        && (var ext := b.ext.(ledger := ledger, settlement := settlement);
            RunDay(db, day, now) == Ok(db.(transfers := b.transfers, ext := ext,
                                          reports := db.reports + [BuildReport(day, db.books, ext, b, |outs|)])))
  {
    var outs := SettledForReconciliation(db.transfers, Outbound, day);
    var ins := SettledForReconciliation(db.transfers, Inbound, day);
    SettledIdsInRange(db.transfers, Outbound, day);
    SettledIdsInRange(db.transfers, Inbound, day);
    var start := Tally(db.ext, db.transfers, 0, 0, 0);
    var a := ReconcileEach(start, outs, Outbound, now).value;
    b := ReconcileEach(a, ins, Inbound, now).value;
    OutboundLoop(start, outs, now);
    InboundLoop(a, ins, now);
    CountIsLength(db.transfers, outs);
  }

  /** The two loops and the alignment. */
  lemma {:induction false} RunDayLoops(db: Db, day: int, now: int)
    requires RunDay(db, day, now).Ok?
    ensures var outs := SettledForReconciliation(db.transfers, Outbound, day);
            var ins := SettledForReconciliation(db.transfers, Inbound, day);
            var db' := RunDay(db, day, now).value;
      && InRange(db.transfers, outs) && InRange(db.transfers, ins)
      && db'.transfers == MarkAll(MarkAll(db.transfers, outs, now), ins, now)
      && db'.reports == db.reports + [db'.reports[|db.reports|]]
      && Reported(db, db', db'.reports[|db.reports|], day)
      && db' == db.(transfers := db'.transfers, ext := db'.ext, reports := db'.reports)
      && (forall m: Measure :: ReportTotal(m)(db'.reports[|db.reports|]) == TotalOver(db.transfers, outs, m))
  {
    var b := BothLoops(db, day, now);
    var ledger, settlement :|
      && Align(b.ext.ledger, Sum(db.books.wallets, CustomerBalance())) == Ok(ledger)
      && Align(b.ext.settlement, db.books.wallets[SETTLEMENT].balance) == Ok(settlement);
  }

  lemma {:induction false} RunDayEffect(db: Db, day: int, now: int)
    requires RunDay(db, day, now).Ok?
    ensures RanDay(db, RunDay(db, day, now).value, day, now)
  {
    RunDayLoops(db, day, now);
    MarkingRows(db.transfers, day, now);
    var db' := RunDay(db, day, now).value;
    forall m: Measure ensures RanSums(db, db', db'.reports[|db.reports|], day, m) {
      MarkingSums(db.transfers, day, now, m);
    }
  }

  // ---------- Preservation ----------

  lemma {:induction false} NothingMarkedYet(db: Db, day: int, m: Measure)
    requires MarksOk(db) && FindReport(db.reports, day).None?
    ensures Sum(db.transfers, MarkedOn(day, m)) == 0
  {
    SumSame(db.transfers, MarkedOn(day, m), x => 0);
    SumOfZeros(db.transfers);
  }

  lemma {:induction false} FindReportExtends(reports: seq<ReportRow>, r: ReportRow, day: int)
    ensures FindReport(reports + [r], day).Some? <==> r.day == day || FindReport(reports, day).Some?
  {
    assert (reports + [r])[..|reports|] == reports;
  }

  lemma {:induction false} RunDayKeepsMarks(db: Db, db': Db, day: int, now: int)
    requires MarksOk(db) && RanDay(db, db', day, now)
    ensures MarksOk(db')
  {
    var r := db'.reports[|db.reports|];
    assert db'.reports == db.reports + [r];
    forall id: nat | id < |db'.transfers| && db'.transfers[id].reconciledAt.Some?
      ensures db'.transfers[id].status.Settled? && FindReport(db'.reports, Today(db'.transfers[id].terms.createdAt)).Some?
    {
      var t := db.transfers[id];
      FindReportExtends(db.reports, r, Today(t.terms.createdAt));
      if NewlyMarked(t, day) {
        EligibleOnItsDay(t, if IsEligible(t, Outbound, day) then Outbound else Inbound, day);
      }
    }
  }

  lemma {:induction false} RunDayKeepsReconciliation(db: Db, db': Db, day: int, now: int)
    requires ReconciliationOk(db) && FindReport(db.reports, day).None? && RanDay(db, db', day, now)
    ensures ReconciliationOk(db')
  {
    var n := |db.reports|;
    var r := db'.reports[n];
    assert db'.reports == db.reports + [r];
    RunDayKeepsMarks(db, db', day, now);
    forall i: nat, m: Measure | i < |db'.reports|
      ensures ReportTotal(m)(db'.reports[i]) == Sum(db'.transfers, MarkedOn(db'.reports[i].day, m))
    {
      assert RanSums(db, db', r, day, m);
      if i < n {
        assert db.reports[i].day != day;
      } else {
        NothingMarkedYet(db, day, m);
      }
    }
    forall m: Measure | m.FeeOf? || m.VatOf?
      ensures HoldingOf(m, db'.ext) == Sum(db'.transfers, Marked(m)) == Sum(db'.reports, ReportTotal(m))
    {
      assert HoldingOf(m, db.ext) == Sum(db.transfers, Marked(m)) == Sum(db.reports, ReportTotal(m));
      assert RanSums(db, db', r, day, m);
      SumAppend(db.reports, r, ReportTotal(m));
    }
  }

  /** Steps that change neither marks nor reports nor the two holdings, and only append unmarked transfers. */
  lemma {:induction false} OtherStepsKeepReconciliation(db: Db, db': Db)
    requires ReconciliationOk(db) && db'.reports == db.reports
    requires db'.ext.income == db.ext.income && db'.ext.vat == db.ext.vat
    requires |db.transfers| <= |db'.transfers| <= |db.transfers| + 1
    requires forall i: nat :: i < |db.transfers| ==>
      && db'.transfers[i].terms == db.transfers[i].terms && db'.transfers[i].reconciledAt == db.transfers[i].reconciledAt
      && (db.transfers[i].status.Settled? ==> db'.transfers[i].status.Settled?)
    requires forall i: nat :: |db.transfers| <= i < |db'.transfers| ==> db'.transfers[i].reconciledAt.None?
    ensures ReconciliationOk(db')
  {
    forall i: nat, m: Measure | i < |db'.reports|
      ensures ReportTotal(m)(db'.reports[i]) == Sum(db'.transfers, MarkedOn(db'.reports[i].day, m))
    {
      SameMarks(db.transfers, db'.transfers, MarkedOn(db.reports[i].day, m));
    }
    forall m: Measure | m.FeeOf? || m.VatOf?
      ensures HoldingOf(m, db'.ext) == Sum(db'.transfers, Marked(m)) == Sum(db'.reports, ReportTotal(m))
    {
      assert HoldingOf(m, db.ext) == Sum(db.transfers, Marked(m));
      SameMarks(db.transfers, db'.transfers, Marked(m));
    }
  }

  lemma {:induction false} SameMarks(a: seq<TransferRow>, b: seq<TransferRow>, f: TransferRow -> int)
    requires |a| <= |b| <= |a| + 1
    requires forall i: nat :: i < |a| ==> f(b[i]) == f(a[i])
    requires forall i: nat :: |a| <= i < |b| ==> f(b[i]) == 0
    ensures Sum(b, f) == Sum(a, f)
  {
    SumMatch(b[..|a|], a, f, f);
    if |b| == |a| {
      assert b[..|a|] == b;
    } else {
      assert b[..|a|] + [b[|a|]] == b;
      SumAppend(b[..|a|], b[|a|], f);
    }
  }
}
