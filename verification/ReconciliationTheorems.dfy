/** Main results on reconciliation reports, over every run. */
module ReconciliationTheorems {
  import opened Prelude
  import opened Rows
  import opened Books
  import opened WatBusinessDay
  import opened Ledger
  import opened Reconciliation
  import opened Machine
  import opened Shapes
  import opened Protocol
  import opened Reversals
  import opened Charges
  import opened Holdings
  import opened Invariants
  import opened Persistence
  import opened MoneyTheorems

  // ---------- What a report's discrepancies are ----------

  /** Outbound and still neither failed nor reconciled. */
  predicate IsOpen(t: TransferRow) { t.terms.kind.Outbound? && !t.status.Failed? && t.reconciledAt.None? }

  function OpenLevy(l: Levy): TransferRow -> int {
    (t: TransferRow) => if IsOpen(t) then Amount(l, t.terms) else 0
  }

  /** The levy of a transfer once for each of its reposts. */
  function RepostedLevy(l: Levy): ((TransferRow, int)) -> int {
    (p: (TransferRow, int)) => if p.0.terms.kind.Outbound? then p.1 * Amount(l, p.0.terms) else 0
  }

  function OpenPart(l: Levy): ((TransferRow, int)) -> int {
    (p: (TransferRow, int)) => if IsOpen(p.0) then Amount(l, p.0.terms) else 0
  }

  function MeasureOf(l: Levy): Measure { if l.Fee? then FeeOf else VatOf }

  function MarkedPart(l: Levy): ((TransferRow, int)) -> int {
    (p: (TransferRow, int)) => if p.0.terms.kind.Outbound? && p.0.reconciledAt.Some? then Amount(l, p.0.terms) else 0
  }

  function Both(f: ((TransferRow, int)) -> int, g: ((TransferRow, int)) -> int): ((TransferRow, int)) -> int {
    (p: (TransferRow, int)) => f(p) + g(p)
  }

  lemma {:induction false} Distribute(k: int, x: int)
    ensures (1 - k) * x == x - k * x && (1 - (k + 1)) * x == -(k * x)
  {
  }

  lemma {:induction false} TermByTerm(p: (TransferRow, int), l: Levy)
    requires p.0.reconciledAt.Some? ==> p.0.status.Settled?
    ensures Both(MarkedPart(l), OpenPart(l))(p) == Both(Earned(l), RepostedLevy(l))(p)
  {
    var k, x := p.1 + FailedNow(p.0), Amount(l, p.0.terms);
    Distribute(k, x);
    Distribute(p.1, x);
    assert k == p.1 || k == p.1 + 1;
    assert p.0.terms.kind.Outbound? ==> Earned(l)(p) == x - k * x && RepostedLevy(l)(p) == p.1 * x;
    assert MarkedPart(l)(p) + OpenPart(l)(p) == (if p.0.terms.kind.Outbound? && !p.0.status.Failed? then x else 0);
  }

  function HoldingFor(l: Levy, r: ReportRow): Holding { if l.Fee? then r.income else r.vat }

  lemma {:induction false} PartsAddUp(w: World, l: Levy)
    requires MarksOk(w.db)
    ensures Sum(WithReposts(w), MarkedPart(l)) + Sum(WithReposts(w), OpenPart(l))
         == Sum(WithReposts(w), Earned(l)) + Sum(WithReposts(w), RepostedLevy(l))
  {
    var s := WithReposts(w);
    forall i | 0 <= i < |s| ensures Both(MarkedPart(l), OpenPart(l))(s[i]) == Both(Earned(l), RepostedLevy(l))(s[i]) {
      TermByTerm(s[i], l);
    }
    SumSame(s, Both(MarkedPart(l), OpenPart(l)), Both(Earned(l), RepostedLevy(l)));
    SumAdd(s, MarkedPart(l), OpenPart(l), Both(MarkedPart(l), OpenPart(l)));
    SumAdd(s, Earned(l), RepostedLevy(l), Both(Earned(l), RepostedLevy(l)));
  }

  lemma {:induction false} PartsAreSums(w: World, l: Levy)
    ensures Sum(WithReposts(w), MarkedPart(l)) == Sum(w.db.transfers, Marked(MeasureOf(l)))
    ensures Sum(WithReposts(w), OpenPart(l)) == Sum(w.db.transfers, OpenLevy(l))
  {
    SumMatch(WithReposts(w), w.db.transfers, MarkedPart(l), Marked(MeasureOf(l)));
    SumMatch(WithReposts(w), w.db.transfers, OpenPart(l), OpenLevy(l));
  }

  /** In every reachable state: holding + open levies = ledger balance + levies of reposts. */
  lemma {:induction false} HoldingsEquation(w: World, l: Levy)
    requires MarksOk(w.db) && HoldingsOk(w.db) && LevyOk(w, l)
    ensures HoldingOf(MeasureOf(l), w.db.ext) + Sum(w.db.transfers, OpenLevy(l))
         == w.db.books.wallets[Account(l)].balance + Sum(WithReposts(w), RepostedLevy(l))
  {
    PartsAddUp(w, l);
    PartsAreSums(w, l);
  }

  /** A run that writes a report. */
  ghost predicate WritesReport(w: World, day: int, now: int) {
    FindReport(w.db.reports, day).None? && RunDay(w.db, day, now).Ok?
  }

  ghost function AfterReport(w: World, day: int, now: int): World
    requires WritesReport(w, day, now)
  {
    w.(db := RunDay(w.db, day, now).value)
  }

  ghost function NewReport(w: World, day: int, now: int): ReportRow
    requires WritesReport(w, day, now)
  {
    RunDay(w.db, day, now).value.reports[|w.db.reports|]
  }

  lemma {:induction false} ReportKeepsInv(w: World, day: int, now: int)
    requires Inv(w) && WritesReport(w, day, now)
    ensures Inv(AfterReport(w, day, now))
  {
    ReconcileKeepsInv(w, day, now);
  }

  /** The exact discrepancy of every report: levies of reposts minus levies of transfers still open after the run. */
  lemma {:induction false} DiscrepancyExplained(w: World, day: int, now: int, l: Levy)
    requires Reachable(w) && WritesReport(w, day, now)
    ensures var w' := AfterReport(w, day, now);
      HoldingFor(l, NewReport(w, day, now)).Discrepancy()
      == Sum(WithReposts(w'), RepostedLevy(l)) - Sum(w'.db.transfers, OpenLevy(l))
  {
    ReachableHasInv(w);
    DiscrepancyOf(w, day, now, l);
  }

  lemma {:induction false} DiscrepancyOf(w: World, day: int, now: int, l: Levy)
    requires Inv(w) && WritesReport(w, day, now)
    ensures var w' := AfterReport(w, day, now);
      HoldingFor(l, NewReport(w, day, now)).Discrepancy()
      == Sum(WithReposts(w'), RepostedLevy(l)) - Sum(w'.db.transfers, OpenLevy(l))
  {
    ReportKeepsInv(w, day, now);
    RunDayEffect(w.db, day, now);
    HoldingsEquation(AfterReport(w, day, now), l);
  }

  lemma {:induction false} NoRepostedLevy(w: World, l: Levy)
    requires RepostFree(w.log)
    ensures Sum(WithReposts(w), RepostedLevy(l)) == 0
  {
    forall i: nat | i < |w.db.transfers| ensures RepostedLevy(l)(WithReposts(w)[i]) == 0 {
      NoReposts(w.log, i);
    }
    SumZero(WithReposts(w), RepostedLevy(l));
  }

  lemma {:induction false} OpenLevyZero(w: World, l: Levy)
    requires TermsOkAll(w.db)
    ensures Sum(w.db.transfers, OpenLevy(l)) >= 0
    ensures Sum(w.db.transfers, OpenLevy(l)) == 0 <==> forall id: nat :: id < |w.db.transfers| ==> !IsOpen(w.db.transfers[id])
  {
    assert forall id: nat :: id < |w.db.transfers| ==> TermsOk(w.db.transfers[id].terms, |w.db.books.wallets|);
    SumNonNegative(w.db.transfers, OpenLevy(l));
    SumZero(w.db.transfers, OpenLevy(l));
    assert forall id: nat :: id < |w.db.transfers| ==> (OpenLevy(l)(w.db.transfers[id]) == 0 <==> !IsOpen(w.db.transfers[id]));
  }

  lemma {:induction false} BalancedWhenClosed(w: World, r: ReportRow)
    requires TermsOkAll(w.db)
    requires r.balanced <==> r.income.Discrepancy() == 0 && r.vat.Discrepancy() == 0
    requires r.income.Discrepancy() == -Sum(w.db.transfers, OpenLevy(Levy.Fee))
    requires r.vat.Discrepancy() == -Sum(w.db.transfers, OpenLevy(Levy.Vat))
    ensures r.balanced <==> forall id: nat :: id < |w.db.transfers| ==> !IsOpen(w.db.transfers[id])
  {
    OpenLevyZero(w, Levy.Fee);
    OpenLevyZero(w, Levy.Vat);
  }

  /** Without reposts a report is Balanced exactly when no outbound transfer is left neither failed nor reconciled. */
  lemma {:induction false} BalancedIffNothingOpen(w: World, day: int, now: int)
    requires Reachable(w) && WritesReport(w, day, now) && RepostFree(w.log)
    ensures var w' := AfterReport(w, day, now); var r := NewReport(w, day, now);
      && r.income.Discrepancy() == -Sum(w'.db.transfers, OpenLevy(Levy.Fee))
      && r.vat.Discrepancy() == -Sum(w'.db.transfers, OpenLevy(Levy.Vat))
      && (r.balanced <==> forall id: nat :: id < |w'.db.transfers| ==> !IsOpen(w'.db.transfers[id]))
  {
    ReachableHasInv(w);
    BothDiscrepancies(w, day, now);
    BalanceOf(w, day, now);
  }

  lemma {:induction false} BalanceOf(w: World, day: int, now: int)
    requires Inv(w) && WritesReport(w, day, now) && RepostFree(w.log)
    ensures var w' := AfterReport(w, day, now);
      NewReport(w, day, now).balanced <==> forall id: nat :: id < |w'.db.transfers| ==> !IsOpen(w'.db.transfers[id])
  {
    ReportKeepsInv(w, day, now);
    OnlyLeviesCanImbalance(w, day, now);
    BothDiscrepancies(w, day, now);
    BalancedWhenClosed(AfterReport(w, day, now), NewReport(w, day, now));
  }

  lemma {:induction false} BothDiscrepancies(w: World, day: int, now: int)
    requires Inv(w) && WritesReport(w, day, now) && RepostFree(w.log)
    ensures var w' := AfterReport(w, day, now); var r := NewReport(w, day, now);
      && r.income.Discrepancy() == -Sum(w'.db.transfers, OpenLevy(Levy.Fee))
      && r.vat.Discrepancy() == -Sum(w'.db.transfers, OpenLevy(Levy.Vat))
  {
    var w' := AfterReport(w, day, now);
    DiscrepancyOf(w, day, now, Levy.Fee);
    DiscrepancyOf(w, day, now, Levy.Vat);
    NoRepostedLevy(w', Levy.Fee);
    NoRepostedLevy(w', Levy.Vat);
  }

  // ---------- Holdings, reports and reconciled transfers ----------

  /** Holdings, reports and reconciled transfers tell the same story, report by report and in total. */
  lemma {:induction false} HoldingsMatchReports(w: World)
    requires Reachable(w)
    ensures var db := w.db;
      && db.ext.income.balance == Sum(db.transfers, Marked(FeeOf)) == Sum(db.reports, ReportTotal(FeeOf))
      && db.ext.vat.balance == Sum(db.transfers, Marked(VatOf)) == Sum(db.reports, ReportTotal(VatOf))
      && (forall i: nat, m: Measure :: i < |db.reports| ==>
            ReportTotal(m)(db.reports[i]) == Sum(db.transfers, MarkedOn(db.reports[i].day, m)))
      && (forall i, j :: 0 <= i < j < |db.reports| ==> db.reports[i].day != db.reports[j].day)
  {
    ReachableHasInv(w);
    var db := w.db;
    assert HoldingOf(FeeOf, db.ext) == Sum(db.transfers, Marked(FeeOf)) == Sum(db.reports, ReportTotal(FeeOf));
    assert HoldingOf(VatOf, db.ext) == Sum(db.transfers, Marked(VatOf)) == Sum(db.reports, ReportTotal(VatOf));
  }

  /** A report counts exactly the transfers its own run marked, and those lie in its day's window. */
  lemma {:induction false} ReportCountsItsOwnMarks(w: World, day: int, now: int)
    requires ReconciliationOk(w.db) && WritesReport(w, day, now)
    ensures var w' := AfterReport(w, day, now); var r := NewReport(w, day, now);
      && (forall m: Measure :: ReportTotal(m)(r) == Sum(w'.db.transfers, MarkedOn(day, m)) && Sum(w.db.transfers, MarkedOn(day, m)) == 0)
      && (forall id: nat :: id < |w.db.transfers| && w'.db.transfers[id].reconciledAt != w.db.transfers[id].reconciledAt ==>
            w.db.transfers[id].reconciledAt.None? && w.db.transfers[id].status.Settled? && Today(w.db.transfers[id].terms.createdAt) == day)
  {
    RunDayEffect(w.db, day, now);
    var w' := AfterReport(w, day, now);
    forall m: Measure
      ensures ReportTotal(m)(NewReport(w, day, now)) == Sum(w'.db.transfers, MarkedOn(day, m)) && Sum(w.db.transfers, MarkedOn(day, m)) == 0
    {
      assert RanSums(w.db, w'.db, NewReport(w, day, now), day, m);
      NothingMarkedYet(w.db, day, m);
    }
    forall id: nat | id < |w.db.transfers| && w'.db.transfers[id].reconciledAt != w.db.transfers[id].reconciledAt
      ensures w.db.transfers[id].reconciledAt.None? && w.db.transfers[id].status.Settled? && Today(w.db.transfers[id].terms.createdAt) == day
    {
      assert NewlyMarked(w.db.transfers[id], day);
      EligibleOnItsDay(w.db.transfers[id], if IsEligible(w.db.transfers[id], Outbound, day) then Outbound else Inbound, day);
    }
  }

  /** Reconciliation force-aligns ledger and settlement, so only income and VAT can make a report Imbalanced. */
  lemma {:induction false} OnlyLeviesCanImbalance(w: World, day: int, now: int)
    requires WritesReport(w, day, now)
    ensures var r := NewReport(w, day, now);
      && r.ledger.Discrepancy() == 0 && r.settlement.Discrepancy() == 0
      && (r.balanced <==> r.income.Discrepancy() == 0 && r.vat.Discrepancy() == 0)
  {
    RunDayEffect(w.db, day, now);
  }

  // ---------- Over time ----------

  /** A reconciled transfer keeps its one reconciliation instant for ever. */
  lemma {:induction false} ReconciledOnce(w: World, v: World, id: nat)
    requires Reachable(w) && Leads(w, v) && id < |w.db.transfers| && w.db.transfers[id].reconciledAt.Some?
    ensures id < |v.db.transfers| && v.db.transfers[id].reconciledAt == w.db.transfers[id].reconciledAt
  {
    ReachableHasInv(w);
    LaterExtends(w, v);
    assert RowPersists(w.db, w.db.transfers[id], v.db.transfers[id]);
  }

  /** Once a day has its report, the reconciled set of that day is frozen: no row joins, none leaves, old or new. */
  lemma {:induction false} DayIsFrozen(w: World, v: World, day: int, id: nat)
    requires Reachable(w) && Leads(w, v) && HasReport(w.db, day)
    requires id < |v.db.transfers| && Today(v.db.transfers[id].terms.createdAt) == day
    ensures v.db.transfers[id].reconciledAt
         == (if id < |w.db.transfers| then w.db.transfers[id].reconciledAt else None)
  {
    ReachableHasInv(w);
    LaterExtends(w, v);
    if id < |w.db.transfers| {
      assert RowPersists(w.db, w.db.transfers[id], v.db.transfers[id]);
    }
  }

  /** Without reposts, an outbound transfer its day's report missed, and that has not failed, makes every later report Imbalanced. */
  lemma {:induction false} MissedTransferImbalancesLaterReports(w: World, v: World, id: nat, day: int, now: int)
    requires Reachable(w) && Leads(w, v) && id in w.db.jobs && id < |w.db.transfers|
    requires w.db.transfers[id].reconciledAt.None? && HasReport(w.db, Today(w.db.transfers[id].terms.createdAt))
    requires RepostFree(v.log) && WritesReport(v, day, now)
    requires id < |v.db.transfers| && !v.db.transfers[id].status.Failed?
    ensures !NewReport(v, day, now).balanced
  {
    ReachableHasInv(w);
    var own := Today(w.db.transfers[id].terms.createdAt);
    LaterExtends(w, v);
    assert RowPersists(w.db, w.db.transfers[id], v.db.transfers[id]);
    ReportStays(w.db.reports, v.db.reports, own);
    MissedNow(v, id, day, now);
  }

  lemma {:induction false} MissedNow(v: World, id: nat, day: int, now: int)
    requires Inv(v) && id < |v.db.transfers| && IsOpen(v.db.transfers[id])
    requires HasReport(v.db, Today(v.db.transfers[id].terms.createdAt))
    requires RepostFree(v.log) && WritesReport(v, day, now)
    ensures !NewReport(v, day, now).balanced
  {
    RunDayEffect(v.db, day, now);
    BalanceOf(v, day, now);
    var v' := AfterReport(v, day, now);
    if NewlyMarked(v.db.transfers[id], day) {
      EligibleOnItsDay(v.db.transfers[id], Outbound, day);
    }
    assert IsOpen(v'.db.transfers[id]);
  }
}
