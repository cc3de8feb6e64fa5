/** What a reconciliation run writes: report, marks and holdings, spelled out from the transfers and the wallets. */
module ReportEffects {
  import opened Prelude
  import opened Rows
  import opened Books
  import opened WatBusinessDay
  import opened IdempotencyFingerprint
  import opened Query
  import opened Ledger
  import opened Reconciliation
  import opened Shapes
  import opened Machine
  import opened Protocol
  import opened Holdings
  import opened Invariants
  import opened ReconciliationTheorems
  import opened ReportConditions

  // ---------- What the customers own ----------

  /** The balances from position n on. */
  function BalancesFrom(wallets: seq<WalletRow>, n: nat): int
    requires n <= |wallets|
    decreases |wallets| - n
  {
    if n == |wallets| then 0 else wallets[n].balance + BalancesFrom(wallets, n + 1)
  }

  lemma {:induction false} FromSnoc(wallets: seq<WalletRow>, row: WalletRow, n: nat)
    requires n <= |wallets|
    ensures BalancesFrom(wallets + [row], n) == BalancesFrom(wallets, n) + row.balance
    decreases |wallets| - n
  {
    if n < |wallets| {
      FromSnoc(wallets, row, n + 1);
    } else {
      assert BalancesFrom(wallets + [row], n + 1) == 0;
    }
  }

  lemma {:induction false} CustomersFromThree(wallets: seq<WalletRow>)
    requires |wallets| >= 3 && forall i :: 0 <= i < 3 ==> !wallets[i].kind.Customer?
    requires forall i :: 3 <= i < |wallets| ==> wallets[i].kind.Customer?
    ensures Sum(wallets, CustomerBalance()) == BalancesFrom(wallets, 3)
    decreases |wallets|
  {
    var front, last := wallets[..|wallets| - 1], wallets[|wallets| - 1];
    assert wallets == front + [last];
    if |wallets| > 3 {
      CustomersFromThree(front);
      FromSnoc(front, last, 3);
      SumAppend(front, last, CustomerBalance());
    } else {
      SumZeroIfAll(wallets);
    }
  }

  lemma {:induction false} SumZeroIfAll(wallets: seq<WalletRow>)
    requires forall i :: 0 <= i < |wallets| ==> !wallets[i].kind.Customer?
    ensures Sum(wallets, CustomerBalance()) == 0
  {
    SumSame(wallets, CustomerBalance(), x => 0);
    SumOfZeros(wallets);
  }

  lemma {:induction false} TotalFrom(b: Books, n: nat)
    requires n <= |b.wallets|
    ensures Sum(Balances(b)[n..], Id()) == BalancesFrom(b.wallets, n)
    decreases |b.wallets| - n
  {
    if n < |b.wallets| {
      TotalFrom(b, n + 1);
      assert Balances(b)[n..] == [Balances(b)[n]] + Balances(b)[n + 1..];
      SumConcat([Balances(b)[n]], Balances(b)[n + 1..], Id());
      SumAppend([], Balances(b)[n], Id());
      assert [] + [Balances(b)[n]] == [Balances(b)[n]];
    }
  }

  /** All balances less the three system wallets' are the customers'. */
  lemma {:induction false} CustomersAreTheRest(b: Books)
    ensures BalancesFrom(b.wallets, 3)
         == TotalBalance(b) - b.wallets[SETTLEMENT].balance - b.wallets[VAT].balance - b.wallets[INCOME].balance
  {
    TotalFrom(b, 0);
    assert Balances(b)[0..] == Balances(b);
    assert BalancesFrom(b.wallets, 0) == b.wallets[0].balance + BalancesFrom(b.wallets, 1);
    assert BalancesFrom(b.wallets, 1) == b.wallets[1].balance + BalancesFrom(b.wallets, 2);
    assert BalancesFrom(b.wallets, 2) == b.wallets[2].balance + BalancesFrom(b.wallets, 3);
  }

  // ---------- Which transfers a run takes ----------

  /** Settled, not yet reconciled, and created on that day. */
  predicate IsDue(t: TransferRow, kind: TransferKind, day: int) {
    t.terms.kind == kind && t.status.Settled? && t.reconciledAt.None? && Today(t.terms.createdAt) == day
  }

  function AmountDue(day: int): TransferRow -> int { (t: TransferRow) => if IsDue(t, Outbound, day) then t.terms.amount else 0 }

  function FeeDue(day: int): TransferRow -> int { (t: TransferRow) => if IsDue(t, Outbound, day) then t.terms.fee else 0 }

  function VatDue(day: int): TransferRow -> int { (t: TransferRow) => if IsDue(t, Outbound, day) then t.terms.vat else 0 }

  function OneDue(kind: TransferKind, day: int): TransferRow -> int { (t: TransferRow) => if IsDue(t, kind, day) then 1 else 0 }

  lemma {:induction false} EligibleIsDue(t: TransferRow, kind: TransferKind, day: int)
    ensures IsEligible(t, kind, day) <==> IsDue(t, kind, day)
  {
    WindowsPartitionTime(t.terms.createdAt, day);
  }

  lemma {:induction false} DueSums(transfers: seq<TransferRow>, day: int)
    ensures Sum(transfers, Due(Outbound, day, AmountOf)) == Sum(transfers, AmountDue(day))
    ensures Sum(transfers, Due(Outbound, day, FeeOf)) == Sum(transfers, FeeDue(day))
    ensures Sum(transfers, Due(Outbound, day, VatOf)) == Sum(transfers, VatDue(day))
    ensures forall kind: TransferKind :: Sum(transfers, Due(kind, day, CountOf)) == Sum(transfers, OneDue(kind, day))
  {
    forall i, kind: TransferKind | 0 <= i < |transfers| ensures IsEligible(transfers[i], kind, day) <==> IsDue(transfers[i], kind, day) {
      EligibleIsDue(transfers[i], kind, day);
    }
    SumSame(transfers, Due(Outbound, day, AmountOf), AmountDue(day));
    SumSame(transfers, Due(Outbound, day, FeeOf), FeeDue(day));
    SumSame(transfers, Due(Outbound, day, VatOf), VatDue(day));
    forall kind: TransferKind ensures Sum(transfers, Due(kind, day, CountOf)) == Sum(transfers, OneDue(kind, day)) {
      SumSame(transfers, Due(kind, day, CountOf), OneDue(kind, day));
    }
  }

  // ---------- The report ----------

  /** The totals of a report are those of the outbound transfers due on its day. */
  ghost predicate Totals(transfers: seq<TransferRow>, r: ReportRow, day: int) {
    && r.day == day && r.totalAmount == Sum(transfers, AmountDue(day)) && r.totalFee == Sum(transfers, FeeDue(day))
    && r.totalVat == Sum(transfers, VatDue(day)) && r.count == Sum(transfers, OneDue(Outbound, day))
  }

  /** Its four comparisons: the customers' balances and the three system wallets against the holdings after the run. */
  ghost predicate Compares(b: Books, before: External, after: External, r: ReportRow) {
    && r.ledger.expected == r.ledger.actual == after.ledger.balance == BalancesFrom(b.wallets, 3)
    && r.settlement.expected == r.settlement.actual == after.settlement.balance == b.wallets[SETTLEMENT].balance
    && r.income.expected == b.wallets[INCOME].balance && r.income.actual == after.income.balance == before.income.balance + r.totalFee
    && r.vat.expected == b.wallets[VAT].balance && r.vat.actual == after.vat.balance == before.vat.balance + r.totalVat
    && (r.balanced <==> r.income.expected == r.income.actual && r.vat.expected == r.vat.actual)
  }

  /** Exactly the transfers due are marked, at this instant. */
  ghost predicate Marks(before: seq<TransferRow>, after: seq<TransferRow>, day: int, now: int) {
    && |after| == |before|
    && forall i: nat :: i < |before| ==>
         after[i] == (if IsDue(before[i], Outbound, day) || IsDue(before[i], Inbound, day)
                      then TransferRow(before[i].terms, Settled, before[i].externalReference, now, Some(now)) else before[i])
  }

  lemma {:induction false} RunTotals(db: Db, day: int, now: int)
    requires RunDay(db, day, now).Ok?
    ensures |RunDay(db, day, now).value.reports| == |db.reports| + 1
    ensures Totals(db.transfers, RunDay(db, day, now).value.reports[|db.reports|], day)
  {
    RunDayLoops(db, day, now);
    SelectionTotal(db.transfers, Outbound, day, AmountOf);
    SelectionTotal(db.transfers, Outbound, day, FeeOf);
    SelectionTotal(db.transfers, Outbound, day, VatOf);
    SelectionTotal(db.transfers, Outbound, day, CountOf);
    DueSums(db.transfers, day);
    var r := RunDay(db, day, now).value.reports[|db.reports|];
    assert ReportTotal(AmountOf)(r) == r.totalAmount && ReportTotal(FeeOf)(r) == r.totalFee;
    assert ReportTotal(VatOf)(r) == r.totalVat && ReportTotal(CountOf)(r) == r.count;
  }

  lemma {:induction false} RunMarks(db: Db, day: int, now: int)
    requires RunDay(db, day, now).Ok?
    ensures Marks(db.transfers, RunDay(db, day, now).value.transfers, day, now)
  {
    RunDayEffect(db, day, now);
    forall i: nat | i < |db.transfers|
      ensures NewlyMarked(db.transfers[i], day) <==> IsDue(db.transfers[i], Outbound, day) || IsDue(db.transfers[i], Inbound, day)
    {
      EligibleIsDue(db.transfers[i], Outbound, day);
      EligibleIsDue(db.transfers[i], Inbound, day);
    }
  }

  lemma {:induction false} RunCompares(db: Db, day: int, now: int)
    requires WalletsOk(db.books.wallets) && RunDay(db, day, now).Ok?
    ensures var db' := RunDay(db, day, now).value;
      |db'.reports| == |db.reports| + 1 && Compares(db.books, db.ext, db'.ext, db'.reports[|db.reports|])
  {
    RunDayEffect(db, day, now);
    CustomersFromThree(db.books.wallets);
  }

  /** Everything a run changes. */
  ghost predicate Reports(db: Db, db': Db, day: int, now: int) {
    && |db'.reports| == |db.reports| + 1
    && var r := db'.reports[|db.reports|];
       && db' == db.(transfers := db'.transfers, ext := db'.ext, reports := db.reports + [r])
       && Totals(db.transfers, r, day) && Compares(db.books, db.ext, db'.ext, r) && Marks(db.transfers, db'.transfers, day, now)
  }

  lemma {:induction false} RunWritesOne(db: Db, day: int, now: int)
    requires RunDay(db, day, now).Ok?
    ensures var db' := RunDay(db, day, now).value;
      |db'.reports| == |db.reports| + 1
      && db' == db.(transfers := db'.transfers, ext := db'.ext, reports := db.reports + [db'.reports[|db.reports|]])
  {
    RunDayEffect(db, day, now);
  }

  lemma {:induction false} RunReports(db: Db, day: int, now: int)
    requires WalletsOk(db.books.wallets) && RunDay(db, day, now).Ok?
    ensures Reports(db, RunDay(db, day, now).value, day, now)
  {
    RunWritesOne(db, day, now);
    RunTotals(db, day, now);
    RunMarks(db, day, now);
    RunCompares(db, day, now);
  }

  /** What a run writes, in every reachable state: its totals, its comparisons, its marks, and nothing else. */
  lemma {:induction false} ReportSaysWhatItFound(w: World, day: int, now: int)
    requires Reachable(w) && WritesReport(w, day, now)
    ensures AfterReport(w, day, now) == w.(db := AfterReport(w, day, now).db) && Reports(w.db, AfterReport(w, day, now).db, day, now)
    ensures var b := w.db.books;
      BalancesFrom(b.wallets, 3) == TotalBalance(b) - b.wallets[SETTLEMENT].balance - b.wallets[VAT].balance - b.wallets[INCOME].balance
  {
    ReachableHasInv(w);
    RunReports(w.db, day, now);
    CustomersAreTheRest(w.db.books);
  }

  /** A day's run is a step: it writes its report, or changes nothing when there is one already or an addition overflows. */
  lemma {:induction false} RunIsStep(w: World, day: int, now: int)
    ensures Step(w, ReconcileDay(day, now)) == if WritesReport(w, day, now) then AfterReport(w, day, now) else w
  {
  }

  // ---------- Versions of the holdings ----------

  lemma {:induction false} OutboundVersions(a: Tally, ids: seq<nat>, now: int)
    requires InRange(a.transfers, ids) && ReconcileEach(a, ids, Outbound, now).Ok?
    ensures var e, e' := a.ext, ReconcileEach(a, ids, Outbound, now).value.ext;
      && e'.ledger.version == e.ledger.version + |ids| && e'.settlement.version == e.settlement.version + |ids|
      && e'.income.version == e.income.version + |ids| && e'.vat.version == e.vat.version + |ids|
    decreases |ids|
  {
    if |ids| > 0 { OutboundVersions(ReconcileOutbound(a, ids[0], now).value, ids[1..], now); }
  }

  lemma {:induction false} InboundVersions(a: Tally, ids: seq<nat>, now: int)
    requires InRange(a.transfers, ids) && ReconcileEach(a, ids, Inbound, now).Ok?
    ensures var e, e' := a.ext, ReconcileEach(a, ids, Inbound, now).value.ext;
      && e'.ledger.version == e.ledger.version + |ids| && e'.settlement.version == e.settlement.version + |ids|
      && e'.income == e.income && e'.vat == e.vat
    decreases |ids|
  {
    if |ids| > 0 { InboundVersions(ReconcileInbound(a, ids[0], now).value, ids[1..], now); }
  }

  lemma {:induction false} LoopVersions(db: Db, day: int, now: int)
    requires RunDay(db, day, now).Ok?
    ensures var e, e' := db.ext, RunDay(db, day, now).value.ext;
      var outs, ins := |SettledForReconciliation(db.transfers, Outbound, day)|, |SettledForReconciliation(db.transfers, Inbound, day)|;
      && e'.income.version == e.income.version + outs && e'.vat.version == e.vat.version + outs
      && e.ledger.version + outs + ins <= e'.ledger.version <= e.ledger.version + outs + ins + 1
      && e.settlement.version + outs + ins <= e'.settlement.version <= e.settlement.version + outs + ins + 1
  {
    var outs := SettledForReconciliation(db.transfers, Outbound, day);
    var ins := SettledForReconciliation(db.transfers, Inbound, day);
    SettledIdsInRange(db.transfers, Outbound, day);
    SettledIdsInRange(db.transfers, Inbound, day);
    var start := Tally(db.ext, db.transfers, 0, 0, 0);
    var a := ReconcileEach(start, outs, Outbound, now).value;
    OutboundVersions(start, outs, now);
    InboundVersions(a, ins, now);
    AlignmentVersions(db, ReconcileEach(a, ins, Inbound, now).value, day, |outs|);
  }

  lemma {:induction false} AlignmentVersions(db: Db, b: Tally, day: int, count: nat)
    requires AfterLoops(db, b, day, count).Ok?
    ensures var e, e' := b.ext, AfterLoops(db, b, day, count).value.ext;
      && e'.income == e.income && e'.vat == e.vat
      && e.ledger.version <= e'.ledger.version <= e.ledger.version + 1
      && e.settlement.version <= e'.settlement.version <= e.settlement.version + 1
  {
  }

  lemma {:induction false} SelectionLength(transfers: seq<TransferRow>, kind: TransferKind, day: int)
    ensures |SettledForReconciliation(transfers, kind, day)| == Sum(transfers, OneDue(kind, day))
  {
    SelectionTotal(transfers, kind, day, CountOf);
    CountIsLength(transfers, SettledForReconciliation(transfers, kind, day));
    DueSums(transfers, day);
  }

  /** Every write of a holding counts one version: one for each transfer taken, and one more where the alignment moved it. */
  lemma {:induction false} RunCountsVersions(db: Db, day: int, now: int)
    requires RunDay(db, day, now).Ok?
    ensures var e, e' := db.ext, RunDay(db, day, now).value.ext;
      var outs, ins := Sum(db.transfers, OneDue(Outbound, day)), Sum(db.transfers, OneDue(Inbound, day));
      && e'.income.version == e.income.version + outs && e'.vat.version == e.vat.version + outs
      && e.ledger.version + outs + ins <= e'.ledger.version <= e.ledger.version + outs + ins + 1
      && e.settlement.version + outs + ins <= e'.settlement.version <= e.settlement.version + outs + ins + 1
  {
    LoopVersions(db, day, now);
    SelectionLength(db.transfers, Outbound, day);
    SelectionLength(db.transfers, Inbound, day);
  }
}
