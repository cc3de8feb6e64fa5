/** When a reconciliation run writes its report, for every state whose transfers and balances are well formed. */
module ReportConditions {
  import opened Prelude
  import opened Rows
  import opened Books
  import opened IdempotencyFingerprint
  import opened Query
  import opened Ledger
  import opened Reconciliation
  import opened Shapes
  import opened Machine
  import opened Protocol
  import opened Holdings
  import opened Invariants
  import opened MoneyTheorems
  import opened ReconciliationTheorems

  /** The measure of a transfer that a run of that day is to reconcile. */
  function Due(kind: TransferKind, day: int, m: Measure): TransferRow -> int {
    (t: TransferRow) => if IsEligible(t, kind, day) then Measured(m, t.terms) else 0
  }

  /** Adding the parts of a sum one by one stays inside 64 bits; no part, no addition. */
  predicate Fits(balance: int, sum: int) { sum == 0 || balance + sum <= INT64_MAX }

  /** The customers' ledger balances together, which the ledger holding is set to. */
  function OwedToCustomers(db: Db): int { Sum(db.books.wallets, CustomerBalance()) }

  /** What the ledger holding stands at after the outbound loop. */
  function LedgerBetween(db: Db, day: int): int {
    db.ext.ledger.balance - Sum(db.transfers, Due(Outbound, day, AmountOf)) - Sum(db.transfers, Due(Outbound, day, FeeOf))
    - Sum(db.transfers, Due(Outbound, day, VatOf))
  }

  /** No credit to a holding overflows. */
  predicate HoldingsFit(db: Db, day: int) {
    && Fits(db.ext.settlement.balance, Sum(db.transfers, Due(Outbound, day, AmountOf)))
    && Fits(db.ext.income.balance, Sum(db.transfers, Due(Outbound, day, FeeOf)))
    && Fits(db.ext.vat.balance, Sum(db.transfers, Due(Outbound, day, VatOf)))
    && Fits(LedgerBetween(db, day), Sum(db.transfers, Due(Inbound, day, AmountOf)))
    && (|| OwedToCustomers(db) <= INT64_MAX
        || OwedToCustomers(db) <= LedgerBetween(db, day) + Sum(db.transfers, Due(Inbound, day, AmountOf)))
  }

  // ---------- The loops ----------

  ghost predicate Charged(transfers: seq<TransferRow>, ids: seq<nat>) {
    && InRange(transfers, ids)
    && forall i :: 0 <= i < |ids| ==>
         var t := transfers[ids[i]].terms; t.amount > 0 && t.fee > 0 && t.vat > 0 && t.total == t.amount + t.fee + t.vat
  }

  lemma {:induction false} ChargedTotals(transfers: seq<TransferRow>, ids: seq<nat>, m: Measure)
    requires Charged(transfers, ids)
    ensures TotalOver(transfers, ids, m) >= 0 && (TotalOver(transfers, ids, m) == 0 <==> |ids| == 0)
    decreases |ids|
  {
    if |ids| > 0 { ChargedTotals(transfers, ids[1..], m); }
  }

  ghost predicate NotBelowLong(ext: External) {
    ext.settlement.balance >= INT64_MIN && ext.income.balance >= INT64_MIN && ext.vat.balance >= INT64_MIN
  }

  /** One outbound transfer. */
  lemma {:induction false} OutboundStep(a: Tally, id: nat, now: int)
    requires id < |a.transfers| && NotBelowLong(a.ext)
    requires var t := a.transfers[id].terms; t.amount > 0 && t.fee > 0 && t.vat > 0 && t.total == t.amount + t.fee + t.vat
    ensures var t := a.transfers[id].terms; var r := ReconcileOutbound(a, id, now);
      && (r.Ok? <==> a.ext.settlement.balance + t.amount <= INT64_MAX && a.ext.income.balance + t.fee <= INT64_MAX
                     && a.ext.vat.balance + t.vat <= INT64_MAX)
      && (r.Ok? ==>
            && r.value.transfers == a.transfers[id := MarkReconciled(a.transfers[id], now)]
            && r.value.ext.settlement.balance == a.ext.settlement.balance + t.amount
            && r.value.ext.income.balance == a.ext.income.balance + t.fee && r.value.ext.vat.balance == a.ext.vat.balance + t.vat
            && r.value.ext.ledger.balance == a.ext.ledger.balance - t.amount - t.fee - t.vat)
  {
  }

  lemma {:induction false} MarkedStaysCharged(transfers: seq<TransferRow>, ids: seq<nat>, now: int)
    requires Charged(transfers, ids) && |ids| > 0
    ensures var marked := transfers[ids[0] := MarkReconciled(transfers[ids[0]], now)];
      Charged(marked, ids[1..]) && forall m: Measure :: TotalOver(marked, ids[1..], m) == TotalOver(transfers, ids[1..], m)
  {
    var marked := transfers[ids[0] := MarkReconciled(transfers[ids[0]], now)];
    forall m: Measure ensures TotalOver(marked, ids[1..], m) == TotalOver(transfers, ids[1..], m) {
      TotalOverTerms(marked, transfers, ids[1..], m);
    }
  }

  ghost predicate OutboundFits(a: Tally, ids: seq<nat>)
    requires InRange(a.transfers, ids)
  {
    && Fits(a.ext.settlement.balance, TotalOver(a.transfers, ids, AmountOf))
    && Fits(a.ext.income.balance, TotalOver(a.transfers, ids, FeeOf))
    && Fits(a.ext.vat.balance, TotalOver(a.transfers, ids, VatOf))
  }

  /** The first loop goes through exactly when the three holdings can take the sums. */
  lemma {:induction false} OutboundLoopIff(a: Tally, ids: seq<nat>, now: int)
    requires Charged(a.transfers, ids) && NotBelowLong(a.ext)
    ensures var r := ReconcileEach(a, ids, Outbound, now);
      && (r.Ok? <==> OutboundFits(a, ids))
      && (r.Ok? ==>
            && r.value.ext.settlement.balance == a.ext.settlement.balance + TotalOver(a.transfers, ids, AmountOf)
            && r.value.ext.ledger.balance == a.ext.ledger.balance - TotalOver(a.transfers, ids, AmountOf)
                 - TotalOver(a.transfers, ids, FeeOf) - TotalOver(a.transfers, ids, VatOf))
    decreases |ids|
  {
    if |ids| > 0 {
      OutboundStep(a, ids[0], now);
      MarkedStaysCharged(a.transfers, ids, now);
      ChargedTotals(a.transfers, ids[1..], AmountOf);
      ChargedTotals(a.transfers, ids[1..], FeeOf);
      ChargedTotals(a.transfers, ids[1..], VatOf);
      var r := ReconcileOutbound(a, ids[0], now);
      if r.Ok? { OutboundLoopIff(r.value, ids[1..], now); }
    }
  }

  ghost predicate Positive(transfers: seq<TransferRow>, ids: seq<nat>) {
    InRange(transfers, ids) && forall i :: 0 <= i < |ids| ==> transfers[ids[i]].terms.amount > 0
  }

  lemma {:induction false} PositiveTotal(transfers: seq<TransferRow>, ids: seq<nat>)
    requires Positive(transfers, ids)
    ensures TotalOver(transfers, ids, AmountOf) >= 0 && (TotalOver(transfers, ids, AmountOf) == 0 <==> |ids| == 0)
    decreases |ids|
  {
    if |ids| > 0 { PositiveTotal(transfers, ids[1..]); }
  }

  /** The second loop goes through exactly when the ledger holding can take the sum. */
  lemma {:induction false} InboundLoopIff(a: Tally, ids: seq<nat>, now: int)
    requires Positive(a.transfers, ids) && a.ext.ledger.balance >= INT64_MIN
    ensures var r := ReconcileEach(a, ids, Inbound, now); var sum := TotalOver(a.transfers, ids, AmountOf);
      && (r.Ok? <==> Fits(a.ext.ledger.balance, sum))
      && (r.Ok? ==> r.value.ext.ledger.balance == a.ext.ledger.balance + sum)
    decreases |ids|
  {
    if |ids| > 0 {
      var marked := a.transfers[ids[0] := MarkReconciled(a.transfers[ids[0]], now)];
      TotalOverTerms(marked, a.transfers, ids[1..], AmountOf);
      PositiveTotal(a.transfers, ids[1..]);
      var r := ReconcileInbound(a, ids[0], now);
      if r.Ok? { InboundLoopIff(r.value, ids[1..], now); }
    }
  }

  // ---------- The selections and their sums ----------

  function MarkedAt(kind: TransferKind, day: int, m: Measure): TransferRow -> int {
    (t: TransferRow) =>
      if t.terms.kind == kind && t.status.Settled? && t.reconciledAt.Some? && IsEligible(t.(reconciledAt := None), kind, day)
      then Measured(m, t.terms) else 0
  }

  function MarkedOrDue(kind: TransferKind, day: int, m: Measure): TransferRow -> int {
    (t: TransferRow) => MarkedAt(kind, day, m)(t) + Due(kind, day, m)(t)
  }

  lemma {:induction false} MarkingOne(t: TransferRow, kind: TransferKind, day: int, m: Measure)
    requires IsEligible(t, kind, day)
    ensures MarkedAt(kind, day, m)(MarkReconciled(t, 0)) == Measured(m, t.terms) == MarkedOrDue(kind, day, m)(t)
    ensures MarkedAt(kind, day, m)(t) == 0
  {
    assert MarkReconciled(t, 0).(reconciledAt := None) == t.(updatedAt := 0);
  }

  lemma {:induction false} MarkedSelection(transfers: seq<TransferRow>, kind: TransferKind, day: int, m: Measure)
    ensures var ids := SettledForReconciliation(transfers, kind, day);
      InRange(transfers, ids) && Sum(MarkAll(transfers, ids, 0), MarkedAt(kind, day, m)) == Sum(transfers, MarkedOrDue(kind, day, m))
  {
    var ids := SettledForReconciliation(transfers, kind, day);
    SettledIdsInRange(transfers, kind, day);
    MarkAllRows(transfers, ids, 0);
    var marked := MarkAll(transfers, ids, 0);
    forall i: nat | i < |transfers| ensures MarkedAt(kind, day, m)(marked[i]) == MarkedOrDue(kind, day, m)(transfers[i]) {
      if IsEligible(transfers[i], kind, day) { MarkingOne(transfers[i], kind, day, m); }
    }
    SumMatch(marked, transfers, MarkedAt(kind, day, m), MarkedOrDue(kind, day, m));
  }

  /** The total over the selection is the sum over all transfers that are due. */
  lemma {:induction false} SelectionTotal(transfers: seq<TransferRow>, kind: TransferKind, day: int, m: Measure)
    ensures var ids := SettledForReconciliation(transfers, kind, day);
      InRange(transfers, ids) && TotalOver(transfers, ids, m) == Sum(transfers, Due(kind, day, m))
  {
    var ids := SettledForReconciliation(transfers, kind, day);
    SettledIdsInRange(transfers, kind, day);
    MarkedSelection(transfers, kind, day, m);
    forall i | 0 <= i < |ids| ensures MarkedAt(kind, day, m)(transfers[ids[i]]) == 0
      ensures MarkedAt(kind, day, m)(MarkReconciled(transfers[ids[i]], 0)) == Measured(m, transfers[ids[i]].terms)
    {
      MarkingOne(transfers[ids[i]], kind, day, m);
    }
    MarkAllSum(transfers, ids, 0, MarkedAt(kind, day, m), m);
    SumAdd(transfers, MarkedAt(kind, day, m), Due(kind, day, m), MarkedOrDue(kind, day, m));
  }

  lemma {:induction false} SelectionsArePayable(db: Db, day: int)
    requires TermsOkAll(db)
    ensures Charged(db.transfers, SettledForReconciliation(db.transfers, Outbound, day))
    ensures Positive(db.transfers, SettledForReconciliation(db.transfers, Inbound, day))
  {
    SettledIdsInRange(db.transfers, Outbound, day);
    SettledIdsInRange(db.transfers, Inbound, day);
    assert forall id: nat :: id < |db.transfers| ==> TermsOk(db.transfers[id].terms, |db.books.wallets|);
  }

  lemma {:induction false} MarkedStaysPositive(a: Tally, outs: seq<nat>, ins: seq<nat>, now: int)
    requires InRange(a.transfers, outs) && Positive(a.transfers, ins) && NoRepeats(outs)
    requires ReconcileEach(a, outs, Outbound, now).Ok?
    ensures var b := ReconcileEach(a, outs, Outbound, now).value;
      Positive(b.transfers, ins) && TotalOver(b.transfers, ins, AmountOf) == TotalOver(a.transfers, ins, AmountOf)
  {
    OutboundLoop(a, outs, now);
    MarkAllRows(a.transfers, outs, now);
    TotalOverTerms(MarkAll(a.transfers, outs, now), a.transfers, ins, AmountOf);
  }

  // ---------- Main result ----------

  lemma {:induction false} AlignmentIff(db: Db, b: Tally, day: int, count: nat)
    requires NonNegative(db.books)
    ensures AfterLoops(db, b, day, count).Ok? <==> OwedToCustomers(db) <= INT64_MAX || OwedToCustomers(db) <= b.ext.ledger.balance
  {
    SumNonNegative(db.books.wallets, CustomerBalance());
  }

  /** HoldingsFit in terms of the selections. */
  ghost predicate SelectionsFit(db: Db, outs: seq<nat>, ins: seq<nat>)
    requires InRange(db.transfers, outs) && InRange(db.transfers, ins)
  {
    var between := db.ext.ledger.balance - TotalOver(db.transfers, outs, AmountOf) - TotalOver(db.transfers, outs, FeeOf)
                   - TotalOver(db.transfers, outs, VatOf);
    && Fits(db.ext.settlement.balance, TotalOver(db.transfers, outs, AmountOf))
    && Fits(db.ext.income.balance, TotalOver(db.transfers, outs, FeeOf))
    && Fits(db.ext.vat.balance, TotalOver(db.transfers, outs, VatOf))
    && Fits(between, TotalOver(db.transfers, ins, AmountOf))
    && (OwedToCustomers(db) <= INT64_MAX || OwedToCustomers(db) <= between + TotalOver(db.transfers, ins, AmountOf))
  }

  lemma {:induction false} SelectionsFitIff(db: Db, day: int)
    ensures var outs := SettledForReconciliation(db.transfers, Outbound, day);
            var ins := SettledForReconciliation(db.transfers, Inbound, day);
      && InRange(db.transfers, outs) && InRange(db.transfers, ins)
      && (SelectionsFit(db, outs, ins) <==> HoldingsFit(db, day))
      && LedgerBetween(db, day) == db.ext.ledger.balance - TotalOver(db.transfers, outs, AmountOf)
                                   - TotalOver(db.transfers, outs, FeeOf) - TotalOver(db.transfers, outs, VatOf)
  {
    SelectionTotal(db.transfers, Outbound, day, AmountOf);
    SelectionTotal(db.transfers, Outbound, day, FeeOf);
    SelectionTotal(db.transfers, Outbound, day, VatOf);
    SelectionTotal(db.transfers, Inbound, day, AmountOf);
  }

  /** Both loops and the alignment, on any two lists. */
  lemma {:induction false} LoopsIff(db: Db, outs: seq<nat>, ins: seq<nat>, day: int, now: int)
    requires NonNegative(db.books) && NotBelowLong(db.ext)
    requires Charged(db.transfers, outs) && NoRepeats(outs) && Positive(db.transfers, ins)
    requires db.ext.ledger.balance - TotalOver(db.transfers, outs, AmountOf) - TotalOver(db.transfers, outs, FeeOf)
             - TotalOver(db.transfers, outs, VatOf) >= INT64_MIN
    ensures var a := ReconcileEach(Tally(db.ext, db.transfers, 0, 0, 0), outs, Outbound, now);
      && (a.Ok? ==> Positive(a.value.transfers, ins))
      && (a.Ok? && (var b := ReconcileEach(a.value, ins, Inbound, now); b.Ok? && AfterLoops(db, b.value, day, |outs|).Ok?)
          <==> SelectionsFit(db, outs, ins))
  {
    var start := Tally(db.ext, db.transfers, 0, 0, 0);
    OutboundLoopIff(start, outs, now);
    var a := ReconcileEach(start, outs, Outbound, now);
    if a.Ok? {
      MarkedStaysPositive(start, outs, ins, now);
      InboundLoopIff(a.value, ins, now);
      var b := ReconcileEach(a.value, ins, Inbound, now);
      if b.Ok? { AlignmentIff(db, b.value, day, |outs|); }
    }
  }

  /** A run goes through exactly when no holding overflows. Debits are unchecked: the ledger holding must stay a 64-bit number. */
  lemma {:induction false} RunDayIff(db: Db, day: int, now: int)
    requires NonNegative(db.books) && TermsOkAll(db) && NotBelowLong(db.ext) && LedgerBetween(db, day) >= INT64_MIN
    ensures RunDay(db, day, now).Ok? <==> HoldingsFit(db, day)
  {
    SelectionsArePayable(db, day);
    SelectionsFitIff(db, day);
    SettledIdsInRange(db.transfers, Outbound, day);
    LoopsIff(db, SettledForReconciliation(db.transfers, Outbound, day), SettledForReconciliation(db.transfers, Inbound, day), day, now);
  }

  // ---------- Stored holdings ----------

  /** Between two transactions no holding is negative: a run aligns what it debits, and nothing else debits. */
  ghost predicate HoldingsNonNegative(ext: External) { ext.ledger.balance >= 0 && ext.settlement.balance >= 0 }

  lemma {:induction false} SettlementKeepsHoldings(w: World, e: Event)
    requires SettlementOk(w) && (e.RunJob? || e.WorkerAsks? || e.CustomerAsks? || e.RepostTransfer?)
    ensures Step(w, e).db.ext == w.db.ext
  {
    match e
    case RunJob(id, attempts, reply, now, crash) => var c := RunJobStep(w, id, attempts, reply, now, crash);
    case WorkerAsks(id, answer, now, crash) => WorkerAsksStep(w, id, answer, now, crash);
    case CustomerAsks(id, customer, answer, now, crash) => CustomerAsksStep(w, id, customer, answer, now, crash);
    case RepostTransfer(id, now) => RepostStep(w, id, now);
  }

  lemma {:induction false} RequestKeepsHoldings(w: World, c: Command, x: Context)
    requires WalletsOk(w.db.books.wallets) && Admissible(Ask(c, x))
    ensures AfterAsk(w, c, x).db.ext == w.db.ext
  {
    var t := RequestShape(w.db, c, x);
  }

  lemma {:induction false} ReportKeepsHoldings(db: Db, day: int, now: int)
    requires NonNegative(db.books) && HoldingsNonNegative(db.ext)
    ensures HoldingsNonNegative(Commit(db, Reconcile(db, day, now)).ext)
  {
    if FindReport(db.reports, day).None? && RunDay(db, day, now).Ok? {
      RunDayEffect(db, day, now);
      SumNonNegative(db.books.wallets, CustomerBalance());
    }
  }

  lemma {:induction false} OtherStepsKeepHoldings(w: World, e: Event)
    requires !e.Ask? && !e.RunJob? && !e.WorkerAsks? && !e.CustomerAsks? && !e.RepostTransfer? && !e.ReconcileDay?
    requires HoldingsNonNegative(w.db.ext)
    ensures HoldingsNonNegative(Step(w, e).db.ext)
  {
  }

  lemma {:induction false} StepKeepsHoldings(w: World, e: Event)
    requires WalletsOk(w.db.books.wallets) && NonNegative(w.db.books) && SettlementOk(w) && Admissible(e) && HoldingsNonNegative(w.db.ext)
    ensures HoldingsNonNegative(Step(w, e).db.ext)
  {
    if e.Ask? {
      RequestKeepsHoldings(w, e.command, e.context);
    } else if e.RunJob? || e.WorkerAsks? || e.CustomerAsks? || e.RepostTransfer? {
      SettlementKeepsHoldings(w, e);
    } else if e.ReconcileDay? {
      ReportKeepsHoldings(w.db, e.day, e.now);
    } else {
      OtherStepsKeepHoldings(w, e);
    }
  }

  lemma {:induction false} RunKeepsHoldings(es: seq<Event>)
    requires AllAdmissible(es)
    ensures HoldingsNonNegative(Run(Start(), es).db.ext)
    decreases |es|
  {
    if |es| > 0 {
      RunKeepsHoldings(es[..|es| - 1]);
      ReachableInv(es[..|es| - 1]);
      StepKeepsHoldings(Run(Start(), es[..|es| - 1]), es[|es| - 1]);
    }
  }

  /** In every reachable state none of the four holdings is negative. */
  lemma {:induction false} HoldingsStayNonNegative(w: World)
    requires Reachable(w)
    ensures HoldingsNonNegative(w.db.ext) && w.db.ext.income.balance >= 0 && w.db.ext.vat.balance >= 0
  {
    var es: seq<Event> :| AllAdmissible(es) && w == Run(Start(), es);
    RunKeepsHoldings(es);
    ReachableHasInv(w);
    MarksNonNegative(w.db, FeeOf);
    MarksNonNegative(w.db, VatOf);
  }

  lemma {:induction false} MarksNonNegative(db: Db, m: Measure)
    requires TermsOkAll(db) && HoldingsOk(db) && (m.FeeOf? || m.VatOf?)
    ensures HoldingOf(m, db.ext) >= 0
  {
    assert forall id: nat :: id < |db.transfers| ==> TermsOk(db.transfers[id].terms, |db.books.wallets|);
    SumNonNegative(db.transfers, Marked(m));
  }

  /** A reconciliation of a day writes a report exactly when the day has none and no holding overflows. */
  lemma {:induction false} ReportWrittenIff(w: World, day: int, now: int)
    requires Reachable(w) && LedgerBetween(w.db, day) >= INT64_MIN
    ensures WritesReport(w, day, now) <==> (forall i :: 0 <= i < |w.db.reports| ==> w.db.reports[i].day != day) && HoldingsFit(w.db, day)
  {
    ReachableHasInv(w);
    HoldingsStayNonNegative(w);
    RunDayIff(w.db, day, now);
  }
}
