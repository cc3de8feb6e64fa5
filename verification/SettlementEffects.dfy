/** What each settlement step does to the rows, the journal and the history, spelled out. */
module SettlementEffects {
  import opened Prelude
  import opened Rows
  import opened Books
  import opened DailyOutboundLimit
  import opened IdempotencyFingerprint
  import opened WatBusinessDay
  import opened Ledger
  import opened Settlement
  import opened Shapes
  import opened Machine
  import opened Protocol
  import opened Reversals
  import opened Invariants
  import opened Persistence
  import opened MoneyTheorems
  import opened RequestTheorems
  import opened Effects
  import opened Answers

  // ---------- What the rail is told ----------

  /** The instruction pays out the transfer's amount, without the charges, to the transfer's own destination. */
  ghost predicate Instructs(i: Instruction, id: nat, t: Terms) {
    && i.transferId == id && i.reference == t.reference && i.amount == t.amount && i.account == t.destinationAccount
    && i.bank == t.destinationBank && i.name == t.destinationName
  }

  lemma {:induction false} SentIsInstructed(w: World, n: nat)
    requires SendsOk(w) && TermsOkAll(w.db) && n < |w.log| && w.log[n].SentInstruction?
    ensures w.log[n].id < |w.db.transfers| && Instructs(w.log[n].instruction, w.log[n].id, w.db.transfers[w.log[n].id].terms)
    ensures var t := w.db.transfers[w.log[n].id].terms; t.kind.Outbound? && w.log[n].instruction.amount == t.total - t.fee - t.vat
  {
    assert SendOk(w, n);
    assert TermsOk(w.db.transfers[w.log[n].id].terms, |w.db.books.wallets|);
  }

  /** In every reachable state each instruction ever sent names its transfer, its reference, its destination and its net amount. */
  lemma {:induction false} EveryInstructionIsTheTransfers(w: World, n: nat)
    requires Reachable(w) && n < |w.log| && w.log[n].SentInstruction?
    ensures w.log[n].id < |w.db.transfers| && Instructs(w.log[n].instruction, w.log[n].id, w.db.transfers[w.log[n].id].terms)
    ensures var t := w.db.transfers[w.log[n].id].terms; t.kind.Outbound? && w.log[n].instruction.amount == t.total - t.fee - t.vat
  {
    ReachableHasInv(w);
    SentIsInstructed(w, n);
  }

  /** From the request to the rail: whatever is sent for a committed request carries the command's own destination and amount. */
  lemma {:induction false} InstructionIsTheCommands(w: World, c: Command, x: Context, v: World, n: nat)
    requires Reachable(w) && Admissible(Ask(c, x)) && c.OutboundCommand? && AfterAsk(w, c, x).db != w.db
    requires Leads(AfterAsk(w, c, x), v) && n < |v.log| && v.log[n].SentInstruction? && v.log[n].id == |w.db.transfers|
    ensures v.log[n].instruction
         == Instruction(|w.db.transfers|, x.reference, c.destinationAccount, c.destinationBank, c.destinationName, c.amount)
  {
    ReachableHasInv(w);
    CommittedOutboundRow(w, c, x);
    AskKeepsInv(w, c, x);
    LaterExtends(AfterAsk(w, c, x), v);
    assert RowPersists(AfterAsk(w, c, x).db, AfterAsk(w, c, x).db.transfers[|w.db.transfers|], v.db.transfers[|w.db.transfers|]);
    SentIsInstructed(v, n);
  }

  ghost predicate CarriesCommand(t: Terms, c: Command, x: Context)
    requires c.OutboundCommand?
  {
    && t.reference == x.reference && t.destinationAccount == c.destinationAccount && t.destinationBank == c.destinationBank
    && t.destinationName == c.destinationName && t.amount == c.amount
  }

  lemma {:induction false} CommitCarriesCommand(db: Db, c: Command, x: Context, r: Reply)
    requires c.OutboundCommand? && CommitsOutbound(db, c, x, r)
    ensures |r.db.transfers| == |db.transfers| + 1 && CarriesCommand(r.db.transfers[|db.transfers|].terms, c, x)
  {
  }

  lemma {:induction false} CommittedOutboundRow(w: World, c: Command, x: Context)
    requires Inv(w) && Admissible(Ask(c, x)) && c.OutboundCommand? && AfterAsk(w, c, x).db != w.db
    ensures |AfterAsk(w, c, x).db.transfers| == |w.db.transfers| + 1
    ensures CarriesCommand(AfterAsk(w, c, x).db.transfers[|w.db.transfers|].terms, c, x)
  {
    RequestCommits(w.db, c, x);
    CommitCarriesCommand(w.db, c, x, Request(w.db, c, x));
  }

  // ---------- Reversal ----------

  /** The four reversal entries: the total back to the customer, amount, fee and VAT out of the system wallets. */
  ghost function ReversalEntries(id: nat, t: Terms, source: nat, now: int): seq<Entry> {
    [Entry(Some(id), source, Credit, t.total, ReversalSource, now), Entry(Some(id), SETTLEMENT, Debit, t.amount, ReversalSettlement, now),
     Entry(Some(id), INCOME, Debit, t.fee, ReversalIncome, now), Entry(Some(id), VAT, Debit, t.vat, ReversalVat, now)]
  }

  lemma {:induction false} ReversalIsBooked(b: Books, id: nat, t: Terms, now: int)
    requires Reverse(b, id, t, now).Ok?
    ensures t.source.Some? && Booked(b, Reverse(b, id, t, now).value, ReversalEntries(id, t, t.source.value, now))
  {
    var legs := ReversalLegs(t.source.value, t);
    FourBooked(b, Some(id), now, legs[0], legs[1], legs[2], legs[3]);
  }

  // ---------- Dispatch ----------

  ghost predicate Dispatchable(w: World, id: nat, attempts: nat) {
    SettlementOk(w) && id in w.db.jobs && id < |w.db.transfers| && (id, attempts) in w.claims
  }

  /** The history after a dispatch. */
  ghost function Told(w: World, id: nat, answer: RailStatus, committed: bool): seq<Happening>
    requires id < |w.db.transfers|
  {
    var t := w.db.transfers[id].terms;
    w.log + [SentInstruction(id, Instruction(id, t.reference, t.destinationAccount, t.destinationBank, t.destinationName, t.amount),
                             answer, committed)]
  }

  /** Sent: settled under the rail's reference, no money moves. */
  lemma {:induction false} DispatchSent(w: World, id: nat, attempts: nat, reference: Option<string>, now: int)
    requires Dispatchable(w, id, attempts) && w.db.transfers[id].status.Submitted?
    ensures var t := w.db.transfers[id];
      Step(w, RunJob(id, attempts, RailAnswer(Sent, reference), now, false))
        == w.(db := w.db.(transfers := w.db.transfers[id := TransferRow(t.terms, Settled, reference, now, t.reconciledAt)],
                          jobs := w.db.jobs[id := JobRow(Succeeded, attempts + 1, now, None, reference)]),
              log := Told(w, id, Sent, true))
  {
  }

  /** Unknown: in doubt, tried again in a minute; a reference the rail gave is kept. */
  lemma {:induction false} DispatchUnknown(w: World, id: nat, attempts: nat, reference: Option<string>, now: int)
    requires Dispatchable(w, id, attempts) && w.db.transfers[id].status.Submitted?
    ensures var t, j := w.db.transfers[id], w.db.jobs[id];
      Step(w, RunJob(id, attempts, RailAnswer(RailUnknown, reference), now, false))
        == w.(db := w.db.(transfers := w.db.transfers[id := TransferRow(t.terms, Unknown, reference, now, t.reconciledAt)],
                          jobs := w.db.jobs[id := JobRow(JobFailed, attempts + 1, now + 600_000_000, None, j.providerReference)]),
              log := Told(w, id, RailUnknown, true))
  {
    assert PairOk(w.db.transfers[id], w.db.jobs[id]);
  }

  /** Failed: the money goes back, and from the fifth attempt on the job is dead for ever; if it cannot go back, nothing is committed. */
  lemma {:induction false} DispatchFailed(w: World, id: nat, attempts: nat, reference: Option<string>, now: int)
    requires Dispatchable(w, id, attempts) && w.db.transfers[id].status.Submitted?
    ensures var t, j := w.db.transfers[id], w.db.jobs[id];
      var v := Step(w, RunJob(id, attempts, RailAnswer(RailFailed, reference), now, false));
      if Reverse(w.db.books, id, t.terms, now).Err? then v == w.(log := Told(w, id, RailFailed, false))
      else
        && t.terms.source.Some? && Booked(w.db.books, v.db.books, ReversalEntries(id, t.terms, t.terms.source.value, now))
        && v == w.(db := w.db.(books := v.db.books,
                               transfers := w.db.transfers[id := TransferRow(t.terms, Failed, t.externalReference, now, t.reconciledAt)],
                               jobs := w.db.jobs[id := if attempts + 1 >= 5
                                                       then JobRow(DeadLetter, attempts + 1, 3_155_378_975_999_999_999, None, j.providerReference)
                                                       else JobRow(JobFailed, attempts + 1, now + 600_000_000, None, j.providerReference)]),
                   log := Told(w, id, RailFailed, true))
  {
    if Reverse(w.db.books, id, w.db.transfers[id].terms, now).Ok? { ReversalIsBooked(w.db.books, id, w.db.transfers[id].terms, now); }
  }

  /** Rolled back: the instruction is out, nothing else happened. */
  lemma {:induction false} DispatchRolledBack(w: World, id: nat, attempts: nat, answer: RailAnswer, now: int)
    requires Dispatchable(w, id, attempts) && w.db.transfers[id].status.Submitted?
    ensures Step(w, RunJob(id, attempts, answer, now, true)) == w.(log := Told(w, id, answer.status, false))
  {
  }

  /** Too late: the job is closed as already resolved, and nothing is sent. */
  lemma {:induction false} DispatchTooLate(w: World, id: nat, attempts: nat, answer: RailAnswer, now: int)
    requires Dispatchable(w, id, attempts) && !w.db.transfers[id].status.Submitted?
    ensures Step(w, RunJob(id, attempts, answer, now, false))
         == w.(db := w.db.(jobs := w.db.jobs[id := JobRow(Succeeded, attempts + 1, now, None, Some("NOOP-ALREADY-RESOLVED"))]))
  {
    assert w.db.transfers[id := w.db.transfers[id]] == w.db.transfers;
  }

  // ---------- What may be claimed ----------

  /** A listing adds the pending jobs, the failed ones that are due and the ones whose lease has run out, with their attempts. */
  lemma {:induction false} ListingAdds(w: World, now: int, id: nat, n: nat)
    ensures var v := Step(w, ListClaims(now));
      && v.db == w.db && v.log == w.log
      && ((id, n) in v.claims <==>
            || (id, n) in w.claims
            || (&& id in w.db.jobs && w.db.jobs[id].attempts == n
                && match w.db.jobs[id].status
                   case Pending => true
                   case JobFailed => w.db.jobs[id].nextAttemptAt <= now
                   case Processing => w.db.jobs[id].leaseUntil.Some? && w.db.jobs[id].leaseUntil.value < now
                   case _ => false))
  {
  }

  /** A claim counts one attempt and keeps everybody else away for half a minute. */
  lemma {:induction false} ClaimHolds(j: JobRow, now: int, later: int)
    ensures ClaimJob(j, now).attempts == j.attempts + 1 && ClaimJob(j, now).providerReference == j.providerReference
    ensures IsClaimable(ClaimJob(j, now), later) <==> later > now + 300_000_000
    ensures ClaimJob(j, now).nextAttemptAt == now + 300_000_000
  {
  }

  // ---------- Status queries ----------

  ghost predicate WorkerMayAsk(t: TransferRow) { t.terms.kind.Outbound? && t.status.Unknown? && t.externalReference.Some? }

  ghost predicate CustomerMayAsk(t: TransferRow, customer: string) {
    && t.terms.customerId == customer && t.terms.kind.Outbound? && (t.status.Submitted? || t.status.Unknown?)
    && t.externalReference.Some? && t.externalReference != Some("")
  }

  /** Nobody is asked about any other transfer. */
  lemma {:induction false} NotAsked(w: World, id: nat, customer: string, answer: RailStatus, now: int, crash: bool)
    ensures id >= |w.db.transfers| || !WorkerMayAsk(w.db.transfers[id]) ==> Step(w, WorkerAsks(id, answer, now, crash)) == w
    ensures id >= |w.db.transfers| || !CustomerMayAsk(w.db.transfers[id], customer) ==>
              Step(w, CustomerAsks(id, customer, answer, now, crash)) == w
  {
  }

  /** Sent: settled under the reference the dispatch left; the worker and the customer do the same. */
  lemma {:induction false} QuerySent(w: World, id: nat, customer: string, now: int)
    requires id < |w.db.transfers| && id in w.db.jobs
    ensures var t, j := w.db.transfers[id], w.db.jobs[id];
      var v := w.(db := w.db.(transfers := w.db.transfers[id := TransferRow(t.terms, Settled, t.externalReference, now, t.reconciledAt)],
                              jobs := w.db.jobs[id := JobRow(Succeeded, j.attempts, now, None, t.externalReference)]),
                  log := w.log + [AskedStatus(id, Sent, true)]);
      && (WorkerMayAsk(t) ==> Step(w, WorkerAsks(id, Sent, now, false)) == v)
      && (CustomerMayAsk(t, customer) ==> Step(w, CustomerAsks(id, customer, Sent, now, false)) == v)
  {
  }

  /** Unknown again, or rolled back: only the asking happened. */
  lemma {:induction false} QueryWithoutEffect(w: World, id: nat, customer: string, answer: RailStatus, now: int, crash: bool)
    requires id < |w.db.transfers| && (answer.RailUnknown? || crash)
    ensures var t, v := w.db.transfers[id], w.(log := w.log + [AskedStatus(id, answer, !crash && answer.RailUnknown?)]);
      && (WorkerMayAsk(t) ==> Step(w, WorkerAsks(id, answer, now, crash)) == v)
      && (CustomerMayAsk(t, customer) ==> Step(w, CustomerAsks(id, customer, answer, now, crash)) == v)
  {
  }

  /** Failed, asked by the worker: the money goes back and the job fails with it; if it cannot go back, nothing is committed. */
  lemma {:induction false} WorkerQueryFailed(w: World, id: nat, now: int)
    requires id < |w.db.transfers| && id in w.db.jobs && WorkerMayAsk(w.db.transfers[id])
    ensures var t, j, v := w.db.transfers[id], w.db.jobs[id], Step(w, WorkerAsks(id, RailFailed, now, false));
      if Reverse(w.db.books, id, t.terms, now).Err? then v == w.(log := w.log + [AskedStatus(id, RailFailed, false)])
      else
        && t.terms.source.Some? && Booked(w.db.books, v.db.books, ReversalEntries(id, t.terms, t.terms.source.value, now))
        && v == w.(db := w.db.(books := v.db.books,
                               transfers := w.db.transfers[id := TransferRow(t.terms, Failed, t.externalReference, now, t.reconciledAt)],
                               jobs := w.db.jobs[id := if j.attempts >= 5
                                                       then JobRow(DeadLetter, j.attempts, 3_155_378_975_999_999_999, None, j.providerReference)
                                                       else JobRow(JobFailed, j.attempts, now + 600_000_000, None, j.providerReference)]),
                   log := w.log + [AskedStatus(id, RailFailed, true)])
  {
    if Reverse(w.db.books, id, w.db.transfers[id].terms, now).Ok? { ReversalIsBooked(w.db.books, id, w.db.transfers[id].terms, now); }
  }

  /** Failed, asked by the customer: the money goes back and the job row stays as it is. */
  lemma {:induction false} CustomerQueryFailed(w: World, id: nat, customer: string, now: int)
    requires id < |w.db.transfers| && id in w.db.jobs && CustomerMayAsk(w.db.transfers[id], customer)
    ensures var t, v := w.db.transfers[id], Step(w, CustomerAsks(id, customer, RailFailed, now, false));
      if Reverse(w.db.books, id, t.terms, now).Err? then v == w.(log := w.log + [AskedStatus(id, RailFailed, false)])
      else
        && t.terms.source.Some? && Booked(w.db.books, v.db.books, ReversalEntries(id, t.terms, t.terms.source.value, now))
        && v == w.(db := w.db.(books := v.db.books,
                               transfers := w.db.transfers[id := TransferRow(t.terms, Failed, t.externalReference, now, t.reconciledAt)]),
                   log := w.log + [AskedStatus(id, RailFailed, true)])
  {
    if Reverse(w.db.books, id, w.db.transfers[id].terms, now).Ok? { ReversalIsBooked(w.db.books, id, w.db.transfers[id].terms, now); }
    assert w.db.jobs[id := w.db.jobs[id]] == w.db.jobs;
  }

  // ---------- Repost ----------

  /** A failed outbound transfer is submitted again, without a reference, its job pending with no attempts; anything else is refused. */
  lemma {:induction false} RepostResubmits(w: World, id: nat, now: int)
    requires SettlementOk(w)
    ensures var v := Step(w, RepostTransfer(id, now));
      if id >= |w.db.transfers| || !w.db.transfers[id].status.Failed? then v == w
      else
        var t := w.db.transfers[id];
        && id in w.db.jobs
        && v == w.(db := w.db.(transfers := w.db.transfers[id := TransferRow(t.terms, Submitted, None, now, t.reconciledAt)],
                               jobs := w.db.jobs[id := JobRow(Pending, 0, now, None, w.db.jobs[id].providerReference)]),
                   log := w.log + [Reposted(id)])
  {
  }
}
