/** Settlement of outbound transfers: dispatch, status queries, reversal and repost. */
module Settlement {
  import opened Prelude
  import opened Rows
  import opened Books
  import opened Ledger

  function ReversalLegs(source: nat, t: Terms): seq<Leg> {
    [Leg(source, Credit, t.total, ReversalSource), Leg(SETTLEMENT, Debit, t.amount, ReversalSettlement),
     Leg(INCOME, Debit, t.fee, ReversalIncome), Leg(VAT, Debit, t.vat, ReversalVat)]
  }

  /** ReverseOutboundAsync, in the worker and in the transfer service alike. */
  function Reverse(b: Books, id: nat, t: Terms, now: int): Outcome<Books> {
    if t.source.None? then Err(SourceNotFound) else Post(b, Some(id), now, ReversalLegs(t.source.value, t))
  }

  /** Replaces one transfer row and its job row, and the books. */
  function Write(db: Db, id: nat, row: TransferRow, job: JobRow, books: Books): Db
    requires id < |db.transfers|
  {
    db.(books := books, transfers := db.transfers[id := row],
        jobs := if id in db.jobs then db.jobs[id := job] else db.jobs)
  }

  /** One dispatch transaction of the worker. `attempts` is the attempt count in the worker's claim list. */
  function Dispatch(db: Db, id: nat, attempts: nat, answer: RailAnswer, now: int): Outcome<Db> {
    if id >= |db.transfers| || id !in db.jobs then Err(TransferNotFound)
    else
      var t := db.transfers[id];
      var claimed := ClaimJob(db.jobs[id].(attempts := attempts), now);
      if t.status != Submitted then
        Ok(Write(db, id, t, SucceedJob(claimed, Some("NOOP-ALREADY-RESOLVED"), now), db.books))
      else
        match answer.status
        case Sent =>
          Ok(Write(db, id, t.(externalReference := answer.reference, status := Settled, updatedAt := now),
                   SucceedJob(claimed, answer.reference, now), db.books))
        case RailFailed =>
          var books :- Reverse(db.books, id, t.terms, now);
          Ok(Write(db, id, t.(status := Failed, updatedAt := now), FailJob(claimed, now, claimed.attempts >= MAX_ATTEMPTS), books))
        case RailUnknown =>
          var reference := if answer.reference.Some? then answer.reference else t.externalReference;
          Ok(Write(db, id, t.(externalReference := reference, status := Unknown, updatedAt := now),
                   FailJob(claimed, now, false), db.books))
  }

  /** One transaction of the worker's status-query loop. */
  function WorkerQuery(db: Db, id: nat, answer: RailStatus, now: int): Outcome<Db> {
    if id >= |db.transfers| then Err(TransferNotFound)
    else
      var t := db.transfers[id];
      var job := if id in db.jobs then db.jobs[id] else NewJob(now);
      match answer
      case Sent =>
        Ok(Write(db, id, t.(status := Settled, updatedAt := now), SucceedJob(job, t.externalReference, now), db.books))
      case RailFailed =>
        var books :- Reverse(db.books, id, t.terms, now);
        Ok(Write(db, id, t.(status := Failed, updatedAt := now), FailJob(job, now, job.attempts >= MAX_ATTEMPTS), books))
      case RailUnknown => Ok(db)
  }

  /** The rows the status-query loop selects. */
  predicate IsQueryable(t: TransferRow) {
    t.terms.kind.Outbound? && t.status.Unknown? && t.externalReference.Some?
  }

  /** The rows for which QueryTransferStatusAsync goes on to ask the rail. */
  predicate AsksRail(t: TransferRow) {
    && t.terms.kind.Outbound?
    && !t.status.Settled? && !t.status.Failed?
    && t.externalReference.Some? && t.externalReference.value != ""
  }

  /** The transaction QueryTransferStatusAsync runs with the rail's answer. A failure leaves the job row alone. */
  function ApiQuery(db: Db, id: nat, answer: RailStatus, now: int): Outcome<Db> {
    if id >= |db.transfers| then Err(TransferNotFound)
    else
      var t := db.transfers[id];
      match answer
      case Sent =>
        Ok(Write(db, id, t.(status := Settled, updatedAt := now),
                 if id in db.jobs then SucceedJob(db.jobs[id], t.externalReference, now) else NewJob(now), db.books))
      case RailFailed =>
        var books :- Reverse(db.books, id, t.terms, now);
        Ok(Write(db, id, t.(status := Failed, updatedAt := now), if id in db.jobs then db.jobs[id] else NewJob(now), books))
      case RailUnknown => Ok(db)
  }

  /** RepostAsync and RepostFailedTransferAsync. */
  function Repost(db: Db, id: nat, now: int): Outcome<Db> {
    if id >= |db.transfers| then Err(TransferNotFound)
    else
      var t := db.transfers[id];
      if t.status != Failed then Err(NotFailed)
      else if t.terms.kind != Outbound then Err(NotOutbound)
      else Ok(Write(db, id, t.(status := Submitted, externalReference := None, updatedAt := now),
                    if id in db.jobs then RepostJob(db.jobs[id], now) else NewJob(now), db.books))
  }
}
