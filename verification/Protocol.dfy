/** The settlement protocol: which (job, transfer) pairs are ever committed, and how they move. */
module Protocol {
  import opened Prelude
  import opened Rows
  import opened Books
  import opened Ledger
  import opened Settlement
  import opened Shapes
  import opened Machine

  /** The pairs a commit can leave behind. */
  datatype Phase =
    | Waiting        // job Pending, transfer Submitted
    | InDoubt        // job Failed, transfer Unknown
    | InDoubtClosed  // job Succeeded (no-op), transfer Unknown
    | FailedOpen     // job Failed, transfer Failed
    | FailedClosed   // job Succeeded (no-op), transfer Failed
    | FailedDead     // job DeadLetter, transfer Failed
    | Done           // job Succeeded, transfer Settled

  function PhaseOf(t: TransferStatus, j: JobStatus): Option<Phase> {
    match (j, t)
    case (Pending, Submitted) => Some(Waiting)
    case (JobFailed, Unknown) => Some(InDoubt)
    case (Succeeded, Unknown) => Some(InDoubtClosed)
    case (JobFailed, Failed) => Some(FailedOpen)
    case (Succeeded, Failed) => Some(FailedClosed)
    case (DeadLetter, Failed) => Some(FailedDead)
    case (Succeeded, Settled) => Some(Done)
    case _ => None
  }

  function Rank(p: Phase): nat {
    match p
    case Waiting => 4
    case InDoubt => 3
    case InDoubtClosed => 2
    case FailedOpen => 1
    case FailedDead => 1
    case FailedClosed => 0
    case Done => 0
  }

  ghost predicate PairOk(t: TransferRow, j: JobRow) {
    var p := PhaseOf(t.status, j.status);
    && p.Some?
    && (t.status.Submitted? ==> t.externalReference.None? && j.attempts == 0)
    && (j.status.DeadLetter? ==> j.attempts >= MAX_ATTEMPTS)
  }

  ghost predicate JobsMatch(db: Db) {
    forall id: nat :: id in db.jobs <==> id < |db.transfers| && db.transfers[id].terms.kind.Outbound?
  }

  ghost predicate PairsOk(db: Db)
    requires JobsMatch(db)
  {
    forall id: nat :: id in db.jobs ==> PairOk(db.transfers[id], db.jobs[id])
  }

  /** Internal and inbound transfers settle in the ledger and never meet the rail. */
  ghost predicate OthersSettled(db: Db) {
    forall id: nat :: id < |db.transfers| && !db.transfers[id].terms.kind.Outbound? ==>
      db.transfers[id].status.Settled? && db.transfers[id].externalReference.None?
  }

  /** Claim lists name jobs that exist; how stale they are is not bounded here. */
  ghost predicate ClaimsOk(w: World) {
    forall id: nat, n: nat :: (id, n) in w.claims ==> id in w.db.jobs
  }

  function PhaseAt(db: Db, id: nat): Option<Phase> {
    if id < |db.transfers| && id in db.jobs then PhaseOf(db.transfers[id].status, db.jobs[id].status) else None
  }

  ghost predicate SettlementOk(w: World) {
    JobsMatch(w.db) && PairsOk(w.db) && OthersSettled(w.db) && ClaimsOk(w)
  }

  ghost predicate TermsOkAll(db: Db) {
    forall id: nat :: id < |db.transfers| ==> TermsOk(db.transfers[id].terms, |db.books.wallets|)
  }

  // ---------- Why a transfer moves ----------

  datatype Cause = Noop | Dispatched(answer: RailStatus) | Answered(answer: RailStatus) | Reposting

  function StatusFor(a: RailStatus): TransferStatus {
    match a case Sent => Settled case RailFailed => Failed case RailUnknown => Unknown
  }

  predicate Reverses(c: Cause) {
    (c.Dispatched? || c.Answered?) && c.answer.RailFailed?
  }

  /** Status before, status after and the happening that goes with each cause. */
  ghost predicate CauseFits(w: World, w': World, id: nat, c: Cause)
    requires id < |w.db.transfers| && id < |w'.db.transfers|
  {
    var t, t' := w.db.transfers[id], w'.db.transfers[id];
    match c
    case Noop => t' == t && !t.status.Submitted? && w'.log == w.log
    case Dispatched(a) =>
      && t.status.Submitted? && t'.status == StatusFor(a)
      && w'.log == w.log + [SentInstruction(id, InstructionFor(id, t.terms), a, true)]
    case Answered(a) =>
      && t.status.Unknown? && t'.status == (if a.RailUnknown? then Unknown else StatusFor(a))
      && t'.externalReference == t.externalReference && t.externalReference.Some?
      && w'.log == w.log + [AskedStatus(id, a, true)]
    case Reposting =>
      t.status.Failed? && t'.status.Submitted? && t'.externalReference.None? && w'.log == w.log + [Reposted(id)]
  }

  ghost predicate MoveStep(w: World, w': World, id: nat, c: Cause, now: int) {
    && Moves(w.db, w'.db, id, Reverses(c), now)
    && CauseFits(w, w', id, c)
    && w'.claims == w.claims
  }

  /** The rail was called but nothing was committed. */
  ghost predicate LostStep(w: World, w': World, id: nat) {
    && id < |w.db.transfers| && w'.db == w.db && w'.claims == w.claims
    && (|| (&& w.db.transfers[id].status.Submitted?
            && exists a :: w'.log == w.log + [SentInstruction(id, InstructionFor(id, w.db.transfers[id].terms), a, false)])
        || (exists a :: w'.log == w.log + [AskedStatus(id, a, false)]))
  }

  // ---------- The four settlement steps ----------

  /** The committed effect of a settlement transaction on the pair it works on. */
  ghost predicate PairMoves(db: Db, db': Db, id: nat, c: Cause, now: int) {
    && Moves(db, db', id, Reverses(c), now)
    && PairOk(db'.transfers[id], db'.jobs[id])
    && PhaseAt(db, id).Some? && PhaseAt(db', id).Some?
    && (var p, q := PhaseAt(db, id).value, PhaseAt(db', id).value; c.Reposting? || p == q || Rank(q) < Rank(p))
  }

  lemma {:induction false} DispatchMoves(db: Db, id: nat, attempts: nat, answer: RailAnswer, now: int)
    requires JobsMatch(db) && id in db.jobs && PairOk(db.transfers[id], db.jobs[id])
    requires Dispatch(db, id, attempts, answer, now).Ok?
    ensures var db' := Dispatch(db, id, attempts, answer, now).value;
      var t := db.transfers[id];
      if t.status.Submitted?
      then PairMoves(db, db', id, Dispatched(answer.status), now) && db'.transfers[id].status == StatusFor(answer.status)
      else PairMoves(db, db', id, Noop, now) && db'.transfers[id] == t
  {
  }

  lemma {:induction false} WorkerQueryMoves(db: Db, id: nat, answer: RailStatus, now: int)
    requires JobsMatch(db) && id in db.jobs && PairOk(db.transfers[id], db.jobs[id]) && db.transfers[id].status.Unknown?
    requires WorkerQuery(db, id, answer, now).Ok?
    ensures var db' := WorkerQuery(db, id, answer, now).value;
      && PairMoves(db, db', id, Answered(answer), now)
      && db'.transfers[id].status == (if answer.RailUnknown? then Unknown else StatusFor(answer))
      && db'.transfers[id].externalReference == db.transfers[id].externalReference
  {
    if answer.RailUnknown? {
      UnchangedRow(db, id);
    }
  }

  lemma {:induction false} UnchangedRow(db: Db, id: nat)
    requires id < |db.transfers| && id in db.jobs
    ensures db == db.(books := db.books, transfers := db.transfers[id := db.transfers[id]], jobs := db.jobs[id := db.jobs[id]])
  {
    assert db.transfers[id := db.transfers[id]] == db.transfers;
    assert db.jobs[id := db.jobs[id]] == db.jobs;
  }

  lemma {:induction false} ApiQueryMoves(db: Db, id: nat, answer: RailStatus, now: int)
    requires JobsMatch(db) && id in db.jobs && PairOk(db.transfers[id], db.jobs[id]) && db.transfers[id].status.Unknown?
    requires ApiQuery(db, id, answer, now).Ok?
    ensures var db' := ApiQuery(db, id, answer, now).value;
      && PairMoves(db, db', id, Answered(answer), now)
      && db'.transfers[id].status == (if answer.RailUnknown? then Unknown else StatusFor(answer))
      && db'.transfers[id].externalReference == db.transfers[id].externalReference
  {
    if answer.RailUnknown? {
      UnchangedRow(db, id);
    }
  }

  lemma {:induction false} RepostMoves(db: Db, id: nat, now: int)
    requires JobsMatch(db) && id in db.jobs && PairOk(db.transfers[id], db.jobs[id]) && Repost(db, id, now).Ok?
    ensures var db' := Repost(db, id, now).value;
      && PairMoves(db, db', id, Reposting, now) && PhaseAt(db', id) == Some(Waiting)
      && db.transfers[id].status.Failed? && db'.transfers[id].externalReference.None?
  {
  }

  lemma {:induction false} RunJobStep(w: World, id: nat, attempts: nat, answer: RailAnswer, now: int, crash: bool) returns (c: Cause)
    requires SettlementOk(w)
    ensures !c.Reposting?
    ensures var w' := AfterRunJob(w, id, attempts, answer, now, crash);
      w' == w || LostStep(w, w', id)
      || (MoveStep(w, w', id, c, now) && PairMoves(w.db, w'.db, id, c, now) && !c.Reposting? && !c.Answered?)
  {
    c := Noop;
    if (id, attempts) in w.claims {
      assert PairOk(w.db.transfers[id], w.db.jobs[id]);
      c := if w.db.transfers[id].status.Submitted? then Dispatched(answer.status) else Noop;
      if Dispatch(w.db, id, attempts, answer, now).Ok? {
        DispatchMoves(w.db, id, attempts, answer, now);
      }
    }
  }

  lemma {:induction false} WorkerAsksStep(w: World, id: nat, answer: RailStatus, now: int, crash: bool)
    requires SettlementOk(w)
    ensures var w' := AfterWorkerAsks(w, id, answer, now, crash);
      w' == w || LostStep(w, w', id)
      || (MoveStep(w, w', id, Answered(answer), now) && PairMoves(w.db, w'.db, id, Answered(answer), now))
  {
    if id < |w.db.transfers| && IsQueryable(w.db.transfers[id]) {
      assert id in w.db.jobs && PairOk(w.db.transfers[id], w.db.jobs[id]);
      if WorkerQuery(w.db, id, answer, now).Ok? {
        WorkerQueryMoves(w.db, id, answer, now);
      }
    }
  }

  lemma {:induction false} CustomerAsksStep(w: World, id: nat, customer: string, answer: RailStatus, now: int, crash: bool)
    requires SettlementOk(w)
    ensures var w' := AfterCustomerAsks(w, id, customer, answer, now, crash);
      w' == w || LostStep(w, w', id)
      || (MoveStep(w, w', id, Answered(answer), now) && PairMoves(w.db, w'.db, id, Answered(answer), now))
  {
    if id < |w.db.transfers| && AsksRail(w.db.transfers[id]) {
      assert id in w.db.jobs && PairOk(w.db.transfers[id], w.db.jobs[id]);
      if ApiQuery(w.db, id, answer, now).Ok? {
        ApiQueryMoves(w.db, id, answer, now);
      }
    }
  }

  lemma {:induction false} RepostStep(w: World, id: nat, now: int)
    requires SettlementOk(w)
    ensures var w' := AfterRepost(w, id, now);
      w' == w
      || (MoveStep(w, w', id, Reposting, now) && PairMoves(w.db, w'.db, id, Reposting, now) && PhaseAt(w'.db, id) == Some(Waiting))
  {
    if Repost(w.db, id, now).Ok? {
      assert id in w.db.jobs && PairOk(w.db.transfers[id], w.db.jobs[id]);
      RepostMoves(w.db, id, now);
    }
  }

  // ---------- Preservation ----------

  /** A settled pair stays where it is, and a failed one cannot become settled without a repost. */
  lemma {:induction false} FailedNeverSettles(w: World, w': World, id: nat, c: Cause, now: int)
    requires MoveStep(w, w', id, c, now) && !c.Reposting?
    ensures w.db.transfers[id].status.Failed? ==> w'.db.transfers[id].status.Failed?
    ensures w.db.transfers[id].status.Settled? ==> w'.db.transfers[id].status.Settled?
  {
  }

  lemma {:induction false} MoveKeepsSettlement(w: World, w': World, id: nat, c: Cause, now: int)
    requires SettlementOk(w) && MoveStep(w, w', id, c, now) && PairMoves(w.db, w'.db, id, c, now)
    ensures SettlementOk(w')
  {
    var db, db' := w.db, w'.db;
    assert JobsMatch(db');
    forall i: nat | i in db'.jobs ensures PairOk(db'.transfers[i], db'.jobs[i]) {
      if i != id { assert PairOk(db.transfers[i], db.jobs[i]); }
    }
  }

  lemma {:induction false} RecordsKeepsSettlement(w: World, w': World, t: Terms)
    requires SettlementOk(w) && Records(w.db, w'.db, t) && w'.claims == w.claims
    ensures SettlementOk(w')
  {
    var db, db' := w.db, w'.db;
    var n := |db.transfers|;
    assert forall i: nat :: i < n ==> db'.transfers[i] == db.transfers[i];
    assert JobsMatch(db');
    forall i: nat | i in db'.jobs ensures PairOk(db'.transfers[i], db'.jobs[i]) {
      if i != n { assert i in db.jobs && PairOk(db.transfers[i], db.jobs[i]); }
    }
  }

  lemma {:induction false} ListingKeepsSettlement(w: World, now: int)
    requires SettlementOk(w)
    ensures SettlementOk(w.(claims := w.claims + Claimable(w.db, now)))
  {
  }
}
