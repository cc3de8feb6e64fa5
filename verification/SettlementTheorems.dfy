/** Main results on the settlement of outbound transfers, over every run. */
module SettlementTheorems {
  import opened Prelude
  import opened Rows
  import opened Books
  import opened IdempotencyFingerprint
  import opened Ledger
  import opened Settlement
  import opened Machine
  import opened Shapes
  import opened Protocol
  import opened Reversals
  import opened Invariants
  import opened Persistence
  import Reconciliation
  import Holdings

  // ---------- The committed pairs ----------

  /** The pair of a job and its transfer is one of the seven phases. */
  ghost predicate AllowedPair(db: Db, id: nat)
    requires id in db.jobs
  {
    && id < |db.transfers| && PhaseAt(db, id).Some?
    && (var t, j := db.transfers[id], db.jobs[id];
        && (j.status.Pending? <==> t.status.Submitted?)
        && !j.status.Processing?
        && (j.status.DeadLetter? ==> t.status.Failed? && j.attempts >= MAX_ATTEMPTS)
        && (t.status.Submitted? ==> t.externalReference.None? && j.attempts == 0)
        && (AsksRail(t) || IsQueryable(t) ==> t.status.Unknown?))
  }

  lemma {:induction false} JobsAreAllowed(w: World, id: nat)
    requires SettlementOk(w) && id in w.db.jobs
    ensures AllowedPair(w.db, id)
  {
    assert PairOk(w.db.transfers[id], w.db.jobs[id]);
  }

  /** After any run every job and its transfer form one of the seven phases, whatever claim lists the workers still hold. */
  lemma {:induction false} CommittedPairs(w: World, id: nat)
    requires Reachable(w) && id in w.db.jobs
    ensures AllowedPair(w.db, id)
  {
    ReachableHasInv(w);
    JobsAreAllowed(w, id);
  }

  /** Events that take a waiting transfer to a phase; the closed phases use a second, stale claim. */
  function PathTo(p: Phase, id: nat): seq<Event> {
    var run := RunJob(id, 0, AnswerTowards(p), 0, false);
    if p.Waiting? then []
    else if p.InDoubtClosed? || p.FailedClosed? then [ListClaims(0), run, run]
    else [ListClaims(0), run]
  }

  function AnswerTowards(p: Phase): RailAnswer {
    match p
    case InDoubt => RailAnswer(RailUnknown, Some("REF"))
    case InDoubtClosed => RailAnswer(RailUnknown, Some("REF"))
    case FailedOpen => RailAnswer(RailFailed, None)
    case FailedClosed => RailAnswer(RailFailed, None)
    case _ => RailAnswer(Sent, Some("REF"))
  }

  lemma {:induction false} FirstRun(w: World, id: nat, answer: RailAnswer)
    requires JobsMatch(w.db) && PhaseAt(w.db, id) == Some(Waiting) && (id, 0) in w.claims
    requires answer.status.RailFailed? ==> Reverse(w.db.books, id, w.db.transfers[id].terms, 0).Ok?
    requires PairOk(w.db.transfers[id], w.db.jobs[id])
    ensures var w' := AfterRunJob(w, id, 0, answer, 0, false);
      && PhaseAt(w'.db, id) == Some(match answer.status case Sent => Done case RailFailed => FailedOpen case RailUnknown => InDoubt)
      && w'.claims == w.claims
  {
  }

  lemma {:induction false} StaleRun(w: World, id: nat, answer: RailAnswer)
    requires PhaseAt(w.db, id) == Some(InDoubt) || PhaseAt(w.db, id) == Some(FailedOpen)
    requires (id, 0) in w.claims
    ensures PhaseAt(AfterRunJob(w, id, 0, answer, 0, false).db, id)
         == Some(if PhaseAt(w.db, id) == Some(InDoubt) then InDoubtClosed else FailedClosed)
  {
  }

  lemma {:induction false} FirstTwoSteps(w: World, id: nat, answer: RailAnswer)
    requires SettlementOk(w) && PhaseAt(w.db, id) == Some(Waiting)
    requires answer.status.RailFailed? ==> Reverse(w.db.books, id, w.db.transfers[id].terms, 0).Ok?
    ensures var w1 := w.(claims := w.claims + Claimable(w.db, 0)); var w2 := AfterRunJob(w1, id, 0, answer, 0, false);
      && w1 == Step(w, ListClaims(0)) && w2 == Run(w, [ListClaims(0), RunJob(id, 0, answer, 0, false)]) && (id, 0) in w2.claims
      && PhaseAt(w2.db, id) == Some(match answer.status case Sent => Done case RailFailed => FailedOpen case RailUnknown => InDoubt)
  {
    assert PairOk(w.db.transfers[id], w.db.jobs[id]);
    FirstRun(w.(claims := w.claims + Claimable(w.db, 0)), id, answer);
    RunTwo(w, ListClaims(0), RunJob(id, 0, answer, 0, false));
  }

  lemma {:induction false} OneMoreStale(w: World, id: nat, answer: RailAnswer)
    requires var w2 := Run(w, [ListClaims(0), RunJob(id, 0, answer, 0, false)]);
      (id, 0) in w2.claims && (PhaseAt(w2.db, id) == Some(InDoubt) || PhaseAt(w2.db, id) == Some(FailedOpen))
    ensures var run := RunJob(id, 0, answer, 0, false); var w2 := Run(w, [ListClaims(0), run]);
      PhaseAt(Run(w, [ListClaims(0), run, run]).db, id)
        == Some(if PhaseAt(w2.db, id) == Some(InDoubt) then InDoubtClosed else FailedClosed)
  {
    StaleRun(Run(w, [ListClaims(0), RunJob(id, 0, answer, 0, false)]), id, answer);
    RunThird(w, ListClaims(0), RunJob(id, 0, answer, 0, false), RunJob(id, 0, answer, 0, false));
  }

  /** Each phase but the dead letter is reached from a waiting transfer whose reversal is covered. */
  lemma {:induction false} EveryPhaseIsReached(w: World, id: nat, p: Phase)
    requires SettlementOk(w) && PhaseAt(w.db, id) == Some(Waiting)
    requires Reverse(w.db.books, id, w.db.transfers[id].terms, 0).Ok?
    requires !p.FailedDead?
    ensures AllAdmissible(PathTo(p, id)) && PhaseAt(Run(w, PathTo(p, id)).db, id) == Some(p)
  {
    if !p.Waiting? {
      FirstTwoSteps(w, id, AnswerTowards(p));
      if p.InDoubtClosed? || p.FailedClosed? { OneMoreStale(w, id, AnswerTowards(p)); }
    }
  }

  lemma {:induction false} RunTwo(w: World, a: Event, b: Event)
    ensures Run(w, [a, b]) == Step(Step(w, a), b)
  {
    assert [a, b][..1] == [a] && [a][..0] == [];
    assert Run(w, [a]) == Step(w, a);
  }

  lemma {:induction false} RunThird(w: World, a: Event, b: Event, c: Event)
    ensures Run(w, [a, b, c]) == Step(Run(w, [a, b]), c)
  {
    assert [a, b, c][..2] == [a, b];
  }

  // ---------- Progress ----------

  /** No event other than a repost of this transfer moves its pair sideways or back up. */
  ghost predicate PairDescends(db: Db, db': Db, id: nat) {
    && PhaseAt(db, id).Some? && PhaseAt(db', id).Some?
    && (PhaseAt(db', id) == PhaseAt(db, id) || Rank(PhaseAt(db', id).value) < Rank(PhaseAt(db, id).value))
  }

  lemma {:induction false} MoveDescends(w: World, w': World, target: nat, c: Cause, now: int, id: nat)
    requires SettlementOk(w) && id in w.db.jobs && (c.Reposting? ==> target != id)
    requires w' == w || LostStep(w, w', target) || (MoveStep(w, w', target, c, now) && PairMoves(w.db, w'.db, target, c, now))
    ensures PairDescends(w.db, w'.db, id)
  {
    assert PairOk(w.db.transfers[id], w.db.jobs[id]);
  }

  lemma {:induction false} RunJobDescends(w: World, target: nat, attempts: nat, answer: RailAnswer, now: int, crash: bool, id: nat)
    requires SettlementOk(w) && id in w.db.jobs
    ensures PairDescends(w.db, AfterRunJob(w, target, attempts, answer, now, crash).db, id)
  {
    var c := RunJobStep(w, target, attempts, answer, now, crash);
    MoveDescends(w, AfterRunJob(w, target, attempts, answer, now, crash), target, c, now, id);
  }

  lemma {:induction false} WorkerAsksDescends(w: World, target: nat, answer: RailStatus, now: int, crash: bool, id: nat)
    requires SettlementOk(w) && id in w.db.jobs
    ensures PairDescends(w.db, AfterWorkerAsks(w, target, answer, now, crash).db, id)
  {
    WorkerAsksStep(w, target, answer, now, crash);
    MoveDescends(w, AfterWorkerAsks(w, target, answer, now, crash), target, Answered(answer), now, id);
  }

  lemma {:induction false} CustomerAsksDescends(w: World, target: nat, customer: string, answer: RailStatus, now: int, crash: bool, id: nat)
    requires SettlementOk(w) && id in w.db.jobs
    ensures PairDescends(w.db, AfterCustomerAsks(w, target, customer, answer, now, crash).db, id)
  {
    CustomerAsksStep(w, target, customer, answer, now, crash);
    MoveDescends(w, AfterCustomerAsks(w, target, customer, answer, now, crash), target, Answered(answer), now, id);
  }

  lemma {:induction false} OtherRepostDescends(w: World, target: nat, now: int, id: nat)
    requires SettlementOk(w) && id in w.db.jobs && target != id
    ensures PairDescends(w.db, AfterRepost(w, target, now).db, id)
  {
    RepostStep(w, target, now);
    MoveDescends(w, AfterRepost(w, target, now), target, Reposting, now, id);
  }

  lemma {:induction false} SettlementDescends(w: World, e: Event, id: nat)
    requires SettlementOk(w) && id in w.db.jobs && !(e.RepostTransfer? && e.id == id)
    requires e.RunJob? || e.WorkerAsks? || e.CustomerAsks? || e.RepostTransfer?
    ensures PairDescends(w.db, Step(w, e).db, id)
  {
    match e
    case RunJob(target, attempts, reply, now, crash) => RunJobDescends(w, target, attempts, reply, now, crash, id);
    case WorkerAsks(target, answer, now, crash) => WorkerAsksDescends(w, target, answer, now, crash, id);
    case CustomerAsks(target, customer, answer, now, crash) => CustomerAsksDescends(w, target, customer, answer, now, crash, id);
    case RepostTransfer(target, now) => OtherRepostDescends(w, target, now, id);
  }

  lemma {:induction false} RecordKeepsPair(db: Db, db': Db, t: Terms, id: nat)
    requires Records(db, db', t) && id < |db.transfers| && id in db.jobs
    ensures PhaseAt(db', id) == PhaseAt(db, id)
  {
  }

  lemma {:induction false} AskKeepsPair(w: World, c: Command, x: Context, id: nat)
    requires WalletsOk(w.db.books.wallets) && Admissible(Ask(c, x)) && id in w.db.jobs && id < |w.db.transfers|
    ensures PhaseAt(AfterAsk(w, c, x).db, id) == PhaseAt(w.db, id)
  {
    var t := RequestShape(w.db, c, x);
    var db' := Request(w.db, c, x).db;
    if db' != w.db {
      RecordKeepsPair(w.db, db', t, id);
    }
  }

  lemma {:induction false} OtherStepsKeepPair(w: World, e: Event, id: nat)
    requires id in w.db.jobs && id < |w.db.transfers|
    requires !e.Ask? && !e.RunJob? && !e.WorkerAsks? && !e.CustomerAsks? && !e.RepostTransfer?
    ensures PhaseAt(Step(w, e).db, id) == PhaseAt(w.db, id)
  {
    if e.ReconcileDay? && Reconciliation.FindReport(w.db.reports, e.day).None? && Reconciliation.RunDay(w.db, e.day, e.now).Ok? {
      Holdings.RunDayEffect(w.db, e.day, e.now);
    }
  }

  lemma {:induction false} JobHasPhase(w: World, id: nat)
    requires SettlementOk(w) && id in w.db.jobs
    ensures id < |w.db.transfers| && PhaseAt(w.db, id).Some?
  {
    assert PairOk(w.db.transfers[id], w.db.jobs[id]);
  }

  /** Every step that changes a transfer's pair, other than its repost, strictly lowers the pair's rank. */
  lemma {:induction false} StepDescends(w: World, e: Event, id: nat)
    requires SettlementOk(w) && WalletsOk(w.db.books.wallets)
    requires Admissible(e) && id in w.db.jobs && !(e.RepostTransfer? && e.id == id)
    ensures PairDescends(w.db, Step(w, e).db, id)
  {
    JobHasPhase(w, id);
    if e.Ask? {
      AskKeepsPair(w, e.command, e.context, id);
    } else if e.RunJob? || e.WorkerAsks? || e.CustomerAsks? || e.RepostTransfer? {
      SettlementDescends(w, e, id);
    } else {
      OtherStepsKeepPair(w, e, id);
    }
  }

  /** How many steps of a run change a transfer's pair. */
  ghost function PairChanges(w: World, es: seq<Event>, id: nat): nat
    decreases |es|
  {
    if |es| == 0 then 0
    else
      var front := es[..|es| - 1];
      PairChanges(w, front, id) + (if PhaseAt(Run(w, es).db, id) != PhaseAt(Run(w, front).db, id) then 1 else 0)
  }

  ghost predicate NoRepostOf(es: seq<Event>, id: nat) {
    forall i :: 0 <= i < |es| ==> !(es[i].RepostTransfer? && es[i].id == id)
  }

  lemma {:induction false} JobsPersist(w: World, es: seq<Event>, id: nat)
    requires Inv(w) && AllAdmissible(es) && id in w.db.jobs
    ensures var v := Run(w, es); id in v.db.jobs && SettlementOk(v) && WalletsOk(v.db.books.wallets)
  {
    RunKeepsInv(w, es);
    RunExtends(w, es);
    assert RowPersists(w.db, w.db.transfers[id], Run(w, es).db.transfers[id]);
  }

  lemma {:induction false} LastStepDescends(w: World, es: seq<Event>, id: nat)
    requires Inv(w) && AllAdmissible(es) && NoRepostOf(es, id) && id in w.db.jobs && |es| > 0
    ensures PairDescends(Run(w, es[..|es| - 1]).db, Run(w, es).db, id)
  {
    var front := es[..|es| - 1];
    JobsPersist(w, front, id);
    StepDescends(Run(w, front), es[|es| - 1], id);
  }

  /** The changes so far use up the rank: at most four in all. */
  ghost predicate ChangesBounded(w: World, es: seq<Event>, id: nat) {
    && PhaseAt(w.db, id).Some? && PhaseAt(Run(w, es).db, id).Some?
    && PairChanges(w, es, id) + Rank(PhaseAt(Run(w, es).db, id).value) <= Rank(PhaseAt(w.db, id).value) <= 4
  }

  lemma {:induction false} OneMoreChange(w: World, es: seq<Event>, id: nat)
    requires |es| > 0 && ChangesBounded(w, es[..|es| - 1], id)
    requires PairDescends(Run(w, es[..|es| - 1]).db, Run(w, es).db, id)
    ensures ChangesBounded(w, es, id)
  {
  }

  lemma {:induction false} NoChangesYet(w: World, es: seq<Event>, id: nat)
    requires SettlementOk(w) && id in w.db.jobs && |es| == 0
    ensures ChangesBounded(w, es, id)
  {
    JobHasPhase(w, id);
  }

  lemma {:induction false} FrontIsFine(es: seq<Event>, id: nat)
    requires AllAdmissible(es) && NoRepostOf(es, id) && |es| > 0
    ensures AllAdmissible(es[..|es| - 1]) && NoRepostOf(es[..|es| - 1], id)
  {
  }

  /** Between two reposts a transfer's pair changes at most four times, whatever else happens and however often. */
  lemma {:induction false} AtMostFourChanges(w: World, es: seq<Event>, id: nat)
    requires Inv(w) && AllAdmissible(es) && NoRepostOf(es, id) && id in w.db.jobs
    ensures ChangesBounded(w, es, id)
    decreases |es|
  {
    if |es| == 0 {
      NoChangesYet(w, es, id);
    } else {
      FrontIsFine(es, id);
      AtMostFourChanges(w, es[..|es| - 1], id);
      LastStepDescends(w, es, id);
      OneMoreChange(w, es, id);
    }
  }

  // ---------- Absorbing states ----------

  /** Settled is final, whatever is queried, dispatched or reposted afterwards. */
  lemma {:induction false} SettledIsFinal(w: World, v: World, id: nat)
    requires Reachable(w) && Leads(w, v) && id < |w.db.transfers| && w.db.transfers[id].status.Settled?
    ensures id < |v.db.transfers| && v.db.transfers[id].status.Settled?
  {
    ReachableHasInv(w);
    LaterExtends(w, v);
    assert RowPersists(w.db, w.db.transfers[id], v.db.transfers[id]);
  }

  /** A transfer whose outcome is unknown and that has no external reference stays so in every continuation. */
  lemma {:induction false} StrandedStaysStranded(w: World, v: World, id: nat)
    requires Reachable(w) && Leads(w, v) && id < |w.db.transfers| && Stranded(w.db.transfers[id])
    ensures id < |v.db.transfers| && Stranded(v.db.transfers[id])
  {
    ReachableHasInv(w);
    LaterExtends(w, v);
    assert RowPersists(w.db, w.db.transfers[id], v.db.transfers[id]);
  }

  /** Some continuation takes the transfer out of Unknown. */
  ghost predicate Resolves(w: World, id: nat) {
    exists v: World :: Leads(w, v) && id < |v.db.transfers| && !v.db.transfers[id].status.Unknown?
  }

  /** A worker query answered Sent settles an Unknown transfer that has a reference. */
  lemma {:induction false} SentAnswerSettles(w: World, id: nat, now: int)
    requires id < |w.db.transfers| && IsQueryable(w.db.transfers[id])
    ensures var v := AfterWorkerAsks(w, id, Sent, now, false);
      Leads(w, v) && id < |v.db.transfers| && v.db.transfers[id].status.Settled?
  {
    StepLeads(w, WorkerAsks(id, Sent, now, false));
  }

  /** An Unknown transfer can leave Unknown exactly when it has an external reference, even an empty one. */
  lemma {:induction false} UnknownResolvesIffReferenced(w: World, id: nat)
    requires Reachable(w) && id < |w.db.transfers| && w.db.transfers[id].status.Unknown?
    ensures Resolves(w, id) <==> w.db.transfers[id].externalReference.Some?
  {
    ReachableHasInv(w);
    if w.db.transfers[id].externalReference.Some? {
      SentAnswerSettles(w, id, 0);
    } else if Resolves(w, id) {
      var v: World :| Leads(w, v) && id < |v.db.transfers| && !v.db.transfers[id].status.Unknown?;
      StrandedStaysStranded(w, v, id);
    }
  }

  // ---------- What a dispatch commits ----------

  /** A dispatch that commits does what the rail said: settle with its reference, give the money back, or stay in doubt. */
  lemma {:induction false} DispatchFollowsAnswer(w: World, id: nat, attempts: nat, answer: RailAnswer, now: int)
    requires SettlementOk(w) && id in w.db.jobs && (id, attempts) in w.claims && id < |w.db.transfers|
    requires w.db.transfers[id].status.Submitted? && Dispatch(w.db, id, attempts, answer, now).Ok?
    ensures var t := w.db.transfers[id]; var db' := AfterRunJob(w, id, attempts, answer, now, false).db;
      && id < |db'.transfers| && id in db'.jobs && db'.transfers[id].terms == t.terms && db'.jobs[id].attempts == attempts + 1
      && match answer.status
         case Sent =>
           && db'.books == w.db.books && db'.transfers[id].status.Settled? && db'.transfers[id].externalReference == answer.reference
           && db'.jobs[id].status.Succeeded? && db'.jobs[id].providerReference == answer.reference
         case RailFailed =>
           && Reverse(w.db.books, id, t.terms, now) == Ok(db'.books) && db'.transfers[id].status.Failed?
           && db'.jobs[id].status == (if attempts + 1 >= MAX_ATTEMPTS then DeadLetter else JobFailed)
           && db'.jobs[id].nextAttemptAt == (if attempts + 1 >= MAX_ATTEMPTS then NEVER else now + BACKOFF)
         case RailUnknown =>
           && db'.books == w.db.books && db'.transfers[id].status.Unknown? && db'.transfers[id].externalReference == answer.reference
           && db'.jobs[id].status.JobFailed? && db'.jobs[id].nextAttemptAt == now + BACKOFF
  {
    assert PairOk(w.db.transfers[id], w.db.jobs[id]);
  }

  // ---------- What is sent ----------

  function CommittedSendOf(id: nat): Happening -> int {
    (h: Happening) => if h.SentInstruction? && h.id == id && h.committed then 1 else 0
  }

  lemma {:induction false} SendsBounded(w: World, n: nat, id: nat)
    requires SendsOk(w) && n <= |w.log|
    ensures Sum(w.log[..n], CommittedSendOf(id)) <= Reposts(w.log[..n], id) + (if HasOutcome(w.log[..n], id) then 1 else 0)
    decreases n
  {
    if n > 0 {
      SendsBounded(w, n - 1, id);
      var front, h := w.log[..n - 1], w.log[n - 1];
      assert w.log[..n] == front + [h];
      SumAppend(front, h, CommittedSendOf(id));
      LogAppend(front, h, id);
      assert SendOk(w, n - 1);
    }
  }

  /** However many workers hold stale claims, at most one dispatch outcome commits per submission epoch. */
  lemma {:induction false} OneOutcomePerEpoch(w: World, id: nat)
    requires Reachable(w)
    ensures Sum(w.log, CommittedSendOf(id)) <= Reposts(w.log, id) + 1
  {
    ReachableHasInv(w);
    SendsBounded(w, |w.log|, id);
    assert w.log[..|w.log|] == w.log;
  }

  /** A late worker, whose transfer is no longer Submitted, sends nothing and moves no money and no transfer. */
  lemma {:induction false} LateWorkerDoesNothing(w: World, id: nat, attempts: nat, answer: RailAnswer, now: int, crash: bool)
    requires id < |w.db.transfers| && !w.db.transfers[id].status.Submitted?
    ensures var w' := AfterRunJob(w, id, attempts, answer, now, crash);
      && w'.log == w.log && w'.db.books == w.db.books && w'.db.transfers == w.db.transfers
      && ((id, attempts) in w.claims && id in w.db.jobs && !crash ==> id in w'.db.jobs && w'.db.jobs[id].status.Succeeded?)
      && (id in w.db.jobs ==> id in w'.db.jobs && w'.db.jobs == w.db.jobs[id := w'.db.jobs[id]])
  {
    if (id, attempts) in w.claims {
      assert w.db.transfers[id := w.db.transfers[id]] == w.db.transfers;
    }
  }

  lemma {:induction false} OutcomeStands(log: seq<Happening>, i: nat, id: nat)
    requires i < |log| && log[i].SentInstruction? && log[i].id == id && log[i].committed
    requires forall k :: i < k < |log| ==> log[k] != Reposted(id)
    ensures HasOutcome(log, id)
    decreases |log|
  {
    if i < |log| - 1 {
      OutcomeStands(log[..|log| - 1], i, id);
    }
  }

  /** After a committed outcome nothing is sent for that transfer until it is reposted. */
  lemma {:induction false} NothingSentAfterOutcome(w: World, id: nat, i: nat, j: nat)
    requires Reachable(w)
    requires var log := w.log;
      && i < j < |log| && log[i].SentInstruction? && log[j].SentInstruction?
      && log[i].id == id && log[j].id == id && log[i].committed
    ensures exists k :: i < k < j && w.log[k] == Reposted(id)
  {
    ReachableHasInv(w);
    assert SendOk(w, j);
    if forall k :: i < k < j ==> w.log[k] != Reposted(id) {
      OutcomeStands(w.log[..j], i, id);
    }
  }

  /** All instructions ever sent for a transfer, aborted retries included, are the same instruction. */
  lemma {:induction false} RetriesSendTheSame(w: World, i: nat, j: nat)
    requires Reachable(w)
    requires var log := w.log;
      i < |log| && j < |log| && log[i].SentInstruction? && log[j].SentInstruction? && log[i].id == log[j].id
    ensures w.log[i].instruction == w.log[j].instruction
  {
    ReachableHasInv(w);
    assert SendOk(w, i) && SendOk(w, j);
  }

  /** Reversal groups, acted-upon Failed answers, and reposts plus one if the transfer is Failed now: one number. */
  lemma {:induction false} ReversalsExplained(w: World, id: nat)
    requires Reachable(w) && id in w.db.jobs
    ensures
      && id < |w.db.transfers|
      && Reversed(w.db.books, id) == CommittedFailures(w.log, id)
      && Reversed(w.db.books, id) == Reposts(w.log, id) + (if w.db.transfers[id].status.Failed? then 1 else 0)
  {
    ReachableHasInv(w);
    assert ReversalsMatch(w, id);
  }
}
