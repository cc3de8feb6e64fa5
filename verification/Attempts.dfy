/** How many attempts a settlement job can show, with claim lists that outlive reposts. */
module Attempts {
  import opened Prelude
  import opened Rows
  import opened Books
  import opened IdempotencyFingerprint
  import opened Ledger
  import opened Settlement
  import opened Shapes
  import opened Machine
  import opened Protocol
  import opened Reversals
  import opened Holdings
  import opened Invariants
  import Reconciliation

  /** The attempts a job can show in a phase, over those of the claims that were there when its transfer was last submitted. */
  function AttemptCap(p: Phase): nat {
    match p
    case Waiting => 0
    case InDoubt => 1
    case InDoubtClosed => 2
    case FailedOpen => 2
    case FailedClosed => 3
    case FailedDead => 2
    case Done => 2
  }

  /** The same for the attempts any claim list can show. */
  function ClaimCap(p: Phase): nat {
    match p
    case Waiting => 0
    case InDoubt => 1
    case InDoubtClosed => 1
    case FailedOpen => 2
    case FailedClosed => 2
    case FailedDead => 2
    case Done => 1
  }

  /** Job and claims of one transfer stay within the caps of its phase. */
  ghost predicate Capped(db: Db, id: nat, base: nat, claims: set<(nat, nat)>) {
    if id in db.jobs then
      && PhaseAt(db, id).Some?
      && db.jobs[id].attempts <= base + AttemptCap(PhaseAt(db, id).value)
      && forall n: nat :: (id, n) in claims ==> n <= base + ClaimCap(PhaseAt(db, id).value)
    else forall n: nat :: (id, n) !in claims
  }

  // ---------- One transaction ----------

  lemma {:induction false} DispatchKeepsCaps(db: Db, id: nat, n: nat, answer: RailAnswer, now: int, base: nat, claims: set<(nat, nat)>)
    requires id in db.jobs && id < |db.transfers| && PairOk(db.transfers[id], db.jobs[id])
    requires Capped(db, id, base, claims) && (id, n) in claims && Dispatch(db, id, n, answer, now).Ok?
    ensures Capped(Dispatch(db, id, n, answer, now).value, id, base, claims)
  {
  }

  lemma {:induction false} QueriesKeepCaps(db: Db, id: nat, answer: RailStatus, now: int, base: nat, claims: set<(nat, nat)>)
    requires id in db.jobs && id < |db.transfers| && db.transfers[id].status.Unknown?
    requires PairOk(db.transfers[id], db.jobs[id]) && Capped(db, id, base, claims)
    ensures WorkerQuery(db, id, answer, now).Ok? ==> Capped(WorkerQuery(db, id, answer, now).value, id, base, claims)
    ensures ApiQuery(db, id, answer, now).Ok? ==> Capped(ApiQuery(db, id, answer, now).value, id, base, claims)
  {
  }

  /** A repost starts from no attempts, but the claims it leaves behind raise the base by two. */
  lemma {:induction false} RepostRaisesBase(db: Db, id: nat, now: int, base: nat, claims: set<(nat, nat)>)
    requires id in db.jobs && Capped(db, id, base, claims) && Repost(db, id, now).Ok?
    ensures Capped(Repost(db, id, now).value, id, base + 2, claims)
    ensures Capped(Repost(db, id, now).value, id, 0, {})
  {
  }

  lemma {:induction false} ListingKeepsCaps(db: Db, id: nat, now: int, base: nat, claims: set<(nat, nat)>)
    requires JobsMatch(db) && PairsOk(db) && Capped(db, id, base, claims)
    ensures Capped(db, id, base, claims + Claimable(db, now))
  {
    if id in db.jobs { assert PairOk(db.transfers[id], db.jobs[id]); }
  }

  // ---------- One event ----------

  /** A claim this event runs for the transfer, if any, is one of `claims`. */
  ghost predicate RunsOnly(w: World, e: Event, id: nat, claims: set<(nat, nat)>) {
    e.RunJob? && e.id == id && (id, e.attempts) in w.claims ==> (id, e.attempts) in claims
  }

  predicate IsRepostOf(w: World, e: Event, id: nat) {
    e.RepostTransfer? && e.id == id && Repost(w.db, id, e.now).Ok?
  }

  function ListedBy(w: World, e: Event): set<(nat, nat)> {
    if e.ListClaims? then Claimable(w.db, e.now) else {}
  }

  lemma {:induction false} MoveElsewhereKeepsCaps(w: World, w': World, target: nat, c: Cause, now: int, id: nat, base: nat, claims: set<(nat, nat)>)
    requires w' == w || LostStep(w, w', target) || MoveStep(w, w', target, c, now)
    requires id != target && Capped(w.db, id, base, claims)
    ensures Capped(w'.db, id, base, claims)
  {
  }

  lemma {:induction false} RunJobKeepsCaps(w: World, target: nat, n: nat, answer: RailAnswer, now: int, crash: bool,
                                           id: nat, base: nat, claims: set<(nat, nat)>)
    requires SettlementOk(w) && Capped(w.db, id, base, claims)
    requires target == id && (id, n) in w.claims ==> (id, n) in claims
    ensures Capped(AfterRunJob(w, target, n, answer, now, crash).db, id, base, claims)
  {
    if target == id {
      if (id, n) in w.claims && Dispatch(w.db, id, n, answer, now).Ok? {
        assert PairOk(w.db.transfers[id], w.db.jobs[id]);
        DispatchKeepsCaps(w.db, id, n, answer, now, base, claims);
      }
    } else {
      var c := RunJobStep(w, target, n, answer, now, crash);
      MoveElsewhereKeepsCaps(w, AfterRunJob(w, target, n, answer, now, crash), target, c, now, id, base, claims);
    }
  }

  lemma {:induction false} QueryKeepsCaps(w: World, e: Event, id: nat, base: nat, claims: set<(nat, nat)>)
    requires SettlementOk(w) && Capped(w.db, id, base, claims) && (e.WorkerAsks? || e.CustomerAsks?)
    ensures Capped(Step(w, e).db, id, base, claims)
  {
    if e.id != id {
      if e.WorkerAsks? {
        WorkerAsksStep(w, e.id, e.answer, e.now, e.crash);
      } else {
        CustomerAsksStep(w, e.id, e.customer, e.answer, e.now, e.crash);
      }
      MoveElsewhereKeepsCaps(w, Step(w, e), e.id, Answered(e.answer), e.now, id, base, claims);
    } else if id < |w.db.transfers| && w.db.transfers[id].status.Unknown? && w.db.transfers[id].terms.kind.Outbound? {
      assert PairOk(w.db.transfers[id], w.db.jobs[id]);
      QueriesKeepCaps(w.db, id, e.answer, e.now, base, claims);
    } else if id in w.db.jobs {
      assert PairOk(w.db.transfers[id], w.db.jobs[id]);
    }
  }

  lemma {:induction false} OtherRepostKeepsCaps(w: World, target: nat, now: int, id: nat, base: nat, claims: set<(nat, nat)>)
    requires SettlementOk(w) && Capped(w.db, id, base, claims) && (target == id ==> Repost(w.db, id, now).Err?)
    ensures Capped(AfterRepost(w, target, now).db, id, base, claims)
  {
    if target != id {
      RepostStep(w, target, now);
      MoveElsewhereKeepsCaps(w, AfterRepost(w, target, now), target, Reposting, now, id, base, claims);
    }
  }

  lemma {:induction false} RecordKeepsCaps(db: Db, db': Db, t: Terms, id: nat, base: nat, claims: set<(nat, nat)>)
    requires JobsMatch(db) && Records(db, db', t) && Capped(db, id, base, claims)
    ensures Capped(db', id, base, claims)
  {
  }

  lemma {:induction false} AskKeepsCaps(w: World, c: Command, x: Context, id: nat, base: nat, claims: set<(nat, nat)>)
    requires WalletsOk(w.db.books.wallets) && JobsMatch(w.db) && Admissible(Ask(c, x)) && Capped(w.db, id, base, claims)
    ensures Capped(AfterAsk(w, c, x).db, id, base, claims)
  {
    var t := RequestShape(w.db, c, x);
    if AfterAsk(w, c, x).db != w.db { RecordKeepsCaps(w.db, AfterAsk(w, c, x).db, t, id, base, claims); }
  }

  lemma {:induction false} ReconcileKeepsCaps(w: World, day: int, now: int, id: nat, base: nat, claims: set<(nat, nat)>)
    requires Capped(w.db, id, base, claims)
    ensures Capped(Commit(w.db, Reconciliation.Reconcile(w.db, day, now)), id, base, claims)
  {
    if Reconciliation.FindReport(w.db.reports, day).None? && Reconciliation.RunDay(w.db, day, now).Ok? {
      RunDayEffect(w.db, day, now);
    }
  }

  lemma {:induction false} SettlementKeepsCaps(w: World, e: Event, id: nat, base: nat, claims: set<(nat, nat)>)
    requires SettlementOk(w) && (e.RunJob? || e.WorkerAsks? || e.CustomerAsks? || e.RepostTransfer?)
    requires Capped(w.db, id, base, claims) && RunsOnly(w, e, id, claims) && !IsRepostOf(w, e, id)
    ensures Capped(Step(w, e).db, id, base, claims)
  {
    match e
    case RunJob(target, n, reply, now, crash) => RunJobKeepsCaps(w, target, n, reply, now, crash, id, base, claims);
    case WorkerAsks(_, _, _, _) => QueryKeepsCaps(w, e, id, base, claims);
    case CustomerAsks(_, _, _, _, _) => QueryKeepsCaps(w, e, id, base, claims);
    case RepostTransfer(target, now) => OtherRepostKeepsCaps(w, target, now, id, base, claims);
  }

  lemma {:induction false} OthersKeepCaps(w: World, e: Event, id: nat, base: nat, claims: set<(nat, nat)>)
    requires !e.Ask? && !e.ReconcileDay? && !e.RunJob? && !e.WorkerAsks? && !e.CustomerAsks? && !e.RepostTransfer?
    requires Capped(w.db, id, base, claims)
    ensures Capped(Step(w, e).db, id, base, claims)
  {
  }

  /** Any event but the transfer's own repost keeps the caps, as long as the claims it runs are counted among `claims`. */
  lemma {:induction false} StepKeepsCaps(w: World, e: Event, id: nat, base: nat, claims: set<(nat, nat)>)
    requires SettlementOk(w) && WalletsOk(w.db.books.wallets) && Admissible(e)
    requires Capped(w.db, id, base, claims) && RunsOnly(w, e, id, claims) && !IsRepostOf(w, e, id)
    ensures Capped(Step(w, e).db, id, base, claims + ListedBy(w, e))
  {
    assert !e.ListClaims? ==> claims + ListedBy(w, e) == claims;
    if e.ListClaims? {
      ListingKeepsCaps(w.db, id, e.now, base, claims);
    } else if e.Ask? {
      AskKeepsCaps(w, e.command, e.context, id, base, claims);
    } else if e.ReconcileDay? {
      ReconcileKeepsCaps(w, e.day, e.now, id, base, claims);
    } else if e.RunJob? || e.WorkerAsks? || e.CustomerAsks? || e.RepostTransfer? {
      SettlementKeepsCaps(w, e, id, base, claims);
    } else {
      OthersKeepCaps(w, e, id, base, claims);
    }
  }

  // ---------- Over runs, with any stale claims ----------

  lemma {:induction false} SettlementLogsNoRepost(w: World, e: Event, id: nat)
    requires SettlementOk(w) && (e.RunJob? || e.WorkerAsks? || e.CustomerAsks?)
    ensures Reposts(Step(w, e).log, id) == Reposts(w.log, id)
  {
    var w' := Step(w, e);
    if |w'.log| > |w.log| {
      assert w'.log == w.log + [w'.log[|w.log|]] && !w'.log[|w.log|].Reposted?;
      LogAppend(w.log, w'.log[|w.log|], id);
    }
  }

  lemma {:induction false} RepostsCount(w: World, e: Event, id: nat)
    requires SettlementOk(w)
    ensures Reposts(Step(w, e).log, id) == Reposts(w.log, id) + (if IsRepostOf(w, e, id) then 1 else 0)
  {
    match e
    case Ask(c, x) =>
      var w' := AfterAsk(w, c, x);
      if |w'.log| > |w.log| { LogAppend(w.log, w'.log[|w.log|], id); }
    case RepostTransfer(target, now) =>
      if Repost(w.db, target, now).Ok? { LogAppend(w.log, Reposted(target), id); }
    case RunJob(_, _, _, _, _) => SettlementLogsNoRepost(w, e, id);
    case WorkerAsks(_, _, _, _) => SettlementLogsNoRepost(w, e, id);
    case CustomerAsks(_, _, _, _, _) => SettlementLogsNoRepost(w, e, id);
    case _ =>
  }

  ghost predicate CappedByReposts(w: World, id: nat) {
    Reposts(w.log, id) >= 0 && Capped(w.db, id, 2 * Reposts(w.log, id), w.claims)
  }

  lemma {:induction false} ClaimsGrow(w: World, e: Event)
    ensures Step(w, e).claims == w.claims + ListedBy(w, e)
  {
  }

  lemma {:induction false} StepKeepsCapsByReposts(w: World, e: Event, id: nat)
    requires SettlementOk(w) && WalletsOk(w.db.books.wallets) && Admissible(e) && CappedByReposts(w, id)
    ensures CappedByReposts(Step(w, e), id)
  {
    RepostsCount(w, e, id);
    ClaimsGrow(w, e);
    if IsRepostOf(w, e, id) {
      RepostRaisesBase(w.db, id, e.now, 2 * Reposts(w.log, id), w.claims);
    } else {
      StepKeepsCaps(w, e, id, 2 * Reposts(w.log, id), w.claims);
    }
  }

  lemma {:induction false} RunIsCapped(es: seq<Event>, id: nat)
    requires AllAdmissible(es)
    ensures CappedByReposts(Run(Start(), es), id)
    decreases |es|
  {
    if |es| > 0 {
      var front := es[..|es| - 1];
      RunIsCapped(front, id);
      ReachableInv(front);
      StepKeepsCapsByReposts(Run(Start(), front), es[|es| - 1], id);
    }
  }

  /** With any stale claim lists, r reposts allow at most 2r + 3 attempts, and a dead letter needs two reposts. */
  lemma {:induction false} AttemptsGrowWithReposts(w: World, id: nat)
    requires Reachable(w) && id in w.db.jobs
    ensures w.db.jobs[id].attempts <= 2 * Reposts(w.log, id) + 3
    ensures w.db.jobs[id].status.DeadLetter? ==> Reposts(w.log, id) >= 2
  {
    var es: seq<Event> :| AllAdmissible(es) && w == Run(Start(), es);
    RunIsCapped(es, id);
    ReachableHasInv(w);
    CapsBoundAttempts(w.db, id, 2 * Reposts(w.log, id), w.claims);
  }

  lemma {:induction false} CapsBoundAttempts(db: Db, id: nat, base: nat, claims: set<(nat, nat)>)
    requires JobsMatch(db) && PairsOk(db) && id in db.jobs && Capped(db, id, base, claims)
    ensures db.jobs[id].attempts <= base + 3
    ensures db.jobs[id].status.DeadLetter? ==> base + 2 >= MAX_ATTEMPTS
  {
    assert PairOk(db.transfers[id], db.jobs[id]);
  }

  // ---------- Over runs in which no claim crosses a repost ----------

  /** The claims of a transfer listed in a run since its last repost. */
  ghost function FreshClaims(es: seq<Event>, id: nat): set<(nat, nat)>
    decreases |es|
  {
    if |es| == 0 then {}
    else
      var front, e := es[..|es| - 1], es[|es| - 1];
      var w := Run(Start(), front);
      if IsRepostOf(w, e, id) then {} else FreshClaims(front, id) + ListedBy(w, e)
  }

  /** No claim listed before a repost of the transfer is run after it, unless it was listed again. */
  ghost predicate NoClaimCrosses(es: seq<Event>, id: nat) {
    forall k :: 0 <= k < |es| ==> RunsOnly(Run(Start(), es[..k]), es[k], id, FreshClaims(es[..k], id))
  }

  lemma {:induction false} FrontCrossesNothing(es: seq<Event>, id: nat)
    requires |es| > 0 && NoClaimCrosses(es, id)
    ensures NoClaimCrosses(es[..|es| - 1], id)
    ensures RunsOnly(Run(Start(), es[..|es| - 1]), es[|es| - 1], id, FreshClaims(es[..|es| - 1], id))
  {
    var front := es[..|es| - 1];
    forall k | 0 <= k < |front| ensures RunsOnly(Run(Start(), front[..k]), front[k], id, FreshClaims(front[..k], id)) {
      assert front[..k] == es[..k];
    }
  }

  lemma {:induction false} FreshStepIsCapped(w: World, e: Event, id: nat, claims: set<(nat, nat)>)
    requires SettlementOk(w) && WalletsOk(w.db.books.wallets) && Admissible(e)
    requires Capped(w.db, id, 0, claims) && RunsOnly(w, e, id, claims)
    ensures Capped(Step(w, e).db, id, 0, if IsRepostOf(w, e, id) then {} else claims + ListedBy(w, e))
  {
    if IsRepostOf(w, e, id) {
      RepostRaisesBase(w.db, id, e.now, 0, claims);
    } else {
      StepKeepsCaps(w, e, id, 0, claims);
    }
  }

  lemma {:induction false} FreshRunIsCapped(es: seq<Event>, id: nat)
    requires AllAdmissible(es) && NoClaimCrosses(es, id)
    ensures Capped(Run(Start(), es).db, id, 0, FreshClaims(es, id))
    decreases |es|
  {
    if |es| > 0 {
      var front, e := es[..|es| - 1], es[|es| - 1];
      var w := Run(Start(), front);
      FrontCrossesNothing(es, id);
      FreshRunIsCapped(front, id);
      ReachableInv(front);
      FreshStepIsCapped(w, e, id, FreshClaims(front, id));
    }
  }

  /** When no claim crosses a repost of the transfer, its job shows at most three attempts and is never a dead letter. */
  lemma {:induction false} ThreeAttemptsWithoutCrossing(es: seq<Event>, id: nat)
    requires AllAdmissible(es) && NoClaimCrosses(es, id) && id in Run(Start(), es).db.jobs
    ensures Run(Start(), es).db.jobs[id].attempts <= 3 && !Run(Start(), es).db.jobs[id].status.DeadLetter?
  {
    FreshRunIsCapped(es, id);
    ReachableInv(es);
    CapsBoundAttempts(Run(Start(), es).db, id, 0, FreshClaims(es, id));
  }

  // ---------- The exact condition ----------

  /** The event commits a dispatch of the transfer from a claim it holds. */
  predicate CommitsClaim(w: World, e: Event, id: nat) {
    && e.RunJob? && e.id == id && (id, e.attempts) in w.claims && id < |w.db.transfers| && !e.crash
    && Dispatch(w.db, id, e.attempts, e.reply, e.now).Ok?
  }

  predicate RunsLargeClaim(w: World, e: Event, id: nat) { CommitsClaim(w, e, id) && e.attempts >= 3 }

  predicate Modest(db: Db, id: nat) { id in db.jobs ==> db.jobs[id].attempts <= 3 && !db.jobs[id].status.DeadLetter? }

  lemma {:induction false} MoveElsewhereKeepsJob(w: World, w': World, target: nat, c: Cause, now: int, id: nat)
    requires w' == w || LostStep(w, w', target) || MoveStep(w, w', target, c, now)
    requires id != target && id in w.db.jobs
    ensures id in w'.db.jobs && w'.db.jobs[id] == w.db.jobs[id]
  {
  }

  lemma {:induction false} OwnDispatchAttempts(w: World, id: nat, n: nat, answer: RailAnswer, now: int, crash: bool)
    requires id in w.db.jobs
    ensures var db' := AfterRunJob(w, id, n, answer, now, crash).db;
      && id in db'.jobs
      && db'.jobs[id].attempts == if CommitsClaim(w, RunJob(id, n, answer, now, crash), id) then n + 1 else w.db.jobs[id].attempts
  {
  }

  lemma {:induction false} OwnQueryAttempts(w: World, e: Event, id: nat)
    requires (e.WorkerAsks? || e.CustomerAsks? || e.RepostTransfer?) && e.id == id && id in w.db.jobs
    ensures id in Step(w, e).db.jobs
    ensures Step(w, e).db.jobs[id].attempts == if IsRepostOf(w, e, id) then 0 else w.db.jobs[id].attempts
  {
  }

  lemma {:induction false} OtherStepKeepsJob(w: World, e: Event, id: nat)
    requires SettlementOk(w) && (e.RunJob? || e.WorkerAsks? || e.CustomerAsks? || e.RepostTransfer?) && e.id != id && id in w.db.jobs
    ensures id in Step(w, e).db.jobs && Step(w, e).db.jobs[id] == w.db.jobs[id]
  {
    match e
    case RunJob(target, n, reply, now, crash) =>
      var c := RunJobStep(w, target, n, reply, now, crash);
      MoveElsewhereKeepsJob(w, AfterRunJob(w, target, n, reply, now, crash), target, c, now, id);
    case WorkerAsks(target, answer, now, crash) =>
      WorkerAsksStep(w, target, answer, now, crash);
      MoveElsewhereKeepsJob(w, AfterWorkerAsks(w, target, answer, now, crash), target, Answered(answer), now, id);
    case CustomerAsks(target, customer, answer, now, crash) =>
      CustomerAsksStep(w, target, customer, answer, now, crash);
      MoveElsewhereKeepsJob(w, AfterCustomerAsks(w, target, customer, answer, now, crash), target, Answered(answer), now, id);
    case RepostTransfer(target, now) =>
      RepostStep(w, target, now);
      MoveElsewhereKeepsJob(w, AfterRepost(w, target, now), target, Reposting, now, id);
  }

  lemma {:induction false} AskKeepsJobs(w: World, c: Command, x: Context, id: nat)
    requires WalletsOk(w.db.books.wallets) && JobsMatch(w.db) && Admissible(Ask(c, x))
    ensures var db' := AfterAsk(w, c, x).db;
      && (id in w.db.jobs ==> id in db'.jobs && db'.jobs[id] == w.db.jobs[id])
      && (id !in w.db.jobs && id in db'.jobs ==> db'.jobs[id].attempts == 0)
  {
    var t := RequestShape(w.db, c, x);
  }

  lemma {:induction false} OtherEventsKeepJobs(w: World, e: Event, id: nat)
    requires !e.Ask? && !e.RunJob? && !e.WorkerAsks? && !e.CustomerAsks? && !e.RepostTransfer?
    ensures Step(w, e).db.jobs == w.db.jobs
  {
    if e.ReconcileDay? && Reconciliation.FindReport(w.db.reports, e.day).None? && Reconciliation.RunDay(w.db, e.day, e.now).Ok? {
      RunDayEffect(w.db, e.day, e.now);
    }
  }

  /** Attempts are those of the claim that was committed last, plus one, or none since the last repost. */
  lemma {:induction false} StepAttempts(w: World, e: Event, id: nat)
    requires SettlementOk(w) && WalletsOk(w.db.books.wallets) && Admissible(e) && id in w.db.jobs
    ensures id in Step(w, e).db.jobs
    ensures Step(w, e).db.jobs[id].attempts
         == if CommitsClaim(w, e, id) then e.attempts + 1 else if IsRepostOf(w, e, id) then 0 else w.db.jobs[id].attempts
  {
    if e.Ask? {
      AskKeepsJobs(w, e.command, e.context, id);
    } else if e.RunJob? || e.WorkerAsks? || e.CustomerAsks? || e.RepostTransfer? {
      if e.id != id {
        OtherStepKeepsJob(w, e, id);
      } else if e.RunJob? {
        OwnDispatchAttempts(w, id, e.attempts, e.reply, e.now, e.crash);
      } else {
        OwnQueryAttempts(w, e, id);
      }
    } else {
      OtherEventsKeepJobs(w, e, id);
    }
  }

  lemma {:induction false} SettlementAddsNoJob(w: World, e: Event, id: nat)
    requires SettlementOk(w) && (e.RunJob? || e.WorkerAsks? || e.CustomerAsks? || e.RepostTransfer?)
    requires id !in w.db.jobs
    ensures id !in Step(w, e).db.jobs
  {
    match e
    case RunJob(target, n, reply, now, crash) => var c := RunJobStep(w, target, n, reply, now, crash);
    case WorkerAsks(target, answer, now, crash) => WorkerAsksStep(w, target, answer, now, crash);
    case CustomerAsks(target, customer, answer, now, crash) => CustomerAsksStep(w, target, customer, answer, now, crash);
    case RepostTransfer(target, now) => RepostStep(w, target, now);
  }

  lemma {:induction false} NewJobHasNoAttempts(w: World, e: Event, id: nat)
    requires SettlementOk(w) && WalletsOk(w.db.books.wallets) && Admissible(e) && id !in w.db.jobs && id in Step(w, e).db.jobs
    ensures Step(w, e).db.jobs[id].attempts == 0
  {
    if e.Ask? {
      AskKeepsJobs(w, e.command, e.context, id);
    } else if e.RunJob? || e.WorkerAsks? || e.CustomerAsks? || e.RepostTransfer? {
      SettlementAddsNoJob(w, e, id);
    } else {
      OtherEventsKeepJobs(w, e, id);
    }
  }

  lemma {:induction false} ModestIsFewAttempts(w: World, id: nat)
    requires SettlementOk(w)
    ensures Modest(w.db, id) <==> (id in w.db.jobs ==> w.db.jobs[id].attempts <= 3)
  {
    if id in w.db.jobs { assert PairOk(w.db.transfers[id], w.db.jobs[id]); }
  }

  lemma {:induction false} StepIsModestIff(w: World, e: Event, id: nat)
    requires Inv(w) && Admissible(e) && Modest(w.db, id) && (id !in w.db.jobs ==> forall n: nat :: (id, n) !in w.claims)
    ensures Modest(Step(w, e).db, id) <==> !RunsLargeClaim(w, e, id)
  {
    StepKeepsInv(w, e);
    ModestIsFewAttempts(Step(w, e), id);
    if id in w.db.jobs {
      StepAttempts(w, e, id);
    } else if id in Step(w, e).db.jobs {
      NewJobHasNoAttempts(w, e, id);
    }
  }

  lemma {:induction false} PrefixIsModestIff(es: seq<Event>, id: nat, k: nat)
    requires AllAdmissible(es) && k < |es| && Modest(Run(Start(), es[..k]).db, id)
    ensures Modest(Run(Start(), es[..k + 1]).db, id) <==> !RunsLargeClaim(Run(Start(), es[..k]), es[k], id)
  {
    assert es[..k + 1][..k] == es[..k];
    ReachableInv(es[..k]);
    RunIsCapped(es[..k], id);
    StepIsModestIff(Run(Start(), es[..k]), es[k], id);
  }

  /** A run keeps at most three attempts and no dead letter throughout exactly when it commits no claim listed with three or more. */
  lemma {:induction false} ModestIffNoLargeClaim(es: seq<Event>, id: nat)
    requires AllAdmissible(es)
    ensures (forall k :: 0 <= k <= |es| ==> Modest(Run(Start(), es[..k]).db, id))
       <==> (forall k :: 0 <= k < |es| ==> !RunsLargeClaim(Run(Start(), es[..k]), es[k], id))
  {
    if forall k :: 0 <= k <= |es| ==> Modest(Run(Start(), es[..k]).db, id) {
      forall k | 0 <= k < |es| ensures !RunsLargeClaim(Run(Start(), es[..k]), es[k], id) {
        PrefixIsModestIff(es, id, k);
      }
    }
    if forall k :: 0 <= k < |es| ==> !RunsLargeClaim(Run(Start(), es[..k]), es[k], id) {
      forall k | 0 <= k <= |es| ensures Modest(Run(Start(), es[..k]).db, id) {
        SmallClaimsStayModest(es, id, k);
      }
    }
  }

  lemma {:induction false} SmallClaimsStayModest(es: seq<Event>, id: nat, k: nat)
    requires AllAdmissible(es) && k <= |es|
    requires forall i :: 0 <= i < |es| ==> !RunsLargeClaim(Run(Start(), es[..i]), es[i], id)
    ensures Modest(Run(Start(), es[..k]).db, id)
    decreases k
  {
    if k > 0 {
      SmallClaimsStayModest(es, id, k - 1);
      PrefixIsModestIff(es, id, k - 1);
    }
  }
}
