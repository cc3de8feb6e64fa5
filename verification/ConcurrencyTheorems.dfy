/** Interleaved runs are serial runs, and what the loser of a race gets. */
module ConcurrencyTheorems {
  import opened Prelude
  import opened Rows
  import opened Books
  import opened DailyOutboundLimit
  import opened IdempotencyFingerprint
  import opened WatBusinessDay
  import opened Ledger
  import opened Settlement
  import opened Shapes
  import opened Machine
  import opened Conservation
  import opened Protocol
  import opened Requests
  import opened Holdings
  import opened Invariants
  import opened Persistence
  import opened MoneyTheorems
  import opened RequestTheorems
  import opened Concurrency
  import Reconciliation
  import SettlementTheorems

  // ---------- What no other step takes away ----------

  ghost predicate Spares(e: Event, id: nat) {
    !(e.RunJob? && e.id == id) && !(e.RepostTransfer? && e.id == id)
  }

  lemma {:induction false} MoveElsewhere(w: World, w': World, target: nat, c: Cause, now: int, id: nat)
    requires w' == w || LostStep(w, w', target) || MoveStep(w, w', target, c, now)
    requires id < |w.db.transfers| && w.db.transfers[id].status.Submitted?
    requires target != id || c.Answered?
    ensures id < |w'.db.transfers| && w'.db.transfers[id] == w.db.transfers[id]
  {
  }

  lemma {:induction false} SettlementSparesRow(w: World, e: Event, id: nat)
    requires SettlementOk(w) && Spares(e, id) && id < |w.db.transfers| && w.db.transfers[id].status.Submitted?
    requires e.RunJob? || e.WorkerAsks? || e.CustomerAsks? || e.RepostTransfer?
    ensures id < |Step(w, e).db.transfers| && Step(w, e).db.transfers[id] == w.db.transfers[id]
  {
    match e
    case RunJob(target, attempts, reply, now, crash) =>
      var c := RunJobStep(w, target, attempts, reply, now, crash);
      MoveElsewhere(w, AfterRunJob(w, target, attempts, reply, now, crash), target, c, now, id);
    case WorkerAsks(target, answer, now, crash) =>
      WorkerAsksStep(w, target, answer, now, crash);
      MoveElsewhere(w, AfterWorkerAsks(w, target, answer, now, crash), target, Answered(answer), now, id);
    case CustomerAsks(target, customer, answer, now, crash) =>
      CustomerAsksStep(w, target, customer, answer, now, crash);
      MoveElsewhere(w, AfterCustomerAsks(w, target, customer, answer, now, crash), target, Answered(answer), now, id);
    case RepostTransfer(target, now) =>
      RepostStep(w, target, now);
      MoveElsewhere(w, AfterRepost(w, target, now), target, Reposting, now, id);
  }

  lemma {:induction false} AskSparesRow(w: World, c: Command, x: Context, id: nat)
    requires WalletsOk(w.db.books.wallets) && Admissible(Ask(c, x)) && id < |w.db.transfers|
    ensures id < |AfterAsk(w, c, x).db.transfers| && AfterAsk(w, c, x).db.transfers[id] == w.db.transfers[id]
  {
    var t := RequestShape(w.db, c, x);
  }

  lemma {:induction false} ReconcileSparesRow(w: World, day: int, now: int, id: nat)
    requires id < |w.db.transfers| && w.db.transfers[id].status.Submitted?
    ensures var db' := Commit(w.db, Reconciliation.Reconcile(w.db, day, now));
      id < |db'.transfers| && db'.transfers[id] == w.db.transfers[id]
  {
    if Reconciliation.FindReport(w.db.reports, day).None? && Reconciliation.RunDay(w.db, day, now).Ok? {
      RunDayEffect(w.db, day, now);
    }
  }

  /** Apart from its own dispatch, nothing touches the row of a Submitted transfer. */
  lemma {:induction false} SubmittedRowStays(w: World, e: Event, id: nat)
    requires SettlementOk(w) && WalletsOk(w.db.books.wallets) && Admissible(e) && Spares(e, id)
    requires id < |w.db.transfers| && w.db.transfers[id].status.Submitted?
    ensures id < |Step(w, e).db.transfers| && Step(w, e).db.transfers[id] == w.db.transfers[id]
  {
    if e.Ask? {
      AskSparesRow(w, e.command, e.context, id);
    } else if e.ReconcileDay? {
      ReconcileSparesRow(w, e.day, e.now, id);
    } else if e.RunJob? || e.WorkerAsks? || e.CustomerAsks? || e.RepostTransfer? {
      SettlementSparesRow(w, e, id);
    }
  }

  lemma {:induction false} PhaseTellsSubmitted(db: Db, db': Db, id: nat)
    requires SettlementTheorems.PairDescends(db, db', id) && !db.transfers[id].status.Submitted?
    ensures id in db'.jobs && id < |db'.transfers| && !db'.transfers[id].status.Submitted?
  {
  }

  /** A transfer that is not Submitted becomes so only by its own repost. */
  lemma {:induction false} ResolvedStaysResolved(w: World, e: Event, id: nat)
    requires Inv(w) && Admissible(e) && Spares(e, id) && id in w.db.jobs && id < |w.db.transfers|
    requires !w.db.transfers[id].status.Submitted?
    ensures id in Step(w, e).db.jobs && id < |Step(w, e).db.transfers| && !Step(w, e).db.transfers[id].status.Submitted?
  {
    SettlementTheorems.StepDescends(w, e, id);
    PhaseTellsSubmitted(w.db, Step(w, e).db, id);
  }

  lemma {:induction false} ClaimsStay(w: World, e: Event, id: nat, n: nat)
    requires Spares(e, id) && (id, n) in w.claims
    ensures (id, n) in Step(w, e).claims
  {
  }

  lemma {:induction false} SubmittedJobStays(w: World, e: Event, id: nat)
    requires Inv(w) && Admissible(e) && Spares(e, id) && id in w.db.jobs && id < |w.db.transfers|
    requires w.db.transfers[id].status.Submitted?
    ensures id in Step(w, e).db.jobs
    ensures id < |Step(w, e).db.transfers| && Step(w, e).db.transfers[id] == w.db.transfers[id]
  {
    SubmittedRowStays(w, e, id);
    SettlementTheorems.StepDescends(w, e, id);
  }

  lemma {:induction false} StepKeepsTask(w: World, e: Event, t: Task)
    requires Inv(w) && Admissible(e) && TaskOk(w, t) && (t.Dispatching? ==> Spares(e, t.id))
    ensures TaskOk(Step(w, e), t)
  {
    if t.Dispatching? {
      ClaimsStay(w, e, t.id, t.attempts);
      if t.found.status.Submitted? { SubmittedJobStays(w, e, t.id); } else { ResolvedStaysResolved(w, e, t.id); }
    } else {
      StepExtends(w, e);
      AskingTaskStays(w, Step(w, e), t);
    }
  }

  lemma {:induction false} AskingTaskStays(w: World, v: World, t: Task)
    requires Extends(w, v) && t.Asking? && TaskOk(w, t)
    ensures TaskOk(v, t)
  {
    ReachesReplayLater(w, v, t.command, t.context, t.context);
  }

  // ---------- A finished dispatch is the atomic dispatch ----------

  lemma {:induction false} DispatchAsReadIsDispatch(db: Db, t: Task, answer: RailAnswer)
    requires t.Dispatching? && t.id < |db.transfers| && t.id in db.jobs
    requires if t.found.status.Submitted? then db.transfers[t.id] == t.found else !db.transfers[t.id].status.Submitted?
    ensures DispatchAsRead(db, t, answer) == Dispatch(db, t.id, t.attempts, answer, t.now)
  {
    assert db.transfers[t.id := db.transfers[t.id]] == db.transfers;
  }

  lemma {:induction false} FinishIsRunJob(w: World, t: Task, answer: RailAnswer)
    requires t.Dispatching? && TaskOk(w, t)
    ensures AfterDispatch(w, t, answer) == AfterRunJob(w, t.id, t.attempts, answer, t.now, false)
  {
    DispatchAsReadIsDispatch(w.db, t, answer);
  }

  lemma {:induction false} LossIsCrash(w: World, t: Task)
    requires t.Dispatching? && TaskOk(w, t) && t.answer.Some?
    ensures AfterLoss(w, t) == AfterRunJob(w, t.id, t.attempts, t.answer.value, t.now, true)
  {
  }

  // ---------- Every step is a serial step or none ----------

  ghost predicate Timely(s: State, a: Action) {
    a.FinishRequest? && a.x in s.tasks ==> !RidesOldVerdict(s.world.db, s.tasks[a.x])
  }

  /** Everything but a finished request is exactly its serial event, or nothing. */
  lemma {:induction false} OthersAreSerial(s: State, a: Action)
    requires TasksOk(s) && !a.FinishRequest?
    ensures Advance(s, a).world == After(s.world, SerialEvent(s, a))
    ensures SerialEvent(s, a).Some? ==> Admissible(SerialEvent(s, a).value) && !SerialEvent(s, a).value.Ask?
  {
    if Enabled(s, a) {
      match a
      case FinishDispatch(x) => FinishIsRunJob(s.world, s.tasks[x], AnswerOf(s.tasks[x]));
      case Drop(x) => if s.tasks[x].Dispatching? && s.tasks[x].answer.Some? { LossIsCrash(s.world, s.tasks[x]); }
      case _ =>
    }
  }

  lemma {:induction false} AdvanceIsSerial(s: State, a: Action)
    requires Inv(s.world) && TasksOk(s) && Timely(s, a)
    ensures SameButVerdicts(Advance(s, a).world, After(s.world, SerialEvent(s, a)))
    ensures SerialEvent(s, a).Some? ==> Admissible(SerialEvent(s, a).value)
  {
    if a.FinishRequest? && Enabled(s, a) {
      FinishIsAskOrNothing(s.world, s.tasks[a.x]);
    } else if !a.FinishRequest? {
      OthersAreSerial(s, a);
    }
  }

  /** The serial event spares every transfer another task is dispatching. */
  lemma {:induction false} SerialEventSpares(s: State, a: Action, y: nat)
    requires TasksOk(s) && !a.FinishRequest? && SerialEvent(s, a).Some? && y in Advance(s, a).tasks
    requires y in s.tasks && s.tasks[y].Dispatching?
    ensures Spares(SerialEvent(s, a).value, s.tasks[y].id)
  {
    if a.Whole? && a.event.RepostTransfer? {
      assert Locked(s, s.tasks[y].id);
    }
  }

  lemma {:induction false} OldTasksStay(s: State, a: Action, y: nat)
    requires Inv(s.world) && TasksOk(s) && Enabled(s, a) && (a.FinishDispatch? || a.Drop? || a.Whole?)
    requires y in Advance(s, a).tasks
    ensures TaskOk(Advance(s, a).world, Advance(s, a).tasks[y])
  {
    OthersAreSerial(s, a);
    assert y in s.tasks && Advance(s, a).tasks[y] == s.tasks[y];
    if SerialEvent(s, a).Some? {
      if s.tasks[y].Dispatching? { SerialEventSpares(s, a, y); }
      StepKeepsTask(s.world, SerialEvent(s, a).value, s.tasks[y]);
    }
  }

  // ---------- A finished request, whatever verdict it read ----------

  /** The world with one more user of that name, under that verdict: all else is equal. */
  ghost function Vouched(w: World, customer: string, verified: bool): World {
    var verdict := if verified then Verified else KycPending;
    w.(db := w.db.(users := w.db.users + [UserRow(customer, verdict)], docs := w.db.docs + [DocRow(|w.db.users|, verdict)]))
  }

  lemma {:induction false} VouchedKeepsInv(w: World, customer: string, verified: bool)
    requires Inv(w)
    ensures Inv(Vouched(w, customer, verified)) && IsVerified(Vouched(w, customer, verified).db.users, customer) == verified
  {
    var v := Vouched(w, customer, verified);
    forall u: nat | u < |v.db.users| && v.db.users[u].kyc == Verified ensures HasVerifiedDocument(v.db, u) {
      if u < |w.db.users| {
        assert HasVerifiedDocument(w.db, u);
        var d: nat :| d < |w.db.docs| && w.db.docs[d].user == u && w.db.docs[d].status == Verified;
        assert v.db.docs[d] == w.db.docs[d];
      } else {
        assert v.db.docs[|w.db.docs|].user == u;
      }
    }
    KycKeepsInv(w, v);
  }

  /** Two databases that differ in users and documents alone. */
  ghost predicate SameButPeople(db: Db, v: Db) { v == db.(users := v.users, docs := v.docs) }

  lemma {:induction false} InternalIgnoresPeople(db: Db, v: Db, c: Command, hash: string, reference: string, now: int)
    requires SameButPeople(db, v) && c.InternalCommand? && InternalCore(db, c, hash, reference, now).Ok?
    ensures var r := InternalCore(db, c, hash, reference, now).value;
      InternalCore(v, c, hash, reference, now) == Ok(r.(users := v.users, docs := v.docs)) && r.users == db.users && r.docs == db.docs
  {
  }

  lemma {:induction false} OutboundIgnoresPeople(db: Db, v: Db, c: Command, fee: int, vat: int, hash: string, reference: string,
                                                 now: int, counters: Counters)
    requires SameButPeople(db, v) && c.OutboundCommand? && AfterLimit(db, c, fee, vat, hash, reference, now, counters).Ok?
    ensures var r := AfterLimit(db, c, fee, vat, hash, reference, now, counters).value;
      && AfterLimit(v, c, fee, vat, hash, reference, now, counters) == Ok(r.(users := v.users, docs := v.docs))
      && r.users == db.users && r.docs == db.docs
  {
  }

  /** The core does not look at users or documents. */
  lemma {:induction false} CoreIgnoresPeople(db: Db, v: Db, t: Task)
    requires t.Asking? && SameButPeople(db, v) && CoreOf(db, t).Ok?
    ensures CoreOf(v, t) == Ok(CoreOf(db, t).value.(users := v.users, docs := v.docs))
    ensures CoreOf(db, t).value.users == db.users && CoreOf(db, t).value.docs == db.docs
  {
    var c, x := t.command, t.context;
    match c
    case InternalCommand(_, _, _, _, _) => InternalIgnoresPeople(db, v, c, Canonical(c), x.reference, x.now);
    case OutboundCommand(_, _, _, _, _, _, _) =>
      var merge := MergeCounter(db.counters, c.source, Today(x.now), c.amount, LimitFor(t.verified));
      OutboundIgnoresPeople(db, v, c, x.fee, x.vat, Canonical(c), x.reference, x.now, merge.counters);
    case InboundCommand(_, _, _, _, _, _) =>
  }

  lemma {:induction false} FinishedCore(w: World, t: Task)
    requires t.Asking? && TaskOk(w, t) && FinishReply(w.db, t).db != w.db
    ensures CoreOf(w.db, t).Ok? && FinishReply(w.db, t).db == CoreOf(w.db, t).value && (OwnerOf(w.db, t), t.command.key) !in w.db.idem
    ensures |CoreOf(w.db, t).value.transfers| > |w.db.transfers|
  {
  }

  lemma {:induction false} AtomicCore(v: World, t: Task)
    requires t.Asking? && TaskOk(v, t) && (OwnerOf(v.db, t), t.command.key) !in v.db.idem
    requires t.command.OutboundCommand? ==> IsVerified(v.db.users, t.command.customerId) == t.verified
    requires CoreOf(v.db, t).Ok? && |CoreOf(v.db, t).value.transfers| > |v.db.transfers|
    ensures Request(v.db, t.command, t.context).db == CoreOf(v.db, t).value
  {
  }

  ghost function VouchedFor(w: World, t: Task): World
    requires t.Asking?
  {
    if t.command.OutboundCommand? then Vouched(w, t.command.customerId, t.verified) else Vouched(w, "", false)
  }

  lemma {:induction false} VouchedForKeepsInv(w: World, t: Task)
    requires Inv(w) && t.Asking?
    ensures Inv(VouchedFor(w, t))
    ensures t.command.OutboundCommand? ==> IsVerified(VouchedFor(w, t).db.users, t.command.customerId) == t.verified
  {
    if t.command.OutboundCommand? {
      VouchedKeepsInv(w, t.command.customerId, t.verified);
    } else {
      VouchedKeepsInv(w, "", false);
    }
  }

  /** A request that commits does what the atomic one would do were its customer still under the verdict it read. */
  lemma {:induction false} FinishIsVouched(w: World, t: Task)
    requires t.Asking? && TaskOk(w, t) && FinishReply(w.db, t).db != w.db
    requires t.command.OutboundCommand? ==> IsVerified(VouchedFor(w, t).db.users, t.command.customerId) == t.verified
    ensures var a := AfterAsk(VouchedFor(w, t), t.command, t.context);
      AfterFinish(w, t) == a.(db := a.db.(users := w.db.users, docs := w.db.docs))
  {
    var v := VouchedFor(w, t);
    FinishedCore(w, t);
    CoreIgnoresPeople(w.db, v.db, t);
    AtomicCore(v, t);
  }

  lemma {:induction false} FinishKeepsInv(w: World, t: Task)
    requires Inv(w) && t.Asking? && TaskOk(w, t)
    ensures Inv(AfterFinish(w, t))
  {
    if FinishReply(w.db, t).db != w.db {
      var v := VouchedFor(w, t);
      var a := AfterAsk(v, t.command, t.context);
      VouchedForKeepsInv(w, t);
      AskKeepsInv(v, t.command, t.context);
      FinishIsVouched(w, t);
      RestoredKyc(w, AfterFinish(w, t));
      KycKeepsInv(a, AfterFinish(w, t));
    }
  }

  lemma {:induction false} RestoredKyc(w: World, w': World)
    requires KycOk(w.db) && w'.db.users == w.db.users && w'.db.docs == w.db.docs
    ensures KycOk(w'.db)
  {
    forall u: nat | u < |w'.db.users| && w'.db.users[u].kyc == Verified ensures HasVerifiedDocument(w'.db, u) {
      assert HasVerifiedDocument(w.db, u);
    }
  }

  lemma {:induction false} FinishSparesTasks(w: World, t: Task, other: Task)
    requires Inv(w) && t.Asking? && TaskOk(w, t) && TaskOk(w, other)
    ensures TaskOk(AfterFinish(w, t), other)
  {
    if FinishReply(w.db, t).db != w.db {
      var v := VouchedFor(w, t);
      VouchedForKeepsInv(w, t);
      FinishIsVouched(w, t);
      assert TaskOk(v, other);
      StepKeepsTask(v, Ask(t.command, t.context), other);
      assert Step(v, Ask(t.command, t.context)) == AfterAsk(v, t.command, t.context);
    }
  }

  lemma {:induction false} StartKeepsTasks(s: State, a: Action)
    requires SettlementOk(s.world) && TasksOk(s) && Enabled(s, a)
    requires a.StartRequest? || a.StartDispatch? || a.SendPayment?
    ensures TasksOk(Advance(s, a))
  {
    var s' := Advance(s, a);
    assert s'.world == s.world;
    forall x: nat, y: nat | x in s'.tasks && y in s'.tasks && x != y && s'.tasks[x].Dispatching? && s'.tasks[y].Dispatching?
      ensures s'.tasks[x].id != s'.tasks[y].id
    {
      if a.StartDispatch? {
        if x == a.x { assert s.tasks[y].id != a.id; }
        if y == a.x { assert s.tasks[x].id != a.id; }
      }
    }
  }

  lemma {:induction false} FinishKeepsTasks(s: State, x: nat)
    requires Inv(s.world) && TasksOk(s) && x in s.tasks && s.tasks[x].Asking?
    ensures TasksOk(Advance(s, FinishRequest(x)))
  {
    var s' := Advance(s, FinishRequest(x));
    forall y: nat | y in s'.tasks ensures TaskOk(s'.world, s'.tasks[y]) {
      FinishSparesTasks(s.world, s.tasks[x], s.tasks[y]);
    }
  }

  lemma {:induction false} OthersKeepTasks(s: State, a: Action)
    requires Inv(s.world) && TasksOk(s) && Enabled(s, a) && (a.FinishDispatch? || a.Drop? || a.Whole?)
    ensures TasksOk(Advance(s, a))
  {
    forall y: nat | y in Advance(s, a).tasks ensures TaskOk(Advance(s, a).world, Advance(s, a).tasks[y]) {
      OldTasksStay(s, a, y);
    }
  }

  lemma {:induction false} AdvanceKeepsTasks(s: State, a: Action)
    requires Inv(s.world) && TasksOk(s)
    ensures TasksOk(Advance(s, a))
  {
    if Enabled(s, a) {
      if a.StartRequest? || a.StartDispatch? || a.SendPayment? {
        StartKeepsTasks(s, a);
      } else if a.FinishRequest? {
        FinishKeepsTasks(s, a.x);
      } else {
        OthersKeepTasks(s, a);
      }
    }
  }

  lemma {:induction false} AdvanceKeepsInv(s: State, a: Action)
    requires Inv(s.world) && TasksOk(s)
    ensures Inv(Advance(s, a).world)
  {
    if a.FinishRequest? {
      if Enabled(s, a) { FinishKeepsInv(s.world, s.tasks[a.x]); }
    } else {
      OthersAreSerial(s, a);
      if SerialEvent(s, a).Some? { StepKeepsInv(s.world, SerialEvent(s, a).value); }
    }
  }

  // ---------- Main results ----------

  ghost function Idle(): State { State(Start(), map[]) }

  /** The joint invariant holds in every interleaving of requests, dispatches and other operations, aborts included. */
  lemma {:induction false} InterleavingKeepsInv(actions: seq<Action>)
    ensures Inv(AdvanceAll(Idle(), actions).world) && TasksOk(AdvanceAll(Idle(), actions))
    decreases |actions|
  {
    if |actions| == 0 {
      StartInv();
    } else {
      var front, a := actions[..|actions| - 1], actions[|actions| - 1];
      InterleavingKeepsInv(front);
      AdvanceKeepsInv(AdvanceAll(Idle(), front), a);
      AdvanceKeepsTasks(AdvanceAll(Idle(), front), a);
    }
  }

  /** However many requests miss the replay check together, one transfer at most is committed per customer and key. */
  lemma {:induction false} RacesCommitOnce(actions: seq<Action>, i: nat, j: nat)
    requires var rows := AdvanceAll(Idle(), actions).world.db.transfers;
      && i < |rows| && j < |rows|
      && rows[i].terms.customerId == rows[j].terms.customerId && rows[i].terms.key == rows[j].terms.key
    ensures i == j
  {
    InterleavingKeepsInv(actions);
    assert IdemOk(AdvanceAll(Idle(), actions).world.db);
  }

  /** No request of the run commits on a KYC verdict that was withdrawn while it was under way. */
  ghost predicate AllTimely(actions: seq<Action>) {
    forall n :: 0 <= n < |actions| ==> Timely(AdvanceAll(Idle(), actions[..n]), actions[n])
  }

  lemma {:induction false} FrontTimely(actions: seq<Action>)
    requires AllTimely(actions) && |actions| > 0
    ensures AllTimely(actions[..|actions| - 1])
  {
    var front := actions[..|actions| - 1];
    forall n | 0 <= n < |front| ensures Timely(AdvanceAll(Idle(), front[..n]), front[n]) {
      assert front[..n] == actions[..n];
    }
  }

  lemma {:induction false} RunAppend(w: World, es: seq<Event>, e: Option<Event>)
    ensures Run(w, es + (if e.Some? then [e.value] else [])) == After(Run(w, es), e)
  {
    if e.Some? {
      assert (es + [e.value])[..|es|] == es;
    } else {
      assert es + [] == es;
    }
  }

  /** What a step does to database and claims, and what it appends to the history, does not depend on the history. */
  lemma {:induction false} StepIgnoresHistory(w: World, v: World, e: Event)
    requires w.db == v.db && w.claims == v.claims
    ensures Step(w, e).db == Step(v, e).db && Step(w, e).claims == Step(v, e).claims
    ensures exists more: seq<Happening> :: Step(w, e).log == w.log + more && Step(v, e).log == v.log + more
  {
    var more := Step(w, e).log[|w.log|..];
    assert Step(w, e).log == w.log + more && Step(v, e).log == v.log + more;
  }

  lemma {:induction false} StepKeepsSame(w: World, v: World, e: Event)
    requires SameButVerdicts(w, v)
    ensures SameButVerdicts(Step(w, e), Step(v, e))
  {
    StepIgnoresHistory(w, v, e);
    var more: seq<Happening> :| Step(w, e).log == w.log + more && Step(v, e).log == v.log + more;
  }

  /** An interleaving in which no request rides on a withdrawn verdict is a run of the serial machine, up to recorded verdicts. */
  lemma {:induction false} InterleavingIsSerial(actions: seq<Action>)
    requires AllTimely(actions)
    ensures var v := Run(Start(), SerialRun(Idle(), actions));
      AllAdmissible(SerialRun(Idle(), actions)) && Reachable(v) && SameButVerdicts(AdvanceAll(Idle(), actions).world, v)
    decreases |actions|
  {
    if |actions| > 0 {
      var front, a := actions[..|actions| - 1], actions[|actions| - 1];
      FrontTimely(actions);
      InterleavingIsSerial(front);
      InterleavingKeepsInv(front);
      LastStepIsSerial(AdvanceAll(Idle(), front), a, SerialRun(Idle(), front));
    }
  }

  lemma {:induction false} LastStepIsSerial(s: State, a: Action, es: seq<Event>)
    requires AllAdmissible(es) && SameButVerdicts(s.world, Run(Start(), es)) && Inv(s.world) && TasksOk(s) && Timely(s, a)
    ensures var e := SerialEvent(s, a); var all := es + (if e.Some? then [e.value] else []);
      AllAdmissible(all) && SameButVerdicts(Advance(s, a).world, Run(Start(), all))
  {
    var e := SerialEvent(s, a);
    AdvanceIsSerial(s, a);
    RunAppend(Start(), es, e);
    if e.Some? { StepKeepsSame(s.world, Run(Start(), es), e.value); }
    SameIsTransitive(Advance(s, a).world, After(s.world, e), After(Run(Start(), es), e));
  }

  lemma {:induction false} SameIsTransitive(a: World, b: World, c: World)
    requires SameButVerdicts(a, b) && SameButVerdicts(b, c)
    ensures SameButVerdicts(a, c)
  {
    forall i | 0 <= i < |a.log| ensures SameHappening(a.log[i], c.log[i]) {
      assert SameHappening(a.log[i], b.log[i]) && SameHappening(b.log[i], c.log[i]);
    }
  }

  /** At any moment at most one dispatch of a transfer is under way, and whatever it has sent was sent for a Submitted transfer. */
  lemma {:induction false} OneDispatchAtATime(actions: seq<Action>, x: nat, y: nat)
    requires var s := AdvanceAll(Idle(), actions);
      x in s.tasks && y in s.tasks && s.tasks[x].Dispatching? && s.tasks[y].Dispatching? && s.tasks[x].id == s.tasks[y].id
    ensures var s := AdvanceAll(Idle(), actions);
      && x == y
      && (s.tasks[x].answer.Some? ==>
            s.tasks[x].id < |s.world.db.transfers| && s.world.db.transfers[s.tasks[x].id].status.Submitted?)
  {
    InterleavingKeepsInv(actions);
    assert TaskOk(AdvanceAll(Idle(), actions).world, AdvanceAll(Idle(), actions).tasks[x]);
  }

  /** In every interleaving, a dispatch that read a resolved transfer sends nothing, moves no money and no transfer, and closes its job. */
  lemma {:induction false} LateDispatchDoesNothing(actions: seq<Action>, x: nat)
    requires var s := AdvanceAll(Idle(), actions); x in s.tasks && s.tasks[x].Dispatching? && !s.tasks[x].found.status.Submitted?
    ensures var s, s' := AdvanceAll(Idle(), actions), Advance(AdvanceAll(Idle(), actions), FinishDispatch(x)); var id := s.tasks[x].id;
      && s'.world.log == s.world.log && s'.world.db.books == s.world.db.books && s'.world.db.transfers == s.world.db.transfers
      && id in s'.world.db.jobs && s'.world.db.jobs[id].status.Succeeded?
      && s'.world.db.jobs == s.world.db.jobs[id := s'.world.db.jobs[id]]
  {
    InterleavingKeepsInv(actions);
    var s := AdvanceAll(Idle(), actions);
    LateFinish(s, x);
  }

  lemma {:induction false} LateFinish(s: State, x: nat)
    requires TasksOk(s) && x in s.tasks && s.tasks[x].Dispatching? && !s.tasks[x].found.status.Submitted?
    ensures var s' := Advance(s, FinishDispatch(x)); var id := s.tasks[x].id;
      && s'.world.log == s.world.log && s'.world.db.books == s.world.db.books && s'.world.db.transfers == s.world.db.transfers
      && id in s'.world.db.jobs && s'.world.db.jobs[id].status.Succeeded?
      && s'.world.db.jobs == s.world.db.jobs[id := s'.world.db.jobs[id]]
  {
    var t := s.tasks[x];
    assert TaskOk(s.world, t);
    FinishIsRunJob(s.world, t, AnswerOf(t));
    SettlementTheorems.LateWorkerDoesNothing(s.world, t.id, t.attempts, AnswerOf(t), t.now, false);
  }

  // ---------- The exact exception ----------

  lemma {:induction false} SerialRefusesOldVerdict(db: Db, t: Task)
    requires t.Asking? && t.command.OutboundCommand? && !IsVerified(db.users, t.command.customerId)
    requires CounterOf(db.counters, t.command.source, Today(t.context.now)) + t.command.amount > UNVERIFIED_LIMIT
    ensures Request(db, t.command, t.context).db == db
  {
  }

  /** On its guards a riding request does commit. */
  lemma {:induction false} RidingCommits(w: World, t: Task)
    requires WalletsOk(w.db.books.wallets) && NonNegative(w.db.books) && TaskOk(w, t) && RidesOldVerdict(w.db, t)
    ensures |FinishReply(w.db, t).db.transfers| == |w.db.transfers| + 1
  {
    var c, x := t.command, t.context;
    OutboundPostsIff(w.db.books, Some(|w.db.transfers|), x.now, c.source, c.amount, x.fee, x.vat);
  }

  /** Finishing a request is a serial step or none exactly unless these guards hold: KYC is read outside the transaction. */
  lemma {:induction false} SerialUnlessOldVerdict(w: World, t: Task)
    requires WalletsOk(w.db.books.wallets) && NonNegative(w.db.books) && t.Asking? && TaskOk(w, t)
    ensures SameButVerdicts(AfterFinish(w, t), w) || SameButVerdicts(AfterFinish(w, t), AfterAsk(w, t.command, t.context))
       <==> !RidesOldVerdict(w.db, t)
  {
    if RidesOldVerdict(w.db, t) {
      SerialRefusesOldVerdict(w.db, t);
      RidingCommits(w, t);
    } else {
      FinishIsAskOrNothing(w, t);
    }
  }

  // ---------- The loser of the unique-index race ----------

  /** A second transfer under a taken key is never committed, whatever the loser is told. */
  lemma {:induction false} LoserCommitsNothing(w: World, t: Task)
    requires t.Asking? && (OwnerOf(w.db, t), t.command.key) in w.db.idem
    ensures AfterFinish(w, t) == w && (t.command.InboundCommand? ==> FinishReply(w.db, t).outcome.Err?)
  {
  }

  lemma {:induction false} TakenKeyReply(db: Db, t: Task, id: nat)
    requires t.Asking? && !t.command.InboundCommand?
    requires Remembers(db, t.command.customerId, t.command.key, Canonical(t.command), id)
    ensures FinishReply(db, t) == (if CoreOf(db, t).Err? then Refuse(db, CoreOf(db, t).error) else Reply(db, Ok(ToResult(id, db.transfers[id]))))
  {
  }

  /** What the wallets of a committed internal request keep satisfying. */
  ghost predicate InternalGuards(wallets: Wallets, c: Command)
    requires c.InternalCommand?
  {
    && c.source < |wallets| && wallets[c.source].customerId == c.customerId
    && var found := FindAccount(wallets, c.destinationAccount);
       found.Some? && wallets[found.value].kind.Customer? && found.value != c.source
  }

  lemma {:induction false} InternalGuardsHeld(db: Db, c: Command, x: Context)
    requires c.InternalCommand? && Request(db, c, x).db != db
    ensures InternalGuards(db.books.wallets, c) && c.amount > 0
  {
  }

  lemma {:induction false} InternalGuardsPersist(wallets: Wallets, wallets': Wallets, c: Command)
    requires c.InternalCommand? && AccountsPersist(wallets, wallets') && InternalGuards(wallets, c)
    ensures InternalGuards(wallets', c)
  {
    assert SameIdentity(wallets[c.source], wallets'[c.source]);
    var found := FindAccount(wallets, c.destinationAccount);
    assert FindAccount(wallets', c.destinationAccount) == found;
    assert SameIdentity(wallets[found.value], wallets'[found.value]);
  }

  lemma {:induction false} InternalCoreIff(db: Db, c: Command, x: Context, hash: string)
    requires WalletsOk(db.books.wallets) && NonNegative(db.books) && TotalFits(db.books)
    requires c.InternalCommand? && c.customerId != "SYSTEM" && c.amount > 0 && InternalGuards(db.books.wallets, c)
    ensures var core := InternalCore(db, c, hash, x.reference, x.now);
      if c.amount <= db.books.wallets[c.source].balance then core.Ok? else core == Err(InsufficientFunds)
  {
    var destination := FindAccount(db.books.wallets, c.destinationAccount);
    var t := Terms(c.customerId, Internal, Some(c.source), destination, c.destinationAccount, "", "",
                   c.amount, 0, 0, c.amount, c.key, hash, x.reference, x.now);
    LegsPostIff(db.books, t, Some(|db.transfers|), x.now);
  }

  lemma {:induction false} WinnerIsRemembered(w: World, c: Command, x: Context, v: World)
    requires Inv(w) && Admissible(Ask(c, x)) && AfterAsk(w, c, x).db != w.db && Leads(AfterAsk(w, c, x), v)
    ensures
      && Remembers(v.db, Requester(w.db, c), c.key, Canonical(c), |w.db.transfers|)
      && AccountsPersist(w.db.books.wallets, v.db.books.wallets) && Inv(v)
  {
    var w1 := AfterAsk(w, c, x);
    CommittedIsRemembered(w, c, x);
    AskKeepsInv(w, c, x);
    AskExtends(w, c, x);
    LaterExtends(w1, v);
    MemoryPersists(w1, v, Requester(w.db, c), c.key, Canonical(c), |w.db.transfers|);
    ExtendsTransitive(w, w1, v);
  }

  /** The reply of an internal request whose key a committed transfer of the same text has taken, on wallets that persisted. */
  lemma {:induction false} InternalLateReply(before: Wallets, v: Db, t: Task, id: nat)
    requires t.Asking? && t.command.InternalCommand? && t.command.customerId != "SYSTEM" && t.command.amount > 0
    requires InternalGuards(before, t.command) && AccountsPersist(before, v.books.wallets)
    requires WalletsOk(v.books.wallets) && NonNegative(v.books) && TotalFits(v.books)
    requires Remembers(v, t.command.customerId, t.command.key, Canonical(t.command), id)
    ensures t.command.source < |v.books.wallets|
    ensures FinishReply(v, t)
         == (if t.command.amount <= v.books.wallets[t.command.source].balance then Reply(v, Ok(ToResult(id, v.transfers[id])))
             else Refuse(v, InsufficientFunds))
  {
    InternalGuardsPersist(before, v.books.wallets, t.command);
    InternalCoreIff(v, t.command, t.context, Canonical(t.command));
    TakenKeyReply(v, t, id);
  }

  /** The internal loser gets the winner's transfer exactly when the source still covers the amount, else InsufficientFunds. */
  lemma {:induction false} InternalLoser(w: World, c: Command, x: Context, v: World, x': Context)
    requires Reachable(w) && Admissible(Ask(c, x)) && AfterAsk(w, c, x).db != w.db && Leads(AfterAsk(w, c, x), v)
    requires c.InternalCommand?
    requires TotalFits(v.db.books)
    ensures var db, n := v.db, |w.db.transfers|;
      && c.source < |db.books.wallets| && n < |db.transfers|
      && FinishReply(db, Asking(c, x', false, 0))
         == (if c.amount <= db.books.wallets[c.source].balance then Reply(db, Ok(ToResult(n, db.transfers[n])))
             else Refuse(db, InsufficientFunds))
  {
    ReachableHasInv(w);
    WinnerIsRemembered(w, c, x, v);
    InternalGuardsHeld(w.db, c, x);
    InternalLateReply(w.db.books.wallets, v.db, Asking(c, x', false, 0), |w.db.transfers|);
  }

  lemma {:induction false} OutboundGuardsHeld(w: World, c: Command, x: Context)
    requires WalletsOk(w.db.books.wallets) && CountersOk(w)
    requires c.OutboundCommand? && Request(w.db, c, x).db != w.db
    ensures c.source < |w.db.books.wallets| && w.db.books.wallets[c.source].customerId == c.customerId
    ensures 0 < c.amount <= VERIFIED_LIMIT && x.fee > 0 && x.vat > 0
  {
    assert CounterOk(w, c.source, Today(x.now));
    OutboundPostIsPositive(w.db.books, Some(|w.db.transfers|), x.now, c.source, c.amount, x.fee, x.vat);
  }

  lemma {:induction false} OutboundCoreCases(w: World, c: Command, x: Context, verified: bool, hash: string)
    requires WalletsOk(w.db.books.wallets) && NonNegative(w.db.books) && TotalFits(w.db.books) && CountersOk(w)
    requires c.OutboundCommand? && c.customerId != "SYSTEM" && 0 < c.amount <= VERIFIED_LIMIT && x.fee > 0 && x.vat > 0
    requires c.source < |w.db.books.wallets| && w.db.books.wallets[c.source].customerId == c.customerId
    ensures var core := OutboundCore(w.db, c, x.fee, x.vat, verified, hash, x.reference, x.now);
      if !IsAllowed(CounterOf(w.db.counters, c.source, Today(x.now)), c.amount, LimitFor(verified))
      then core == Err(DailyLimitExceeded)
      else if w.db.books.wallets[c.source].balance < c.amount + x.fee + x.vat then core == Err(InsufficientFunds)
      else core.Ok?
  {
    assert CounterOk(w, c.source, Today(x.now));
    MergeAgreesWithPolicy(w.db.counters, c.source, Today(x.now), c.amount, verified);
    var t := Terms(c.customerId, Outbound, Some(c.source), None, c.destinationAccount, c.destinationBank, c.destinationName,
                   c.amount, x.fee, x.vat, c.amount + x.fee + x.vat, c.key, hash, x.reference, x.now);
    LegsPostIff(w.db.books, t, Some(|w.db.transfers|), x.now);
  }

  lemma {:induction false} OutboundLateReply(before: Wallets, v: World, t: Task, id: nat)
    requires t.Asking? && t.command.OutboundCommand? && t.command.customerId != "SYSTEM" && 0 < t.command.amount <= VERIFIED_LIMIT
    requires t.context.fee > 0 && t.context.vat > 0
    requires t.command.source < |before| && before[t.command.source].customerId == t.command.customerId
    requires AccountsPersist(before, v.db.books.wallets) && WalletsOk(v.db.books.wallets) && NonNegative(v.db.books)
    requires TotalFits(v.db.books) && CountersOk(v)
    requires Remembers(v.db, t.command.customerId, t.command.key, Canonical(t.command), id)
    ensures var db, c, x := v.db, t.command, t.context;
      && c.source < |db.books.wallets|
      && FinishReply(db, t)
         == (if !IsAllowed(CounterOf(db.counters, c.source, Today(x.now)), c.amount, LimitFor(t.verified))
             then Refuse(db, DailyLimitExceeded)
             else if db.books.wallets[c.source].balance < c.amount + x.fee + x.vat then Refuse(db, InsufficientFunds)
             else Reply(db, Ok(ToResult(id, db.transfers[id]))))
  {
    assert SameIdentity(before[t.command.source], v.db.books.wallets[t.command.source]);
    OutboundCoreCases(v, t.command, t.context, t.verified, Canonical(t.command));
    TakenKeyReply(v.db, t, id);
  }

  /** The outbound loser gets the winner's transfer exactly when limit and balance would still allow a second one. */
  lemma {:induction false} OutboundLoser(w: World, c: Command, x: Context, v: World, x': Context, verified: bool)
    requires Reachable(w) && Admissible(Ask(c, x)) && AfterAsk(w, c, x).db != w.db && Leads(AfterAsk(w, c, x), v)
    requires c.OutboundCommand?
    requires TotalFits(v.db.books) && x'.fee == x.fee && x'.vat == x.vat
    ensures var db, n := v.db, |w.db.transfers|;
      && c.source < |db.books.wallets| && n < |db.transfers|
      && FinishReply(db, Asking(c, x', verified, 0))
         == (if !IsAllowed(CounterOf(db.counters, c.source, Today(x'.now)), c.amount, LimitFor(verified))
             then Refuse(db, DailyLimitExceeded)
             else if db.books.wallets[c.source].balance < c.amount + x.fee + x.vat then Refuse(db, InsufficientFunds)
             else Reply(db, Ok(ToResult(n, db.transfers[n]))))
  {
    ReachableHasInv(w);
    WinnerIsRemembered(w, c, x, v);
    OutboundGuardsHeld(w, c, x);
    OutboundLateReply(w.db.books.wallets, v, Asking(c, x', verified, 0), |w.db.transfers|);
  }
}
