/**
 * Requests and dispatches as several steps each, interleaved with every other operation. A request looks its key up first and
 * inserts it last, against a unique index. A dispatch claims the job row, which locks it, then reads the transfer, calls the rail and
 * commits. Every interleaved run is a run of the serial ledger machine.
 */
module Concurrency {
  import opened Prelude
  import opened Rows
  import opened Books
  import opened DailyOutboundLimit
  import opened IdempotencyFingerprint
  import opened WatBusinessDay
  import opened Ledger
  import opened Settlement
  import opened Shapes
  import opened Machine
  import opened Protocol
  import opened Requests
  import opened Invariants
  import opened Persistence
  import opened MoneyTheorems
  import opened RequestTheorems

  datatype Task =
    | Asking(command: Command, context: Context, verified: bool, destination: nat)
    | Dispatching(id: nat, attempts: nat, now: int, found: TransferRow, answer: Option<RailAnswer>)

  datatype State = State(world: World, tasks: map<nat, Task>)

  datatype Action =
    | StartRequest(x: nat, command: Command, context: Context)
    | FinishRequest(x: nat)
    | StartDispatch(x: nat, id: nat, attempts: nat, now: int)
    | SendPayment(x: nat, reply: RailAnswer)
    | FinishDispatch(x: nat)
    | Drop(x: nat)
    | Whole(event: Event)

  // ---------- A request between its replay lookup and its commit ----------

  ghost predicate MissesReplay(db: Db, c: Command, x: Context) {
    ReachesReplay(db, c, x) && (Requester(db, c), c.key) !in db.idem
  }

  function Destination(db: Db, c: Command): nat {
    if c.InboundCommand? then
      var found := FindAccount(db.books.wallets, c.destinationAccount);
      if found.Some? then found.value else 0
    else 0
  }

  function CoreOf(db: Db, t: Task): Outcome<Db>
    requires t.Asking?
  {
    var c, x := t.command, t.context;
    match c
    case InternalCommand(_, _, _, _, _) => InternalCore(db, c, Canonical(c), x.reference, x.now)
    case OutboundCommand(_, _, _, _, _, _, _) =>
      OutboundCore(db, c, x.fee, x.vat, t.verified, Canonical(c), x.reference, x.now)
    case InboundCommand(_, _, _, _, _, _) => InboundCore(db, c, t.destination, Canonical(c), x.reference, x.now)
  }

  function OwnerOf(db: Db, t: Task): string
    requires t.Asking?
  {
    match t.command
    case InternalCommand(customer, _, _, _, _) => customer
    case OutboundCommand(customer, _, _, _, _, _, _) => customer
    case InboundCommand(_, _, _, _, _, _) =>
      if t.destination < |db.books.wallets| then db.books.wallets[t.destination].customerId else ""
  }

  /** Guards, then the inserts. On a taken key the transaction rolls back; the internal and outbound paths then replay. */
  function FinishReply(db: Db, t: Task): Reply
    requires t.Asking?
  {
    var core := CoreOf(db, t);
    if core.Err? then Refuse(db, core.error)
    else if (OwnerOf(db, t), t.command.key) !in db.idem then Finish(db, core)
    else if t.command.InboundCommand? then Refuse(db, DuplicateKey)
    else ReplayOr(db, OwnerOf(db, t), t.command.key, Canonical(t.command), Err(DuplicateKey))
  }

  /** The history records the verdict the request read, whatever the verdict is by now. */
  function AfterFinish(w: World, t: Task): World
    requires t.Asking?
  {
    var db := FinishReply(w.db, t).db;
    var reserved := t.command.OutboundCommand? && |db.transfers| > |w.db.transfers|;
    w.(db := db,
       log := if reserved
              then w.log + [ReservedLimit(t.command.source, Today(t.context.now), t.command.amount, t.verified)]
              else w.log)
  }

  // ---------- A dispatch between its claim and its commit ----------

  /** The branch is chosen by the row as it was read. */
  function DispatchAsRead(db: Db, t: Task, answer: RailAnswer): Outcome<Db>
    requires t.Dispatching? && t.id < |db.transfers| && t.id in db.jobs
  {
    if t.found.status != Submitted then
      var claimed := ClaimJob(db.jobs[t.id].(attempts := t.attempts), t.now);
      Ok(db.(jobs := db.jobs[t.id := SucceedJob(claimed, Some("NOOP-ALREADY-RESOLVED"), t.now)]))
    else Dispatch(db.(transfers := db.transfers[t.id := t.found]), t.id, t.attempts, answer, t.now)
  }

  function AfterDispatch(w: World, t: Task, answer: RailAnswer): World
    requires t.Dispatching? && t.id < |w.db.transfers| && t.id in w.db.jobs
  {
    var r := DispatchAsRead(w.db, t, answer);
    w.(db := if r.Ok? then r.value else w.db,
       log := if t.found.status.Submitted?
              then w.log + [SentInstruction(t.id, InstructionFor(t.id, t.found.terms), answer.status, r.Ok?)]
              else w.log)
  }

  /** The instruction is out, its outcome is rolled back. */
  function AfterLoss(w: World, t: Task): World
    requires t.Dispatching? && t.answer.Some?
  {
    w.(log := w.log + [SentInstruction(t.id, InstructionFor(t.id, t.found.terms), t.answer.value.status, false)])
  }

  // ---------- Steps ----------

  ghost predicate Locked(s: State, id: nat) {
    exists x: nat :: x in s.tasks && s.tasks[x].Dispatching? && s.tasks[x].id == id
  }

  /** The job row an operation updates, if any: it waits while a claim holds that row. */
  function JobWritten(e: Event): Option<nat> {
    match e
    case RepostTransfer(id, _) => Some(id)
    case WorkerAsks(id, answer, _, _) => if answer.RailUnknown? then None else Some(id)
    case CustomerAsks(id, _, answer, _, _) => if answer.Sent? then Some(id) else None
    case _ => None
  }

  ghost predicate Enabled(s: State, a: Action) {
    match a
    case StartRequest(x, c, k) => x !in s.tasks && Admissible(Ask(c, k)) && MissesReplay(s.world.db, c, k)
    case FinishRequest(x) => x in s.tasks && s.tasks[x].Asking?
    case StartDispatch(x, id, attempts, _) =>
      x !in s.tasks && (id, attempts) in s.world.claims && id in s.world.db.jobs && id < |s.world.db.transfers| && !Locked(s, id)
    case SendPayment(x, _) => x in s.tasks && s.tasks[x].Dispatching? && s.tasks[x].found.status.Submitted? && s.tasks[x].answer.None?
    case FinishDispatch(x) =>
      && x in s.tasks && s.tasks[x].Dispatching? && s.tasks[x].id < |s.world.db.transfers| && s.tasks[x].id in s.world.db.jobs
      && (s.tasks[x].found.status.Submitted? ==> s.tasks[x].answer.Some?)
    case Drop(x) => x in s.tasks
    case Whole(e) => Admissible(e) && !e.Ask? && !e.RunJob? && (JobWritten(e).Some? ==> !Locked(s, JobWritten(e).value))
  }

  function AnswerOf(t: Task): RailAnswer
    requires t.Dispatching?
  {
    if t.answer.Some? then t.answer.value else RailAnswer(RailUnknown, None)
  }

  ghost function Advance(s: State, a: Action): State {
    if !Enabled(s, a) then s
    else
      match a
      case StartRequest(x, c, k) =>
        var verified := !c.InboundCommand? && IsVerified(s.world.db.users, c.customerId);
        s.(tasks := s.tasks[x := Asking(c, k, verified, Destination(s.world.db, c))])
      case FinishRequest(x) => State(AfterFinish(s.world, s.tasks[x]), s.tasks - {x})
      case StartDispatch(x, id, attempts, now) =>
        s.(tasks := s.tasks[x := Dispatching(id, attempts, now, s.world.db.transfers[id], None)])
      case SendPayment(x, reply) => s.(tasks := s.tasks[x := s.tasks[x].(answer := Some(reply))])
      case FinishDispatch(x) => State(AfterDispatch(s.world, s.tasks[x], AnswerOf(s.tasks[x])), s.tasks - {x})
      case Drop(x) =>
        var t := s.tasks[x];
        State(if t.Dispatching? && t.answer.Some? then AfterLoss(s.world, t) else s.world, s.tasks - {x})
      case Whole(e) => s.(world := Step(s.world, e))
  }

  ghost function AdvanceAll(s: State, actions: seq<Action>): State
    decreases |actions|
  {
    if |actions| == 0 then s else Advance(AdvanceAll(s, actions[..|actions| - 1]), actions[|actions| - 1])
  }

  // ---------- The serial event of an action ----------

  ghost function SerialEvent(s: State, a: Action): Option<Event> {
    if !Enabled(s, a) then None
    else
      match a
      case FinishRequest(x) =>
        var t := s.tasks[x];
        if FinishReply(s.world.db, t).db == s.world.db then None else Some(Ask(t.command, t.context))
      case FinishDispatch(x) =>
        var t := s.tasks[x]; Some(RunJob(t.id, t.attempts, AnswerOf(t), t.now, false))
      case Drop(x) =>
        var t := s.tasks[x];
        if t.Dispatching? && t.answer.Some? then Some(RunJob(t.id, t.attempts, t.answer.value, t.now, true)) else None
      case Whole(e) => Some(e)
      case _ => None
  }

  ghost function SerialRun(s: State, actions: seq<Action>): seq<Event>
    decreases |actions|
  {
    if |actions| == 0 then []
    else
      var front := actions[..|actions| - 1];
      var e := SerialEvent(AdvanceAll(s, front), actions[|actions| - 1]);
      SerialRun(s, front) + (if e.Some? then [e.value] else [])
  }

  ghost function After(w: World, e: Option<Event>): World { if e.Some? then Step(w, e.value) else w }

  // ---------- What an unfinished task can rely on ----------

  ghost predicate TaskOk(w: World, t: Task) {
    match t
    case Asking(c, x, _, destination) =>
      && Admissible(Ask(c, x)) && ReachesReplay(w.db, c, x)
      && (c.InboundCommand? ==> FindAccount(w.db.books.wallets, c.destinationAccount) == Some(destination))
    case Dispatching(id, attempts, _, found, answer) =>
      && id in w.db.jobs && id < |w.db.transfers| && (id, attempts) in w.claims
      && (if found.status.Submitted? then w.db.transfers[id] == found else !w.db.transfers[id].status.Submitted?)
      && (answer.Some? ==> found.status.Submitted?)
  }

  ghost predicate TasksOk(s: State) {
    && (forall x: nat :: x in s.tasks ==> TaskOk(s.world, s.tasks[x]))
    && (forall x: nat, y: nat :: x in s.tasks && y in s.tasks && x != y && s.tasks[x].Dispatching? && s.tasks[y].Dispatching? ==>
          s.tasks[x].id != s.tasks[y].id)
  }

  // ---------- Worlds up to the verdicts their history records ----------

  predicate SameHappening(a: Happening, b: Happening) {
    a == b || (a.ReservedLimit? && b.ReservedLimit? && a == b.(verified := a.verified))
  }

  ghost predicate SameHistory(a: seq<Happening>, b: seq<Happening>) {
    |a| == |b| && forall i :: 0 <= i < |a| ==> SameHappening(a[i], b[i])
  }

  /** The same database, the same claims, and histories that differ at most in the verdict a reservation records. */
  ghost predicate SameButVerdicts(w: World, v: World) {
    w.db == v.db && w.claims == v.claims && SameHistory(w.log, v.log)
  }

  // ---------- A finished request is the atomic request, or changes nothing ----------

  /** The guards under which a request commits on a withdrawn verdict: it read Verified, that is gone, and the amount needs it. */
  predicate RidesOldVerdict(db: Db, t: Task) {
    && t.Asking? && t.command.OutboundCommand? && t.verified && !IsVerified(db.users, t.command.customerId)
    && (var c, x := t.command, t.context; var wallets := db.books.wallets;
        && UNVERIFIED_LIMIT < CounterOf(db.counters, c.source, Today(x.now)) + c.amount <= VERIFIED_LIMIT
        && (c.customerId, c.key) !in db.idem && c.source < |wallets| && wallets[c.source].customerId == c.customerId
        && x.fee > 0 && x.vat > 0 && c.amount + x.fee + x.vat <= wallets[c.source].balance
        && CreditsFit(wallets, c.amount, x.fee, x.vat))
  }

  /** Whether the limit lets the request through depends on the verdict it goes by. */
  predicate LimitAllows(db: Db, t: Task, verified: bool)
    requires t.Asking? && t.command.OutboundCommand?
  {
    MergeCounter(db.counters, t.command.source, Today(t.context.now), t.command.amount, LimitFor(verified)).Reserved?
  }

  /** When both verdicts allow the amount, the core does not depend on the verdict. */
  lemma {:induction false} SameLimitSameCore(db: Db, t: Task, verified: bool)
    requires t.Asking? && t.command.OutboundCommand? && LimitAllows(db, t, t.verified) && LimitAllows(db, t, verified)
    ensures CoreOf(db, t) == CoreOf(db, t.(verified := verified))
  {
  }

  /** A core that passes meets the guards, so the two verdicts disagree only on a ride. */
  lemma {:induction false} PassedCore(db: Db, t: Task)
    requires WalletsOk(db.books.wallets) && NonNegative(db.books) && t.Asking? && t.command.OutboundCommand?
    requires t.command.customerId != "SYSTEM" && CoreOf(db, t).Ok? && (t.command.customerId, t.command.key) !in db.idem
    ensures LimitAllows(db, t, t.verified)
    ensures RidesOldVerdict(db, t) || LimitAllows(db, t, IsVerified(db.users, t.command.customerId))
  {
    var c, x := t.command, t.context;
    OutboundPostsIff(db.books, Some(|db.transfers|), x.now, c.source, c.amount, x.fee, x.vat);
  }

  lemma {:induction false} FinishIsRequest(w: World, t: Task)
    requires WalletsOk(w.db.books.wallets) && NonNegative(w.db.books)
    requires t.Asking? && TaskOk(w, t) && !RidesOldVerdict(w.db, t) && FinishReply(w.db, t).db != w.db
    ensures FinishReply(w.db, t) == Request(w.db, t.command, t.context)
  {
    if t.command.OutboundCommand? {
      PassedCore(w.db, t);
      SameLimitSameCore(w.db, t, IsVerified(w.db.users, t.command.customerId));
    }
  }

  lemma {:induction false} FinishIsAskOrNothing(w: World, t: Task)
    requires WalletsOk(w.db.books.wallets) && NonNegative(w.db.books) && t.Asking? && TaskOk(w, t) && !RidesOldVerdict(w.db, t)
    ensures SameButVerdicts(AfterFinish(w, t), if FinishReply(w.db, t).db == w.db then w else AfterAsk(w, t.command, t.context))
  {
    if FinishReply(w.db, t).db != w.db { FinishIsRequest(w, t); }
  }
}
