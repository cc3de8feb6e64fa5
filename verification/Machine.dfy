/** The ledger machine: a committed database, the history around it, and one step for every operation. */
module Machine {
  import opened Prelude
  import opened Rows
  import opened Books
  import opened IdempotencyFingerprint
  import opened WatBusinessDay
  import opened Ledger
  import opened Settlement
  import opened Reconciliation

  /** Things that happened but that the database does not store: calls to the rail, reposts, limit reservations. */
  datatype Happening =
    | SentInstruction(id: nat, instruction: Instruction, answer: RailStatus, committed: bool)
    | AskedStatus(id: nat, answer: RailStatus, committed: bool)
    | Reposted(id: nat)
    | ReservedLimit(wallet: nat, day: int, amount: int, verified: bool)

  /** `claims` holds every (transfer, attempt count) pair some worker may still have in a claim list. */
  datatype World = World(db: Db, log: seq<Happening>, claims: set<(nat, nat)>)

  datatype Event =
    | Ask(command: Command, context: Context)
    | DepositMoney(wallet: nat, amount: int, now: int)
    | AdminDeposit(number: string, amount: int, now: int)
    | Fund(amount: int, now: int)
    | OpenWallet(customer: string, number: string)
    | Register(customer: string)
    | Submit(user: nat)
    | Review(user: nat, doc: nat, approve: bool)
    | ListClaims(now: int)
    | RunJob(id: nat, attempts: nat, reply: RailAnswer, now: int, crash: bool)
    | WorkerAsks(id: nat, answer: RailStatus, now: int, crash: bool)
    | CustomerAsks(id: nat, customer: string, answer: RailStatus, now: int, crash: bool)
    | RepostTransfer(id: nat, now: int)
    | ReconcileDay(day: int, now: int)

  /** Nobody opens a wallet or sends a request as the system. */
  predicate Admissible(e: Event) {
    match e
    case Ask(InternalCommand(customer, _, _, _, _), _) => customer != "SYSTEM"
    case Ask(OutboundCommand(customer, _, _, _, _, _, _), _) => customer != "SYSTEM"
    case OpenWallet(customer, _) => customer != "SYSTEM"
    case _ => true
  }

  function Start(): World { World(SeedDb(), [], {}) }

  /** A transaction that fails or is rolled back leaves the committed state as it was. */
  function Commit(db: Db, r: Outcome<Db>): Db { if r.Ok? then r.value else db }

  function AfterAsk(w: World, c: Command, x: Context): World {
    var db := Request(w.db, c, x).db;
    var reserved := c.OutboundCommand? && |db.transfers| > |w.db.transfers|;
    w.(db := db,
       log := if reserved
              then w.log + [ReservedLimit(c.source, Today(x.now), c.amount, IsVerified(w.db.users, c.customerId))]
              else w.log)
  }

  function Claimable(db: Db, now: int): set<(nat, nat)> {
    set id | id in db.jobs && IsClaimable(db.jobs[id], now) :: (id, db.jobs[id].attempts)
  }

  function AfterRunJob(w: World, id: nat, attempts: nat, answer: RailAnswer, now: int, crash: bool): World {
    if (id, attempts) !in w.claims || id >= |w.db.transfers| then w
    else
      var r := Dispatch(w.db, id, attempts, answer, now);
      var committed := r.Ok? && !crash;
      w.(db := if committed then r.value else w.db,
         log := if w.db.transfers[id].status.Submitted?
                then w.log + [SentInstruction(id, InstructionFor(id, w.db.transfers[id].terms), answer.status, committed)]
                else w.log)
  }

  function AfterQuery(w: World, id: nat, r: Outcome<Db>, answer: RailStatus, crash: bool): World {
    var committed := r.Ok? && !crash;
    w.(db := if committed then r.value else w.db, log := w.log + [AskedStatus(id, answer, committed)])
  }

  function AfterWorkerAsks(w: World, id: nat, answer: RailStatus, now: int, crash: bool): World {
    if id >= |w.db.transfers| || !IsQueryable(w.db.transfers[id]) then w
    else AfterQuery(w, id, WorkerQuery(w.db, id, answer, now), answer, crash)
  }

  function AfterCustomerAsks(w: World, id: nat, customer: string, answer: RailStatus, now: int, crash: bool): World {
    if id >= |w.db.transfers| || w.db.transfers[id].terms.customerId != customer || !AsksRail(w.db.transfers[id]) then w
    else AfterQuery(w, id, ApiQuery(w.db, id, answer, now), answer, crash)
  }

  /** Claim lists live in the workers' memory: a repost changes none of them. */
  function AfterRepost(w: World, id: nat, now: int): World {
    var r := Repost(w.db, id, now);
    if r.Err? then w else w.(db := r.value, log := w.log + [Reposted(id)])
  }

  function Step(w: World, e: Event): World {
    match e
    case Ask(c, x) => AfterAsk(w, c, x)
    case DepositMoney(wallet, amount, now) => w.(db := Commit(w.db, CreditDeposit(w.db, wallet, amount, now)))
    case AdminDeposit(number, amount, now) => w.(db := Commit(w.db, CreditByAdmin(w.db, number, amount, now)))
    case Fund(amount, now) => w.(db := Commit(w.db, FundSettlement(w.db, amount, now)))
    case OpenWallet(customer, number) => w.(db := Commit(w.db, CreateWallet(w.db, customer, number)))
    case Register(customer) => w.(db := Commit(w.db, CreateUser(w.db, customer)))
    case Submit(user) => w.(db := SubmitKyc(w.db, user))
    case Review(user, doc, approve) => w.(db := ReviewKyc(w.db, user, doc, if approve then Verified else Rejected))
    case ListClaims(now) => w.(claims := w.claims + Claimable(w.db, now))
    case RunJob(id, attempts, answer, now, crash) => AfterRunJob(w, id, attempts, answer, now, crash)
    case WorkerAsks(id, answer, now, crash) => AfterWorkerAsks(w, id, answer, now, crash)
    case CustomerAsks(id, customer, answer, now, crash) => AfterCustomerAsks(w, id, customer, answer, now, crash)
    case RepostTransfer(id, now) => AfterRepost(w, id, now)
    case ReconcileDay(day, now) => w.(db := Commit(w.db, Reconcile(w.db, day, now)))
  }

  predicate AllAdmissible(es: seq<Event>) { forall i :: 0 <= i < |es| ==> Admissible(es[i]) }

  function Run(w: World, es: seq<Event>): World
    decreases |es|
  {
    if |es| == 0 then w else Step(Run(w, es[..|es| - 1]), es[|es| - 1])
  }

  /** Some run of admissible events, of any length, leads from w to v. */
  ghost predicate Leads(w: World, v: World) {
    exists es: seq<Event> :: AllAdmissible(es) && v == Run(w, es)
  }

  /** What a deployment that starts from the seeded database can arrive at. */
  ghost predicate Reachable(w: World) { Leads(Start(), w) }

  lemma {:induction false} RunConcat(w: World, a: seq<Event>, b: seq<Event>)
    ensures Run(w, a + b) == Run(Run(w, a), b)
    decreases |b|
  {
    if |b| == 0 {
      assert a + b == a;
    } else {
      var front := b[..|b| - 1];
      assert (a + b)[..|a + b| - 1] == a + front;
      RunConcat(w, a, front);
    }
  }

  lemma {:induction false} LeadsOn(u: World, v: World, w: World)
    requires Leads(u, v) && Leads(v, w)
    ensures Leads(u, w)
  {
    var a: seq<Event> :| AllAdmissible(a) && v == Run(u, a);
    var b: seq<Event> :| AllAdmissible(b) && w == Run(v, b);
    RunConcat(u, a, b);
    assert AllAdmissible(a + b);
  }

  lemma {:induction false} StepLeads(w: World, e: Event)
    requires Admissible(e)
    ensures Leads(w, Step(w, e))
  {
    assert [e][..0] == [];
    assert Run(w, [e]) == Step(w, e);
  }
}
