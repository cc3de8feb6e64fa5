/** A concrete interleaving, from the seeded database, in which a request commits on a KYC verdict that is already withdrawn. */
module VerdictRace {
  import opened Prelude
  import opened Rows
  import opened Books
  import opened DailyOutboundLimit
  import opened IdempotencyFingerprint
  import opened WatBusinessDay
  import opened Ledger
  import opened Shapes
  import opened Machine
  import opened Conservation
  import opened Requests
  import opened Invariants
  import opened MoneyTheorems
  import opened RequestTheorems
  import opened Concurrency
  import opened ConcurrencyTheorems
  import Scenarios

  const LARGE: int := 6_000_000

  /** The world with another verdict on the customer and her one document. */
  function Judged(w: World, verdict: KycStatus): World {
    w.(db := w.db.(users := [UserRow(Scenarios.ADA, verdict)], docs := [DocRow(0, verdict)]))
  }

  lemma {:induction false} SubmittedAndApproved(w: World)
    requires Scenarios.Opened(w)
    ensures Step(Step(w, Submit(0)), Review(0, 0, true)) == Judged(w, Verified)
    ensures Step(Judged(w, Verified), Review(0, 0, false)) == Judged(w, Rejected)
  {
    assert SubmitKyc(w.db, 0) == Judged(w, KycPending).db;
    assert ReviewKyc(Judged(w, KycPending).db, 0, 0, Verified) == Judged(w, Verified).db;
    assert ReviewKyc(Judged(w, Verified).db, 0, 0, Rejected) == Judged(w, Rejected).db;
  }

  function Racing(c: Command): Task { Asking(c, Scenarios.Terminal(), true, 0) }

  lemma {:induction false} CoreStillPasses(w: World, c: Command)
    requires Scenarios.Opened(w) && Scenarios.IsPayment(c, 3, LARGE)
    ensures CoreOf(Judged(w, Rejected).db, Racing(c)).Ok?
  {
    var v := Judged(w, Rejected);
    assert |Scenarios.ADA| != |"SYSTEM"|;
    SameTermsKeepCounters(w, v);
    OutboundCoreCases(v, c, Scenarios.Terminal(), true, Canonical(c));
  }

  lemma {:induction false} CommittedAmount(db: Db, t: Task)
    requires t.Asking? && t.command.OutboundCommand? && CoreOf(db, t).Ok? && (OwnerOf(db, t), t.command.key) !in db.idem
    ensures var db' := FinishReply(db, t).db;
      && |db'.transfers| == |db.transfers| + 1 && db'.users == db.users
      && (var terms := db'.transfers[|db.transfers|].terms;
          terms.amount == t.command.amount && terms.kind.Outbound? && terms.customerId == t.command.customerId)
  {
  }

  lemma {:induction false} RejectedIsNotVerified(w: World)
    ensures !IsVerified(Judged(w, Rejected).db.users, Scenarios.ADA)
    ensures IsVerified(Judged(w, Verified).db.users, Scenarios.ADA)
  {
    assert Judged(w, Verified).db.users[..0] == [];
  }

  lemma {:induction false} StillRides(w: World, c: Command)
    requires Scenarios.Opened(w) && Scenarios.IsPayment(c, 3, LARGE)
    ensures RidesOldVerdict(Judged(w, Rejected).db, Racing(c))
  {
    var v := Judged(w, Rejected);
    CoreStillPasses(w, c);
    RejectedIsNotVerified(w);
    assert |Scenarios.ADA| != |"SYSTEM"|;
    PassedCore(v.db, Racing(c));
    assert CounterOf(v.db.counters, 3, Today(0)) == 0;
  }

  lemma {:induction false} ApprovedInTwo(s: State)
    requires Scenarios.Opened(s.world) && s.tasks == map[]
    ensures Advance(Advance(s, Whole(Submit(0))), Whole(Review(0, 0, true))) == State(Judged(s.world, Verified), map[])
  {
    SubmittedAndApproved(s.world);
  }

  lemma {:induction false} LookedUp(s: State, w: World, c: Command)
    requires Scenarios.Opened(w) && s == State(Judged(w, Verified), map[]) && Scenarios.IsPayment(c, 3, LARGE)
    ensures Advance(Advance(s, StartRequest(0, c, Scenarios.Terminal())), Whole(Review(0, 0, false)))
         == State(Judged(w, Rejected), map[0 := Racing(c)])
  {
    RejectedIsNotVerified(w);
    Scenarios.PaymentIsValid(s.world.db, c);
    SubmittedAndApproved(w);
    assert s.tasks[0 := Racing(c)] == map[0 := Racing(c)];
  }

  ghost predicate LargeSentUnverified(db: Db) {
    && |db.transfers| == 1 && db.transfers[0].terms.kind.Outbound? && db.transfers[0].terms.customerId == Scenarios.ADA
    && db.transfers[0].terms.amount == LARGE > UNVERIFIED_LIMIT && !IsVerified(db.users, Scenarios.ADA)
  }

  lemma {:induction false} Committed(w: World, c: Command)
    requires Scenarios.Opened(w) && Scenarios.IsPayment(c, 3, LARGE)
    ensures LargeSentUnverified(FinishReply(Judged(w, Rejected).db, Racing(c)).db)
  {
    CoreStillPasses(w, c);
    RejectedIsNotVerified(w);
    CommittedAmount(Judged(w, Rejected).db, Racing(c));
  }

  // ---------- From the seeded database ----------

  lemma {:induction false} AdvanceSnoc(actions: seq<Action>, a: Action)
    ensures AdvanceAll(Idle(), actions + [a]) == Advance(AdvanceAll(Idle(), actions), a)
  {
    assert (actions + [a])[..|actions|] == actions;
  }

  /** Setup events, one after the other, with no task under way. */
  lemma {:induction false} SetupAsActions(es: seq<Event>) returns (actions: seq<Action>)
    requires AllAdmissible(es) && Scenarios.AllSetup(es)
    ensures AdvanceAll(Idle(), actions) == State(Run(Start(), es), map[])
    decreases |es|
  {
    actions := [];
    if |es| > 0 {
      var front := SetupAsActions(es[..|es| - 1]);
      actions := front + [Whole(es[|es| - 1])];
      AdvanceSnoc(front, Whole(es[|es| - 1]));
    }
  }

  lemma {:induction false} OpenedAsActions() returns (actions: seq<Action>, w: World)
    ensures Scenarios.Opened(w) && AdvanceAll(Idle(), actions) == State(w, map[])
  {
    var es := Scenarios.Prologue();
    actions := SetupAsActions(es);
    w := Run(Start(), es);
  }

  lemma {:induction false} FourMore(actions: seq<Action>, a: Action, b: Action, c: Action, d: Action) returns (more: seq<Action>)
    ensures AdvanceAll(Idle(), more) == Advance(Advance(Advance(Advance(AdvanceAll(Idle(), actions), a), b), c), d)
  {
    more := actions + [a];
    AdvanceSnoc(actions, a);
    AdvanceSnoc(more, b);
    more := more + [b];
    AdvanceSnoc(more, c);
    more := more + [c];
    AdvanceSnoc(more, d);
    more := more + [d];
  }

  /** Approved, looked up, rejected: the request is under way on the withdrawn verdict. */
  lemma {:induction false} UnderWay(c: Command) returns (actions: seq<Action>, w: World)
    requires Scenarios.IsPayment(c, 3, LARGE)
    ensures Scenarios.Opened(w) && AdvanceAll(Idle(), actions) == State(Judged(w, Rejected), map[0 := Racing(c)])
  {
    var opening;
    opening, w := OpenedAsActions();
    ApprovedInTwo(State(w, map[]));
    LookedUp(State(Judged(w, Verified), map[]), w, c);
    actions := FourMore(opening, Whole(Submit(0)), Whole(Review(0, 0, true)), StartRequest(0, c, Scenarios.Terminal()),
                        Whole(Review(0, 0, false)));
  }

  lemma {:induction false} FinishIsReply(s: State, x: nat)
    requires x in s.tasks && s.tasks[x].Asking?
    ensures Advance(s, FinishRequest(x)).world.db == FinishReply(s.world.db, s.tasks[x]).db
  {
  }

  lemma {:induction false} FinishOfRacing(s: State, w: World, c: Command)
    requires Scenarios.Opened(w) && Scenarios.IsPayment(c, 3, LARGE)
    requires s.world == Judged(w, Rejected) && 0 in s.tasks && s.tasks[0] == Racing(c)
    ensures LargeSentUnverified(Advance(s, FinishRequest(0)).world.db)
  {
    Committed(w, c);
    FinishIsReply(s, 0);
  }

  lemma {:induction false} NotTimely(w: World, c: Command)
    requires Scenarios.Opened(w) && Scenarios.IsPayment(c, 3, LARGE)
    ensures !Timely(State(Judged(w, Rejected), map[0 := Racing(c)]), FinishRequest(0))
  {
    StillRides(w, c);
  }

  /** From the seeded database, six million kobo leave under a five-million limit: the last action finishes on a withdrawn verdict. */
  lemma {:induction false} OldVerdictCommits() returns (before: seq<Action>)
    ensures LargeSentUnverified(AdvanceAll(Idle(), before + [FinishRequest(0)]).world.db)
    ensures !Timely(AdvanceAll(Idle(), before), FinishRequest(0))
  {
    var c := Scenarios.Pay(3, LARGE, '1');
    Scenarios.PayIsPayment(3, LARGE, '1');
    var w;
    before, w := UnderWay(c);
    FinishOfRacing(AdvanceAll(Idle(), before), w, c);
    NotTimely(w, c);
    AdvanceSnoc(before, FinishRequest(0));
  }
}
