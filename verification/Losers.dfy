/** The loser of a race on one key, in the interleavings where such races happen. */
module Losers {
  import opened Prelude
  import opened Rows
  import opened Books
  import opened DailyOutboundLimit
  import opened IdempotencyFingerprint
  import opened WatBusinessDay
  import opened Ledger
  import opened Shapes
  import opened Machine
  import opened Protocol
  import opened Requests
  import opened Invariants
  import opened Persistence
  import opened MoneyTheorems
  import opened RequestTheorems
  import opened Concurrency
  import opened ConcurrencyTheorems
  import opened Verdicts
  import Scenarios
  import VerdictRace

  // ---------- Interleaved worlds only grow ----------

  lemma {:induction false} SameButPeopleExtends(w: World, a: World, w': World, v: World)
    requires Extends(v, a) && v == w.(db := v.db) && SameButPeople(w.db, v.db)
    requires w' == a.(db := a.db.(users := w.db.users, docs := w.db.docs))
    ensures Extends(w, w')
  {
    forall i: nat | i < |w.db.transfers| ensures RowPersists(w.db, w.db.transfers[i], w'.db.transfers[i]) {
      assert RowPersists(v.db, v.db.transfers[i], a.db.transfers[i]);
    }
  }

  lemma {:induction false} FinishExtends(w: World, t: Task)
    requires Inv(w) && t.Asking? && TaskOk(w, t)
    ensures Extends(w, AfterFinish(w, t))
  {
    if FinishReply(w.db, t).db == w.db {
      SameWalletsExtend(w, AfterFinish(w, t));
    } else {
      var v := VouchedFor(w, t);
      VouchedForKeepsInv(w, t);
      AskExtends(v, t.command, t.context);
      FinishIsVouched(w, t);
      SameButPeopleExtends(w, AfterAsk(v, t.command, t.context), AfterFinish(w, t), v);
    }
  }

  lemma {:induction false} AdvanceExtends(s: State, a: Action)
    requires Inv(s.world) && TasksOk(s)
    ensures Extends(s.world, Advance(s, a).world)
  {
    if a.FinishRequest? && Enabled(s, a) {
      FinishExtends(s.world, s.tasks[a.x]);
    } else if !a.FinishRequest? {
      OthersAreSerial(s, a);
      if SerialEvent(s, a).Some? {
        StepExtends(s.world, SerialEvent(s, a).value);
      } else {
        SameWalletsExtend(s.world, s.world);
      }
    } else {
      SameWalletsExtend(s.world, s.world);
    }
  }

  /** What an interleaving has built after n actions, the rest of it only adds to. */
  lemma {:induction false} InterleavingExtends(actions: seq<Action>, n: nat)
    requires n <= |actions|
    ensures Extends(Before(actions, n).world, AdvanceAll(Idle(), actions).world)
    decreases |actions|
  {
    if n == |actions| {
      assert actions[..n] == actions;
      SameWalletsExtend(Before(actions, n).world, AdvanceAll(Idle(), actions).world);
    } else {
      var front, a := actions[..|actions| - 1], actions[|actions| - 1];
      assert front[..n] == actions[..n];
      InterleavingExtends(front, n);
      InterleavingKeepsInv(front);
      AdvanceExtends(AdvanceAll(Idle(), front), a);
      ExtendsTransitive(Before(actions, n).world, AdvanceAll(Idle(), front).world, AdvanceAll(Idle(), actions).world);
    }
  }

  // ---------- The winner ----------

  ghost function TaskAt(s: State, x: nat): Task
    requires x in s.tasks
  {
    s.tasks[x]
  }

  /** The n-th action finishes a request of this command, and commits. */
  ghost predicate Wins(actions: seq<Action>, n: nat, c: Command) {
    && n < |actions| && actions[n].FinishRequest? && actions[n].x in Before(actions, n).tasks
    && (var t := TaskAt(Before(actions, n), actions[n].x);
        t.Asking? && t.command == c && FinishReply(Before(actions, n).world.db, t).db != Before(actions, n).world.db)
  }

  /** An unfinished request whose command an earlier action of the sequence has committed. */
  ghost predicate Loses(actions: seq<Action>, n: nat, x: nat) {
    var s := AdvanceAll(Idle(), actions);
    x in s.tasks && s.tasks[x].Asking? && Wins(actions, n, s.tasks[x].command)
  }

  /** What the winner leaves behind: its memory, and guards that its wallets met. */
  ghost predicate Left(w: World, w1: World, t: Task)
    requires t.Asking?
  {
    && |w1.db.transfers| == |w.db.transfers| + 1
    && Remembers(w1.db, OwnerOf(w.db, t), t.command.key, Canonical(t.command), |w.db.transfers|)
    && t.command.amount > 0
    && (t.command.InternalCommand? ==> InternalGuards(w.db.books.wallets, t.command))
    && (t.command.OutboundCommand? ==>
          && t.command.source < |w.db.books.wallets| && w.db.books.wallets[t.command.source].customerId == t.command.customerId
          && t.command.amount <= VERIFIED_LIMIT && t.context.fee > 0 && t.context.vat > 0)
    && (t.command.InboundCommand? ==> t.destination < |w.db.books.wallets|)
  }

  lemma {:induction false} InternalWinner(w: World, t: Task)
    requires t.Asking? && t.command.InternalCommand? && TaskOk(w, t) && FinishReply(w.db, t).db != w.db
    ensures Left(w, AfterFinish(w, t), t)
  {
  }

  lemma {:induction false} InboundWinner(w: World, t: Task)
    requires t.Asking? && t.command.InboundCommand? && TaskOk(w, t) && FinishReply(w.db, t).db != w.db
    ensures Left(w, AfterFinish(w, t), t)
  {
  }

  lemma {:induction false} OutboundWinner(w: World, t: Task)
    requires WalletsOk(w.db.books.wallets) && NonNegative(w.db.books) && CountersOk(w)
    requires t.Asking? && t.command.OutboundCommand? && TaskOk(w, t) && FinishReply(w.db, t).db != w.db
    ensures Left(w, AfterFinish(w, t), t)
  {
    var c, x := t.command, t.context;
    FinishedCore(w, t);
    OutboundPostsIff(w.db.books, Some(|w.db.transfers|), x.now, c.source, c.amount, x.fee, x.vat);
    assert CounterOk(w, c.source, Today(x.now));
    MergeAgreesWithPolicy(w.db.counters, c.source, Today(x.now), c.amount, t.verified);
  }

  lemma {:induction false} FinishedLeaves(w: World, t: Task)
    requires WalletsOk(w.db.books.wallets) && NonNegative(w.db.books) && CountersOk(w)
    requires t.Asking? && TaskOk(w, t) && FinishReply(w.db, t).db != w.db
    ensures Left(w, AfterFinish(w, t), t)
  {
    match t.command
    case InternalCommand(_, _, _, _, _) => InternalWinner(w, t);
    case OutboundCommand(_, _, _, _, _, _, _) => OutboundWinner(w, t);
    case InboundCommand(_, _, _, _, _, _) => InboundWinner(w, t);
  }

  lemma {:induction false} NextStep(actions: seq<Action>, n: nat)
    requires n < |actions|
    ensures Before(actions, n + 1) == Advance(Before(actions, n), actions[n])
  {
    assert actions[..n + 1][..n] == actions[..n];
  }

  lemma {:induction false} FinishStep(s: State, x: nat)
    requires x in s.tasks && s.tasks[x].Asking?
    ensures Advance(s, FinishRequest(x)) == State(AfterFinish(s.world, s.tasks[x]), s.tasks - {x})
  {
  }

  lemma {:induction false} WinnerLeaves(actions: seq<Action>, n: nat, c: Command)
    requires Wins(actions, n, c)
    ensures Left(Before(actions, n).world, Before(actions, n + 1).world, TaskAt(Before(actions, n), actions[n].x))
  {
    var s, x := Before(actions, n), actions[n].x;
    InterleavingKeepsInv(actions[..n]);
    NextStep(actions, n);
    FinishStep(s, x);
    assert TaskOk(s.world, s.tasks[x]);
    FinishedLeaves(s.world, s.tasks[x]);
  }

  // ---------- The loser ----------

  /** The winner's row, seen from the loser. */
  lemma {:induction false} LoserSees(actions: seq<Action>, n: nat, x: nat)
    requires Loses(actions, n, x)
    ensures var s, w := AdvanceAll(Idle(), actions), Before(actions, n).world;
      var t, won := TaskAt(s, x), TaskAt(Before(actions, n), actions[n].x);
      && Left(w, Before(actions, n + 1).world, won) && Extends(w, s.world)
      && Remembers(s.world.db, OwnerOf(w.db, won), t.command.key, Canonical(t.command), |w.db.transfers|)
      && Inv(w) && TaskOk(w, won) && Inv(s.world) && TaskOk(s.world, t)
  {
    var s, w := AdvanceAll(Idle(), actions), Before(actions, n).world;
    var t, won := TaskAt(s, x), TaskAt(Before(actions, n), actions[n].x);
    WinnerLeaves(actions, n, t.command);
    InterleavingExtends(actions, n);
    InterleavingExtends(actions, n + 1);
    MemoryPersists(Before(actions, n + 1).world, s.world, OwnerOf(w.db, won), t.command.key, Canonical(t.command), |w.db.transfers|);
    InterleavingKeepsInv(actions[..n]);
    InterleavingKeepsInv(actions);
  }

  lemma {:induction false} SameOwner(w: World, v: World, won: Task, t: Task)
    requires won.Asking? && t.Asking? && won.command == t.command && TaskOk(w, won) && TaskOk(v, t)
    requires AccountsPersist(w.db.books.wallets, v.db.books.wallets)
    ensures OwnerOf(v.db, t) == OwnerOf(w.db, won)
  {
    if t.command.InboundCommand? {
      assert FindAccount(v.db.books.wallets, t.command.destinationAccount) == Some(won.destination);
      assert SameIdentity(w.db.books.wallets[won.destination], v.db.books.wallets[won.destination]);
    }
  }

  /** In every interleaving the loser of a race commits nothing; an inbound one always gets an error. */
  lemma {:induction false} RaceLoserCommitsNothing(actions: seq<Action>, n: nat, x: nat)
    requires Loses(actions, n, x)
    ensures var s := AdvanceAll(Idle(), actions);
      && Advance(s, FinishRequest(x)) == State(s.world, s.tasks - {x})
      && (s.tasks[x].command.InboundCommand? ==> FinishReply(s.world.db, s.tasks[x]).outcome.Err?)
  {
    var s, w := AdvanceAll(Idle(), actions), Before(actions, n).world;
    LoserSees(actions, n, x);
    SameOwner(w, s.world, TaskAt(Before(actions, n), actions[n].x), s.tasks[x]);
    LoserCommitsNothing(s.world, s.tasks[x]);
    FinishStep(s, x);
  }

  /** In every interleaving the internal loser gets the winner's transfer exactly when the source still covers the amount. */
  lemma {:induction false} InternalRaceLoser(actions: seq<Action>, n: nat, x: nat)
    requires Loses(actions, n, x) && TaskAt(AdvanceAll(Idle(), actions), x).command.InternalCommand?
    requires TotalFits(AdvanceAll(Idle(), actions).world.db.books)
    ensures var s := AdvanceAll(Idle(), actions); var db, t, id := s.world.db, s.tasks[x], |Before(actions, n).world.db.transfers|;
      && t.command.source < |db.books.wallets| && id < |db.transfers|
      && FinishReply(db, t)
         == (if t.command.amount <= db.books.wallets[t.command.source].balance then Reply(db, Ok(ToResult(id, db.transfers[id])))
             else Refuse(db, InsufficientFunds))
  {
    var s, w := AdvanceAll(Idle(), actions), Before(actions, n).world;
    LoserSees(actions, n, x);
    InternalLateReply(w.db.books.wallets, s.world.db, s.tasks[x], |w.db.transfers|);
  }

  /** In every interleaving the outbound loser gets the winner's transfer exactly when limit and balance would allow a second one. */
  lemma {:induction false} OutboundRaceLoser(actions: seq<Action>, n: nat, x: nat)
    requires Loses(actions, n, x) && TaskAt(AdvanceAll(Idle(), actions), x).command.OutboundCommand?
    requires TotalFits(AdvanceAll(Idle(), actions).world.db.books)
    requires var t, won := TaskAt(AdvanceAll(Idle(), actions), x), TaskAt(Before(actions, n), actions[n].x);
      t.context.fee == won.context.fee && t.context.vat == won.context.vat
    ensures var s := AdvanceAll(Idle(), actions); var db, t, id := s.world.db, s.tasks[x], |Before(actions, n).world.db.transfers|;
      var c, k := t.command, t.context;
      && c.source < |db.books.wallets| && id < |db.transfers|
      && FinishReply(db, t)
         == (if !IsAllowed(CounterOf(db.counters, c.source, Today(k.now)), c.amount, LimitFor(t.verified))
             then Refuse(db, DailyLimitExceeded)
             else if db.books.wallets[c.source].balance < c.amount + k.fee + k.vat then Refuse(db, InsufficientFunds)
             else Reply(db, Ok(ToResult(id, db.transfers[id]))))
  {
    var s, w := AdvanceAll(Idle(), actions), Before(actions, n).world;
    LoserSees(actions, n, x);
    OutboundLateReply(w.db.books.wallets, s.world, s.tasks[x], |w.db.transfers|);
  }

  // ---------- A concrete race, from the seeded database ----------

  function Racer(c: Command): Task { Asking(c, Scenarios.Terminal(), false, 0) }

  lemma {:induction false} StartsOne(s: State, w: World, c: Command, amount: int, x: nat)
    requires Scenarios.Opened(w) && s.world == w && x !in s.tasks && Scenarios.IsPayment(c, 3, amount) && 0 < amount <= UNVERIFIED_LIMIT
    ensures Advance(s, StartRequest(x, c, Scenarios.Terminal())) == State(w, s.tasks[x := Racer(c)])
  {
    assert Scenarios.CanPay(w, c);
    Scenarios.PaymentIsValid(w.db, c);
    assert |Scenarios.ADA| != |"SYSTEM"|;
    NotYetVerified(w);
  }

  lemma {:induction false} FinishIsAtomic(db: Db, c: Command, x: Context)
    requires c.OutboundCommand? && ReachesReplay(db, c, x) && (c.customerId, c.key) !in db.idem
    ensures FinishReply(db, Asking(c, x, IsVerified(db.users, c.customerId), 0)) == Request(db, c, x)
  {
  }

  lemma {:induction false} NotYetVerified(w: World)
    requires Scenarios.Opened(w)
    ensures !IsVerified(w.db.users, Scenarios.ADA)
  {
    assert w.db.users[..0] == [];
  }

  lemma {:induction false} FirstCommits(w: World, c: Command, amount: int)
    requires Scenarios.Opened(w) && Scenarios.IsPayment(c, 3, amount) && 0 < amount <= UNVERIFIED_LIMIT
    ensures FinishReply(w.db, Racer(c)).db == Scenarios.AfterPay(w, c).db
  {
    assert Scenarios.CanPay(w, c);
    Scenarios.PaymentIsValid(w.db, c);
    NotYetVerified(w);
    FinishIsAtomic(w.db, c, Scenarios.Terminal());
  }

  /** What the second of two equal payments is told once the first has committed. */
  ghost predicate ToldTheWinner(db: Db, t: Task, amount: int)
    requires t.Asking?
  {
    && |db.transfers| == 1 && db.transfers[0].terms.amount == amount
    && FinishReply(db, t) == (if 2 * amount <= UNVERIFIED_LIMIT then Reply(db, Ok(ToResult(0, db.transfers[0])))
                              else Refuse(db, DailyLimitExceeded))
  }

  lemma {:induction false} FirstIsStored(w: World, c: Command)
    requires Scenarios.CanPay(w, c) && w.db.transfers == []
    ensures var v := Scenarios.AfterPay(w, c);
      && Remembers(v.db, Scenarios.ADA, c.key, Canonical(c), 0) && |v.db.transfers| == 1 && v.db.transfers[0].terms.amount == c.amount
      && AccountsPersist(w.db.books.wallets, v.db.books.wallets) && TotalFits(v.db.books)
  {
    Scenarios.PaymentIsValid(w.db, c);
    Scenarios.PaymentCommits(w, c);
    Scenarios.PaymentRecords(w, c);
    CommittedIsRemembered(w, c, Scenarios.Terminal());
    AskExtends(w, c, Scenarios.Terminal());
  }

  lemma {:induction false} SecondIsTold(w: World, c: Command, amount: int)
    requires Scenarios.Opened(w) && Scenarios.IsPayment(c, 3, amount) && 0 < amount <= UNVERIFIED_LIMIT
    ensures ToldTheWinner(Scenarios.AfterPay(w, c).db, Racer(c), amount)
  {
    assert Scenarios.CanPay(w, c);
    FirstIsStored(w, c);
    Scenarios.PaymentEffect(w, c);
    SecondIsAnswered(w.db, Scenarios.AfterPay(w, c), c, amount);
  }

  lemma {:induction false} SecondIsAnswered(db: Db, v: World, c: Command, amount: int)
    requires Scenarios.IsPayment(c, 3, amount) && 0 < amount <= UNVERIFIED_LIMIT
    requires WalletsOk(v.db.books.wallets) && NonNegative(v.db.books) && CountersOk(v) && TotalFits(v.db.books)
    requires |db.books.wallets| == 5 && db.books.wallets[3].customerId == Scenarios.ADA
    requires db.books.wallets[3].balance == Scenarios.DEPOSIT && db.counters == map[]
    requires AccountsPersist(db.books.wallets, v.db.books.wallets)
    requires Scenarios.PaidBooks(db.books, v.db.books, c) && Scenarios.PaidCounters(db, v.db, c)
    requires |v.db.transfers| == 1 && v.db.transfers[0].terms.amount == amount
    requires Remembers(v.db, Scenarios.ADA, c.key, Canonical(c), 0)
    ensures ToldTheWinner(v.db, Racer(c), amount)
  {
    assert |Scenarios.ADA| != |"SYSTEM"|;
    OutboundLateReply(db.books.wallets, v, Racer(c), 0);
  }

  lemma {:induction false} BothUnderWay(c: Command, amount: int) returns (actions: seq<Action>, w: World)
    requires Scenarios.IsPayment(c, 3, amount) && 0 < amount <= UNVERIFIED_LIMIT
    ensures Scenarios.Opened(w) && AdvanceAll(Idle(), actions) == State(w, map[0 := Racer(c), 1 := Racer(c)])
  {
    actions, w := VerdictRace.OpenedAsActions();
    StartsOne(State(w, map[]), w, c, amount, 0);
    VerdictRace.AdvanceSnoc(actions, StartRequest(0, c, Scenarios.Terminal()));
    actions := actions + [StartRequest(0, c, Scenarios.Terminal())];
    StartsOne(State(w, map[][0 := Racer(c)]), w, c, amount, 1);
    VerdictRace.AdvanceSnoc(actions, StartRequest(1, c, Scenarios.Terminal()));
    actions := actions + [StartRequest(1, c, Scenarios.Terminal())];
    assert map[][0 := Racer(c)][1 := Racer(c)] == map[0 := Racer(c), 1 := Racer(c)];
  }

  /** Two equal payments race: above half the limit the loser is refused, although its payment has been made. */
  lemma {:induction false} RaceFromTheSeed(amount: int) returns (actions: seq<Action>)
    requires 0 < amount <= UNVERIFIED_LIMIT
    ensures var s := AdvanceAll(Idle(), actions); 1 in s.tasks && s.tasks[1].Asking? && ToldTheWinner(s.world.db, s.tasks[1], amount)
  {
    var c := Scenarios.Pay(3, amount, '1');
    Scenarios.PayIsPayment(3, amount, '1');
    var before, w := BothUnderWay(c, amount);
    actions := before + [FinishRequest(0)];
    VerdictRace.AdvanceSnoc(before, FinishRequest(0));
    FinishStep(AdvanceAll(Idle(), before), 0);
    FirstCommits(w, c, amount);
    SecondIsTold(w, c, amount);
  }
}
