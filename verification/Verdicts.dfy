/** Which KYC verdict stands behind a large reservation, in every interleaving. */
module Verdicts {
  import opened Prelude
  import opened Rows
  import opened Books
  import opened DailyOutboundLimit
  import opened IdempotencyFingerprint
  import opened WatBusinessDay
  import opened Ledger
  import opened Shapes
  import opened Machine
  import opened Protocol
  import opened Requests
  import opened Invariants
  import opened RequestTheorems
  import opened Concurrency
  import opened ConcurrencyTheorems

  ghost function Before(actions: seq<Action>, n: nat): State
    requires n <= |actions|
  {
    AdvanceAll(Idle(), actions[..n])
  }

  /** The n-th action started the request of this task, and read this verdict. */
  ghost predicate Origin(actions: seq<Action>, n: nat, x: nat, t: Task) {
    && n < |actions| && t.Asking? && actions[n] == StartRequest(x, t.command, t.context) && Enabled(Before(actions, n), actions[n])
    && t.verified == (!t.command.InboundCommand? && IsVerified(Before(actions, n).world.db.users, t.command.customerId))
  }

  /** An unfinished request is there because this action started it, or because it was there before. */
  lemma {:induction false} RequestCameFrom(s: State, a: Action, x: nat)
    requires x in Advance(s, a).tasks && Advance(s, a).tasks[x].Asking?
    ensures var t := Advance(s, a).tasks[x];
      || (x in s.tasks && s.tasks[x] == t)
      || (&& a == StartRequest(x, t.command, t.context) && Enabled(s, a)
          && t.verified == (!t.command.InboundCommand? && IsVerified(s.world.db.users, t.command.customerId)))
  {
  }

  lemma {:induction false} RequestHasOrigin(actions: seq<Action>, x: nat) returns (n: nat)
    requires var s := AdvanceAll(Idle(), actions); x in s.tasks && s.tasks[x].Asking?
    ensures Origin(actions, n, x, AdvanceAll(Idle(), actions).tasks[x])
    decreases |actions|
  {
    n := 0;
    if |actions| > 0 {
      var front, a := actions[..|actions| - 1], actions[|actions| - 1];
      var s := AdvanceAll(Idle(), front);
      RequestCameFrom(s, a, x);
      if x in s.tasks && s.tasks[x] == AdvanceAll(Idle(), actions).tasks[x] {
        n := RequestHasOrigin(front, x);
        assert front[..n] == actions[..n];
      } else {
        n := |actions| - 1;
      }
    }
  }

  lemma {:induction false} VerdictHadDocument(db: Db, customer: string)
    requires KycOk(db) && IsVerified(db.users, customer)
    ensures VerifiedCustomer(db, customer)
  {
    assert HasVerifiedDocument(db, FindUser(db.users, customer).value);
  }

  lemma {:induction false} OthersKeepCounters(s: State, a: Action, wallet: nat, day: int)
    requires Inv(s.world) && TasksOk(s) && !a.FinishRequest?
    ensures CounterOf(Advance(s, a).world.db.counters, wallet, day) == CounterOf(s.world.db.counters, wallet, day)
  {
    OthersAreSerial(s, a);
    var e := SerialEvent(s, a);
    if e.Some? { OnlyReservationsMoveCounters(s.world, e.value, wallet, day); }
  }

  lemma {:induction false} OthersFinishKeepsCounters(db: Db, t: Task)
    requires t.Asking? && !t.command.OutboundCommand?
    ensures FinishReply(db, t).db.counters == db.counters
  {
  }

  lemma {:induction false} OutboundFinishMerges(db: Db, t: Task)
    requires t.Asking? && t.command.OutboundCommand? && FinishReply(db, t).db.counters != db.counters
    ensures var c := t.command;
      && MergeCounter(db.counters, c.source, Today(t.context.now), c.amount, LimitFor(t.verified))
         == Reserved(FinishReply(db, t).db.counters)
      && c.source < |db.books.wallets| && db.books.wallets[c.source].customerId == c.customerId
  {
  }

  /** A finished request that moves a counter reserved on it, under the verdict it read. */
  lemma {:induction false} FinishMovesCounter(w: World, t: Task, wallet: nat, day: int)
    requires CountersOk(w) && t.Asking? && (t.command.OutboundCommand? ==> t.command.amount > 0)
    requires var after := CounterOf(FinishReply(w.db, t).db.counters, wallet, day);
      after != CounterOf(w.db.counters, wallet, day) && after > UNVERIFIED_LIMIT
    ensures t.command.OutboundCommand? && t.command.source == wallet && Today(t.context.now) == day && t.verified
    ensures wallet < |w.db.books.wallets| && w.db.books.wallets[wallet].customerId == t.command.customerId
  {
    if t.command.OutboundCommand? {
      OutboundFinishMerges(w.db, t);
      assert CounterOk(w, t.command.source, Today(t.context.now));
      MergeAgreesWithPolicy(w.db.counters, t.command.source, Today(t.context.now), t.command.amount, t.verified);
    } else {
      OthersFinishKeepsCounters(w.db, t);
    }
  }

  /** A step of a state that takes a counter above the unverified limit finishes a request that read Verified. */
  lemma {:induction false} LargeStep(s: State, a: Action, wallet: nat, day: int)
    requires Inv(s.world) && TasksOk(s)
    requires var after := CounterOf(Advance(s, a).world.db.counters, wallet, day);
      after != CounterOf(s.world.db.counters, wallet, day) && after > UNVERIFIED_LIMIT
    ensures a.FinishRequest? && a.x in s.tasks && s.tasks[a.x].Asking?
    ensures var t := s.tasks[a.x];
      && t.command.OutboundCommand? && t.command.source == wallet && t.verified
      && wallet < |s.world.db.books.wallets| && s.world.db.books.wallets[wallet].customerId == t.command.customerId
  {
    if a.FinishRequest? {
      assert TaskOk(s.world, s.tasks[a.x]);
      FinishMovesCounter(s.world, s.tasks[a.x], wallet, day);
    } else {
      OthersKeepCounters(s, a, wallet, day);
    }
  }

  lemma {:induction false} OriginWasVerified(actions: seq<Action>, m: nat, x: nat, t: Task)
    requires Origin(actions, m, x, t) && t.verified
    ensures VerifiedCustomer(Before(actions, m).world.db, t.command.customerId)
  {
    InterleavingKeepsInv(actions[..m]);
    VerdictHadDocument(Before(actions, m).world.db, t.command.customerId);
  }

  lemma {:induction false} OriginOfPrefix(actions: seq<Action>, n: nat, m: nat, x: nat, t: Task)
    requires n <= |actions| && Origin(actions[..n], m, x, t)
    ensures m < n && Origin(actions, m, x, t)
  {
    assert actions[..n][..m] == actions[..m];
  }

  /**
   * In every sequence of actions, a step that takes a counter above the unverified limit finishes a request that an earlier action
   * of the sequence started, in a state where its customer, who owns the wallet, was Verified by a Verified document.
   */
  lemma {:induction false} LargeReservationReadVerified(actions: seq<Action>, n: nat, wallet: nat, day: int) returns (m: nat)
    requires n < |actions|
    requires var before := CounterOf(Before(actions, n).world.db.counters, wallet, day);
      var after := CounterOf(Advance(Before(actions, n), actions[n]).world.db.counters, wallet, day);
      after != before && after > UNVERIFIED_LIMIT
    ensures m < n && actions[n].FinishRequest? && actions[n].x in Before(actions, n).tasks
    ensures var s, t := Before(actions, n), Before(actions, n).tasks[actions[n].x];
      && Origin(actions, m, actions[n].x, t) && t.command.OutboundCommand? && t.command.source == wallet
      && wallet < |s.world.db.books.wallets| && s.world.db.books.wallets[wallet].customerId == t.command.customerId
      && VerifiedCustomer(Before(actions, m).world.db, t.command.customerId)
  {
    InterleavingKeepsInv(actions[..n]);
    LargeStep(Before(actions, n), actions[n], wallet, day);
    var x := actions[n].x;
    m := RequestHasOrigin(actions[..n], x);
    OriginOfPrefix(actions, n, m, x, Before(actions, n).tasks[x]);
    OriginWasVerified(actions, m, x, Before(actions, n).tasks[x]);
  }
}
