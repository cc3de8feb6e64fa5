/** The committed database as the services share it, with the history the ledger machine keeps. */
module Stores {
  import opened Ledger
  import opened Machine

  class Store {
    var db: Db
    ghost var log: seq<Happening>
    ghost var claims: set<(nat, nat)>

    constructor ()
      ensures World() == Start()
    {
      db, log, claims := SeedDb(), [], {};
    }

    ghost function World(): World
      reads this
    {
      Machine.World(db, log, claims)
    }
  }
}

/** TransferService: requests, status queries and reposts, each proved to be one step of the ledger machine. */
module TransferServices {
  import opened Prelude
  import opened Rows
  import opened Books
  import opened DailyOutboundLimit
  import opened IdempotencyFingerprint
  import opened WatBusinessDay
  import opened Ledger
  import opened Settlement
  import opened Machine
  import opened Entities
  import opened WalletTracking
  import opened Stores
  import Answers
  import SettlementEffects

  ghost predicate Posted(before: Books, after: Books, tid: Option<nat>, now: int, legs: seq<Leg>, thrown: Option<Error>) {
    match Post(before, tid, now, legs)
    case Ok(b) => thrown.None? && after == b
    case Err(e) => thrown == Some(e)
  }

  method PostTwo(u: UnitOfWork, tid: Option<nat>, now: int, a: Leg, b: Leg) returns (thrown: Option<Error>)
    requires u.Valid()
    modifies u, u.tracked.Values
    ensures u.Valid() && fresh(u.tracked.Values - old(u.tracked.Values))
    ensures Posted(old(u.View()), u.View(), tid, now, [a, b], thrown)
  {
    PostFirst(u.View(), tid, now, a, [b]);
    thrown := u.Apply(tid, now, a);
    if thrown.Some? { return; }
    PostFirst(u.View(), tid, now, b, []);
    thrown := u.Apply(tid, now, b);
  }

  method PostFour(u: UnitOfWork, tid: Option<nat>, now: int, a: Leg, b: Leg, c: Leg, d: Leg) returns (thrown: Option<Error>)
    requires u.Valid()
    modifies u, u.tracked.Values
    ensures u.Valid() && fresh(u.tracked.Values - old(u.tracked.Values))
    ensures Posted(old(u.View()), u.View(), tid, now, [a, b, c, d], thrown)
  {
    assert [a, b, c, d] == [a] + [b, c, d] && [b, c, d] == [b] + [c, d];
    PostFirst(u.View(), tid, now, a, [b, c, d]);
    thrown := u.Apply(tid, now, a);
    if thrown.Some? { return; }
    PostFirst(u.View(), tid, now, b, [c, d]);
    thrown := u.Apply(tid, now, b);
    if thrown.Some? { return; }
    thrown := PostTwo(u, tid, now, c, d);
  }

  /** ReverseOutboundAsync: give the total back, take amount, fee and VAT out of the system wallets. */
  method ReverseOutbound(u: UnitOfWork, id: nat, t: Terms, now: int) returns (thrown: Option<Error>)
    requires u.Valid()
    modifies u, u.tracked.Values
    ensures u.Valid() && fresh(u.tracked.Values - old(u.tracked.Values))
    ensures match Reverse(old(u.View()), id, t, now)
            case Ok(b) => thrown.None? && u.View() == b
            case Err(e) => thrown == Some(e)
  {
    if t.source.None? { return Some(SourceNotFound); }
    thrown := PostFour(u, Some(id), now,
                       Leg(t.source.value, Credit, t.total, ReversalSource), Leg(SETTLEMENT, Debit, t.amount, ReversalSettlement),
                       Leg(INCOME, Debit, t.fee, ReversalIncome), Leg(VAT, Debit, t.vat, ReversalVat));
  }

  /** One run of the outbound core: its reference and clock reading, and whether the server picks it as a deadlock victim. */
  datatype Attempt = Attempt(reference: string, now: int, deadlock: bool)

  const MAX_RUNS: nat := 3

  ghost predicate FirstCompleted(runs: seq<Attempt>, k: nat) {
    k < 3 <= |runs| && !runs[k].deadlock && forall i :: 0 <= i < k ==> runs[i].deadlock
  }

  ghost predicate AllDeadlock(runs: seq<Attempt>) {
    3 <= |runs| && forall i :: 0 <= i < 3 ==> runs[i].deadlock
  }

  /** What a status query answers: the stored row if it need not ask, the committed row if it does, or why nothing was committed. */
  function QueryReply(db: Db, id: nat, customer: string, answer: RailStatus, now: int, crash: bool): Outcome<TransferResult> {
    if id >= |db.transfers| || db.transfers[id].terms.customerId != customer then Err(TransferNotFound)
    else if !AsksRail(db.transfers[id]) then Ok(ToResult(id, db.transfers[id]))
    else
      var committed :- ApiQuery(db, id, answer, now);
      if crash || id >= |committed.transfers| then Err(Deadlock) else Ok(ToResult(id, committed.transfers[id]))
  }

  /** A status query's answer, field by field: the stored row when the rail is not asked, else the row as the rail's answer leaves it. */
  lemma {:induction false} QueryTells(db: Db, id: nat, customer: string, answer: RailStatus, now: int, crash: bool)
    ensures var r := QueryReply(db, id, customer, answer, now, crash);
      if id >= |db.transfers| || db.transfers[id].terms.customerId != customer then r == Err(TransferNotFound)
      else
        var t := db.transfers[id];
        if !SettlementEffects.CustomerMayAsk(t, customer) then r.Ok? && Answers.Shows(r.value, id, t)
        else if answer.RailFailed? && Reverse(db.books, id, t.terms, now).Err? then r == Err(Reverse(db.books, id, t.terms, now).error)
        else if crash then r == Err(Deadlock)
        else
          var status := match answer case Sent => Settled case RailFailed => Failed case RailUnknown => t.status;
          r.Ok? && Answers.Shows(r.value, id, t.(status := status))
  {
  }

  class TransferService {
    const store: Store

    constructor (store: Store)
      ensures this.store == store
    {
      this.store := store;
    }

    /** TryReplayAsync. */
    method TryReplay(customer: string, key: string, hash: string) returns (r: Outcome<Option<TransferResult>>)
      ensures r == Replay(store.db, customer, key, hash)
    {
      if (customer, key) !in store.db.idem { return Ok(None); }
      var existing := store.db.idem[(customer, key)];
      if existing.hash != hash { return Err(PayloadMismatch); }
      if existing.transferId >= |store.db.transfers| { return Err(TransferNotFound); }
      var prior := new Transfer(store.db.transfers[existing.transferId]);
      r := Ok(Some(ToResult(existing.transferId, prior.Row())));
    }

    /** SaveChanges and commit: books, transfer, idempotency record and, for an outbound transfer, its job. */
    method Save(terms: Terms, books: Books, ghost legs: seq<Leg>) returns (r: Outcome<TransferResult>)
      requires Post(store.db.books, Some(|store.db.transfers|), terms.createdAt, legs) == Ok(books)
      modifies store`db
      ensures Ok(store.db) == Record(old(store.db), terms, legs)
      ensures Reply(store.db, r) == Finish(old(store.db), Record(old(store.db), terms, legs))
    {
      var id := |store.db.transfers|;
      var transfer := new Transfer(TransferRow(terms, InitialStatus(terms.kind), None, terms.createdAt, None));
      var jobs := store.db.jobs;
      if terms.kind.Outbound? {
        var job := new SettlementJob(NewJob(terms.createdAt));
        jobs := jobs[id := job.Row()];
      }
      store.db := store.db.(books := books,
                            transfers := store.db.transfers + [transfer.Row()],
                            idem := store.db.idem[(terms.customerId, terms.key) := IdemRow(terms.hash, id)],
                            jobs := jobs);
      r := Ok(ToResult(id, transfer.Row()));
    }

    method TransferInternal(c: Command, x: Context) returns (r: Outcome<TransferResult>)
      requires c.InternalCommand?
      modifies store`db
      ensures Reply(store.db, r) == Ledger.TransferInternal(old(store.db), c, x)
      ensures store.World() == AfterAsk(old(store.World()), c, x)
    {
      if IsBlank(c.key) { return Err(IdempotencyRequired); }
      if c.amount <= 0 { return Err(AmountInvalid); }
      if c.amount > VERIFIED_LIMIT { return Err(AmountTooLarge); }
      var hash := Canonical(c);
      var replay := TryReplay(c.customerId, c.key, hash);
      if replay.Err? { return Err(replay.error); }
      if replay.value.Some? { return Ok(replay.value.value); }
      r := RunInternal(c, hash, x.reference, x.now);
    }

    method RunInternal(c: Command, hash: string, reference: string, now: int) returns (r: Outcome<TransferResult>)
      requires c.InternalCommand?
      modifies store`db
      ensures Reply(store.db, r) == Finish(old(store.db), InternalCore(old(store.db), c, hash, reference, now))
    {
      var u := new UnitOfWork(store.db.books);
      if c.source >= |u.before.wallets| { return Err(SourceNotFound); }
      var source := u.Load(c.source);
      if source.customerId != c.customerId { return Err(Forbidden); }
      if source.balance < c.amount { return Err(InsufficientFunds); }
      var found := FindAccount(store.db.books.wallets, c.destinationAccount);
      if found.None? { return Err(DestinationAccountNotFound); }
      if store.db.books.wallets[found.value].kind != Customer { return Err(DestinationNotCustomer); }
      if found.value == c.source { return Err(SameWallet); }
      var terms := Terms(c.customerId, Internal, Some(c.source), found, c.destinationAccount, "", "",
                         c.amount, 0, 0, c.amount, c.key, hash, reference, now);
      var debit, credit := Leg(c.source, Debit, c.amount, SourceLedger), Leg(found.value, Credit, c.amount, DestinationLedger);
      var thrown := PostTwo(u, Some(|store.db.transfers|), now, debit, credit);
      if thrown.Some? { return Err(thrown.value); }
      r := Save(terms, u.View(), InternalLegs(c.source, found.value, c.amount));
    }

    method TransferOutbound(c: Command, fee: int, vat: int, runs: seq<Attempt>) returns (r: Outcome<TransferResult>)
      requires c.OutboundCommand? && |runs| >= MAX_RUNS
      modifies store
      ensures OutboundRefusal(c, fee, vat).Some? ==>
        store.World() == old(store.World()) && r == Err(OutboundRefusal(c, fee, vat).value)
      ensures OutboundRefusal(c, fee, vat).None? && AllDeadlock(runs) ==>
        store.World() == old(store.World()) && r == Err(Deadlock)
      ensures forall k: nat :: OutboundRefusal(c, fee, vat).None? && FirstCompleted(runs, k) ==>
        var x := Context(fee, vat, runs[k].reference, runs[k].now);
        store.World() == AfterAsk(old(store.World()), c, x) && r == Request(old(store.db), c, x).outcome
    {
      if IsBlank(c.key) { return Err(IdempotencyRequired); }
      if c.amount <= 0 { return Err(AmountInvalid); }
      if IsBlank(c.destinationAccount) { return Err(DestinationRequired); }
      if IsBlank(c.destinationBank) { return Err(BankCodeRequired); }
      if CheckedAdd(c.amount, fee).Err? || CheckedAdd(c.amount + fee, vat).Err? { return Err(Overflow); }
      var hash := Canonical(c);
      var verified := IsVerified(store.db.users, c.customerId);
      var attempt := 0;
      while runs[attempt].deadlock
        invariant 0 <= attempt < MAX_RUNS
        invariant forall i :: 0 <= i < attempt ==> runs[i].deadlock
        invariant store.World() == old(store.World())
        decreases MAX_RUNS - attempt
      {
        if attempt == MAX_RUNS - 1 { return Err(Deadlock); }
        attempt := attempt + 1;
      }
      r := RunOutbound(c, fee, vat, verified, hash, runs[attempt].reference, runs[attempt].now);
      ghost var x := Context(fee, vat, runs[attempt].reference, runs[attempt].now);
      if |store.db.transfers| > |old(store.db).transfers| {
        store.log := store.log + [ReservedLimit(c.source, Today(x.now), c.amount, verified)];
      }
      assert forall k: nat :: FirstCompleted(runs, k) ==> k == attempt;
    }

    method RunOutbound(c: Command, fee: int, vat: int, verified: bool, hash: string, reference: string, now: int)
      returns (r: Outcome<TransferResult>)
      requires c.OutboundCommand?
      modifies store`db
      ensures Reply(store.db, r)
           == ReplayOr(old(store.db), c.customerId, c.key, hash, OutboundCore(old(store.db), c, fee, vat, verified, hash, reference, now))
    {
      var replay := TryReplay(c.customerId, c.key, hash);
      if replay.Err? { return Err(replay.error); }
      if replay.value.Some? { return Ok(replay.value.value); }
      var counters := new CounterTable(store.db.counters);
      var affected := counters.Merge(c.source, Today(now), c.amount, LimitFor(verified));
      if affected.Err? { return Err(affected.error); }
      if affected.value == 0 { return Err(DailyLimitExceeded); }
      r := SubmitOutbound(c, fee, vat, hash, reference, now, counters.rows);
    }

    /** The part of the core after the limit: guards, postings, rows. */
    method SubmitOutbound(c: Command, fee: int, vat: int, hash: string, reference: string, now: int, counters: Counters)
      returns (r: Outcome<TransferResult>)
      requires c.OutboundCommand?
      modifies store`db
      ensures Reply(store.db, r) == Finish(old(store.db), AfterLimit(old(store.db), c, fee, vat, hash, reference, now, counters))
    {
      var u := new UnitOfWork(store.db.books);
      if c.source >= |u.before.wallets| { return Err(SourceNotFound); }
      var source := u.Load(c.source);
      if source.customerId != c.customerId { return Err(Forbidden); }
      if source.balance < c.amount + fee + vat { return Err(InsufficientFunds); }
      if fee < 0 || vat < 0 { return Err(ArgumentOutOfRange); }
      var terms := Terms(c.customerId, Outbound, Some(c.source), None, c.destinationAccount, c.destinationBank, c.destinationName,
                         c.amount, fee, vat, c.amount + fee + vat, c.key, hash, reference, now);
      r := PostOutbound(u, terms, counters, c.source, c.amount, fee, vat);
    }

    /** The four postings on the tracked rows, then the rows. */
    method PostOutbound(u: UnitOfWork, terms: Terms, counters: Counters, source: nat, amount: int, fee: int, vat: int)
      returns (r: Outcome<TransferResult>)
      requires u.Valid() && u.View() == store.db.books
      modifies u, u.tracked.Values, store`db
      ensures Reply(store.db, r)
           == Finish(old(store.db), Record(old(store.db).(counters := counters), terms, OutboundLegs(source, amount, fee, vat)))
    {
      var thrown := PostFour(u, Some(|store.db.transfers|), terms.createdAt,
                             Leg(source, Debit, amount + fee + vat, SourceLedger), Leg(SETTLEMENT, Credit, amount, SettlementLeg),
                             Leg(INCOME, Credit, fee, IncomeLeg), Leg(VAT, Credit, vat, VatLeg));
      if thrown.Some? { return Err(thrown.value); }
      store.db := store.db.(counters := counters);
      r := Save(terms, u.View(), OutboundLegs(source, amount, fee, vat));
    }

    method TransferInbound(c: Command, x: Context) returns (r: Outcome<TransferResult>)
      requires c.InboundCommand?
      modifies store`db
      ensures Reply(store.db, r) == Ledger.TransferInbound(old(store.db), c, x)
      ensures store.World() == AfterAsk(old(store.World()), c, x)
    {
      if IsBlank(c.key) { return Err(IdempotencyRequired); }
      if c.amount <= 0 { return Err(AmountInvalid); }
      if IsBlank(c.destinationAccount) { return Err(DestinationRequired); }
      var hash := Canonical(c);
      var found := FindAccount(store.db.books.wallets, c.destinationAccount);
      if found.None? { return Err(DestinationAccountNotFound); }
      var lookup := store.db.books.wallets[found.value];
      if lookup.kind != Customer { return Err(DestinationNotCustomer); }
      var existing := TryReplay(lookup.customerId, c.key, hash);
      if existing.Err? { return Err(existing.error); }
      if existing.value.Some? { return Ok(existing.value.value); }
      r := RunInbound(c, found.value, hash, x.reference, x.now);
    }

    method RunInbound(c: Command, destination: nat, hash: string, reference: string, now: int) returns (r: Outcome<TransferResult>)
      requires c.InboundCommand?
      modifies store`db
      ensures Reply(store.db, r) == Finish(old(store.db), InboundCore(old(store.db), c, destination, hash, reference, now))
    {
      var u := new UnitOfWork(store.db.books);
      if destination >= |u.before.wallets| { return Err(WalletNotFound); }
      var dest := u.Load(destination);
      var terms := Terms(dest.customerId, Inbound, None, Some(destination), dest.accountNumber, c.originBank, c.originName,
                         c.amount, 0, 0, c.amount, c.key, hash, reference, now);
      var thrown := PostTwo(u, Some(|store.db.transfers|), now,
                            Leg(SETTLEMENT, Debit, c.amount, InboundSettlement), Leg(destination, Credit, c.amount, InboundCustomer));
      if thrown.Some? { return Err(thrown.value); }
      r := Save(terms, u.View(), InboundLegs(destination, c.amount));
    }

    /** QueryTransferStatusAsync. `crash` stands for a transaction that is rolled back after the rail has answered. */
    method QueryTransferStatus(id: nat, customer: string, answer: RailStatus, now: int, crash: bool) returns (r: Outcome<TransferResult>)
      modifies store
      ensures store.World() == AfterCustomerAsks(old(store.World()), id, customer, answer, now, crash)
      ensures r == QueryReply(old(store.db), id, customer, answer, now, crash)
      ensures r.Ok? ==> id < |store.db.transfers| && r.value == ToResult(id, store.db.transfers[id])
    {
      if id >= |store.db.transfers| || store.db.transfers[id].terms.customerId != customer { return Err(TransferNotFound); }
      var transfer := new Transfer(store.db.transfers[id]);
      if transfer.terms.kind != Outbound { return Ok(ToResult(id, transfer.Row())); }
      if transfer.status.Settled? || transfer.status.Failed? { return Ok(ToResult(id, transfer.Row())); }
      if transfer.externalReference.None? || transfer.externalReference.value == "" { return Ok(ToResult(id, transfer.Row())); }
      var result := ApplyAnswer(id, answer, now);
      var committed := result.Ok? && !crash;
      store.log := store.log + [AskedStatus(id, answer, committed)];
      if result.Err? { return Err(result.error); }
      if crash { return Err(Deadlock); }
      store.db := result.value;
      r := Ok(ToResult(id, store.db.transfers[id]));
    }

    /** The database the status query is about to commit. */
    method ApplyAnswer(id: nat, answer: RailStatus, now: int) returns (r: Outcome<Db>)
      requires id < |store.db.transfers|
      ensures r == ApiQuery(store.db, id, answer, now)
      ensures r.Ok? ==> |r.value.transfers| == |store.db.transfers|
    {
      var transfer := new Transfer(store.db.transfers[id]);
      var jobs := store.db.jobs;
      var u := new UnitOfWork(store.db.books);
      match answer {
        case Sent =>
          transfer.MarkSettled(now);
          if id in jobs {
            var job := new SettlementJob(jobs[id]);
            job.Succeed(transfer.externalReference, now);
            jobs := jobs[id := job.Row()];
          }
        case RailFailed =>
          transfer.MarkFailed(now);
          var thrown := ReverseOutbound(u, id, transfer.terms, now);
          if thrown.Some? { return Err(thrown.value); }
          assert id in jobs ==> jobs[id := jobs[id]] == jobs;
        case RailUnknown =>
          assert store.db.transfers[id := transfer.Row()] == store.db.transfers;
      }
      r := Ok(store.db.(books := u.View(), transfers := store.db.transfers[id := transfer.Row()], jobs := jobs));
    }

    /** RepostAsync, and RepostFailedTransferAsync of the admin service. */
    method Repost(id: nat, now: int) returns (r: Outcome<TransferStatus>)
      modifies store
      ensures store.World() == AfterRepost(old(store.World()), id, now)
      ensures r == (if Settlement.Repost(old(store.db), id, now).Ok? then Ok(Submitted) else Err(Settlement.Repost(old(store.db), id, now).error))
    {
      if id >= |store.db.transfers| { return Err(TransferNotFound); }
      var transfer := new Transfer(store.db.transfers[id]);
      if transfer.status != Failed { return Err(NotFailed); }
      if transfer.terms.kind != Outbound { return Err(NotOutbound); }
      transfer.ResetForRepost(now);
      var jobs := store.db.jobs;
      if id in jobs {
        var job := new SettlementJob(jobs[id]);
        job.Repost(now);
        jobs := jobs[id := job.Row()];
      }
      store.db := store.db.(transfers := store.db.transfers[id := transfer.Row()], jobs := jobs);
      store.log := store.log + [Reposted(id)];
      r := Ok(transfer.status);
    }
  }
}
