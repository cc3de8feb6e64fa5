/** Main results on requests: idempotent replay, daily limits and KYC, over every run. */
module RequestTheorems {
  import opened Prelude
  import opened Rows
  import opened Books
  import opened DailyOutboundLimit
  import opened IdempotencyFingerprint
  import opened WatBusinessDay
  import opened Ledger
  import opened Settlement
  import opened Shapes
  import opened Machine
  import opened Conservation
  import opened Protocol
  import opened Charges
  import opened Requests
  import opened Invariants
  import opened Persistence
  import opened MoneyTheorems

  // ---------- Idempotent replay ----------

  /** No two transfers of any run share a customer and an idempotency key. */
  lemma {:induction false} OneTransferPerKey(w: World, i: nat, j: nat)
    requires Reachable(w)
    requires var rows := w.db.transfers;
      && i < |rows| && j < |rows|
      && rows[i].terms.customerId == rows[j].terms.customerId && rows[i].terms.key == rows[j].terms.key
    ensures i == j
  {
    ReachableHasInv(w);
    assert IdemOk(w.db);
  }

  /** The checks a request passes before its key is looked up. */
  ghost predicate ReachesReplay(db: Db, c: Command, x: Context) {
    match c
    case InternalCommand(_, _, _, _, _) => InternalRefusal(c).None?
    case OutboundCommand(_, _, _, _, _, _, _) => OutboundRefusal(c, x.fee, x.vat).None?
    case InboundCommand(account, _, _, _, _, _) =>
      && InboundRefusal(c).None?
      && var found := FindAccount(db.books.wallets, account); found.Some? && db.books.wallets[found.value].kind.Customer?
  }

  lemma {:induction false} KnownKeyReplays(db: Db, c: Command, x: Context)
    requires ReachesReplay(db, c, x) && (Requester(db, c), c.key) in db.idem
    requires db.idem[(Requester(db, c), c.key)].transferId < |db.transfers|
    ensures var found := db.idem[(Requester(db, c), c.key)];
      Request(db, c, x) == if found.hash == Canonical(c)
                           then Reply(db, Ok(ToResult(found.transferId, db.transfers[found.transferId])))
                           else Refuse(db, PayloadMismatch)
  {
  }

  /** What a committed request leaves behind for its key. */
  ghost predicate Remembers(db: Db, customer: string, key: string, hash: string, id: nat) {
    (customer, key) in db.idem && db.idem[(customer, key)] == IdemRow(hash, id) && id < |db.transfers|
  }

  lemma {:induction false} CommittedIsRemembered(w: World, c: Command, x: Context)
    requires WalletsOk(w.db.books.wallets) && Admissible(Ask(c, x)) && AfterAsk(w, c, x).db != w.db
    ensures var db := AfterAsk(w, c, x).db; var n := |w.db.transfers|;
      && |db.transfers| == n + 1 && Remembers(db, Requester(w.db, c), c.key, Canonical(c), n)
      && Request(w.db, c, x).outcome == Ok(ToResult(n, db.transfers[n]))
  {
    var t := RequestShape(w.db, c, x);
  }

  lemma {:induction false} MemoryPersists(w: World, v: World, customer: string, key: string, hash: string, id: nat)
    requires Extends(w, v) && Remembers(w.db, customer, key, hash, id)
    ensures Remembers(v.db, customer, key, hash, id) && v.db.transfers[id].terms == w.db.transfers[id].terms
  {
    assert RowPersists(w.db, w.db.transfers[id], v.db.transfers[id]);
  }

  lemma {:induction false} ReplayedRequest(db: Db, c: Command, x: Context, hash: string, id: nat)
    requires ReachesReplay(db, c, x) && Remembers(db, Requester(db, c), c.key, hash, id)
    ensures Request(db, c, x) == if hash == Canonical(c) then Reply(db, Ok(ToResult(id, db.transfers[id])))
                                 else Refuse(db, PayloadMismatch)
  {
    KnownKeyReplays(db, c, x);
  }

  /** Any later use of a committed key by the same customer: the original transfer for the same text, a refusal otherwise. */
  lemma {:induction false} LaterUseOfKey(w: World, c: Command, x: Context, v: World, c': Command, x': Context)
    requires Reachable(w) && Admissible(Ask(c, x)) && AfterAsk(w, c, x).db != w.db && Leads(AfterAsk(w, c, x), v)
    requires ReachesReplay(v.db, c', x') && Requester(v.db, c') == Requester(w.db, c) && c'.key == c.key
    ensures var w1, n := AfterAsk(w, c, x), |w.db.transfers|;
      && n < |w1.db.transfers| && n < |v.db.transfers| && v.db.transfers[n].terms == w1.db.transfers[n].terms
      && Request(v.db, c', x') == (if Canonical(c') == Canonical(c) then Reply(v.db, Ok(ToResult(n, v.db.transfers[n])))
                                   else Refuse(v.db, PayloadMismatch))
  {
    ReachableHasInv(w);
    var w1 := AfterAsk(w, c, x);
    CommittedIsRemembered(w, c, x);
    AskKeepsInv(w, c, x);
    LaterExtends(w1, v);
    MemoryPersists(w1, v, Requester(w.db, c), c.key, Canonical(c), |w.db.transfers|);
    ReplayedRequest(v.db, c', x', Canonical(c), |w.db.transfers|);
  }

  lemma {:induction false} CommittedReachedReplay(db: Db, c: Command, x: Context)
    requires Request(db, c, x).db != db
    ensures ReachesReplay(db, c, x)
  {
  }

  lemma {:induction false} ReachesReplayLater(w: World, v: World, c: Command, x: Context, x': Context)
    requires Extends(w, v) && ReachesReplay(w.db, c, x) && x'.fee == x.fee && x'.vat == x.vat
    ensures ReachesReplay(v.db, c, x') && Requester(v.db, c) == Requester(w.db, c)
  {
    if c.InboundCommand? {
      var found := FindAccount(w.db.books.wallets, c.destinationAccount);
      assert FindAccount(v.db.books.wallets, c.destinationAccount) == found;
      assert SameIdentity(w.db.books.wallets[found.value], v.db.books.wallets[found.value]);
    }
  }

  lemma {:induction false} RepeatReachesReplay(w: World, c: Command, x: Context, v: World, x': Context)
    requires Inv(w) && Admissible(Ask(c, x)) && AfterAsk(w, c, x).db != w.db && Leads(AfterAsk(w, c, x), v)
    requires x'.fee == x.fee && x'.vat == x.vat
    ensures ReachesReplay(v.db, c, x') && Requester(v.db, c) == Requester(w.db, c)
  {
    var w1 := AfterAsk(w, c, x);
    CommittedReachedReplay(w.db, c, x);
    AskExtends(w, c, x);
    AskKeepsInv(w, c, x);
    LaterExtends(w1, v);
    ExtendsTransitive(w, w1, v);
    ReachesReplayLater(w, v, c, x, x');
  }

  /** A request repeated at any later point returns the original transfer, with its id and amounts, and changes nothing. */
  lemma {:induction false} RepeatReturnsOriginal(w: World, c: Command, x: Context, v: World, x': Context)
    requires Reachable(w) && Admissible(Ask(c, x)) && AfterAsk(w, c, x).db != w.db && Leads(AfterAsk(w, c, x), v)
    requires x'.fee == x.fee && x'.vat == x.vat
    ensures var n := |w.db.transfers|;
      && AfterAsk(v, c, x') == v && Request(w.db, c, x).outcome.Ok? && n < |v.db.transfers|
      && Request(v.db, c, x').outcome == Ok(ToResult(n, v.db.transfers[n]))
      && (var first, again := Request(w.db, c, x).outcome.value, ToResult(n, v.db.transfers[n]);
          again == first.(status := again.status, externalReference := again.externalReference))
  {
    ReachableHasInv(w);
    CommittedIsRemembered(w, c, x);
    RepeatReachesReplay(w, c, x, v, x');
    LaterUseOfKey(w, c, x, v, c, x');
  }

  /** Another payload under a committed key is refused for ever, and changes nothing. */
  lemma {:induction false} OtherPayloadIsRefused(w: World, c: Command, x: Context, v: World, c': Command, x': Context)
    requires Reachable(w) && Admissible(Ask(c, x)) && AfterAsk(w, c, x).db != w.db && Leads(AfterAsk(w, c, x), v)
    requires ReachesReplay(v.db, c', x') && Requester(v.db, c') == Requester(w.db, c) && c'.key == c.key
    requires PipeFreeCustomer(c) && PipeFreeCustomer(c') && GuidsInRange(c) && GuidsInRange(c') && !HasSeparator(c) && !SamePayload(c, c')
    ensures AfterAsk(v, c', x') == v && Request(v.db, c', x').outcome == Err(PayloadMismatch)
  {
    ReachableHasInv(w);
    CanonicalIdentifiesPayload(c, c');
    LaterUseOfKey(w, c, x, v, c', x');
  }

  // ---------- Where the money goes ----------

  /** What a committed request does to the balance of wallet i. */
  function RequestEffect(wallets: Wallets, c: Command, x: Context, i: nat): int {
    match c
    case InternalCommand(_, source, account, amount, _) =>
      (if i == source then -amount else 0) + (if FindAccount(wallets, account) == Some(i) then amount else 0)
    case OutboundCommand(_, source, _, _, _, amount, _) =>
      (if i == source then -(amount + x.fee + x.vat) else 0) + (if i == SETTLEMENT then amount else 0)
      + (if i == INCOME then x.fee else 0) + (if i == VAT then x.vat else 0)
    case InboundCommand(account, _, _, _, amount, _) =>
      (if i == SETTLEMENT then -amount else 0) + (if FindAccount(wallets, account) == Some(i) then amount else 0)
  }

  /** The parts of the new transfer's terms that decide where the money goes. */
  ghost predicate TermsFit(db: Db, c: Command, x: Context, t: Terms) {
    && t.fee == (if c.OutboundCommand? then x.fee else 0) && t.vat == (if c.OutboundCommand? then x.vat else 0)
    && (!c.InboundCommand? ==> t.source == Some(c.source))
    && (!c.OutboundCommand? ==> t.destination == FindAccount(db.books.wallets, c.destinationAccount))
  }

  lemma {:induction false} InternalCoreTerms(db: Db, c: Command, hash: string, reference: string, now: int)
    requires c.InternalCommand? && InternalCore(db, c, hash, reference, now).Ok?
    ensures var db' := InternalCore(db, c, hash, reference, now).value; var found := FindAccount(db.books.wallets, c.destinationAccount);
      && |db'.transfers| == |db.transfers| + 1
      && db'.transfers[|db.transfers|].terms == Terms(c.customerId, Internal, Some(c.source), found, c.destinationAccount, "", "",
                                                      c.amount, 0, 0, c.amount, c.key, hash, reference, now)
  {
  }

  lemma {:induction false} InternalTerms(db: Db, c: Command, x: Context, t: Terms)
    requires c.InternalCommand? && TransferInternal(db, c, x).db != db
    requires |TransferInternal(db, c, x).db.transfers| > |db.transfers|
    requires TransferInternal(db, c, x).db.transfers[|db.transfers|].terms == t
    ensures TermsFit(db, c, x, t)
  {
    InternalCoreTerms(db, c, Canonical(c), x.reference, x.now);
  }

  lemma {:induction false} OutboundTerms(db: Db, c: Command, x: Context, t: Terms)
    requires c.OutboundCommand? && TransferOutbound(db, c, x).db != db
    requires |TransferOutbound(db, c, x).db.transfers| > |db.transfers|
    requires TransferOutbound(db, c, x).db.transfers[|db.transfers|].terms == t
    ensures TermsFit(db, c, x, t)
  {
  }

  lemma {:induction false} InboundTerms(db: Db, c: Command, x: Context, t: Terms)
    requires c.InboundCommand? && TransferInbound(db, c, x).db != db
    requires |TransferInbound(db, c, x).db.transfers| > |db.transfers|
    requires TransferInbound(db, c, x).db.transfers[|db.transfers|].terms == t
    ensures TermsFit(db, c, x, t)
  {
  }

  lemma {:induction false} CommittedTerms(db: Db, c: Command, x: Context, t: Terms)
    requires Request(db, c, x).db != db && RecordsOnce(db, c, x, Request(db, c, x), t)
    ensures TermsFit(db, c, x, t)
  {
    RecordedRow(db, Request(db, c, x).db, t);
    match c
    case InternalCommand(_, _, _, _, _) => InternalTerms(db, c, x, t);
    case OutboundCommand(_, _, _, _, _, _, _) => OutboundTerms(db, c, x, t);
    case InboundCommand(_, _, _, _, _, _) => InboundTerms(db, c, x, t);
  }

  lemma {:induction false} RecordedRow(db: Db, db': Db, t: Terms)
    requires Records(db, db', t)
    ensures |db'.transfers| > |db.transfers| && db'.transfers[|db.transfers|].terms == t
  {
  }

  lemma {:induction false} LegsMoveBalance(b: Books, b': Books, tid: Option<nat>, t: Terms, i: nat)
    requires TermsOk(t, |b.wallets|) && JournalBacked(b) && Post(b, tid, t.createdAt, LegsFor(t)) == Ok(b')
    requires i < |b.wallets|
    ensures |b'.wallets| == |b.wallets| && SameIdentity(b.wallets[i], b'.wallets[i])
    ensures b'.wallets[i].balance == b.wallets[i].balance
      + (if t.kind.Inbound? then (if i == SETTLEMENT then -t.total else 0) else if i == t.source.value then -t.total else 0)
      + (if !t.kind.Outbound? && i == t.destination.value then t.amount else 0)
      + (if t.kind.Outbound? && i == SETTLEMENT then t.amount else 0)
      + (if t.kind.Outbound? && i == INCOME then t.fee else 0) + (if t.kind.Outbound? && i == VAT then t.vat else 0)
  {
    PostEffect(b, tid, t.createdAt, LegsFor(t));
    if t.kind.Outbound? {
      FourLegBalance(b, tid, t.createdAt, LegsFor(t), i);
    } else {
      TwoLegBalance(b, tid, t.createdAt, LegsFor(t), i);
    }
  }

  /** A committed request of any kind moves exactly its own money: payer, payee and, going out, settlement, income and VAT. */
  lemma {:induction false} CommittedRequestMovesMoney(w: World, c: Command, x: Context, i: nat)
    requires WalletsOk(w.db.books.wallets) && JournalBacked(w.db.books)
    requires Admissible(Ask(c, x)) && AfterAsk(w, c, x).db != w.db && i < |w.db.books.wallets|
    ensures var b, b' := w.db.books, AfterAsk(w, c, x).db.books;
      && |b'.wallets| == |b.wallets| && SameIdentity(b.wallets[i], b'.wallets[i])
      && b'.wallets[i].balance == b.wallets[i].balance + RequestEffect(b.wallets, c, x, i)
  {
    var t := RequestShape(w.db, c, x);
    CommittedTerms(w.db, c, x, t);
    LegsMoveBalance(w.db.books, AfterAsk(w, c, x).db.books, Some(|w.db.transfers|), t, i);
  }

  /** A refused request changes nothing, and a request that changes something reports the one transfer it recorded. */
  lemma {:induction false} RefusalChangesNothing(db: Db, c: Command, x: Context)
    requires WalletsOk(db.books.wallets) && Admissible(Ask(c, x))
    ensures var r := Request(db, c, x);
      && (r.outcome.Err? ==> r.db == db)
      && (r.db != db ==> |r.db.transfers| == |db.transfers| + 1
                         && r.outcome == Ok(ToResult(|db.transfers|, r.db.transfers[|db.transfers|])))
  {
    var t := RequestShape(db, c, x);
  }

  // ---------- Daily limits ----------

  /** Every counter equals the outbound amounts reserved on that wallet and day, within the verified limit. */
  lemma {:induction false} CountersAreReservations(w: World, wallet: nat, day: int)
    requires Reachable(w)
    ensures CounterOf(w.db.counters, wallet, day) == Sum(w.db.transfers, ReservedBy(wallet, day)) <= VERIFIED_LIMIT
  {
    ReachableHasInv(w);
    assert CounterOk(w, wallet, day);
  }

  /** The request of an event that commits an outbound transfer from this wallet on this day. */
  ghost predicate MakesReservation(w: World, e: Event, wallet: nat, day: int) {
    && e.Ask? && e.command.OutboundCommand? && e.command.source == wallet && Today(e.context.now) == day
    && |Step(w, e).db.transfers| > |w.db.transfers|
  }

  lemma {:induction false} RecordMovesCounter(w: World, db': Db, t: Terms, wallet: nat, day: int)
    requires CountersOk(w) && Records(w.db, db', t)
    ensures var made := t.kind.Outbound? && t.source == Some(wallet) && Today(t.createdAt) == day;
      && CounterOf(db'.counters, wallet, day) == CounterOf(w.db.counters, wallet, day) + (if made then t.amount else 0)
      && (made ==> IsAllowed(CounterOf(w.db.counters, wallet, day), t.amount, LimitFor(IsVerified(w.db.users, t.customerId))))
  {
    if t.kind.Outbound? {
      assert CounterOk(w, t.source.value, Today(t.createdAt));
      MergeAgreesWithPolicy(w.db.counters, t.source.value, Today(t.createdAt), t.amount, IsVerified(w.db.users, t.customerId));
    }
  }

  lemma {:induction false} RequestMovesCounter(w: World, c: Command, x: Context, wallet: nat, day: int)
    requires WalletsOk(w.db.books.wallets) && CountersOk(w) && Admissible(Ask(c, x))
    ensures var db := AfterAsk(w, c, x).db; var made := MakesReservation(w, Ask(c, x), wallet, day);
      && CounterOf(db.counters, wallet, day) == CounterOf(w.db.counters, wallet, day) + (if made then c.amount else 0)
      && (made ==> IsAllowed(CounterOf(w.db.counters, wallet, day), c.amount, LimitFor(IsVerified(w.db.users, c.customerId))))
  {
    var t := RequestShape(w.db, c, x);
    if AfterAsk(w, c, x).db != w.db { RecordMovesCounter(w, AfterAsk(w, c, x).db, t, wallet, day); }
  }

  lemma {:induction false} SettlementKeepsCounters(w: World, e: Event)
    requires SettlementOk(w) && (e.RunJob? || e.WorkerAsks? || e.CustomerAsks? || e.RepostTransfer?)
    ensures Step(w, e).db.counters == w.db.counters
  {
    match e
    case RunJob(id, attempts, reply, now, crash) => var c := RunJobStep(w, id, attempts, reply, now, crash);
    case WorkerAsks(id, answer, now, crash) => WorkerAsksStep(w, id, answer, now, crash);
    case CustomerAsks(id, customer, answer, now, crash) => CustomerAsksStep(w, id, customer, answer, now, crash);
    case RepostTransfer(id, now) => RepostStep(w, id, now);
  }

  lemma {:induction false} OtherStepsKeepCounters(w: World, e: Event)
    requires !e.Ask? && !e.RunJob? && !e.WorkerAsks? && !e.CustomerAsks? && !e.RepostTransfer?
    ensures Step(w, e).db.counters == w.db.counters
  {
  }

  /** A counter moves only by an allowed reservation of the request's amount: replays, refusals, reversals and reposts leave it. */
  lemma {:induction false} OnlyReservationsMoveCounters(w: World, e: Event, wallet: nat, day: int)
    requires WalletsOk(w.db.books.wallets) && SettlementOk(w) && CountersOk(w) && Admissible(e)
    ensures var made := MakesReservation(w, e, wallet, day);
      && CounterOf(Step(w, e).db.counters, wallet, day)
         == CounterOf(w.db.counters, wallet, day) + (if made then e.command.amount else 0)
      && (made ==> IsAllowed(CounterOf(w.db.counters, wallet, day), e.command.amount,
                             LimitFor(IsVerified(w.db.users, e.command.customerId))))
  {
    if e.Ask? {
      RequestMovesCounter(w, e.command, e.context, wallet, day);
      assert Step(w, e) == AfterAsk(w, e.command, e.context);
    } else if e.RunJob? || e.WorkerAsks? || e.CustomerAsks? || e.RepostTransfer? {
      SettlementKeepsCounters(w, e);
    } else {
      OtherStepsKeepCounters(w, e);
    }
  }

  // ---------- Limits and KYC ----------

  /** The n-th event of the run made the reservation, and no later one did. */
  ghost predicate LatestReservation(es: seq<Event>, n: nat, wallet: nat, day: int) {
    && n < |es| && MakesReservation(Run(Start(), es[..n]), es[n], wallet, day)
    && forall k :: n < k < |es| ==> !MakesReservation(Run(Start(), es[..k]), es[k], wallet, day)
  }

  lemma {:induction false} SettlementReservesNothing(w: World, e: Event, wallet: nat, day: int)
    requires SettlementOk(w) && (e.RunJob? || e.WorkerAsks? || e.CustomerAsks? || e.RepostTransfer?)
    ensures LastReservation(Step(w, e).log, wallet, day) == LastReservation(w.log, wallet, day)
  {
    var w' := Step(w, e);
    if |w'.log| > |w.log| {
      assert w'.log == w.log + [w'.log[|w.log|]] && !w'.log[|w.log|].ReservedLimit?;
      ReservationAppended(w.log, w'.log[|w.log|], wallet, day);
    }
  }

  lemma {:induction false} StepReserves(w: World, e: Event, wallet: nat, day: int)
    requires SettlementOk(w)
    ensures LastReservation(Step(w, e).log, wallet, day)
         == if MakesReservation(w, e, wallet, day) then Some(IsVerified(w.db.users, e.command.customerId))
            else LastReservation(w.log, wallet, day)
  {
    if e.Ask? {
      var w' := AfterAsk(w, e.command, e.context);
      if |w'.log| > |w.log| { ReservationAppended(w.log, w'.log[|w.log|], wallet, day); }
    } else if e.RunJob? || e.WorkerAsks? || e.CustomerAsks? || e.RepostTransfer? {
      SettlementReservesNothing(w, e, wallet, day);
    }
  }

  lemma {:induction false} LatestExtends(es: seq<Event>, e: Event, n: nat, wallet: nat, day: int)
    requires LatestReservation(es, n, wallet, day) && !MakesReservation(Run(Start(), es), e, wallet, day)
    ensures LatestReservation(es + [e], n, wallet, day)
  {
    var all := es + [e];
    assert all[..n] == es[..n];
    forall k | n < k < |all| ensures !MakesReservation(Run(Start(), all[..k]), all[k], wallet, day) {
      assert all[..k] == es[..k];
      if k == |es| { assert es[..k] == es; }
    }
  }

  lemma {:induction false} RunKeepsSettlement(es: seq<Event>)
    requires AllAdmissible(es)
    ensures SettlementOk(Run(Start(), es))
  {
    ReachableInv(es);
  }

  lemma {:induction false} LatestReserver(es: seq<Event>, wallet: nat, day: int) returns (n: nat)
    requires AllAdmissible(es) && LastReservation(Run(Start(), es).log, wallet, day).Some?
    ensures LatestReservation(es, n, wallet, day)
    ensures LastReservation(Run(Start(), es).log, wallet, day)
         == Some(IsVerified(Run(Start(), es[..n]).db.users, es[n].command.customerId))
    decreases |es|
  {
    if |es| > 0 {
      var front, e := es[..|es| - 1], es[|es| - 1];
      assert es == front + [e];
      RunKeepsSettlement(front);
      StepReserves(Run(Start(), front), e, wallet, day);
      if MakesReservation(Run(Start(), front), e, wallet, day) {
        n := |es| - 1;
      } else {
        n := LatestReserver(front, wallet, day);
        LatestExtends(front, e, n, wallet, day);
        assert es[..n] == front[..n];
      }
    }
  }

  lemma {:induction false} ReserverOwnsWallet(w: World, e: Event, wallet: nat, day: int)
    requires WalletsOk(w.db.books.wallets) && Admissible(e) && MakesReservation(w, e, wallet, day)
    ensures wallet < |w.db.books.wallets| && w.db.books.wallets[wallet].customerId == e.command.customerId
  {
    var t := RequestShape(w.db, e.command, e.context);
  }

  /** The customer is Verified, by a Verified document. */
  ghost predicate VerifiedCustomer(db: Db, customer: string) {
    exists u: nat :: u < |db.users| && db.users[u].customerId == customer && db.users[u].kyc == Verified && HasVerifiedDocument(db, u)
  }

  ghost predicate VerifiedOwner(db: Db, wallet: nat) {
    wallet < |db.books.wallets| && VerifiedCustomer(db, db.books.wallets[wallet].customerId)
  }

  /** A counter above the unverified limit: the latest reservation was made while the owner was Verified, by a Verified document. */
  lemma {:induction false} LargeCounterNeedsVerifiedOwner(es: seq<Event>, wallet: nat, day: int) returns (n: nat)
    requires AllAdmissible(es) && CounterOf(Run(Start(), es).db.counters, wallet, day) > UNVERIFIED_LIMIT
    ensures LatestReservation(es, n, wallet, day) && VerifiedOwner(Run(Start(), es[..n]).db, wallet)
  {
    ReachableInv(es);
    assert CounterOk(Run(Start(), es), wallet, day);
    n := LatestReserver(es, wallet, day);
    ReachableInv(es[..n]);
    var w := Run(Start(), es[..n]);
    ReserverOwnsWallet(w, es[n], wallet, day);
    var u := FindUser(w.db.users, es[n].command.customerId);
    assert HasVerifiedDocument(w.db, u.value);
  }

  /** In every reachable state a Verified user has a Verified document. */
  lemma {:induction false} VerifiedUserHasDocument(w: World, user: nat)
    requires Reachable(w) && user < |w.db.users| && w.db.users[user].kyc == Verified
    ensures HasVerifiedDocument(w.db, user)
  {
    ReachableHasInv(w);
  }

  // ---------- When a request commits ----------

  lemma {:induction false} OutboundCoreIff(w: World, c: Command, x: Context, hash: string)
    requires WalletsOk(w.db.books.wallets) && NonNegative(w.db.books) && CountersOk(w)
    requires c.OutboundCommand? && c.customerId != "SYSTEM" && c.amount > 0
    ensures var verified := IsVerified(w.db.users, c.customerId); var wallets := w.db.books.wallets;
      OutboundCore(w.db, c, x.fee, x.vat, verified, hash, x.reference, x.now).Ok? <==>
        && IsAllowed(CounterOf(w.db.counters, c.source, Today(x.now)), c.amount, LimitFor(verified))
        && c.source < |wallets| && wallets[c.source].customerId == c.customerId
        && x.fee > 0 && x.vat > 0 && c.amount + x.fee + x.vat <= wallets[c.source].balance
        && CreditsFit(wallets, c.amount, x.fee, x.vat)
  {
    var verified := IsVerified(w.db.users, c.customerId);
    assert CounterOk(w, c.source, Today(x.now));
    MergeAgreesWithPolicy(w.db.counters, c.source, Today(x.now), c.amount, verified);
    if c.source < |w.db.books.wallets| && w.db.books.wallets[c.source].customerId == c.customerId {
      OutboundPostsIff(w.db.books, Some(|w.db.transfers|), x.now, c.source, c.amount, x.fee, x.vat);
    }
  }

  lemma {:induction false} OutboundRecordsIff(db: Db, c: Command, x: Context)
    requires c.OutboundCommand? && ReachesReplay(db, c, x) && (c.customerId, c.key) !in db.idem
    ensures |Request(db, c, x).db.transfers| > |db.transfers| <==>
      OutboundCore(db, c, x.fee, x.vat, IsVerified(db.users, c.customerId), Canonical(c), x.reference, x.now).Ok?
  {
  }

  lemma {:induction false} EarlyRefusal(db: Db, c: Command, x: Context)
    requires !ReachesReplay(db, c, x)
    ensures Request(db, c, x).db == db && Request(db, c, x).outcome.Err?
  {
  }

  /** An outbound request under a new key commits exactly when its fields, limit, ownership, charges, balance and room allow it. */
  lemma {:induction false} OutboundCommitsIff(w: World, c: Command, x: Context)
    requires Inv(w) && Admissible(Ask(c, x)) && c.OutboundCommand? && (c.customerId, c.key) !in w.db.idem
    ensures var verified := IsVerified(w.db.users, c.customerId); var wallets := w.db.books.wallets;
      |AfterAsk(w, c, x).db.transfers| > |w.db.transfers| <==>
        && !IsBlank(c.key) && !IsBlank(c.destinationAccount) && !IsBlank(c.destinationBank)
        && c.amount > 0 && c.amount + x.fee + x.vat <= INT64_MAX
        && IsAllowed(CounterOf(w.db.counters, c.source, Today(x.now)), c.amount, LimitFor(verified))
        && c.source < |wallets| && wallets[c.source].customerId == c.customerId
        && x.fee > 0 && x.vat > 0 && c.amount + x.fee + x.vat <= wallets[c.source].balance
        && CreditsFit(wallets, c.amount, x.fee, x.vat)
  {
    if ReachesReplay(w.db, c, x) {
      OutboundRecordsIff(w.db, c, x);
      OutboundCoreIff(w, c, x, Canonical(c));
    } else {
      EarlyRefusal(w.db, c, x);
    }
  }

  /** What a payee needs: an account of a customer, with room for the amount. */
  predicate CanReceive(wallets: Wallets, number: string, amount: int) {
    var found := FindAccount(wallets, number);
    found.Some? && wallets[found.value].kind.Customer? && wallets[found.value].balance + amount <= INT64_MAX
  }

  lemma {:induction false} InternalPassesIff(db: Db, c: Command, hash: string, reference: string, now: int)
    requires WalletsOk(db.books.wallets) && NonNegative(db.books) && c.InternalCommand? && c.customerId != "SYSTEM" && c.amount > 0
    ensures var wallets := db.books.wallets;
      InternalCore(db, c, hash, reference, now).Ok? <==>
        && c.source < |wallets| && wallets[c.source].customerId == c.customerId && c.amount <= wallets[c.source].balance
        && CanReceive(wallets, c.destinationAccount, c.amount) && FindAccount(wallets, c.destinationAccount) != Some(c.source)
  {
    var found := FindAccount(db.books.wallets, c.destinationAccount);
    if c.source < |db.books.wallets| && found.Some? && found.value != c.source {
      var legs := InternalLegs(c.source, found.value, c.amount);
      TwoLegsPostIff(db.books, Some(|db.transfers|), now, legs[0], legs[1]);
    }
  }

  lemma {:induction false} InternalRecordsIff(db: Db, c: Command, x: Context)
    requires c.InternalCommand? && ReachesReplay(db, c, x) && (c.customerId, c.key) !in db.idem
    ensures |Request(db, c, x).db.transfers| > |db.transfers| <==> InternalCore(db, c, Canonical(c), x.reference, x.now).Ok?
  {
  }

  /** An internal request under a new key commits exactly when its key and amount, ownership, balance and payee allow it. */
  lemma {:induction false} InternalCommitsIff(w: World, c: Command, x: Context)
    requires Inv(w) && Admissible(Ask(c, x)) && c.InternalCommand? && (c.customerId, c.key) !in w.db.idem
    ensures var wallets := w.db.books.wallets;
      |AfterAsk(w, c, x).db.transfers| > |w.db.transfers| <==>
        && !IsBlank(c.key) && 0 < c.amount <= 50_000_000
        && c.source < |wallets| && wallets[c.source].customerId == c.customerId && c.amount <= wallets[c.source].balance
        && CanReceive(wallets, c.destinationAccount, c.amount) && FindAccount(wallets, c.destinationAccount) != Some(c.source)
  {
    if ReachesReplay(w.db, c, x) {
      InternalRecordsIff(w.db, c, x);
      InternalPassesIff(w.db, c, Canonical(c), x.reference, x.now);
    } else {
      EarlyRefusal(w.db, c, x);
    }
  }

  lemma {:induction false} InboundPassesIff(db: Db, c: Command, destination: nat, hash: string, reference: string, now: int)
    requires WalletsOk(db.books.wallets) && NonNegative(db.books) && c.InboundCommand? && c.amount > 0
    requires 3 <= destination < |db.books.wallets|
    ensures var wallets := db.books.wallets;
      InboundCore(db, c, destination, hash, reference, now).Ok? <==>
        c.amount <= wallets[SETTLEMENT].balance && wallets[destination].balance + c.amount <= INT64_MAX
  {
    var legs := InboundLegs(destination, c.amount);
    TwoLegsPostIff(db.books, Some(|db.transfers|), now, legs[0], legs[1]);
  }

  lemma {:induction false} InboundRecordsIff(db: Db, c: Command, x: Context)
    requires c.InboundCommand? && ReachesReplay(db, c, x) && (Requester(db, c), c.key) !in db.idem
    ensures var found := FindAccount(db.books.wallets, c.destinationAccount);
      |Request(db, c, x).db.transfers| > |db.transfers| <==>
        found.Some? && InboundCore(db, c, found.value, Canonical(c), x.reference, x.now).Ok?
  {
  }

  /** An inbound request under a key its payee has not used commits exactly when its fields, settlement and the payee allow it. */
  lemma {:induction false} InboundCommitsIff(w: World, c: Command, x: Context)
    requires Inv(w) && c.InboundCommand? && (Requester(w.db, c), c.key) !in w.db.idem
    ensures |AfterAsk(w, c, x).db.transfers| > |w.db.transfers| <==>
      && !IsBlank(c.key) && !IsBlank(c.destinationAccount) && c.amount > 0
      && c.amount <= w.db.books.wallets[SETTLEMENT].balance && CanReceive(w.db.books.wallets, c.destinationAccount, c.amount)
  {
    var found := FindAccount(w.db.books.wallets, c.destinationAccount);
    if ReachesReplay(w.db, c, x) {
      InboundRecordsIff(w.db, c, x);
      InboundPassesIff(w.db, c, found.value, Canonical(c), x.reference, x.now);
    } else {
      EarlyRefusal(w.db, c, x);
    }
  }
}
