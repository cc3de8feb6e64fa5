/** Every answer a transfer request can give, and everything a committed one leaves behind, in the request's own terms. */
module Answers {
  import opened Prelude
  import opened Rows
  import opened Books
  import opened DailyOutboundLimit
  import opened IdempotencyFingerprint
  import opened WatBusinessDay
  import opened Ledger
  import opened Shapes
  import opened Machine
  import opened Protocol
  import opened Requests
  import opened Invariants
  import opened MoneyTheorems
  import opened RequestTheorems
  import opened Effects

  /** A refusal: this error, and nothing changed. */
  ghost predicate Refuses(db: Db, r: Reply, e: Error) { r == Reply(db, Err(e)) }

  /** The stored transfer, field by field. */
  ghost predicate Shows(r: TransferResult, id: nat, t: TransferRow) {
    && r.id == id && r.kind == t.terms.kind && r.status == t.status && r.amount == t.terms.amount && r.fee == t.terms.fee
    && r.vat == t.terms.vat && r.total == t.terms.total && r.reference == t.terms.reference && r.externalReference == t.externalReference
  }

  /** A key that has been used: the stored transfer for the same text, a mismatch otherwise. */
  ghost predicate Replays(db: Db, c: Command, r: Reply, owner: string) {
    && (owner, c.key) in db.idem && r.db == db
    && var stored := db.idem[(owner, c.key)];
       if stored.hash != Canonical(c) then r.outcome == Err(PayloadMismatch)
       else stored.transferId < |db.transfers| && r.outcome.Ok?
            && Shows(r.outcome.value, stored.transferId, db.transfers[stored.transferId])
  }

  // ---------- What a committed request leaves behind ----------

  /** One transfer more, under its key, as the journal has booked it; the reply tells it. */
  ghost predicate Commits(db: Db, r: Reply, t: Terms, status: TransferStatus, more: seq<Entry>) {
    var db', n := r.db, |db.transfers|;
    && db' == db.(books := db'.books, counters := db'.counters, jobs := db'.jobs,
                  transfers := db.transfers + [TransferRow(t, status, None, t.createdAt, None)],
                  idem := db.idem[(t.customerId, t.key) := IdemRow(t.hash, n)])
    && Booked(db.books, db'.books, more)
    && r.outcome == Ok(TransferResult(n, t.kind, status, t.amount, t.fee, t.vat, t.total, t.reference, None))
  }

  ghost predicate CommitsInternal(db: Db, c: Command, x: Context, r: Reply)
    requires c.InternalCommand?
  {
    var n, to := |db.transfers|, FindAccount(db.books.wallets, c.destinationAccount);
    && to.Some?
    && Commits(db, r, Terms(c.customerId, Internal, Some(c.source), to, c.destinationAccount, "", "", c.amount, 0, 0, c.amount, c.key,
                            Canonical(c), x.reference, x.now), Settled,
               [Entry(Some(n), c.source, Debit, c.amount, SourceLedger, x.now),
                Entry(Some(n), to.value, Credit, c.amount, DestinationLedger, x.now)])
    && r.db.counters == db.counters && r.db.jobs == db.jobs
  }

  ghost function OutboundEntries(n: nat, c: Command, x: Context): seq<Entry>
    requires c.OutboundCommand?
  {
    [Entry(Some(n), c.source, Debit, c.amount + x.fee + x.vat, SourceLedger, x.now),
     Entry(Some(n), SETTLEMENT, Credit, c.amount, SettlementLeg, x.now),
     Entry(Some(n), INCOME, Credit, x.fee, IncomeLeg, x.now),
     Entry(Some(n), VAT, Credit, x.vat, VatLeg, x.now)]
  }

  ghost predicate CommitsOutbound(db: Db, c: Command, x: Context, r: Reply)
    requires c.OutboundCommand?
  {
    var n, day := |db.transfers|, Today(x.now);
    && Commits(db, r, Terms(c.customerId, Outbound, Some(c.source), None, c.destinationAccount, c.destinationBank, c.destinationName,
                            c.amount, x.fee, x.vat, c.amount + x.fee + x.vat, c.key, Canonical(c), x.reference, x.now),
               Submitted, OutboundEntries(n, c, x))
    && r.db.counters == db.counters[(c.source, day) := CounterOf(db.counters, c.source, day) + c.amount]
    && r.db.jobs == db.jobs[n := JobRow(Pending, 0, x.now, None, None)]
  }

  ghost predicate CommitsInbound(db: Db, c: Command, x: Context, r: Reply)
    requires c.InboundCommand?
  {
    var n, to := |db.transfers|, FindAccount(db.books.wallets, c.destinationAccount);
    && to.Some?
    && Commits(db, r, Terms(db.books.wallets[to.value].customerId, Inbound, None, to, c.destinationAccount, c.originBank, c.originName,
                            c.amount, 0, 0, c.amount, c.key, Canonical(c), x.reference, x.now), Settled,
               [Entry(Some(n), SETTLEMENT, Debit, c.amount, InboundSettlement, x.now),
                Entry(Some(n), to.value, Credit, c.amount, InboundCustomer, x.now)])
    && r.db.counters == db.counters && r.db.jobs == db.jobs
  }

  /** A recording whose legs post is a commit. */
  lemma {:induction false} RecordingCommits(db: Db, counters: Counters, t: Terms, legs: seq<Leg>, more: seq<Entry>)
    requires var b := Post(db.books, Some(|db.transfers|), t.createdAt, legs); b.Ok? && Booked(db.books, b.value, more)
    ensures var r := Finish(db, Record(db.(counters := counters), t, legs));
      && Commits(db, r, t, if t.kind.Outbound? then Submitted else Settled, more) && r.db.counters == counters
      && r.db.jobs == (if t.kind.Outbound? then db.jobs[|db.transfers| := JobRow(Pending, 0, t.createdAt, None, None)] else db.jobs)
  {
  }

  // ---------- Internal requests ----------

  /** The answer to an internal request, guard by guard in the order they are tried. */
  ghost predicate InternalAnswered(db: Db, c: Command, x: Context, r: Reply)
    requires c.InternalCommand?
  {
    var wallets := db.books.wallets;
    var to := FindAccount(wallets, c.destinationAccount);
    if IsBlank(c.key) then Refuses(db, r, IdempotencyRequired)
    else if c.amount <= 0 then Refuses(db, r, AmountInvalid)
    else if c.amount > 50_000_000 then Refuses(db, r, AmountTooLarge)
    else if (c.customerId, c.key) in db.idem then Replays(db, c, r, c.customerId)
    else if c.source >= |wallets| then Refuses(db, r, SourceNotFound)
    else if wallets[c.source].customerId != c.customerId then Refuses(db, r, Forbidden)
    else if wallets[c.source].balance < c.amount then Refuses(db, r, InsufficientFunds)
    else if to.None? then Refuses(db, r, DestinationAccountNotFound)
    else if to.value < 3 then Refuses(db, r, DestinationNotCustomer)
    else if to.value == c.source then Refuses(db, r, SameWallet)
    else if wallets[to.value].balance + c.amount > INT64_MAX then Refuses(db, r, Overflow)
    else CommitsInternal(db, c, x, r)
  }

  ghost function InternalTerms(c: Command, x: Context, to: nat): Terms
    requires c.InternalCommand?
  {
    Terms(c.customerId, Internal, Some(c.source), Some(to), c.destinationAccount, "", "", c.amount, 0, 0, c.amount, c.key,
          Canonical(c), x.reference, x.now)
  }

  ghost predicate InternalPasses(db: Db, c: Command, to: nat)
    requires c.InternalCommand?
  {
    && InternalRefusal(c).None? && (c.customerId, c.key) !in db.idem && c.source < |db.books.wallets|
    && db.books.wallets[c.source].customerId == c.customerId && c.amount <= db.books.wallets[c.source].balance
    && FindAccount(db.books.wallets, c.destinationAccount) == Some(to) && 3 <= to && to != c.source
  }

  lemma {:induction false} InternalRecords(db: Db, c: Command, x: Context, to: nat)
    requires WalletsOk(db.books.wallets) && c.InternalCommand? && c.customerId != "SYSTEM" && InternalPasses(db, c, to)
    ensures Request(db, c, x) == Finish(db, Record(db, InternalTerms(c, x, to), InternalLegs(c.source, to, c.amount)))
  {
  }

  lemma {:induction false} InternalPostings(b: Books, tid: Option<nat>, now: int, source: nat, to: nat, amount: int)
    requires NonNegative(b) && source < |b.wallets| && to < |b.wallets| && to != source && 0 < amount <= b.wallets[source].balance
    ensures var r := Post(b, tid, now, InternalLegs(source, to, amount));
      if b.wallets[to].balance + amount > INT64_MAX then r == Err(Overflow) else r.Ok?
  {
    var legs := InternalLegs(source, to, amount);
    assert legs == [legs[0]] + [legs[1]] && [legs[1]] == [legs[1]] + [];
    PostFirst(b, tid, now, legs[0], [legs[1]]);
    PostFirst(PostLeg(b, tid, now, legs[0]).value, tid, now, legs[1], []);
  }

  lemma {:induction false} InternalRuns(db: Db, c: Command, x: Context, to: nat)
    requires WalletsOk(db.books.wallets) && NonNegative(db.books) && c.InternalCommand? && c.customerId != "SYSTEM"
    requires InternalPasses(db, c, to)
    ensures var r := Request(db, c, x);
      if db.books.wallets[to].balance + c.amount > INT64_MAX then Refuses(db, r, Overflow) else CommitsInternal(db, c, x, r)
  {
    var legs, n := InternalLegs(c.source, to, c.amount), |db.transfers|;
    InternalRecords(db, c, x, to);
    InternalPostings(db.books, Some(n), x.now, c.source, to, c.amount);
    if Post(db.books, Some(n), x.now, legs).Ok? {
      TwoBooked(db.books, Some(n), x.now, legs[0], legs[1]);
      RecordingCommits(db, db.counters, InternalTerms(c, x, to), legs,
                       [Entry(Some(n), c.source, Debit, c.amount, SourceLedger, x.now),
                        Entry(Some(n), to, Credit, c.amount, DestinationLedger, x.now)]);
      assert db.(counters := db.counters) == db;
    }
  }

  lemma {:induction false} InternalAnswer(w: World, c: Command, x: Context)
    requires Inv(w) && Admissible(Ask(c, x)) && c.InternalCommand?
    ensures InternalAnswered(w.db, c, x, Request(w.db, c, x))
  {
    InternalDecided(w.db, c, x);
  }

  lemma {:induction false} InternalDecided(db: Db, c: Command, x: Context)
    requires WalletsOk(db.books.wallets) && NonNegative(db.books) && IdemOk(db)
    requires c.InternalCommand? && c.customerId != "SYSTEM"
    ensures InternalAnswered(db, c, x, Request(db, c, x))
  {
    var to := FindAccount(db.books.wallets, c.destinationAccount);
    if to.Some? && InternalPasses(db, c, to.value) { InternalRuns(db, c, x, to.value); }
  }

  // ---------- Outbound requests ----------

  /** The daily limit a request goes by. */
  function LimitNow(db: Db, c: Command): int
    requires c.OutboundCommand?
  {
    if IsVerified(db.users, c.customerId) then 50_000_000 else 5_000_000
  }

  ghost predicate OutboundAnswered(db: Db, c: Command, x: Context, r: Reply)
    requires c.OutboundCommand?
  {
    var total := c.amount + x.fee + x.vat;
    if IsBlank(c.key) then Refuses(db, r, IdempotencyRequired)
    else if c.amount <= 0 then Refuses(db, r, AmountInvalid)
    else if IsBlank(c.destinationAccount) then Refuses(db, r, DestinationRequired)
    else if IsBlank(c.destinationBank) then Refuses(db, r, BankCodeRequired)
    else if !(INT64_MIN <= c.amount + x.fee <= INT64_MAX && INT64_MIN <= total <= INT64_MAX) then Refuses(db, r, Overflow)
    else if (c.customerId, c.key) in db.idem then Replays(db, c, r, c.customerId)
    else OutboundCoreAnswered(db, c, x, r)
  }

  /** Inside the transaction: the limit, the source, the charges and the credits. */
  ghost predicate OutboundCoreAnswered(db: Db, c: Command, x: Context, r: Reply)
    requires c.OutboundCommand?
  {
    var wallets, total, sent := db.books.wallets, c.amount + x.fee + x.vat, CounterOf(db.counters, c.source, Today(x.now));
    if (c.source, Today(x.now)) in db.counters && sent + c.amount > INT64_MAX then Refuses(db, r, Overflow)
    else if sent + c.amount > LimitNow(db, c) then Refuses(db, r, DailyLimitExceeded)
    else if c.source >= |wallets| then Refuses(db, r, SourceNotFound)
    else if wallets[c.source].customerId != c.customerId then Refuses(db, r, Forbidden)
    else if wallets[c.source].balance < total then Refuses(db, r, InsufficientFunds)
    else if x.fee < 0 || x.vat < 0 then Refuses(db, r, ArgumentOutOfRange)
    else if wallets[SETTLEMENT].balance + c.amount > INT64_MAX then Refuses(db, r, Overflow)
    else if x.fee == 0 then Refuses(db, r, AmountInvalid)
    else if wallets[INCOME].balance + x.fee > INT64_MAX then Refuses(db, r, Overflow)
    else if x.vat == 0 then Refuses(db, r, AmountInvalid)
    else if wallets[VAT].balance + x.vat > INT64_MAX then Refuses(db, r, Overflow)
    else CommitsOutbound(db, c, x, r)
  }

  /** The postings of an outbound request, one after the other. */
  lemma {:induction false} OutboundPostings(b: Books, tid: Option<nat>, now: int, source: nat, amount: int, fee: int, vat: int)
    requires NonNegative(b) && 3 <= source < |b.wallets| && amount > 0 && fee >= 0 && vat >= 0
    requires amount + fee + vat <= b.wallets[source].balance
    ensures var r := Post(b, tid, now, OutboundLegs(source, amount, fee, vat));
      if b.wallets[SETTLEMENT].balance + amount > INT64_MAX then r == Err(Overflow)
      else if fee == 0 then r == Err(AmountInvalid)
      else if b.wallets[INCOME].balance + fee > INT64_MAX then r == Err(Overflow)
      else if vat == 0 then r == Err(AmountInvalid)
      else if b.wallets[VAT].balance + vat > INT64_MAX then r == Err(Overflow)
      else r.Ok?
  {
    var legs := OutboundLegs(source, amount, fee, vat);
    assert legs == [legs[0]] + [legs[1], legs[2], legs[3]] && [legs[1], legs[2], legs[3]] == [legs[1]] + [legs[2], legs[3]];
    assert [legs[2], legs[3]] == [legs[2]] + [legs[3]] && [legs[3]] == [legs[3]] + [];
    PostFirst(b, tid, now, legs[0], [legs[1], legs[2], legs[3]]);
    var b1 := PostLeg(b, tid, now, legs[0]).value;
    PostFirst(b1, tid, now, legs[1], [legs[2], legs[3]]);
    var r2 := PostLeg(b1, tid, now, legs[1]);
    if r2.Ok? {
      PostFirst(r2.value, tid, now, legs[2], [legs[3]]);
      var r3 := PostLeg(r2.value, tid, now, legs[2]);
      if r3.Ok? { PostFirst(r3.value, tid, now, legs[3], []); }
    }
  }

  lemma {:induction false} OutboundMerges(db: Db, c: Command, x: Context)
    requires c.OutboundCommand?
    ensures var day := Today(x.now); var sent := CounterOf(db.counters, c.source, day);
      var r := MergeCounter(db.counters, c.source, day, c.amount, LimitFor(IsVerified(db.users, c.customerId)));
      if (c.source, day) in db.counters && sent + c.amount > INT64_MAX then r.ArithmeticOverflow?
      else if sent + c.amount > LimitNow(db, c) then r.Refused?
      else r == Reserved(db.counters[(c.source, day) := sent + c.amount])
  {
  }

  /** The guards up to the postings. */
  ghost predicate OutboundPasses(db: Db, c: Command, x: Context)
    requires c.OutboundCommand?
  {
    var wallets, day := db.books.wallets, Today(x.now);
    var sent := CounterOf(db.counters, c.source, day);
    && c.source < |wallets| && sent + c.amount <= LimitNow(db, c) && !((c.source, day) in db.counters && sent + c.amount > INT64_MAX)
    && wallets[c.source].customerId == c.customerId && c.amount + x.fee + x.vat <= wallets[c.source].balance
    && x.fee >= 0 && x.vat >= 0
  }

  ghost function OutboundTerms(c: Command, x: Context): Terms
    requires c.OutboundCommand?
  {
    Terms(c.customerId, Outbound, Some(c.source), None, c.destinationAccount, c.destinationBank, c.destinationName,
          c.amount, x.fee, x.vat, c.amount + x.fee + x.vat, c.key, Canonical(c), x.reference, x.now)
  }

  ghost function Counted(db: Db, c: Command, x: Context): Db
    requires c.OutboundCommand?
  {
    var sent := CounterOf(db.counters, c.source, Today(x.now));
    db.(counters := db.counters[(c.source, Today(x.now)) := sent + c.amount])
  }

  ghost function OutboundFinish(db: Db, c: Command, x: Context): Reply
    requires c.OutboundCommand?
  {
    Finish(db, Record(Counted(db, c, x), OutboundTerms(c, x), OutboundLegs(c.source, c.amount, x.fee, x.vat)))
  }

  ghost function CoreNow(db: Db, c: Command, x: Context): Outcome<Db>
    requires c.OutboundCommand?
  {
    OutboundCore(db, c, x.fee, x.vat, IsVerified(db.users, c.customerId), Canonical(c), x.reference, x.now)
  }

  /** Past the guards, the request is the recording. */
  lemma {:induction false} OutboundRecords(db: Db, c: Command, x: Context)
    requires c.OutboundCommand? && OutboundPasses(db, c, x)
    ensures Finish(db, CoreNow(db, c, x)) == OutboundFinish(db, c, x)
  {
    OutboundMerges(db, c, x);
  }

  lemma {:induction false} OutboundJournal(b: Books, n: nat, c: Command, x: Context)
    requires c.OutboundCommand? && Post(b, Some(n), x.now, OutboundLegs(c.source, c.amount, x.fee, x.vat)).Ok?
    ensures Booked(b, Post(b, Some(n), x.now, OutboundLegs(c.source, c.amount, x.fee, x.vat)).value, OutboundEntries(n, c, x))
  {
    var legs := OutboundLegs(c.source, c.amount, x.fee, x.vat);
    FourBooked(b, Some(n), x.now, legs[0], legs[1], legs[2], legs[3]);
  }

  lemma {:induction false} OutboundBooked(db: Db, c: Command, x: Context)
    requires c.OutboundCommand? && Post(db.books, Some(|db.transfers|), x.now, OutboundLegs(c.source, c.amount, x.fee, x.vat)).Ok?
    ensures CommitsOutbound(db, c, x, OutboundFinish(db, c, x))
  {
    OutboundJournal(db.books, |db.transfers|, c, x);
    RecordingCommits(db, Counted(db, c, x).counters, OutboundTerms(c, x), OutboundLegs(c.source, c.amount, x.fee, x.vat),
                     OutboundEntries(|db.transfers|, c, x));
  }

  lemma {:induction false} OutboundRuns(db: Db, c: Command, x: Context)
    requires NonNegative(db.books) && c.OutboundCommand? && 3 <= c.source < |db.books.wallets| && c.amount > 0
    requires x.fee >= 0 && x.vat >= 0 && c.amount + x.fee + x.vat <= db.books.wallets[c.source].balance
    ensures var wallets, r := db.books.wallets, OutboundFinish(db, c, x);
      if wallets[SETTLEMENT].balance + c.amount > INT64_MAX then Refuses(db, r, Overflow)
      else if x.fee == 0 then Refuses(db, r, AmountInvalid)
      else if wallets[INCOME].balance + x.fee > INT64_MAX then Refuses(db, r, Overflow)
      else if x.vat == 0 then Refuses(db, r, AmountInvalid)
      else if wallets[VAT].balance + x.vat > INT64_MAX then Refuses(db, r, Overflow)
      else CommitsOutbound(db, c, x, r)
  {
    OutboundPostings(db.books, Some(|db.transfers|), x.now, c.source, c.amount, x.fee, x.vat);
    if Post(db.books, Some(|db.transfers|), x.now, OutboundLegs(c.source, c.amount, x.fee, x.vat)).Ok? { OutboundBooked(db, c, x); }
  }

  lemma {:induction false} OutboundAnswer(w: World, c: Command, x: Context)
    requires Inv(w) && Admissible(Ask(c, x)) && c.OutboundCommand?
    ensures OutboundAnswered(w.db, c, x, Request(w.db, c, x))
  {
    OutboundDecided(w.db, c, x);
  }

  lemma {:induction false} OutboundCoreDecided(db: Db, c: Command, x: Context)
    requires WalletsOk(db.books.wallets) && NonNegative(db.books)
    requires c.OutboundCommand? && c.customerId != "SYSTEM" && c.amount > 0
    ensures OutboundCoreAnswered(db, c, x, Finish(db, CoreNow(db, c, x)))
  {
    if OutboundPasses(db, c, x) {
      OutboundRecords(db, c, x);
      OutboundRuns(db, c, x);
    } else {
      OutboundMerges(db, c, x);
    }
  }

  lemma {:induction false} OutboundDecided(db: Db, c: Command, x: Context)
    requires WalletsOk(db.books.wallets) && NonNegative(db.books) && IdemOk(db)
    requires c.OutboundCommand? && c.customerId != "SYSTEM"
    ensures OutboundAnswered(db, c, x, Request(db, c, x))
  {
    if OutboundRefusal(c, x.fee, x.vat).None? && (c.customerId, c.key) !in db.idem {
      OutboundCoreDecided(db, c, x);
      OutboundIsCore(db, c, x);
    }
  }

  lemma {:induction false} OutboundIsCore(db: Db, c: Command, x: Context)
    requires c.OutboundCommand? && OutboundRefusal(c, x.fee, x.vat).None? && (c.customerId, c.key) !in db.idem
    ensures Request(db, c, x) == Finish(db, CoreNow(db, c, x))
  {
  }

  // ---------- Inbound requests ----------

  ghost predicate InboundAnswered(db: Db, c: Command, x: Context, r: Reply)
    requires c.InboundCommand?
  {
    var wallets := db.books.wallets;
    var to := FindAccount(wallets, c.destinationAccount);
    if IsBlank(c.key) then Refuses(db, r, IdempotencyRequired)
    else if c.amount <= 0 then Refuses(db, r, AmountInvalid)
    else if IsBlank(c.destinationAccount) then Refuses(db, r, DestinationRequired)
    else if to.None? then Refuses(db, r, DestinationAccountNotFound)
    else if to.value < 3 then Refuses(db, r, DestinationNotCustomer)
    else if (wallets[to.value].customerId, c.key) in db.idem then Replays(db, c, r, wallets[to.value].customerId)
    else if wallets[SETTLEMENT].balance < c.amount then Refuses(db, r, InsufficientFunds)
    else if wallets[to.value].balance + c.amount > INT64_MAX then Refuses(db, r, Overflow)
    else CommitsInbound(db, c, x, r)
  }

  lemma {:induction false} InboundRuns(db: Db, c: Command, x: Context, to: nat)
    requires WalletsOk(db.books.wallets) && NonNegative(db.books) && c.InboundCommand? && InboundRefusal(c).None?
    requires FindAccount(db.books.wallets, c.destinationAccount) == Some(to) && 3 <= to
    requires (db.books.wallets[to].customerId, c.key) !in db.idem
    ensures var r := Request(db, c, x);
      if db.books.wallets[SETTLEMENT].balance < c.amount then Refuses(db, r, InsufficientFunds)
      else if db.books.wallets[to].balance + c.amount > INT64_MAX then Refuses(db, r, Overflow)
      else CommitsInbound(db, c, x, r)
  {
    var legs := InboundLegs(to, c.amount);
    assert legs == [legs[0]] + [legs[1]] && [legs[1]] == [legs[1]] + [];
    PostFirst(db.books, Some(|db.transfers|), x.now, legs[0], [legs[1]]);
    var r := PostLeg(db.books, Some(|db.transfers|), x.now, legs[0]);
    if r.Ok? { PostFirst(r.value, Some(|db.transfers|), x.now, legs[1], []); }
    if Post(db.books, Some(|db.transfers|), x.now, legs).Ok? {
      TwoBooked(db.books, Some(|db.transfers|), x.now, legs[0], legs[1]);
    }
  }

  lemma {:induction false} InboundAnswer(w: World, c: Command, x: Context)
    requires Inv(w) && c.InboundCommand?
    ensures InboundAnswered(w.db, c, x, Request(w.db, c, x))
  {
    InboundDecided(w.db, c, x);
  }

  lemma {:induction false} InboundDecided(db: Db, c: Command, x: Context)
    requires WalletsOk(db.books.wallets) && NonNegative(db.books) && IdemOk(db) && c.InboundCommand?
    ensures InboundAnswered(db, c, x, Request(db, c, x))
  {
    var to := FindAccount(db.books.wallets, c.destinationAccount);
    if InboundRefusal(c).None? && to.Some? && 3 <= to.value && (db.books.wallets[to.value].customerId, c.key) !in db.idem {
      InboundRuns(db, c, x, to.value);
    }
  }

  // ---------- Committed requests ----------

  ghost predicate CommitsRequest(db: Db, c: Command, x: Context, r: Reply) {
    match c
    case InternalCommand(_, _, _, _, _) => CommitsInternal(db, c, x, r)
    case OutboundCommand(_, _, _, _, _, _, _) => CommitsOutbound(db, c, x, r)
    case InboundCommand(_, _, _, _, _, _) => CommitsInbound(db, c, x, r)
  }

  lemma {:induction false} AnsweredCommits(db: Db, c: Command, x: Context, r: Reply)
    requires r.db != db
    requires match c
             case InternalCommand(_, _, _, _, _) => InternalAnswered(db, c, x, r)
             case OutboundCommand(_, _, _, _, _, _, _) => OutboundAnswered(db, c, x, r)
             case InboundCommand(_, _, _, _, _, _) => InboundAnswered(db, c, x, r)
    ensures CommitsRequest(db, c, x, r)
  {
  }

  lemma {:induction false} InternalCommit(db: Db, c: Command, x: Context)
    requires WalletsOk(db.books.wallets) && NonNegative(db.books) && IdemOk(db) && c.InternalCommand? && c.customerId != "SYSTEM"
    requires Request(db, c, x).db != db
    ensures CommitsInternal(db, c, x, Request(db, c, x))
  {
    InternalDecided(db, c, x);
    AnsweredCommits(db, c, x, Request(db, c, x));
  }

  lemma {:induction false} OutboundCommit(db: Db, c: Command, x: Context)
    requires WalletsOk(db.books.wallets) && NonNegative(db.books) && IdemOk(db) && c.OutboundCommand? && c.customerId != "SYSTEM"
    requires Request(db, c, x).db != db
    ensures CommitsOutbound(db, c, x, Request(db, c, x))
  {
    OutboundDecided(db, c, x);
    AnsweredCommits(db, c, x, Request(db, c, x));
  }

  lemma {:induction false} InboundCommit(db: Db, c: Command, x: Context)
    requires WalletsOk(db.books.wallets) && NonNegative(db.books) && IdemOk(db) && c.InboundCommand?
    requires Request(db, c, x).db != db
    ensures CommitsInbound(db, c, x, Request(db, c, x))
  {
    InboundDecided(db, c, x);
    AnsweredCommits(db, c, x, Request(db, c, x));
  }

  lemma {:induction false} RequestCommits(db: Db, c: Command, x: Context)
    requires WalletsOk(db.books.wallets) && NonNegative(db.books) && IdemOk(db) && Admissible(Ask(c, x)) && Request(db, c, x).db != db
    ensures CommitsRequest(db, c, x, Request(db, c, x))
  {
    if c.InternalCommand? {
      InternalCommit(db, c, x);
    } else if c.OutboundCommand? {
      OutboundCommit(db, c, x);
    } else {
      InboundCommit(db, c, x);
    }
  }

  lemma {:induction false} CommitIsLogged(w: World, c: Command, x: Context)
    requires CommitsRequest(w.db, c, x, Request(w.db, c, x))
    ensures AfterAsk(w, c, x)
         == World(Request(w.db, c, x).db,
                  if c.OutboundCommand?
                  then w.log + [ReservedLimit(c.source, Today(x.now), c.amount, IsVerified(w.db.users, c.customerId))] else w.log, w.claims)
  {
  }

  /** A request that changes anything commits: row, record, journal, counter, job and reply are its own, and the history notes the limit. */
  lemma {:induction false} CommittedRequest(w: World, c: Command, x: Context)
    requires Inv(w) && Admissible(Ask(c, x)) && AfterAsk(w, c, x).db != w.db
    ensures CommitsRequest(w.db, c, x, Request(w.db, c, x))
    ensures AfterAsk(w, c, x)
         == World(Request(w.db, c, x).db,
                  if c.OutboundCommand?
                  then w.log + [ReservedLimit(c.source, Today(x.now), c.amount, IsVerified(w.db.users, c.customerId))] else w.log, w.claims)
  {
    RequestCommits(w.db, c, x);
    CommitIsLogged(w, c, x);
  }

  // ---------- Replies ----------

  /** The reply to a request that recorded transfer n, with the status and the rail's reference it has by now. */
  ghost function ReplyFor(n: nat, c: Command, x: Context, status: TransferStatus, externalReference: Option<string>): TransferResult {
    match c
    case InternalCommand(_, _, _, amount, _) => TransferResult(n, Internal, status, amount, 0, 0, amount, x.reference, externalReference)
    case OutboundCommand(_, _, _, _, _, amount, _) =>
      TransferResult(n, Outbound, status, amount, x.fee, x.vat, amount + x.fee + x.vat, x.reference, externalReference)
    case InboundCommand(_, _, _, _, amount, _) => TransferResult(n, Inbound, status, amount, 0, 0, amount, x.reference, externalReference)
  }

  lemma {:induction false} CommitReplies(db: Db, c: Command, x: Context, r: Reply)
    requires CommitsRequest(db, c, x, r)
    ensures r.outcome == Ok(ReplyFor(|db.transfers|, c, x, if c.OutboundCommand? then Submitted else Settled, None))
  {
  }

  lemma {:induction false} FirstTells(w: World, c: Command, x: Context)
    requires Reachable(w) && Admissible(Ask(c, x)) && AfterAsk(w, c, x).db != w.db
    ensures Request(w.db, c, x).outcome == Ok(ReplyFor(|w.db.transfers|, c, x, if c.OutboundCommand? then Submitted else Settled, None))
  {
    ReachableHasInv(w);
    RequestCommits(w.db, c, x);
    CommitReplies(w.db, c, x, Request(w.db, c, x));
  }

  lemma {:induction false} LaterReply(first: TransferResult, n: nat, t: TransferRow, c: Command, x: Context, status: TransferStatus)
    requires first == ReplyFor(n, c, x, status, None)
    requires var again := ToResult(n, t); again == first.(status := again.status, externalReference := again.externalReference)
    ensures ToResult(n, t) == ReplyFor(n, c, x, t.status, t.externalReference)
  {
  }

  /** The reply to a committed request, and to any repetition of it at any later point, in the request's own terms. */
  lemma {:induction false} RepeatTells(w: World, c: Command, x: Context, v: World, x': Context)
    requires Reachable(w) && Admissible(Ask(c, x)) && AfterAsk(w, c, x).db != w.db && Leads(AfterAsk(w, c, x), v)
    requires x'.fee == x.fee && x'.vat == x.vat
    ensures Request(w.db, c, x).outcome == Ok(ReplyFor(|w.db.transfers|, c, x, if c.OutboundCommand? then Submitted else Settled, None))
    ensures |w.db.transfers| < |v.db.transfers| && AfterAsk(v, c, x') == v
    ensures var t := v.db.transfers[|w.db.transfers|];
      Request(v.db, c, x').outcome == Ok(ReplyFor(|w.db.transfers|, c, x, t.status, t.externalReference))
  {
    FirstTells(w, c, x);
    RepeatReturnsOriginal(w, c, x, v, x');
    LaterReply(Request(w.db, c, x).outcome.value, |w.db.transfers|, v.db.transfers[|w.db.transfers|], c, x,
               if c.OutboundCommand? then Submitted else Settled);
  }

  /** A stored transfer is shown field by field, wherever a reply shows one. */
  lemma {:induction false} ResultShows(id: nat, t: TransferRow)
    ensures Shows(ToResult(id, t), id, t)
  {
  }
}
