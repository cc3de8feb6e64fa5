/** The few shapes a committed change can take. The invariants are proved about shapes, not about operations. */
module Shapes {
  import opened Prelude
  import opened Rows
  import opened Books
  import opened DailyOutboundLimit
  import opened IdempotencyFingerprint
  import opened WatBusinessDay
  import opened Ledger
  import opened Settlement

  // ---------- Wallet kinds ----------

  ghost predicate WalletsOk(wallets: Wallets) {
    && wallets[SETTLEMENT].kind == AccountType.Settlement && wallets[VAT].kind == AccountType.Vat && wallets[INCOME].kind == AccountType.Income
    && (forall i :: 0 <= i < 3 ==> wallets[i].customerId == "SYSTEM")
    && (forall i :: 3 <= i < |wallets| ==> wallets[i].kind.Customer? && wallets[i].customerId != "SYSTEM")
  }

  /** The terms every factory call produces; `n` wallets exist and the first three are the system's. */
  ghost predicate TermsOk(t: Terms, n: nat) {
    && t.amount > 0 && t.total == t.amount + t.fee + t.vat
    && match t.kind
       case Internal =>
         && t.source.Some? && 3 <= t.source.value < n && t.destination.Some? && 3 <= t.destination.value < n
         && t.source != t.destination && t.fee == t.vat == 0
       case Outbound => t.source.Some? && 3 <= t.source.value < n && t.fee > 0 && t.vat > 0
       case Inbound => t.source.None? && t.destination.Some? && 3 <= t.destination.value < n && t.fee == t.vat == 0
  }

  ghost function LegsFor(t: Terms): seq<Leg>
    requires t.source.Some? || t.kind.Inbound?
    requires t.destination.Some? || t.kind.Outbound?
  {
    match t.kind
    case Internal => InternalLegs(t.source.value, t.destination.value, t.amount)
    case Outbound => OutboundLegs(t.source.value, t.amount, t.fee, t.vat)
    case Inbound => InboundLegs(t.destination.value, t.amount)
  }

  // ---------- A new transfer ----------

  ghost predicate Reserves(db: Db, db': Db, t: Terms) {
    if t.kind.Outbound?
    then t.source.Some? && MergeCounter(db.counters, t.source.value, Today(t.createdAt), t.amount,
                                        LimitFor(IsVerified(db.users, t.customerId))) == Reserved(db'.counters)
    else db'.counters == db.counters
  }

  ghost predicate Records(db: Db, db': Db, t: Terms) {
    && TermsOk(t, |db.books.wallets|)
    && (t.source.Some? ==> db.books.wallets[t.source.value].customerId == t.customerId)
    && (t.customerId, t.key) !in db.idem
    && Reserves(db, db', t)
    && Record(db.(counters := db'.counters), t, LegsFor(t)) == Ok(db')
  }

  // ---------- A move of one transfer through settlement ----------

  ghost predicate Moves(db: Db, db': Db, id: nat, reversed: bool, now: int) {
    && id < |db.transfers| && id in db.jobs && db.transfers[id].terms.kind.Outbound?
    && |db'.transfers| == |db.transfers| && id in db'.jobs
    && db'.transfers[id].terms == db.transfers[id].terms
    && db'.transfers[id].reconciledAt == db.transfers[id].reconciledAt
    && (if reversed then Reverse(db.books, id, db.transfers[id].terms, now) == Ok(db'.books) else db'.books == db.books)
    && db' == db.(books := db'.books, transfers := db.transfers[id := db'.transfers[id]], jobs := db.jobs[id := db'.jobs[id]])
  }

  // ---------- A posting outside any transfer ----------

  ghost predicate Posts(db: Db, db': Db, legs: seq<Leg>, now: int) {
    && Post(db.books, None, now, legs) == Ok(db'.books)
    && db' == db.(books := db'.books, ext := db.ext.(settlement := db'.ext.settlement))
    && OutsideLegs(legs, |db.books.wallets|)
  }

  ghost predicate OutsideLegs(legs: seq<Leg>, n: nat) {
    if |legs| == 2
    then legs == DepositLegs(legs[0].wallet, legs[0].kobo, legs[0].name) && 3 <= legs[0].wallet < n
         && (legs[0].name.Deposit? || legs[0].name.AdminCredit?)
    else |legs| == 1 && legs == FundingLegs(legs[0].kobo)
  }

  // ---------- Which operation has which shape ----------

  /** A record that commits has positive amounts. */
  lemma {:induction false} OutboundPostIsPositive(b: Books, tid: Option<nat>, now: int, source: nat, amount: int, fee: int, vat: int)
    requires Post(b, tid, now, OutboundLegs(source, amount, fee, vat)).Ok?
    ensures amount > 0 && fee > 0 && vat > 0
  {
    var legs := OutboundLegs(source, amount, fee, vat);
    PostEffect(b, tid, now, legs);
    assert legs[1] in legs && legs[2] in legs && legs[3] in legs;
  }

  lemma {:induction false} InternalShape(db: Db, c: Command, hash: string, reference: string, now: int) returns (t: Terms)
    requires c.InternalCommand? && c.amount > 0 && c.customerId != "SYSTEM" && WalletsOk(db.books.wallets)
    requires (c.customerId, c.key) !in db.idem
    requires InternalCore(db, c, hash, reference, now).Ok?
    ensures Records(db, InternalCore(db, c, hash, reference, now).value, t)
    ensures t.customerId == c.customerId && t.key == c.key && t.hash == hash && t.amount == c.amount
    ensures t.kind == Internal && t.createdAt == now && t.source == Some(c.source)
  {
    var destination := FindAccount(db.books.wallets, c.destinationAccount);
    t := Terms(c.customerId, Internal, Some(c.source), destination, c.destinationAccount, "", "",
               c.amount, 0, 0, c.amount, c.key, hash, reference, now);
  }

  lemma {:induction false} OutboundShape(db: Db, c: Command, x: Context, hash: string) returns (t: Terms)
    requires c.OutboundCommand? && c.amount > 0 && c.customerId != "SYSTEM" && WalletsOk(db.books.wallets)
    requires (c.customerId, c.key) !in db.idem
    requires OutboundCore(db, c, x.fee, x.vat, IsVerified(db.users, c.customerId), hash, x.reference, x.now).Ok?
    ensures Records(db, OutboundCore(db, c, x.fee, x.vat, IsVerified(db.users, c.customerId), hash, x.reference, x.now).value, t)
    ensures t.customerId == c.customerId && t.key == c.key && t.hash == hash && t.amount == c.amount
    ensures t.kind == Outbound && t.createdAt == x.now && t.source == Some(c.source)
  {
    t := Terms(c.customerId, Outbound, Some(c.source), None,
               c.destinationAccount, c.destinationBank, c.destinationName,
               c.amount, x.fee, x.vat, c.amount + x.fee + x.vat, c.key, hash, x.reference, x.now);
    OutboundPostIsPositive(db.books, Some(|db.transfers|), x.now, c.source, c.amount, x.fee, x.vat);
  }

  lemma {:induction false} InboundShape(db: Db, c: Command, destination: nat, hash: string, reference: string, now: int) returns (t: Terms)
    requires c.InboundCommand? && c.amount > 0 && WalletsOk(db.books.wallets)
    requires destination < |db.books.wallets| && db.books.wallets[destination].kind.Customer?
    requires (db.books.wallets[destination].customerId, c.key) !in db.idem
    requires InboundCore(db, c, destination, hash, reference, now).Ok?
    ensures Records(db, InboundCore(db, c, destination, hash, reference, now).value, t)
    ensures t.customerId == db.books.wallets[destination].customerId && t.key == c.key && t.hash == hash && t.amount == c.amount
    ensures t.kind == Inbound && t.createdAt == now
  {
    var wallet := db.books.wallets[destination];
    t := Terms(wallet.customerId, Inbound, None, Some(destination), wallet.accountNumber, c.originBank, c.originName,
               c.amount, 0, 0, c.amount, c.key, hash, reference, now);
  }

  ghost function Requester(db: Db, c: Command): string {
    match c
    case InternalCommand(customer, _, _, _, _) => customer
    case OutboundCommand(customer, _, _, _, _, _, _) => customer
    case InboundCommand(account, _, _, _, _, _) =>
      var found := FindAccount(db.books.wallets, account);
      if found.Some? then db.books.wallets[found.value].customerId else ""
  }

  ghost function KindOf(c: Command): TransferKind {
    match c
    case InternalCommand(_, _, _, _, _) => Internal
    case OutboundCommand(_, _, _, _, _, _, _) => Outbound
    case InboundCommand(_, _, _, _, _, _) => Inbound
  }

  /** A reply that changes nothing, or records exactly one new transfer with the request's own terms. */
  ghost predicate RecordsOnce(db: Db, c: Command, x: Context, r: Reply, t: Terms) {
    || r.db == db
    || (&& Records(db, r.db, t) && t.hash == Canonical(c) && t.kind == KindOf(c) && t.key == c.key && t.amount == c.amount
        && t.createdAt == x.now && t.customerId == Requester(db, c)
        && (c.OutboundCommand? ==> t.source == Some(c.source))
        && r.outcome == Ok(ToResult(|db.transfers|, r.db.transfers[|db.transfers|])))
  }

  ghost function NoTerms(): Terms { Terms("", Inbound, None, None, "", "", "", 0, 0, 0, 0, "", "", "", 0) }

  lemma {:induction false} TransferInternalShape(db: Db, c: Command, x: Context) returns (t: Terms)
    requires WalletsOk(db.books.wallets) && c.InternalCommand? && c.customerId != "SYSTEM"
    ensures RecordsOnce(db, c, x, TransferInternal(db, c, x), t)
  {
    t := NoTerms();
    if InternalRefusal(c).None? && (c.customerId, c.key) !in db.idem {
      if InternalCore(db, c, Canonical(c), x.reference, x.now).Ok? {
        t := InternalShape(db, c, Canonical(c), x.reference, x.now);
      }
    }
  }

  lemma {:induction false} TransferOutboundShape(db: Db, c: Command, x: Context) returns (t: Terms)
    requires WalletsOk(db.books.wallets) && c.OutboundCommand? && c.customerId != "SYSTEM"
    ensures RecordsOnce(db, c, x, TransferOutbound(db, c, x), t)
  {
    t := NoTerms();
    if OutboundRefusal(c, x.fee, x.vat).None? && (c.customerId, c.key) !in db.idem {
      if OutboundCore(db, c, x.fee, x.vat, IsVerified(db.users, c.customerId), Canonical(c), x.reference, x.now).Ok? {
        t := OutboundShape(db, c, x, Canonical(c));
      }
    }
  }

  lemma {:induction false} TransferInboundShape(db: Db, c: Command, x: Context) returns (t: Terms)
    requires WalletsOk(db.books.wallets) && c.InboundCommand?
    ensures RecordsOnce(db, c, x, TransferInbound(db, c, x), t)
  {
    t := NoTerms();
    var destination := FindAccount(db.books.wallets, c.destinationAccount);
    if InboundRefusal(c).None? && destination.Some? && db.books.wallets[destination.value].kind.Customer? {
      if (db.books.wallets[destination.value].customerId, c.key) !in db.idem {
        if InboundCore(db, c, destination.value, Canonical(c), x.reference, x.now).Ok? {
          t := InboundShape(db, c, destination.value, Canonical(c), x.reference, x.now);
        }
      }
    }
  }

  lemma {:induction false} RequestShape(db: Db, c: Command, x: Context) returns (t: Terms)
    requires WalletsOk(db.books.wallets)
    requires c.InboundCommand? || c.customerId != "SYSTEM"
    ensures RecordsOnce(db, c, x, Request(db, c, x), t)
  {
    match c
    case InternalCommand(_, _, _, _, _) => t := TransferInternalShape(db, c, x);
    case OutboundCommand(_, _, _, _, _, _, _) => t := TransferOutboundShape(db, c, x);
    case InboundCommand(_, _, _, _, _, _) => t := TransferInboundShape(db, c, x);
  }
}
