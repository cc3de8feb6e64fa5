/** The income and VAT wallets against the fees and VAT of outbound transfers. */
module Charges {
  import opened Prelude
  import opened Rows
  import opened Books
  import opened Ledger
  import opened Settlement
  import opened Shapes
  import opened Machine
  import opened Conservation
  import opened Protocol
  import opened Reversals

  datatype Levy = Fee | Vat

  function Amount(l: Levy, t: Terms): int { if l.Fee? then t.fee else t.vat }

  function Account(l: Levy): nat { if l.Fee? then INCOME else VAT }

  /** Each transfer with the number of times it was reposted. */
  function WithReposts(w: World): seq<(TransferRow, int)> {
    seq(|w.db.transfers|, i requires 0 <= i < |w.db.transfers| => (w.db.transfers[i], Reposts(w.log, i)))
  }

  /** A transfer's levy is earned once, and lost again with every reversal. */
  function Earned(l: Levy): ((TransferRow, int)) -> int {
    (p: (TransferRow, int)) =>
      if p.0.terms.kind.Outbound? then (1 - (p.1 + FailedNow(p.0))) * Amount(l, p.0.terms) else 0
  }

  ghost predicate LevyOk(w: World, l: Levy) {
    w.db.books.wallets[Account(l)].balance == Sum(WithReposts(w), Earned(l))
  }

  // ---------- How a posting moves one wallet ----------

  lemma {:induction false} UntouchedBalance(b: Books, tid: Option<nat>, now: int, legs: seq<Leg>, wallet: nat)
    requires Post(b, tid, now, legs).Ok? && wallet < |b.wallets| && !Touches(legs, wallet)
    ensures wallet < |Post(b, tid, now, legs).value.wallets|
    ensures Post(b, tid, now, legs).value.wallets[wallet].balance == b.wallets[wallet].balance
  {
    PostVersions(b, tid, now, legs);
  }

  lemma {:induction false} FourLegBalance(b: Books, tid: Option<nat>, now: int, legs: seq<Leg>, wallet: nat)
    requires |legs| == 4 && JournalBacked(b) && Post(b, tid, now, legs).Ok? && wallet < |b.wallets|
    ensures wallet < |Post(b, tid, now, legs).value.wallets|
    ensures Post(b, tid, now, legs).value.wallets[wallet].balance == b.wallets[wallet].balance
      + OnWallet(wallet)(EntryOf(tid, now, legs[0])) + OnWallet(wallet)(EntryOf(tid, now, legs[1]))
      + OnWallet(wallet)(EntryOf(tid, now, legs[2])) + OnWallet(wallet)(EntryOf(tid, now, legs[3]))
  {
    PostEffect(b, tid, now, legs);
    PostKeepsJournal(b, tid, now, legs);
    PostedFour(b, tid, now, legs, OnWallet(wallet));
  }

  lemma {:induction false} TwoLegBalance(b: Books, tid: Option<nat>, now: int, legs: seq<Leg>, wallet: nat)
    requires |legs| == 2 && JournalBacked(b) && Post(b, tid, now, legs).Ok? && wallet < |b.wallets|
    ensures wallet < |Post(b, tid, now, legs).value.wallets|
    ensures Post(b, tid, now, legs).value.wallets[wallet].balance == b.wallets[wallet].balance
      + OnWallet(wallet)(EntryOf(tid, now, legs[0])) + OnWallet(wallet)(EntryOf(tid, now, legs[1]))
  {
    PostEffect(b, tid, now, legs);
    PostKeepsJournal(b, tid, now, legs);
    PostedSum(b, tid, now, legs, OnWallet(wallet));
    var e := EntriesOf(tid, now, legs);
    assert e == [EntryOf(tid, now, legs[0]), EntryOf(tid, now, legs[1])];
    SumTwo(e[0], e[1], OnWallet(wallet));
  }

  lemma {:induction false} RecordMovesLevy(db: Db, db': Db, t: Terms, l: Levy)
    requires JournalBacked(db.books) && Records(db, db', t)
    ensures db'.books.wallets[Account(l)].balance
         == db.books.wallets[Account(l)].balance + (if t.kind.Outbound? then Amount(l, t) else 0)
  {
    var tid, legs := Some(|db.transfers|), LegsFor(t);
    assert Post(db.books, tid, t.createdAt, legs) == Ok(db'.books);
    if t.kind.Outbound? {
      FourLegBalance(db.books, tid, t.createdAt, legs, Account(l));
    } else {
      UntouchedBalance(db.books, tid, t.createdAt, legs, Account(l));
    }
  }

  lemma {:induction false} MoveMovesLevy(db: Db, db': Db, id: nat, reversed: bool, now: int, l: Levy)
    requires JournalBacked(db.books) && TermsOkAll(db) && Moves(db, db', id, reversed, now)
    ensures db'.books.wallets[Account(l)].balance
         == db.books.wallets[Account(l)].balance - (if reversed then Amount(l, db.transfers[id].terms) else 0)
  {
    if reversed {
      var t := db.transfers[id].terms;
      FourLegBalance(db.books, Some(id), now, ReversalLegs(t.source.value, t), Account(l));
    }
  }

  lemma {:induction false} PostsMovesNoLevy(db: Db, db': Db, legs: seq<Leg>, now: int, l: Levy)
    requires Posts(db, db', legs, now)
    ensures db'.books.wallets[Account(l)].balance == db.books.wallets[Account(l)].balance
  {
    UntouchedBalance(db.books, None, now, legs, Account(l));
  }

  // ---------- Preservation ----------

  lemma {:induction false} EarnedByNewRow(w: World, w': World, row: TransferRow, l: Levy)
    requires w'.db.transfers == w.db.transfers + [row] && !row.status.Failed?
    requires forall i: nat :: Reposts(w'.log, i) == Reposts(w.log, i)
    requires Reposts(w.log, |w.db.transfers|) == 0
    ensures Sum(WithReposts(w'), Earned(l))
         == Sum(WithReposts(w), Earned(l)) + (if row.terms.kind.Outbound? then Amount(l, row.terms) else 0)
  {
    assert WithReposts(w') == WithReposts(w) + [(row, 0)];
    SumAppend(WithReposts(w), (row, 0), Earned(l));
  }

  lemma {:induction false} EarnedAfterMove(w: World, w': World, id: nat, row: TransferRow, l: Levy, extra: int)
    requires id < |w.db.transfers| && w'.db.transfers == w.db.transfers[id := row]
    requires row.terms == w.db.transfers[id].terms && row.terms.kind.Outbound?
    requires forall i: nat :: i != id ==> Reposts(w'.log, i) == Reposts(w.log, i)
    requires Reposts(w'.log, id) + FailedNow(row) == Reposts(w.log, id) + FailedNow(w.db.transfers[id]) + extra
    requires extra == 0 || extra == 1
    ensures Sum(WithReposts(w'), Earned(l)) == Sum(WithReposts(w), Earned(l)) - (if extra == 1 then Amount(l, row.terms) else 0)
  {
    var p, p' := WithReposts(w)[id], WithReposts(w')[id];
    assert WithReposts(w') == WithReposts(w)[id := p'];
    SumUpdate(WithReposts(w), id, p', Earned(l));
    EarnedDrops(p, p', l, extra);
  }

  lemma {:induction false} EarnedDrops(p: (TransferRow, int), p': (TransferRow, int), l: Levy, extra: int)
    requires p.0.terms == p'.0.terms && p.0.terms.kind.Outbound?
    requires p'.1 + FailedNow(p'.0) == p.1 + FailedNow(p.0) + extra && (extra == 0 || extra == 1)
    ensures Earned(l)(p') == Earned(l)(p) - (if extra == 1 then Amount(l, p.0.terms) else 0)
  {
    OneLess(p.1 + FailedNow(p.0), Amount(l, p.0.terms));
  }

  lemma {:induction false} RecordsKeepsLevy(w: World, w': World, t: Terms, l: Levy)
    requires LevyOk(w, l) && JournalBacked(w.db.books) && CountsOk(w)
    requires Records(w.db, w'.db, t) && LogGrowsByReservation(w, w')
    ensures LevyOk(w', l)
  {
    forall i: nat ensures Reposts(w'.log, i) == Reposts(w.log, i) {
      ReservationsDoNotCount(w, w', i);
    }
    assert NothingYet(w, |w.db.transfers|);
    EarnedByNewRow(w, w', w'.db.transfers[|w.db.transfers|], l);
    RecordMovesLevy(w.db, w'.db, t, l);
  }

  lemma {:induction false} MoveKeepsLevy(w: World, w': World, id: nat, c: Cause, now: int, l: Levy)
    requires LevyOk(w, l) && JournalBacked(w.db.books) && TermsOkAll(w.db) && MoveStep(w, w', id, c, now)
    ensures LevyOk(w', l)
  {
    forall i: nat ensures Reposts(w'.log, i) == Reposts(w.log, i) + (if c.Reposting? && i == id then 1 else 0) {
      if !c.Noop? { LogAppend(w.log, w'.log[|w.log|], i); }
    }
    EarnedAfterMove(w, w', id, w'.db.transfers[id], l, if Reverses(c) then 1 else 0);
    MoveMovesLevy(w.db, w'.db, id, Reverses(c), now, l);
  }

  /** Nothing but the rows' statuses and the number of reposts enters the sum. */
  lemma {:induction false} SameRowsKeepLevy(w: World, w': World, l: Levy)
    requires LevyOk(w, l) && w'.db.books.wallets[Account(l)].balance == w.db.books.wallets[Account(l)].balance
    requires |w'.db.transfers| == |w.db.transfers|
    requires forall i: nat :: i < |w.db.transfers| ==>
      w'.db.transfers[i].terms == w.db.transfers[i].terms && w'.db.transfers[i].status == w.db.transfers[i].status
    requires forall i: nat :: Reposts(w'.log, i) == Reposts(w.log, i)
    ensures LevyOk(w', l)
  {
    SumMatch(WithReposts(w), WithReposts(w'), Earned(l), Earned(l));
  }
}
