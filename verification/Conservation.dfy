/** Every balance is backed by the journal, every transfer's entries cancel, and only fundings create money. */
module Conservation {
  import opened Prelude
  import opened Rows
  import opened Books
  import opened Ledger
  import opened Settlement
  import opened Shapes

  function FundingOf(): Entry -> int {
    (e: Entry) => if e.leg.SettlementFunding? then e.kobo else 0
  }

  function OfTransfer(id: nat): Entry -> int {
    (e: Entry) => if e.transferId == Some(id) then Signed(e.direction, e.kobo) else 0
  }

  function Funded(db: Db): int { Sum(db.books.entries, FundingOf()) }

  ghost predicate EntriesOk(b: Books, transfers: nat) {
    forall i :: 0 <= i < |b.entries| ==>
      && b.entries[i].wallet < |b.wallets| && b.entries[i].kobo > 0
      && (b.entries[i].transferId.Some? ==> b.entries[i].transferId.value < transfers)
  }

  ghost predicate TransfersCancel(b: Books) {
    forall id: nat :: Sum(b.entries, OfTransfer(id)) == 0
  }

  ghost predicate MoneyConserved(b: Books) {
    TotalBalance(b) == SEED_KOBO + Sum(b.entries, FundingOf())
  }

  ghost predicate JournalOk(db: Db) {
    && WalletsOk(db.books.wallets) && NonNegative(db.books) && JournalBacked(db.books)
    && EntriesOk(db.books, |db.transfers|) && TransfersCancel(db.books) && MoneyConserved(db.books)
  }

  // ---------- Sums over freshly posted entries ----------

  lemma {:induction false} PostedSum(b: Books, tid: Option<nat>, now: int, legs: seq<Leg>, f: Entry -> int)
    requires Post(b, tid, now, legs).Ok?
    ensures Sum(Post(b, tid, now, legs).value.entries, f) == Sum(b.entries, f) + Sum(EntriesOf(tid, now, legs), f)
  {
    PostEffect(b, tid, now, legs);
    SumConcat(b.entries, EntriesOf(tid, now, legs), f);
  }

  lemma {:induction false} EntriesSplit(tid: Option<nat>, now: int, legs: seq<Leg>, f: Entry -> int)
    requires |legs| > 0
    ensures Sum(EntriesOf(tid, now, legs), f) == f(EntryOf(tid, now, legs[0])) + Sum(EntriesOf(tid, now, legs[1..]), f)
  {
    var first := EntryOf(tid, now, legs[0]);
    assert EntriesOf(tid, now, legs) == [first] + EntriesOf(tid, now, legs[1..]);
    SumConcat([first], EntriesOf(tid, now, legs[1..]), f);
    SumAppend([], first, f);
    assert [] + [first] == [first];
  }

  lemma {:induction false} EntriesCancel(tid: Option<nat>, now: int, legs: seq<Leg>, id: nat)
    ensures Sum(EntriesOf(tid, now, legs), OfTransfer(id)) == if tid == Some(id) then LegTotal(legs) else 0
    decreases |legs|
  {
    if |legs| > 0 {
      EntriesSplit(tid, now, legs, OfTransfer(id));
      EntriesCancel(tid, now, legs[1..], id);
    }
  }

  ghost predicate FundingFree(legs: seq<Leg>) {
    forall i :: 0 <= i < |legs| ==> !legs[i].name.SettlementFunding?
  }

  lemma {:induction false} EntriesFundNothing(tid: Option<nat>, now: int, legs: seq<Leg>)
    requires FundingFree(legs)
    ensures Sum(EntriesOf(tid, now, legs), FundingOf()) == 0
    decreases |legs|
  {
    if |legs| > 0 {
      EntriesSplit(tid, now, legs, FundingOf());
      assert FundingFree(legs[1..]);
      EntriesFundNothing(tid, now, legs[1..]);
    }
  }

  // ---------- Preservation ----------

  /** A balanced posting of a known transfer, or of none, keeps the journal sound. */
  lemma {:induction false} PostingKeepsJournal(b: Books, tid: Option<nat>, now: int, legs: seq<Leg>)
    requires WalletsOk(b.wallets) && NonNegative(b) && JournalBacked(b)
    requires Post(b, tid, now, legs).Ok?
    ensures var b' := Post(b, tid, now, legs).value; WalletsOk(b'.wallets) && NonNegative(b') && JournalBacked(b')
  {
    PostEffect(b, tid, now, legs);
    PostKeepsNonNegative(b, tid, now, legs);
    PostKeepsJournal(b, tid, now, legs);
  }

  lemma {:induction false} PostingKeepsEntries(b: Books, tid: Option<nat>, now: int, legs: seq<Leg>, transfers: nat)
    requires EntriesOk(b, transfers) && Post(b, tid, now, legs).Ok?
    requires tid.Some? ==> tid.value < transfers
    ensures EntriesOk(Post(b, tid, now, legs).value, transfers)
  {
    PostEffect(b, tid, now, legs);
    var b' := Post(b, tid, now, legs).value;
    var added := EntriesOf(tid, now, legs);
    forall i | 0 <= i < |b'.entries|
      ensures b'.entries[i].wallet < |b'.wallets| && b'.entries[i].kobo > 0
      ensures b'.entries[i].transferId.Some? ==> b'.entries[i].transferId.value < transfers
    {
      if i >= |b.entries| {
        assert b'.entries[i] == added[i - |b.entries|];
        assert legs[i - |b.entries|] in legs;
      }
    }
  }

  lemma {:induction false} PostingKeepsSums(b: Books, tid: Option<nat>, now: int, legs: seq<Leg>)
    requires TransfersCancel(b) && MoneyConserved(b) && Post(b, tid, now, legs).Ok?
    requires LegTotal(legs) == 0 && FundingFree(legs)
    ensures TransfersCancel(Post(b, tid, now, legs).value) && MoneyConserved(Post(b, tid, now, legs).value)
  {
    var b' := Post(b, tid, now, legs).value;
    forall id: nat ensures Sum(b'.entries, OfTransfer(id)) == 0 {
      PostedSum(b, tid, now, legs, OfTransfer(id));
      EntriesCancel(tid, now, legs, id);
    }
    PostedSum(b, tid, now, legs, FundingOf());
    EntriesFundNothing(tid, now, legs);
    PostTotal(b, tid, now, legs);
  }

  lemma {:induction false} LegTotalCons(a: Leg, rest: seq<Leg>)
    ensures LegTotal([a] + rest) == a.Delta() + LegTotal(rest)
  {
    assert ([a] + rest)[1..] == rest;
  }

  lemma {:induction false} LegTotalTwo(a: Leg, b: Leg)
    ensures LegTotal([a, b]) == a.Delta() + b.Delta()
  {
    LegTotalCons(b, []);
    LegTotalCons(a, [b]);
    assert [b] + [] == [b] && [a] + [b] == [a, b];
  }

  lemma {:induction false} LegTotalFour(a: Leg, b: Leg, c: Leg, d: Leg)
    ensures LegTotal([a, b, c, d]) == a.Delta() + b.Delta() + c.Delta() + d.Delta()
  {
    LegTotalTwo(c, d);
    LegTotalCons(b, [c, d]);
    LegTotalCons(a, [b, c, d]);
    assert [b] + [c, d] == [b, c, d] && [a] + [b, c, d] == [a, b, c, d];
  }

  lemma {:induction false} TransferLegsBalance(t: Terms, n: nat)
    requires TermsOk(t, n)
    ensures LegTotal(LegsFor(t)) == 0 && FundingFree(LegsFor(t))
  {
    var legs := LegsFor(t);
    if t.kind.Outbound? {
      LegTotalFour(legs[0], legs[1], legs[2], legs[3]);
    } else {
      LegTotalTwo(legs[0], legs[1]);
    }
  }

  lemma {:induction false} RecordsKeepsJournal(db: Db, db': Db, t: Terms)
    requires JournalOk(db) && Records(db, db', t)
    ensures JournalOk(db')
  {
    var tid, legs := Some(|db.transfers|), LegsFor(t);
    TransferLegsBalance(t, |db.books.wallets|);
    assert Post(db.books, tid, t.createdAt, legs) == Ok(db'.books);
    PostingKeepsJournal(db.books, tid, t.createdAt, legs);
    PostingKeepsEntries(db.books, tid, t.createdAt, legs, |db'.transfers|);
    PostingKeepsSums(db.books, tid, t.createdAt, legs);
  }

  lemma {:induction false} MovesKeepsJournal(db: Db, db': Db, id: nat, reversed: bool, now: int)
    requires JournalOk(db) && Moves(db, db', id, reversed, now)
    requires TermsOk(db.transfers[id].terms, |db.books.wallets|)
    ensures JournalOk(db')
  {
    if reversed {
      var t := db.transfers[id].terms;
      var legs := ReversalLegs(t.source.value, t);
      LegTotalFour(legs[0], legs[1], legs[2], legs[3]);
      PostingKeepsJournal(db.books, Some(id), now, legs);
      PostingKeepsEntries(db.books, Some(id), now, legs, |db.transfers|);
      PostingKeepsSums(db.books, Some(id), now, legs);
    }
  }

  lemma {:induction false} PostsKeepsJournal(db: Db, db': Db, legs: seq<Leg>, now: int)
    requires JournalOk(db) && Posts(db, db', legs, now)
    ensures JournalOk(db')
  {
    PostingKeepsJournal(db.books, None, now, legs);
    PostingKeepsEntries(db.books, None, now, legs, |db.transfers|);
    if |legs| == 2 {
      LegTotalTwo(legs[0], legs[1]);
      PostingKeepsSums(db.books, None, now, legs);
    } else {
      FundingAddsMoney(db.books, legs[0].kobo, now);
    }
  }

  lemma {:induction false} FundingAddsMoney(b: Books, amount: int, now: int)
    requires TransfersCancel(b) && MoneyConserved(b) && Post(b, None, now, FundingLegs(amount)).Ok?
    ensures var b' := Post(b, None, now, FundingLegs(amount)).value; TransfersCancel(b') && MoneyConserved(b')
    ensures Sum(Post(b, None, now, FundingLegs(amount)).value.entries, FundingOf()) == Sum(b.entries, FundingOf()) + amount
  {
    var legs := FundingLegs(amount);
    var b' := Post(b, None, now, legs).value;
    forall id: nat ensures Sum(b'.entries, OfTransfer(id)) == 0 {
      PostedSum(b, None, now, legs, OfTransfer(id));
      EntriesCancel(None, now, legs, id);
    }
    PostedSum(b, None, now, legs, FundingOf());
    EntriesSplit(None, now, legs, FundingOf());
    assert legs[1..] == [] && EntriesOf(None, now, legs[1..]) == [];
    PostTotal(b, None, now, legs);
  }

  lemma {:induction false} NewWalletKeepsJournal(db: Db, customer: string, number: string)
    requires JournalOk(db) && customer != "SYSTEM" && CreateWallet(db, customer, number).Ok?
    ensures JournalOk(CreateWallet(db, customer, number).value)
  {
    var b, b' := db.books, CreateWallet(db, customer, number).value.books;
    var n := |b.wallets|;
    assert Balances(b') == Balances(b) + [0];
    SumAppend(Balances(b), 0, Id());
    SumZero(b.entries, OnWallet(n));
  }

  lemma {:induction false} SeedJournal()
    ensures JournalOk(SeedDb())
  {
    var b := SeedDb().books;
    assert Balances(b) == [SEED_KOBO, 0] + [0];
    SumTwo(SEED_KOBO, 0, Id());
    SumAppend([SEED_KOBO, 0], 0, Id());
  }
}
