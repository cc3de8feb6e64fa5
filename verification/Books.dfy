/** Wallet rows and the journal: a posting credits and debits wallets and appends one entry a leg. */
module Books {
  import opened Prelude
  import opened Rows

  /** System wallets sit at the positions the seeding order gives them. */
  const SETTLEMENT: nat := 0
  const VAT: nat := 1
  const INCOME: nat := 2

  const SEED_KOBO: int := 600_000_000_000

  type Wallets = s: seq<WalletRow> | |s| >= 3 witness SeedWallets()

  function SeedWallets(): seq<WalletRow> {
    [ WalletRow("SYSTEM", "0000000001", Settlement, SEED_KOBO, 2),
      WalletRow("SYSTEM", "0000000002", Vat, 0, 1),
      WalletRow("SYSTEM", "0000000003", Income, 0, 1) ]
  }

  datatype Books = Books(wallets: Wallets, entries: seq<Entry>)

  datatype Leg = Leg(wallet: nat, direction: Direction, kobo: int, name: LegName) {
    function Delta(): int { Signed(direction, kobo) }
  }

  /** One leg: Money.Create, then Credit or Debit on the wallet, then the ledger entry. */
  function PostLeg(b: Books, tid: Option<nat>, now: int, leg: Leg): Outcome<Books> {
    if leg.wallet >= |b.wallets| then Err(WalletNotFound)
    else
      var money :- CreateMoney(leg.kobo);
      var w := b.wallets[leg.wallet];
      var w' :- if leg.direction.Credit? then CreditWallet(w, money) else DebitWallet(w, money);
      Ok(Books(b.wallets[leg.wallet := w'], b.entries + [EntryOf(tid, now, leg)]))
  }

  function EntryOf(tid: Option<nat>, now: int, leg: Leg): Entry {
    Entry(tid, leg.wallet, leg.direction, leg.kobo, leg.name, now)
  }

  /** All legs in order, or nothing. */
  function Post(b: Books, tid: Option<nat>, now: int, legs: seq<Leg>): Outcome<Books>
    decreases |legs|
  {
    if |legs| == 0 then Ok(b)
    else
      var b1 :- PostLeg(b, tid, now, legs[0]);
      Post(b1, tid, now, legs[1..])
  }

  lemma {:induction false} PostFirst(b: Books, tid: Option<nat>, now: int, leg: Leg, rest: seq<Leg>)
    ensures Post(b, tid, now, [leg] + rest)
         == (var r := PostLeg(b, tid, now, leg); if r.Ok? then Post(r.value, tid, now, rest) else Err(r.error))
  {
    assert ([leg] + rest)[1..] == rest;
  }

  // ---------- What a posting means ----------

  function EntriesOf(tid: Option<nat>, now: int, legs: seq<Leg>): seq<Entry> {
    seq(|legs|, i requires 0 <= i < |legs| => EntryOf(tid, now, legs[i]))
  }

  function Balances(b: Books): seq<int> {
    seq(|b.wallets|, i requires 0 <= i < |b.wallets| => b.wallets[i].balance)
  }

  /** Unchecked integer effect of a list of legs on a list of balances. */
  function Shift(balances: seq<int>, legs: seq<Leg>): (r: seq<int>)
    requires forall l :: l in legs ==> l.wallet < |balances|
    ensures |r| == |balances|
    decreases |legs|
  {
    if |legs| == 0 then balances
    else Shift(balances[legs[0].wallet := balances[legs[0].wallet] + legs[0].Delta()], legs[1..])
  }

  ghost predicate SameIdentity(a: WalletRow, b: WalletRow) {
    a.customerId == b.customerId && a.accountNumber == b.accountNumber && a.kind == b.kind
  }

  ghost predicate NonNegative(b: Books) {
    forall w :: 0 <= w < |b.wallets| ==> 0 <= b.wallets[w].balance <= INT64_MAX
  }

  ghost predicate Touches(legs: seq<Leg>, w: nat) {
    exists i :: 0 <= i < |legs| && legs[i].wallet == w
  }

  lemma {:induction false} PostBalances(b: Books, tid: Option<nat>, now: int, legs: seq<Leg>)
    requires Post(b, tid, now, legs).Ok?
    ensures forall l :: l in legs ==> l.wallet < |b.wallets| && l.kobo > 0
    ensures var b' := Post(b, tid, now, legs).value;
      |b'.wallets| == |b.wallets| && Balances(b') == Shift(Balances(b), legs)
    decreases |legs|
  {
    if |legs| > 0 {
      var b1 := PostLeg(b, tid, now, legs[0]).value;
      PostBalances(b1, tid, now, legs[1..]);
      assert Balances(b1) == Balances(b)[legs[0].wallet := Balances(b)[legs[0].wallet] + legs[0].Delta()];
      assert legs == [legs[0]] + legs[1..];
    }
  }

  /** The exact effect of a posting that succeeds. */
  lemma {:induction false} PostEffect(b: Books, tid: Option<nat>, now: int, legs: seq<Leg>)
    requires Post(b, tid, now, legs).Ok?
    ensures forall l :: l in legs ==> l.wallet < |b.wallets| && l.kobo > 0
    ensures var b' := Post(b, tid, now, legs).value;
      && |b'.wallets| == |b.wallets|
      && b'.entries == b.entries + EntriesOf(tid, now, legs)
      && Balances(b') == Shift(Balances(b), legs)
      && (forall w :: 0 <= w < |b.wallets| ==> SameIdentity(b.wallets[w], b'.wallets[w]))
    decreases |legs|
  {
    PostBalances(b, tid, now, legs);
    if |legs| == 0 {
      assert EntriesOf(tid, now, legs) == [];
    } else {
      var b1 := PostLeg(b, tid, now, legs[0]).value;
      PostEffect(b1, tid, now, legs[1..]);
      assert EntriesOf(tid, now, legs) == [EntryOf(tid, now, legs[0])] + EntriesOf(tid, now, legs[1..]);
    }
  }

  lemma {:induction false} PostKeepsNonNegative(b: Books, tid: Option<nat>, now: int, legs: seq<Leg>)
    requires NonNegative(b) && Post(b, tid, now, legs).Ok?
    ensures NonNegative(Post(b, tid, now, legs).value)
    decreases |legs|
  {
    if |legs| > 0 {
      PostKeepsNonNegative(PostLeg(b, tid, now, legs[0]).value, tid, now, legs[1..]);
    }
  }

  /** Versions count writes: touched rows move strictly forward, the others do not move at all. */
  lemma {:induction false} PostVersions(b: Books, tid: Option<nat>, now: int, legs: seq<Leg>)
    requires Post(b, tid, now, legs).Ok?
    ensures var b' := Post(b, tid, now, legs).value;
      && |b'.wallets| == |b.wallets|
      && (forall w :: 0 <= w < |b.wallets| ==> b.wallets[w].version <= b'.wallets[w].version)
      && (forall w :: 0 <= w < |b.wallets| && Touches(legs, w) ==> b.wallets[w].version < b'.wallets[w].version)
      && (forall w :: 0 <= w < |b.wallets| && !Touches(legs, w) ==> b'.wallets[w] == b.wallets[w])
    decreases |legs|
  {
    if |legs| > 0 {
      var b1 := PostLeg(b, tid, now, legs[0]).value;
      var b' := Post(b, tid, now, legs).value;
      PostVersions(b1, tid, now, legs[1..]);
      forall w | 0 <= w < |b.wallets|
        ensures Touches(legs, w) ==> b.wallets[w].version < b'.wallets[w].version
        ensures !Touches(legs, w) ==> b'.wallets[w] == b.wallets[w]
      {
        if !Touches(legs, w) {
          assert legs[0].wallet != w;
          assert !Touches(legs[1..], w) by {
            assert forall i :: 0 <= i < |legs| - 1 ==> legs[1..][i] == legs[i + 1];
          }
        } else if legs[0].wallet != w {
          var i :| 0 <= i < |legs| && legs[i].wallet == w;
          assert legs[1..][i - 1].wallet == w;
        }
      }
    }
  }

  // ---------- Conservation ----------

  function LegTotal(legs: seq<Leg>): int
    decreases |legs|
  {
    if |legs| == 0 then 0 else legs[0].Delta() + LegTotal(legs[1..])
  }

  function Id(): int -> int { x => x }

  function TotalBalance(b: Books): int { Sum(Balances(b), Id()) }

  lemma {:induction false} ShiftTotal(balances: seq<int>, legs: seq<Leg>)
    requires forall l :: l in legs ==> l.wallet < |balances|
    ensures Sum(Shift(balances, legs), Id()) == Sum(balances, Id()) + LegTotal(legs)
    decreases |legs|
  {
    if |legs| > 0 {
      var w := legs[0].wallet;
      SumUpdate(balances, w, balances[w] + legs[0].Delta(), Id());
      ShiftTotal(balances[w := balances[w] + legs[0].Delta()], legs[1..]);
    }
  }

  /** A posting changes the sum of all balances by the sum of its legs. */
  lemma {:induction false} PostTotal(b: Books, tid: Option<nat>, now: int, legs: seq<Leg>)
    requires Post(b, tid, now, legs).Ok?
    ensures TotalBalance(Post(b, tid, now, legs).value) == TotalBalance(b) + LegTotal(legs)
  {
    PostEffect(b, tid, now, legs);
    ShiftTotal(Balances(b), legs);
  }

  function Opening(w: nat): int { if w == SETTLEMENT then SEED_KOBO else 0 }

  function OnWallet(w: nat): Entry -> int {
    (e: Entry) => if e.wallet == w then Signed(e.direction, e.kobo) else 0
  }

  function WalletSum(entries: seq<Entry>, w: nat): int { Sum(entries, OnWallet(w)) }

  /** Every stored balance is its opening balance plus its signed ledger entries. */
  ghost predicate JournalBacked(b: Books) {
    forall w :: 0 <= w < |b.wallets| ==> b.wallets[w].balance == Opening(w) + WalletSum(b.entries, w)
  }

  lemma {:induction false} PostKeepsJournal(b: Books, tid: Option<nat>, now: int, legs: seq<Leg>)
    requires JournalBacked(b) && Post(b, tid, now, legs).Ok?
    ensures JournalBacked(Post(b, tid, now, legs).value)
    decreases |legs|
  {
    if |legs| > 0 {
      var b1 := PostLeg(b, tid, now, legs[0]).value;
      forall w | 0 <= w < |b1.wallets|
        ensures b1.wallets[w].balance == Opening(w) + WalletSum(b1.entries, w)
      {
        SumAppend(b.entries, EntryOf(tid, now, legs[0]), OnWallet(w));
      }
      PostKeepsJournal(b1, tid, now, legs[1..]);
    }
  }

  // ---------- When a posting succeeds ----------

  ghost predicate Distinct(legs: seq<Leg>) {
    forall i, j :: 0 <= i < j < |legs| ==> legs[i].wallet != legs[j].wallet
  }

  ghost predicate Postable(b: Books, legs: seq<Leg>) {
    forall i :: 0 <= i < |legs| ==> legs[i].wallet < |b.wallets| && legs[i].kobo > 0
  }

  /** Every debit is covered by the balance of the wallet it debits. */
  ghost predicate Covered(b: Books, legs: seq<Leg>)
    requires Postable(b, legs)
  {
    forall i :: 0 <= i < |legs| && legs[i].direction.Debit? ==> legs[i].kobo <= b.wallets[legs[i].wallet].balance
  }

  lemma {:induction false} ShiftPointwise(balances: seq<int>, legs: seq<Leg>, w: nat)
    requires w < |balances| && Distinct(legs)
    requires forall i :: 0 <= i < |legs| ==> legs[i].wallet < |balances| && legs[i].kobo > 0
    requires forall i :: 0 <= i < |balances| ==> balances[i] >= 0
    requires forall i :: 0 <= i < |legs| && legs[i].direction.Debit? ==> legs[i].kobo <= balances[legs[i].wallet]
    ensures forall i :: 0 <= i < |balances| ==> Shift(balances, legs)[i] >= 0
    ensures !Touches(legs, w) ==> Shift(balances, legs)[w] == balances[w]
    decreases |legs|
  {
    if |legs| > 0 {
      var v := legs[0].wallet;
      var rest := legs[1..];
      var balances1 := balances[v := balances[v] + legs[0].Delta()];
      assert forall i :: 0 <= i < |rest| ==> rest[i] == legs[i + 1];
      ShiftPointwise(balances1, rest, w);
      if !Touches(legs, w) {
        assert legs[0].wallet != w && !Touches(rest, w);
      }
    }
  }

  /** After the first leg the other legs face the balances they would have faced before it. */
  lemma {:induction false} RestUndisturbed(b: Books, tid: Option<nat>, now: int, legs: seq<Leg>)
    requires |legs| > 0 && Postable(b, legs) && Distinct(legs) && PostLeg(b, tid, now, legs[0]).Ok?
    ensures var b1 := PostLeg(b, tid, now, legs[0]).value; var rest := legs[1..];
      && Postable(b1, rest) && Distinct(rest)
      && (Covered(b, legs) <==> Covered(b1, rest))
      && TotalBalance(b1) == TotalBalance(b) + legs[0].Delta()
  {
    var leg, rest := legs[0], legs[1..];
    var b1 := PostLeg(b, tid, now, leg).value;
    assert forall i :: 0 <= i < |rest| ==> rest[i] == legs[i + 1];
    assert forall i :: 0 <= i < |rest| ==> b1.wallets[rest[i].wallet] == b.wallets[rest[i].wallet];
    if Covered(b1, rest) {
      forall i | 0 <= i < |legs| && legs[i].direction.Debit? ensures legs[i].kobo <= b.wallets[legs[i].wallet].balance {
        if i > 0 { assert rest[i - 1] == legs[i]; }
      }
    }
    SumUpdate(Balances(b), leg.wallet, b1.wallets[leg.wallet].balance, Id());
    assert Balances(b1) == Balances(b)[leg.wallet := b1.wallets[leg.wallet].balance];
  }

  /** With the grand total inside 64 bits, crediting before debiting cannot overflow: only an uncovered debit stops a posting. */
  lemma {:induction false} PostSucceedsIffCovered(b: Books, tid: Option<nat>, now: int, legs: seq<Leg>)
    requires NonNegative(b) && Postable(b, legs) && Distinct(legs)
    requires TotalBalance(b) + LegTotal(legs) <= INT64_MAX
    ensures Post(b, tid, now, legs).Ok? <==> Covered(b, legs)
    decreases |legs|
  {
    if |legs| > 0 {
      if Covered(b, legs) && legs[0].direction.Credit? {
        CreditFits(b, legs);
      }
      if PostLeg(b, tid, now, legs[0]).Ok? {
        RestUndisturbed(b, tid, now, legs);
        PostSucceedsIffCovered(PostLeg(b, tid, now, legs[0]).value, tid, now, legs[1..]);
      }
    }
  }

  /** The first credit of a covered posting fits, because the other legs leave every balance non-negative. */
  lemma {:induction false} CreditFits(b: Books, legs: seq<Leg>)
    requires NonNegative(b) && |legs| > 0 && Postable(b, legs) && Distinct(legs) && Covered(b, legs)
    requires legs[0].direction.Credit? && TotalBalance(b) + LegTotal(legs) <= INT64_MAX
    ensures b.wallets[legs[0].wallet].balance + legs[0].kobo <= INT64_MAX
  {
    var w := legs[0].wallet;
    var rest := legs[1..];
    assert forall i :: 0 <= i < |rest| ==> rest[i] == legs[i + 1];
    assert forall l :: l in rest ==> l.wallet < |b.wallets|;
    ShiftPointwise(Balances(b), rest, w);
    ShiftTotal(Balances(b), rest);
    var after := Shift(Balances(b), rest);
    SumAtLeast(after, Id(), w);
  }
}
