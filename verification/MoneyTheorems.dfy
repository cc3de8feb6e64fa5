/** Main results on money: journal, conservation, levies and when an operation's postings succeed. */
module MoneyTheorems {
  import opened Prelude
  import opened Rows
  import opened Books
  import opened Ledger
  import opened Settlement
  import opened Machine
  import opened Shapes
  import opened Conservation
  import opened Protocol
  import opened Reversals
  import opened Charges
  import opened Invariants

  /** In every reachable world: balances match the journal, transfers cancel, and only fundings add money. */
  lemma {:induction false} MoneyIsConserved(w: World)
    requires Reachable(w)
    ensures var b := w.db.books;
      && (forall i: nat :: i < |b.wallets| ==>
            b.wallets[i].balance == Opening(i) + WalletSum(b.entries, i) && 0 <= b.wallets[i].balance <= INT64_MAX)
      && (forall id: nat :: Sum(b.entries, OfTransfer(id)) == 0)
      && TotalBalance(b) == SEED_KOBO + Funded(w.db)
  {
    ReachableHasInv(w);
  }

  // ---------- Net effect of an outbound transfer ----------

  ghost predicate RepostFree(log: seq<Happening>) {
    forall i :: 0 <= i < |log| ==> !log[i].Reposted?
  }

  lemma {:induction false} NoReposts(log: seq<Happening>, id: nat)
    requires RepostFree(log)
    ensures Reposts(log, id) == 0
  {
    SumZero(log, RepostOf(id));
  }

  /** The net journal effect on every wallet is the submission's effect, undone once for each reversal group. */
  lemma {:induction false} NetEffect(w: World, id: nat, wallet: nat)
    requires Reachable(w) && id in w.db.jobs
    ensures id < |w.db.transfers| && NetAt(w.db, id, wallet)
    ensures Reversed(w.db.books, id) == Reposts(w.log, id) + FailedNow(w.db.transfers[id])
  {
    ReachableHasInv(w);
    assert ReversalsMatch(w, id);
  }

  lemma {:induction false} UndoneOnce(k: int, x: int)
    requires k == 0 || k == 1
    ensures (1 - k) * x == if k == 1 then 0 else x
  {
  }

  lemma {:induction false} NetWithoutReposts(w: World, id: nat, wallet: nat)
    requires NetOk(w.db) && CountsOk(w) && RepostFree(w.log)
    requires id < |w.db.transfers| && w.db.transfers[id].terms.kind.Outbound?
    ensures Net(w.db.books, id, wallet)
         == (if w.db.transfers[id].status.Failed? then 0 else SubmissionEffect(w.db.transfers[id].terms, wallet))
  {
    NoReposts(w.log, id);
    assert ReversalsMatch(w, id) && NetAt(w.db, id, wallet);
    UndoneOnce(Reversed(w.db.books, id), SubmissionEffect(w.db.transfers[id].terms, wallet));
  }

  lemma {:induction false} NetVanishesIffFailed(w: World, id: nat)
    requires NetOk(w.db) && CountsOk(w) && TermsOkAll(w.db) && RepostFree(w.log)
    requires id < |w.db.transfers| && w.db.transfers[id].terms.kind.Outbound?
    ensures w.db.transfers[id].status.Failed? <==> forall wallet: nat :: Net(w.db.books, id, wallet) == 0
  {
    forall wallet: nat
      ensures Net(w.db.books, id, wallet)
           == (if w.db.transfers[id].status.Failed? then 0 else SubmissionEffect(w.db.transfers[id].terms, wallet))
    {
      NetWithoutReposts(w, id, wallet);
    }
    assert TermsOk(w.db.transfers[id].terms, |w.db.books.wallets|);
    assert SubmissionEffect(w.db.transfers[id].terms, SETTLEMENT) > 0;
  }

  /** Without reposts, an outbound transfer leaves no trace on any wallet exactly when it is Failed. */
  lemma {:induction false} NetIsZeroIffFailed(w: World, id: nat)
    requires Reachable(w) && RepostFree(w.log) && id in w.db.jobs
    ensures id < |w.db.transfers|
    ensures w.db.transfers[id].status.Failed? <==> forall wallet: nat :: Net(w.db.books, id, wallet) == 0
  {
    ReachableHasInv(w);
    NetVanishesIffFailed(w, id);
  }

  // ---------- Income and VAT ----------

  function Kept(l: Levy): TransferRow -> int {
    (t: TransferRow) => if t.terms.kind.Outbound? && !t.status.Failed? then Amount(l, t.terms) else 0
  }

  lemma {:induction false} EarnedWithoutReposts(p: (TransferRow, int), l: Levy)
    requires p.1 == 0
    ensures Earned(l)(p) == Kept(l)(p.0)
  {
  }

  /** Without reposts, the income and VAT wallets hold exactly the levies of the outbound transfers that have not failed. */
  lemma {:induction false} LeviesOfLiveTransfers(w: World, l: Levy)
    requires LevyOk(w, l) && RepostFree(w.log)
    ensures w.db.books.wallets[Account(l)].balance == Sum(w.db.transfers, Kept(l))
  {
    forall i: nat | i < |w.db.transfers| ensures Earned(l)(WithReposts(w)[i]) == Kept(l)(w.db.transfers[i]) {
      NoReposts(w.log, i);
      EarnedWithoutReposts(WithReposts(w)[i], l);
    }
    SumMatch(WithReposts(w), w.db.transfers, Earned(l), Kept(l));
  }

  lemma {:induction false} LevyCoversTransfer(w: World, id: nat, l: Levy)
    requires LevyOk(w, l) && TermsOkAll(w.db) && RepostFree(w.log)
    requires id < |w.db.transfers| && w.db.transfers[id].terms.kind.Outbound? && !w.db.transfers[id].status.Failed?
    ensures Amount(l, w.db.transfers[id].terms) <= w.db.books.wallets[Account(l)].balance
  {
    LeviesOfLiveTransfers(w, l);
    assert forall i: nat :: i < |w.db.transfers| ==> TermsOk(w.db.transfers[i].terms, |w.db.books.wallets|);
    SumAtLeast(w.db.transfers, Kept(l), id);
  }

  // ---------- When postings succeed ----------

  ghost predicate TotalFits(b: Books) { TotalBalance(b) <= INT64_MAX }

  lemma {:induction false} ReversalPostsIff(b: Books, id: nat, t: Terms, now: int)
    requires NonNegative(b) && TermsOk(t, |b.wallets|) && t.kind.Outbound? && TotalFits(b)
    ensures Reverse(b, id, t, now).Ok? <==>
      t.amount <= b.wallets[SETTLEMENT].balance && t.fee <= b.wallets[INCOME].balance && t.vat <= b.wallets[VAT].balance
  {
    var legs := ReversalLegs(t.source.value, t);
    LegTotalFour(legs[0], legs[1], legs[2], legs[3]);
    PostSucceedsIffCovered(b, Some(id), now, legs);
    assert Covered(b, legs) <==> (legs[1].kobo <= b.wallets[SETTLEMENT].balance
      && legs[2].kobo <= b.wallets[INCOME].balance && legs[3].kobo <= b.wallets[VAT].balance);
  }

  /** A reversal credits the customer first; it still fails only for an uncovered system debit. */
  lemma {:induction false} ReversalSucceedsIff(w: World, id: nat, now: int)
    requires Inv(w) && id in w.db.jobs && TotalFits(w.db.books)
    ensures var t := w.db.transfers[id].terms; var wallets := w.db.books.wallets;
      Reverse(w.db.books, id, t, now).Ok? <==>
        t.amount <= wallets[SETTLEMENT].balance && t.fee <= wallets[INCOME].balance && t.vat <= wallets[VAT].balance
  {
    assert TermsOk(w.db.transfers[id].terms, |w.db.books.wallets|);
    ReversalPostsIff(w.db.books, id, w.db.transfers[id].terms, now);
  }

  /** Without reposts, only the settlement wallet can block the reversal of a transfer that has not failed yet. */
  lemma {:induction false} OnlySettlementBlocksReversal(w: World, id: nat, now: int)
    requires Inv(w) && RepostFree(w.log) && id in w.db.jobs && !w.db.transfers[id].status.Failed?
    requires TotalFits(w.db.books)
    ensures var t := w.db.transfers[id].terms;
      Reverse(w.db.books, id, t, now).Ok? <==> t.amount <= w.db.books.wallets[SETTLEMENT].balance
  {
    ReversalSucceedsIff(w, id, now);
    LevyCoversTransfer(w, id, Levy.Fee);
    LevyCoversTransfer(w, id, Levy.Vat);
  }

  /** Whether the wallet a transfer takes money from holds enough. */
  ghost predicate PayerCovers(b: Books, t: Terms)
    requires TermsOk(t, |b.wallets|)
  {
    t.total <= b.wallets[if t.kind.Inbound? then SETTLEMENT else t.source.value].balance
  }

  lemma {:induction false} LegsPostIff(b: Books, t: Terms, tid: Option<nat>, now: int)
    requires NonNegative(b) && TermsOk(t, |b.wallets|) && TotalFits(b)
    ensures Post(b, tid, now, LegsFor(t)).Ok? <==> PayerCovers(b, t)
  {
    var legs := LegsFor(t);
    TransferLegsBalance(t, |b.wallets|);
    PostSucceedsIffCovered(b, tid, now, legs);
    assert legs[0].direction.Debit? && legs[0].kobo == t.total;
    assert forall i :: 0 < i < |legs| ==> legs[i].direction.Credit?;
  }

  /** Submitting a transfer of any kind never overflows: its legs post exactly when the payer covers the total. */
  lemma {:induction false} TransferPostsIff(w: World, t: Terms, tid: Option<nat>, now: int)
    requires Inv(w) && TermsOk(t, |w.db.books.wallets|) && TotalFits(w.db.books)
    ensures Post(w.db.books, tid, now, LegsFor(t)).Ok? <==> PayerCovers(w.db.books, t)
  {
    LegsPostIff(w.db.books, t, tid, now);
  }

  /** The three system credits of an outbound transfer stay inside 64 bits. */
  predicate CreditsFit(wallets: Wallets, amount: int, fee: int, vat: int) {
    && wallets[SETTLEMENT].balance + amount <= INT64_MAX && wallets[INCOME].balance + fee <= INT64_MAX
    && wallets[VAT].balance + vat <= INT64_MAX
  }

  /** With no assumption on the grand total, an outbound posting succeeds exactly on these guards. */
  lemma {:induction false} OutboundPostsIff(b: Books, tid: Option<nat>, now: int, source: nat, amount: int, fee: int, vat: int)
    requires NonNegative(b) && 3 <= source < |b.wallets|
    ensures Post(b, tid, now, OutboundLegs(source, amount, fee, vat)).Ok? <==>
      && amount > 0 && fee > 0 && vat > 0 && amount + fee + vat <= b.wallets[source].balance
      && CreditsFit(b.wallets, amount, fee, vat)
  {
    var legs := OutboundLegs(source, amount, fee, vat);
    assert legs == [legs[0]] + [legs[1], legs[2], legs[3]];
    PostFirst(b, tid, now, legs[0], [legs[1], legs[2], legs[3]]);
    if Post(b, tid, now, legs).Ok? { OutboundPostIsPositive(b, tid, now, source, amount, fee, vat); }
    if amount > 0 && fee > 0 && vat > 0 && PostLeg(b, tid, now, legs[0]).Ok? {
      CreditsPostIff(PostLeg(b, tid, now, legs[0]).value, tid, now, legs[1], legs[2], legs[3]);
    }
  }

  /** Within a grand total that fits, what one wallet can pay the system wallets can take. */
  lemma {:induction false} TotalLeavesRoom(b: Books, source: nat, amount: int, fee: int, vat: int)
    requires NonNegative(b) && TotalFits(b) && 3 <= source < |b.wallets| && amount > 0 && fee > 0 && vat > 0
    requires amount + fee + vat <= b.wallets[source].balance
    ensures CreditsFit(b.wallets, amount, fee, vat)
  {
    var legs := OutboundLegs(source, amount, fee, vat);
    OutboundPostsIff(b, None, 0, source, amount, fee, vat);
    LegTotalFour(legs[0], legs[1], legs[2], legs[3]);
    PostSucceedsIffCovered(b, None, 0, legs);
  }

  lemma {:induction false} CreditsPostIff(b: Books, tid: Option<nat>, now: int, x: Leg, y: Leg, z: Leg)
    requires NonNegative(b) && x.wallet < |b.wallets| && y.wallet < |b.wallets| && z.wallet < |b.wallets|
    requires x.wallet != y.wallet && x.wallet != z.wallet && y.wallet != z.wallet && x.kobo > 0 && y.kobo > 0 && z.kobo > 0
    requires x.direction.Credit? && y.direction.Credit? && z.direction.Credit?
    ensures Post(b, tid, now, [x, y, z]).Ok? <==>
      && b.wallets[x.wallet].balance + x.kobo <= INT64_MAX && b.wallets[y.wallet].balance + y.kobo <= INT64_MAX
      && b.wallets[z.wallet].balance + z.kobo <= INT64_MAX
  {
    assert [x, y, z] == [x] + [y, z] && [y, z] == [y] + [z] && [z] == [z] + [];
    PostFirst(b, tid, now, x, [y, z]);
    var r := PostLeg(b, tid, now, x);
    if r.Ok? {
      PostFirst(r.value, tid, now, y, [z]);
      var q := PostLeg(r.value, tid, now, y);
      if q.Ok? { PostFirst(q.value, tid, now, z, []); }
    }
  }

  predicate LegFits(b: Books, leg: Leg)
    requires leg.wallet < |b.wallets|
  {
    var balance := b.wallets[leg.wallet].balance;
    leg.kobo > 0 && (if leg.direction.Debit? then leg.kobo <= balance else balance + leg.kobo <= INT64_MAX)
  }

  lemma {:induction false} TwoLegsPostIff(b: Books, tid: Option<nat>, now: int, x: Leg, y: Leg)
    requires NonNegative(b) && x.wallet < |b.wallets| && y.wallet < |b.wallets| && x.wallet != y.wallet
    ensures Post(b, tid, now, [x, y]).Ok? <==> LegFits(b, x) && LegFits(b, y)
  {
    assert [x, y] == [x] + [y] && [y] == [y] + [];
    PostFirst(b, tid, now, x, [y]);
    var r := PostLeg(b, tid, now, x);
    if r.Ok? { PostFirst(r.value, tid, now, y, []); }
  }

  /** An admin credit goes to a customer's account by number; settlement pays it, and neither side may leave 64 bits. */
  lemma {:induction false} AdminCreditSucceedsIff(w: World, number: string, amount: int, now: int)
    requires Inv(w)
    ensures var wallets := w.db.books.wallets; var found := FindAccount(wallets, number);
      CreditByAdmin(w.db, number, amount, now).Ok? <==>
        && !IsBlank(number) && amount > 0 && found.Some? && found.value >= 3
        && amount <= wallets[SETTLEMENT].balance && wallets[found.value].balance + amount <= INT64_MAX
  {
    var found := FindAccount(w.db.books.wallets, number);
    if found.Some? && found.value >= 3 {
      var legs := DepositLegs(found.value, amount, AdminCredit);
      TwoLegsPostIff(w.db.books, None, now, legs[0], legs[1]);
    }
  }

  /** A funding needs room in the settlement wallet and in the settlement holding. */
  lemma {:induction false} FundingSucceedsIff(w: World, amount: int, now: int)
    requires Inv(w) && w.db.ext.settlement.balance >= INT64_MIN
    ensures FundSettlement(w.db, amount, now).Ok? <==>
      && amount > 0 && w.db.books.wallets[SETTLEMENT].balance + amount <= INT64_MAX
      && w.db.ext.settlement.balance + amount <= INT64_MAX
  {
    var leg := FundingLegs(amount)[0];
    assert FundingLegs(amount) == [leg] + [];
    PostFirst(w.db.books, None, now, leg, []);
  }

  /** A deposit credits the customer before it debits settlement; it succeeds exactly when settlement covers it. */
  lemma {:induction false} DepositSucceedsIff(w: World, wallet: nat, amount: int, now: int)
    requires Inv(w) && TotalFits(w.db.books)
    ensures CreditDeposit(w.db, wallet, amount, now).Ok? <==>
      3 <= wallet < |w.db.books.wallets| && 0 < amount <= w.db.books.wallets[SETTLEMENT].balance
  {
    if 3 <= wallet < |w.db.books.wallets| && amount > 0 {
      var legs := DepositLegs(wallet, amount, Deposit);
      LegTotalTwo(legs[0], legs[1]);
      PostSucceedsIffCovered(w.db.books, None, now, legs);
      assert Covered(w.db.books, legs) <==> legs[1].kobo <= w.db.books.wallets[SETTLEMENT].balance;
    }
  }

  /** A deposit moves its amount from settlement to the customer, and nothing else. */
  lemma {:induction false} DepositMovesMoney(w: World, wallet: nat, amount: int, now: int, i: nat)
    requires Inv(w) && CreditDeposit(w.db, wallet, amount, now).Ok? && i < |w.db.books.wallets|
    ensures var b, b' := w.db.books, CreditDeposit(w.db, wallet, amount, now).value.books;
      && 3 <= wallet < |b.wallets| == |b'.wallets| && SameIdentity(b.wallets[i], b'.wallets[i])
      && b'.wallets[i].balance == b.wallets[i].balance + (if i == wallet then amount else if i == SETTLEMENT then -amount else 0)
  {
    PostEffect(w.db.books, None, now, DepositLegs(wallet, amount, Deposit));
    TwoLegBalance(w.db.books, None, now, DepositLegs(wallet, amount, Deposit), i);
  }

  /** A reversal gives the customer the total back and takes amount, fee and VAT out of the system wallets. */
  lemma {:induction false} ReversalMovesMoney(b: Books, id: nat, t: Terms, now: int, i: nat)
    requires JournalBacked(b) && TermsOk(t, |b.wallets|) && t.kind.Outbound? && Reverse(b, id, t, now).Ok?
    requires i < |b.wallets|
    ensures var b' := Reverse(b, id, t, now).value;
      |b'.wallets| == |b.wallets| && b'.wallets[i].balance == b.wallets[i].balance - SubmissionEffect(t, i)
  {
    PostEffect(b, Some(id), now, ReversalLegs(t.source.value, t));
    FourLegBalance(b, Some(id), now, ReversalLegs(t.source.value, t), i);
  }

  /** The seed plus all fundings bounds every sum, so fitting it in 64 bits is the only condition the results above need. */
  lemma {:induction false} TotalFitsIffFundingsFit(w: World)
    requires Reachable(w)
    ensures TotalFits(w.db.books) <==> SEED_KOBO + Funded(w.db) <= INT64_MAX
  {
    MoneyIsConserved(w);
  }
}
